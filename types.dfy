/** Entities shared by the client hooks and the database operations. */
module Types {

  datatype Option<+T> = None | Some(value: T)

  /** Rust's `u64` and `i64`, as subsets of the unbounded integers. */
  const U64_MAX: int := 0xFFFF_FFFF_FFFF_FFFF
  const I64_MIN: int := -0x8000_0000_0000_0000
  const I64_MAX: int := 0x7FFF_FFFF_FFFF_FFFF
  type U64 = x: int | 0 <= x <= U64_MAX
  type I64 = x: int | I64_MIN <= x <= I64_MAX

  /** A track as the backend serialises `TrackMetadata` (the fields `operations.rs` reads and writes). */
  datatype Track = Track(
    id: int,
    path: string,
    title: Option<string>,
    artist: Option<string>,
    album: Option<string>,
    durationSecs: U64,
    coverMime: Option<string>,
    hasCover: bool)

  /** A playlist; `"Recent"` and `"Favorites"` are reserved purely by name. */
  datatype Playlist = Playlist(id: string, name: string, createdAt: string)

  /** A local music folder with its song count as stored by the backend. */
  datatype LocalFolder = LocalFolder(id: string, name: string, path: string, songCount: int)
}
