/**
 * The backend's own test scenarios, restated as verified methods over the
 * model: each method builds a fresh database, performs the same calls and
 * ensures the outcomes the scenario expects.
 */
module DbScenarios {
  import opened Types
  import opened SqlText
  import opened TrackRows
  import opened PlaylistOrder
  import opened Db
  import opened Operations

  /** A filter that is a prefix of a text, ignoring ASCII case, matches it. */
  lemma LikePrefix(text: string, q: string)
    requires |q| <= |text| && forall i :: 0 <= i < |q| ==> Lower(text[i]) == Lower(q[i])
    ensures LikeSubstring(text, q)
  {
    assert StartsWith(LowerAll(text), LowerAll(q));
  }

  /** A filter whose first character, ignoring case, starts no long enough suffix of a text does not match. */
  lemma NoMatchByFirstChar(text: string, q: string)
    requires |q| > 0
    requires forall i :: 0 <= i && i + |q| <= |text| ==> Lower(text[i]) != Lower(q[0])
    ensures !LikeSubstring(text, q)
  {
    var s, p := LowerAll(text), LowerAll(q);
    ContainsAt(s, p);
    forall i ensures !OccursAt(s, p, i) {
      if 0 <= i && i + |p| <= |s| {
        assert s[i..i + |p|][0] == s[i];
      }
    }
  }

  /** A filter as long as a text matches only if both agree, ignoring case. */
  lemma NoMatchSameLength(text: string, q: string, k: int)
    requires |text| == |q| && 0 <= k < |q| && Lower(text[k]) != Lower(q[k])
    ensures !LikeSubstring(text, q)
  {
    var s, p := LowerAll(text), LowerAll(q);
    ContainsAt(s, p);
    forall i ensures !OccursAt(s, p, i) {
      if i == 0 {
        assert s[..|p|][k] == s[k];
      }
    }
  }

  function Song(path: string, title: string): Track
  {
    Track(0, path, Some(title), None, None, 0, None, false)
  }

  /** One track inserted into an empty table gets rowid 1. */
  lemma InsertOne(t: Track)
    ensures InsertAll([], [t]) == [NewRow(1, t)]
  {
    assert [t][..0] == [];
  }

  /** Two tracks with different paths get rowids 1 and 2. */
  lemma InsertTwo(a: Track, b: Track)
    requires a.path != b.path
    ensures InsertAll([], [a, b]) == [NewRow(1, a), NewRow(2, b)]
  {
    assert [a, b][..1] == [a];
    InsertOne(a);
    assert !HasPath([NewRow(1, a)], b.path);
  }

  /** The filtered listing of a two-row table. */
  lemma SelectTwo(ra: TrackRow, rb: TrackRow, q: Option<string>)
    ensures Select([ra, rb], q) == (if TitleMatches(ra, q) then [MapTrackRow(ra)] else []) + (if TitleMatches(rb, q) then [MapTrackRow(rb)] else [])
  {
    assert [ra, rb][..1] == [ra] && [ra][..0] == [];
    assert Select([ra], q) == Select([], q) + (if TitleMatches(ra, q) then [MapTrackRow(ra)] else []);
  }

  lemma LoveFilter()
    ensures LikeSubstring("Love Song", "Love") && !LikeSubstring("Happy Day", "Love")
  {
    LikePrefix("Love Song", "Love");
    NoMatchByFirstChar("Happy Day", "Love");
  }

  lemma HappyFilter()
    ensures !LikeSubstring("Love Song", "happy") && LikeSubstring("Happy Day", "happy")
  {
    LikePrefix("Happy Day", "happy");
    NoMatchByFirstChar("Love Song", "happy");
  }

  lemma NotFoundFilter()
    ensures !LikeSubstring("Love Song", "NotFound") && !LikeSubstring("Happy Day", "NotFound")
  {
    NoMatchByFirstChar("Love Song", "NotFound");
    NoMatchByFirstChar("Happy Day", "NotFound");
  }

  lemma MusicFilter()
    ensures LikeSubstring("Music 1", "Music 1") && !LikeSubstring("Music 2", "Music 1")
  {
    LikePrefix("Music 1", "Music 1");
    NoMatchSameLength("Music 2", "Music 1", 6);
  }

  /** Adding one track and listing all tracks returns it, under a positive id. */
  method AddAndGetTracks() returns (listed: seq<Track>)
    ensures |listed| == 1
    ensures listed[0].path == "/path/to/song.mp3" && listed[0].title == Some("Song Title") && listed[0].id > 0
  {
    var db := new Database();
    var t := Track(0, "/path/to/song.mp3", Some("Song Title"), Some("Artist"), None, 180, None, false);
    db.AddTracks([t]);
    InsertOne(t);
    listed := db.GetTracks(None);
    SelectUnfiltered(db.tracks);
  }

  /** "Love" matches one title, "happy" matches "Happy Day" whatever the case, "NotFound" matches none. */
  method GetTracksFiltered() returns (love: seq<Track>, happy: seq<Track>, notFound: seq<Track>)
    ensures |love| == 1 && love[0].title == Some("Love Song")
    ensures |happy| == 1 && happy[0].title == Some("Happy Day")
    ensures notFound == []
  {
    var db := new Database();
    var a, b := Song("/a.mp3", "Love Song"), Song("/b.mp3", "Happy Day");
    db.AddTracks([a, b]);
    InsertTwo(a, b);
    var ra, rb := NewRow(1, a), NewRow(2, b);
    LoveFilter();
    HappyFilter();
    NotFoundFilter();
    love := db.GetTracks(Some("Love"));
    SelectTwo(ra, rb, Some("Love"));
    happy := db.GetTracks(Some("happy"));
    SelectTwo(ra, rb, Some("happy"));
    notFound := db.GetTracks(Some("NotFound"));
    SelectTwo(ra, rb, Some("NotFound"));
  }

  /** Deleting the only track by its id empties the table. */
  method DeleteTrackById() returns (listed: seq<Track>)
    ensures listed == []
  {
    var db := new Database();
    var t := Track(0, "/d.mp3", None, None, None, 0, None, false);
    db.AddTracks([t]);
    InsertOne(t);
    var stored := db.GetTracks(None);
    SelectUnfiltered(db.tracks);
    db.DeleteTracks([stored[0].id]);
    assert db.tracks[..0] == [];
    listed := db.GetTracks(None);
  }

  /** The folders listing of a two-folder table. */
  lemma FilterTwo(f1: LocalFolder, f2: LocalFolder, q: Option<string>)
    ensures Filter([f1, f2], (f: LocalFolder) => NameMatches(f, q)) == (if NameMatches(f1, q) then [f1] else []) + (if NameMatches(f2, q) then [f2] else [])
  {
    assert [f1, f2][..1] == [f1] && [f1][..0] == [];
  }

  /** A folder added to an empty table is listed with its name, path and song count. */
  method AddAndGetFolders(id: string) returns (listed: seq<LocalFolder>)
    ensures |listed| == 1
    ensures listed[0].name == "Music" && listed[0].path == "/home/music" && listed[0].songCount == 0
  {
    var db := new Database();
    var r := db.AddFolder(id, "Music", "/home/music", 0);
    var f := LocalFolder(id, "Music", "/home/music", 0);
    assert db.folders == [f];
    assert [f][..0] == [];
    listed := db.GetFolders(None);
  }

  /** `get_folders` with the filter "Music 1" returns that folder and not "Music 2". */
  method GetFoldersFiltered(id1: string, id2: string) returns (results: seq<LocalFolder>)
    requires id1 != id2
    ensures |results| == 1 && results[0].name == "Music 1"
  {
    var db := new Database();
    var r1 := db.AddFolder(id1, "Music 1", "/path/1", 10);
    var r2 := db.AddFolder(id2, "Music 2", "/path/2", 5);
    var f1, f2 := LocalFolder(id1, "Music 1", "/path/1", 10), LocalFolder(id2, "Music 2", "/path/2", 5);
    assert db.folders == [f1, f2];
    MusicFilter();
    results := db.GetFolders(Some("Music 1"));
    FilterTwo(f1, f2, Some("Music 1"));
  }

  /** Adding a folder and deleting it by the returned id leaves no folder. */
  method DeleteFolderById(id: string) returns (listed: seq<LocalFolder>)
    ensures listed == []
  {
    var db := new Database();
    var r := db.AddFolder(id, "To Delete", "/delete", 0);
    db.DeleteFolders([r.value]);
    assert db.folders[..0] == [];
    listed := db.GetFolders(None);
  }

  /** A one-membership table lists the track for its playlist and nothing for another. */
  lemma OneMember(row: TrackRow, pid: string, other: string)
    requires pid != other
    ensures PlaylistTracks([row], [Member(pid, row.id)], pid) == [MapTrackRow(row)]
    ensures PlaylistTracks([row], [Member(pid, row.id)], other) == []
  {
    assert [Member(pid, row.id)][..0] == [];
  }

  /** A playlist of the table is among the listed ones, and the listing is as long as the table. */
  lemma Listed(listed: seq<Playlist>, table: seq<Playlist>, p: Playlist)
    requires multiset(listed) == multiset(table) && p in table
    ensures |listed| == |table| && exists i :: 0 <= i < |listed| && listed[i] == p
  {
    assert |multiset(listed)| == |multiset(table)|;
    assert p in multiset(listed);
  }

  /** Two playlists with different names are listed with "Favorites" among them. */
  method CreateTwoPlaylists(db: Database, pid1: string, pid2: string, now: string) returns (listed: seq<Playlist>)
    requires pid1 != pid2 && db.Valid() && db.playlists == []
    modifies db
    ensures db.Valid()
    ensures db.playlists == [Playlist(pid1, "Favorites", now), Playlist(pid2, "Rock", now)]
    ensures db.tracks == old(db.tracks) && db.members == old(db.members)
    ensures |listed| == 2 && exists i :: 0 <= i < |listed| && listed[i].name == "Favorites"
  {
    var c1 := db.CreatePlaylist(pid1, "Favorites", now);
    var c2 := db.CreatePlaylist(pid2, "Rock", now);
    listed := db.GetPlaylists();
    Listed(listed, db.playlists, Playlist(pid1, "Favorites", now));
  }

  /** One track is stored and added to the first playlist only. */
  method AddTrackToFirst(db: Database, pid1: string, pid2: string) returns (inFirst: seq<Track>, inSecond: seq<Track>)
    requires pid1 != pid2 && db.Valid() && db.tracks == [] && db.members == []
    modifies db
    ensures db.Valid()
    ensures db.playlists == old(db.playlists) && db.members == [Member(pid1, 1)]
    ensures |inFirst| == 1 && inFirst[0].id == 1
    ensures inSecond == []
  {
    var t := Song("/s1.mp3", "S1");
    db.AddTracks([t]);
    InsertOne(t);
    var listed := db.GetTracks(None);
    SelectUnfiltered(db.tracks);
    db.AddTracksToPlaylist(pid1, [listed[0].id]);
    assert [1][..0] == [];
    OneMember(NewRow(1, t), pid1, pid2);
    inFirst := db.GetTracksByPlaylist(pid1);
    inSecond := db.GetTracksByPlaylist(pid2);
  }

  /** Removing the membership empties the playlist; deleting it leaves the other one. */
  method RemoveAndDelete(db: Database, pid1: string, pid2: string, now: string) returns (afterRemove: seq<Track>, remaining: seq<Playlist>)
    requires db.Valid() && db.members == [Member(pid1, 1)]
    requires pid1 != pid2 && db.playlists == [Playlist(pid1, "Favorites", now), Playlist(pid2, "Rock", now)]
    modifies db
    ensures afterRemove == []
    ensures |remaining| == 1 && remaining[0].id == pid2
  {
    db.DeleteTracksFromPlaylist(pid1, [1]);
    assert db.members[..0] == [];
    afterRemove := db.GetTracksByPlaylist(pid1);

    var fav, rock := Playlist(pid1, "Favorites", now), Playlist(pid2, "Rock", now);
    db.DeletePlaylist(pid1);
    assert [fav, rock][..1] == [fav] && [fav][..0] == [];
    remaining := db.GetPlaylists();
    assert multiset(remaining) == multiset{rock};
    assert remaining[0] in multiset(remaining);
  }

  /**
   * The playlist scenario: two playlists; a track added to the first is listed for
   * it and not for the second, then removed; deleting the first leaves the second.
   */
  method PlaylistOperations(pid1: string, pid2: string, now: string)
    returns (initial: seq<Playlist>, inFirst: seq<Track>, inSecond: seq<Track>, afterRemove: seq<Track>, remaining: seq<Playlist>)
    requires pid1 != pid2
    ensures |initial| == 2 && exists i :: 0 <= i < |initial| && initial[i].name == "Favorites"
    ensures |inFirst| == 1 && inFirst[0].id == 1
    ensures inSecond == [] && afterRemove == []
    ensures |remaining| == 1 && remaining[0].id == pid2
  {
    var db := new Database();
    initial := CreateTwoPlaylists(db, pid1, pid2, now);
    inFirst, inSecond := AddTrackToFirst(db, pid1, pid2);
    afterRemove, remaining := RemoveAndDelete(db, pid1, pid2, now);
  }
}
