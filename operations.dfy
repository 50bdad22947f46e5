/**
 * The table operations of the backend, one method each, over an in-memory
 * database. Fresh ids that the backend draws from `Uuid::new_v4` and the
 * creation timestamp are parameters. SQL errors other than constraint
 * violations (I/O, a locked database) are not modelled.
 */
module Operations {
  import opened Types
  import opened SqlText
  import opened TrackRows
  import opened PlaylistOrder
  import opened Db

  class Database {
    var tracks: seq<TrackRow>
    var folders: seq<LocalFolder>
    var playlists: seq<Playlist>
    var members: seq<Member>

    ghost predicate Valid()
      reads this
    {
      TablesOk(tracks, folders, playlists, members)
    }

    /** The tests' fresh in-memory database: every table empty. */
    constructor ()
      ensures Valid()
      ensures tracks == [] && folders == [] && playlists == [] && members == []
    {
      tracks, folders, playlists, members := [], [], [], [];
    }

    /** `add_tracks`: one `INSERT OR IGNORE` per track, in order, in one transaction. */
    method AddTracks(ts: seq<Track>)
      requires Valid()
      modifies this
      ensures Valid()
      ensures tracks == InsertAll(old(tracks), ts)
      ensures folders == old(folders) && playlists == old(playlists) && members == old(members)
    {
      for i := 0 to |ts|
        invariant tracks == InsertAll(old(tracks), ts[..i])
        invariant TracksOk(tracks)
        invariant folders == old(folders) && playlists == old(playlists) && members == old(members)
      {
        assert ts[..i + 1][..i] == ts[..i];
        InsertTrackOk(tracks, ts[i]);
        tracks := InsertTrack(tracks, ts[i]);
      }
      assert ts[..|ts|] == ts;
    }

    /** `get_tracks`: the rows passing the optional title filter, pushed in table order. */
    method GetTracks(titleQuery: Option<string>) returns (result: seq<Track>)
      ensures result == Select(tracks, titleQuery)
    {
      result := [];
      for i := 0 to |tracks|
        invariant result == Select(tracks[..i], titleQuery)
      {
        assert tracks[..i + 1][..i] == tracks[..i];
        if TitleMatches(tracks[i], titleQuery) {
          result := result + [MapTrackRow(tracks[i])];
        }
      }
      assert tracks[..|tracks|] == tracks;
    }

    /** `delete_tracks`: an empty id list returns at once; otherwise every row with a listed id goes. */
    method DeleteTracks(ids: seq<int>)
      requires Valid()
      modifies this
      ensures Valid()
      ensures ids == [] ==> tracks == old(tracks)
      ensures tracks == Filter(old(tracks), TrackKept(ids))
      ensures folders == old(folders) && playlists == old(playlists) && members == old(members)
    {
      if ids == [] {
        FilterAll(tracks, TrackKept(ids));
        return;
      }
      FilterTracksOk(tracks, TrackKept(ids));
      tracks := Filter(tracks, TrackKept(ids));
    }

    /** `add_folder`: inserts under the fresh id and returns it; an id already in use violates the key. */
    method AddFolder(id: string, name: string, path: string, songCount: int) returns (r: DbResult<string>)
      requires Valid()
      modifies this
      ensures Valid()
      ensures r.Err? <==> exists i :: 0 <= i < |old(folders)| && old(folders)[i].id == id
      ensures r.Ok? ==> r.value == id && folders == old(folders) + [LocalFolder(id, name, path, songCount)]
      ensures r.Err? ==> folders == old(folders)
      ensures tracks == old(tracks) && playlists == old(playlists) && members == old(members)
    {
      if exists i :: 0 <= i < |folders| && folders[i].id == id {
        return Err("UNIQUE constraint failed: local_folders.id");
      }
      folders := folders + [LocalFolder(id, name, path, songCount)];
      r := Ok(id);
    }

    /** `get_folders`: the folders passing the optional name filter, pushed in table order. */
    method GetFolders(nameQuery: Option<string>) returns (result: seq<LocalFolder>)
      ensures result == Filter(folders, (f: LocalFolder) => NameMatches(f, nameQuery))
    {
      result := [];
      for i := 0 to |folders|
        invariant result == Filter(folders[..i], (f: LocalFolder) => NameMatches(f, nameQuery))
      {
        assert folders[..i + 1][..i] == folders[..i];
        if NameMatches(folders[i], nameQuery) {
          result := result + [folders[i]];
        }
      }
      assert folders[..|folders|] == folders;
    }

    /** `delete_folders`: an empty id list returns at once; otherwise every folder with a listed id goes. */
    method DeleteFolders(ids: seq<string>)
      requires Valid()
      modifies this
      ensures Valid()
      ensures ids == [] ==> folders == old(folders)
      ensures folders == Filter(old(folders), FolderKept(ids))
      ensures tracks == old(tracks) && playlists == old(playlists) && members == old(members)
    {
      if ids == [] {
        FilterAll(folders, FolderKept(ids));
        return;
      }
      FilterFoldersOk(folders, FolderKept(ids));
      folders := Filter(folders, FolderKept(ids));
    }

    /**
     * `create_playlist`: inserts under the fresh id with the creation time `now`;
     * a name already in use (the column is UNIQUE) or an id already in use fails.
     */
    method CreatePlaylist(id: string, name: string, now: string) returns (r: DbResult<string>)
      requires Valid()
      modifies this
      ensures Valid()
      ensures r.Err? <==> exists i :: 0 <= i < |old(playlists)| && (old(playlists)[i].name == name || old(playlists)[i].id == id)
      ensures r.Ok? ==> r.value == id && playlists == old(playlists) + [Playlist(id, name, now)]
      ensures r.Err? ==> playlists == old(playlists)
      ensures tracks == old(tracks) && folders == old(folders) && members == old(members)
    {
      if exists i :: 0 <= i < |playlists| && playlists[i].name == name {
        return Err("UNIQUE constraint failed: playlists.name");
      }
      if exists i :: 0 <= i < |playlists| && playlists[i].id == id {
        return Err("UNIQUE constraint failed: playlists.id");
      }
      playlists := playlists + [Playlist(id, name, now)];
      r := Ok(id);
    }

    /** `get_playlists`: every playlist, ordered by name. */
    method GetPlaylists() returns (result: seq<Playlist>)
      ensures result == SortByName(playlists)
      ensures SortedByName(result) && multiset(result) == multiset(playlists)
    {
      var rows := SortByName(playlists);
      result := [];
      for i := 0 to |rows|
        invariant result == rows[..i]
      {
        result := result + [rows[i]];
      }
      assert rows[..|rows|] == rows;
      SortByNameSorted(playlists);
      SortByNamePermutes(playlists);
    }

    /** `get_tracks_by_playlist`: the join of the playlist's memberships with the tracks, in the order added. */
    method GetTracksByPlaylist(pid: string) returns (result: seq<Track>)
      ensures result == PlaylistTracks(tracks, members, pid)
    {
      result := [];
      for i := 0 to |members|
        invariant result == PlaylistTracks(tracks, members[..i], pid)
      {
        assert members[..i + 1][..i] == members[..i];
        var row := FindRow(tracks, members[i].trackId);
        if members[i].playlistId == pid && row.Some? {
          result := result + [MapTrackRow(row.value)];
        }
      }
      assert members[..|members|] == members;
    }

    /**
     * `add_tracks_to_playlist`: one `INSERT OR IGNORE` of (pid, id) per id. Neither the
     * playlist nor the tracks are checked to exist.
     */
    method AddTracksToPlaylist(pid: string, ids: seq<int>)
      requires Valid()
      modifies this
      ensures Valid()
      ensures members == AddMembers(old(members), pid, ids)
      ensures tracks == old(tracks) && folders == old(folders) && playlists == old(playlists)
    {
      for i := 0 to |ids|
        invariant members == AddMembers(old(members), pid, ids[..i])
        invariant Valid()
        invariant tracks == old(tracks) && folders == old(folders) && playlists == old(playlists)
      {
        assert ids[..i + 1][..i] == ids[..i];
        AddMemberKeepsDistinct(members, Member(pid, ids[i]));
        members := AddMember(members, Member(pid, ids[i]));
      }
      assert ids[..|ids|] == ids;
    }

    /** `delete_tracks_from_playlist`: an empty id list returns at once; otherwise the listed pairs of `pid` go. */
    method DeleteTracksFromPlaylist(pid: string, ids: seq<int>)
      requires Valid()
      modifies this
      ensures Valid()
      ensures ids == [] ==> members == old(members)
      ensures members == Filter(old(members), MemberKept(pid, ids))
      ensures tracks == old(tracks) && folders == old(folders) && playlists == old(playlists)
    {
      if ids == [] {
        FilterAll(members, MemberKept(pid, ids));
        return;
      }
      FilterKeepsDistinct(members, MemberKept(pid, ids));
      members := Filter(members, MemberKept(pid, ids));
    }

    /** `delete_playlist`: removes that playlist only; its memberships stay, as no cascade is declared. */
    method DeletePlaylist(pid: string)
      requires Valid()
      modifies this
      ensures Valid()
      ensures playlists == Filter(old(playlists), PlaylistKept(pid))
      ensures tracks == old(tracks) && folders == old(folders) && members == old(members)
    {
      FilterPlaylistsOk(playlists, PlaylistKept(pid));
      playlists := Filter(playlists, PlaylistKept(pid));
    }
  }
}
