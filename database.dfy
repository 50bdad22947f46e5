/**
 * The backend's table operations over an in-memory database: tracks (rowid
 * order, unique paths), local folders, playlists (unique names) and playlist
 * membership (unique pairs, in the order they were added). Query loops are
 * proved to return the specification functions below; `Valid` is the set of
 * table constraints every operation preserves.
 */
module Db {
  import opened Types
  import opened SqlText
  import opened TrackRows
  import opened PlaylistOrder

  /** rusqlite's `Result`: a value, or the error SQLite reports. */
  datatype DbResult<T> = Ok(value: T) | Err(message: string)

  /** A `playlist_tracks` row. */
  datatype Member = Member(playlistId: string, trackId: int)

  /** The elements of `xs` that `keep` accepts, in order. */
  function Filter<T>(xs: seq<T>, keep: T -> bool): (r: seq<T>)
    ensures |r| <= |xs|
    decreases |xs|
  {
    if xs == [] then [] else Filter(xs[..|xs| - 1], keep) + (if keep(xs[|xs| - 1]) then [xs[|xs| - 1]] else [])
  }

  /** An element survives a filter exactly when it was there and is accepted. */
  lemma {:induction false} FilterMembers<T>(xs: seq<T>, keep: T -> bool, x: T)
    ensures x in Filter(xs, keep) <==> x in xs && keep(x)
    decreases |xs|
  {
    if xs != [] {
      FilterMembers(xs[..|xs| - 1], keep, x);
      assert xs == xs[..|xs| - 1] + [xs[|xs| - 1]];
    }
  }

  /** A filter that accepts everything changes nothing. */
  lemma {:induction false} FilterAll<T>(xs: seq<T>, keep: T -> bool)
    requires forall i :: 0 <= i < |xs| ==> keep(xs[i])
    ensures Filter(xs, keep) == xs
    decreases |xs|
  {
    if xs != [] {
      FilterAll(xs[..|xs| - 1], keep);
    }
  }

  /** Each element of `r` comes from `xs`, and each pair of elements from a pair in the same order. */
  ghost predicate OrderedSubseq<T>(r: seq<T>, xs: seq<T>)
  {
    && (forall i :: 0 <= i < |r| ==> exists k :: 0 <= k < |xs| && r[i] == xs[k])
    && (forall i, j :: 0 <= i < j < |r| ==> exists k, l :: 0 <= k < l < |xs| && r[i] == xs[k] && r[j] == xs[l])
  }

  /** A filter keeps an order-preserving subsequence. */
  lemma {:induction false} FilterOrdered<T>(xs: seq<T>, keep: T -> bool)
    ensures OrderedSubseq(Filter(xs, keep), xs)
    decreases |xs|
  {
    if xs != [] {
      var init := xs[..|xs| - 1];
      FilterOrdered(init, keep);
      var r0 := Filter(init, keep);
      var r := Filter(xs, keep);
      assert forall k :: 0 <= k < |init| ==> init[k] == xs[k];
      assert r[..|r0|] == r0;
      forall i | 0 <= i < |r|
        ensures exists k :: 0 <= k < |xs| && r[i] == xs[k]
      {
        if i < |r0| {
          assert r[i] == r0[i];
          var k :| 0 <= k < |init| && r0[i] == init[k];
          assert r[i] == xs[k];
        } else {
          assert r[i] == xs[|xs| - 1];
        }
      }
      forall i, j | 0 <= i < j < |r|
        ensures exists k, l :: 0 <= k < l < |xs| && r[i] == xs[k] && r[j] == xs[l]
      {
        assert r[i] == r0[i];
        if j < |r0| {
          assert r[j] == r0[j];
          var k, l :| 0 <= k < l < |init| && r0[i] == init[k] && r0[j] == init[l];
          assert r[i] == xs[k] && r[j] == xs[l];
        } else {
          var k :| 0 <= k < |init| && r0[i] == init[k];
          assert r[i] == xs[k] && r[j] == xs[|xs| - 1];
        }
      }
    }
  }

  /** The rows a `DELETE ... WHERE id IN (ids)` keeps. */
  function TrackKept(ids: seq<int>): TrackRow -> bool
  {
    (r: TrackRow) => r.id !in ids
  }

  function FolderKept(ids: seq<string>): LocalFolder -> bool
  {
    (f: LocalFolder) => f.id !in ids
  }

  /** The memberships `delete_tracks_from_playlist(pid, ids)` keeps. */
  function MemberKept(pid: string, ids: seq<int>): Member -> bool
  {
    (m: Member) => !(m.playlistId == pid && m.trackId in ids)
  }

  /** The playlists `delete_playlist(pid)` keeps. */
  function PlaylistKept(pid: string): Playlist -> bool
  {
    (p: Playlist) => p.id != pid
  }

  /** Whether a folder passes the optional `name LIKE '%q%'` filter. */
  predicate NameMatches(f: LocalFolder, nameQuery: Option<string>)
  {
    nameQuery.None? || LikeSubstring(f.name, nameQuery.value)
  }

  /** The first row with rowid `id`: the track side of the membership join. */
  function FindRow(rows: seq<TrackRow>, id: int): (r: Option<TrackRow>)
    ensures r.Some? ==> r.value in rows && r.value.id == id
    ensures r.None? ==> forall i :: 0 <= i < |rows| ==> rows[i].id != id
    decreases |rows|
  {
    if rows == [] then None
    else if rows[0].id == id then Some(rows[0])
    else
      var r := FindRow(rows[1..], id);
      assert forall i :: 1 <= i < |rows| ==> rows[i] == rows[1..][i - 1];
      r
  }

  /** The tracks of playlist `pid`, in membership order; members without a track row are skipped. */
  function PlaylistTracks(rows: seq<TrackRow>, members: seq<Member>, pid: string): seq<Track>
    decreases |members|
  {
    if members == [] then []
    else
      var m := members[|members| - 1];
      var row := FindRow(rows, m.trackId);
      PlaylistTracks(rows, members[..|members| - 1], pid) + (if m.playlistId == pid && row.Some? then [MapTrackRow(row.value)] else [])
  }

  /** Memberships of other playlists contribute nothing. */
  lemma {:induction false} PlaylistTracksOfOthers(rows: seq<TrackRow>, members: seq<Member>, pid: string)
    requires forall i :: 0 <= i < |members| ==> members[i].playlistId != pid
    ensures PlaylistTracks(rows, members, pid) == []
    decreases |members|
  {
    if members != [] {
      PlaylistTracksOfOthers(rows, members[..|members| - 1], pid);
    }
  }

  /** `INSERT OR IGNORE` of one membership pair. */
  function AddMember(ms: seq<Member>, m: Member): (r: seq<Member>)
    ensures |ms| <= |r| <= |ms| + 1 && r[..|ms|] == ms
    ensures r == ms <==> m in ms
    ensures forall x :: x in r <==> x in ms || x == m
  {
    if m in ms then ms else ms + [m]
  }

  /** Insert-or-ignore never duplicates a pair. */
  lemma AddMemberKeepsDistinct(ms: seq<Member>, m: Member)
    requires forall i, j :: 0 <= i < j < |ms| ==> ms[i] != ms[j]
    ensures var r := AddMember(ms, m); forall i, j :: 0 <= i < j < |r| ==> r[i] != r[j]
  {
    if m !in ms {
      var r := AddMember(ms, m);
      forall i, j | 0 <= i < j < |r|
        ensures r[i] != r[j]
      {
        if j == |ms| {
          assert r[i] in ms;
        }
      }
    }
  }

  /** The memberships after adding `ids` to `pid` in order. */
  function AddMembers(ms: seq<Member>, pid: string, ids: seq<int>): seq<Member>
    decreases |ids|
  {
    if ids == [] then ms else AddMember(AddMembers(ms, pid, ids[..|ids| - 1]), Member(pid, ids[|ids| - 1]))
  }

  /**
   * Adding a batch keeps the old memberships in place, records every pair of the
   * batch, adds nothing else, and never duplicates a pair.
   */
  lemma {:induction false} AddMembersSpec(ms: seq<Member>, pid: string, ids: seq<int>)
    requires forall i, j :: 0 <= i < j < |ms| ==> ms[i] != ms[j]
    ensures var r := AddMembers(ms, pid, ids);
      && |r| >= |ms| && r[..|ms|] == ms
      && (forall m :: m in r <==> m in ms || (m.playlistId == pid && m.trackId in ids))
      && (forall i, j :: 0 <= i < j < |r| ==> r[i] != r[j])
    decreases |ids|
  {
    if ids != [] {
      var init := ids[..|ids| - 1];
      AddMembersSpec(ms, pid, init);
      var before := AddMembers(ms, pid, init);
      var r := AddMembers(ms, pid, ids);
      assert r[..|before|] == before;
      assert r[..|ms|] == before[..|ms|];
      assert ids == init + [ids[|ids| - 1]];
      AddMemberKeepsDistinct(before, Member(pid, ids[|ids| - 1]));
      forall m
        ensures m in r <==> m in ms || (m.playlistId == pid && m.trackId in ids)
      {
        assert m.trackId in ids <==> m.trackId in init || m.trackId == ids[|ids| - 1];
      }
    }
  }

  /** The table constraints. */
  ghost predicate TablesOk(tracks: seq<TrackRow>, folders: seq<LocalFolder>, playlists: seq<Playlist>, members: seq<Member>)
  {
    && TracksOk(tracks)
    && (forall i, j :: 0 <= i < j < |folders| ==> folders[i].id != folders[j].id)
    && (forall i, j :: 0 <= i < j < |playlists| ==> playlists[i].id != playlists[j].id)
    && (forall i, j :: 0 <= i < j < |playlists| ==> playlists[i].name != playlists[j].name)
    && (forall i, j :: 0 <= i < j < |members| ==> members[i] != members[j])
  }

  /** Folders that survive a filter still have unique ids. */
  lemma FilterFoldersOk(fs: seq<LocalFolder>, keep: LocalFolder -> bool)
    requires forall i, j :: 0 <= i < j < |fs| ==> fs[i].id != fs[j].id
    ensures forall i, j :: 0 <= i < j < |Filter(fs, keep)| ==> Filter(fs, keep)[i].id != Filter(fs, keep)[j].id
  {
    FilterOrdered(fs, keep);
  }

  /** Playlists that survive a filter still have unique ids and unique names. */
  lemma FilterPlaylistsOk(ps: seq<Playlist>, keep: Playlist -> bool)
    requires forall i, j :: 0 <= i < j < |ps| ==> ps[i].id != ps[j].id
    requires forall i, j :: 0 <= i < j < |ps| ==> ps[i].name != ps[j].name
    ensures forall i, j :: 0 <= i < j < |Filter(ps, keep)| ==> Filter(ps, keep)[i].id != Filter(ps, keep)[j].id
    ensures forall i, j :: 0 <= i < j < |Filter(ps, keep)| ==> Filter(ps, keep)[i].name != Filter(ps, keep)[j].name
  {
    FilterOrdered(ps, keep);
  }

  /** The same for the membership table, whose key is the whole row. */
  lemma FilterKeepsDistinct<T>(xs: seq<T>, keep: T -> bool)
    requires forall i, j :: 0 <= i < j < |xs| ==> xs[i] != xs[j]
    ensures forall i, j :: 0 <= i < j < |Filter(xs, keep)| ==> Filter(xs, keep)[i] != Filter(xs, keep)[j]
  {
    FilterOrdered(xs, keep);
  }

  /** The rows that survive a filter of the tracks table still satisfy its constraints. */
  lemma FilterTracksOk(rows: seq<TrackRow>, keep: TrackRow -> bool)
    requires TracksOk(rows)
    ensures TracksOk(Filter(rows, keep))
  {
    FilterOrdered(rows, keep);
  }
}
