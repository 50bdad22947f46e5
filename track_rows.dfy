/**
 * The `tracks` table as a sequence of rows in rowid order, with the
 * insert-or-ignore of `add_tracks`, the filtered scan of `get_tracks` and
 * the row mapping that converts the stored duration back.
 */
module TrackRows {
  import opened Types
  import opened SqlText

  /** Rust's `i64::try_from(u64).unwrap_or(0)`: the duration if it fits, else 0. */
  function StoredDuration(d: U64): (i: I64)
    ensures d <= I64_MAX ==> i == d
    ensures d > I64_MAX ==> i == 0
  {
    if d <= I64_MAX then d else 0
  }

  /** Rust's `u64::try_from(i64).unwrap_or(0)`: the column if non-negative, else 0. */
  function ReadDuration(i: I64): (d: U64)
    ensures i >= 0 ==> d == i
    ensures i < 0 ==> d == 0
  {
    if i >= 0 then i else 0
  }

  /** Every duration up to 2^63 - 1 survives the round trip; longer ones read back as 0. */
  lemma DurationRoundTrip(d: U64)
    ensures d <= I64_MAX ==> ReadDuration(StoredDuration(d)) == d
    ensures d > I64_MAX ==> ReadDuration(StoredDuration(d)) == 0
  {
  }

  /** A stored track: the duration column is a signed 64-bit integer. */
  datatype TrackRow = TrackRow(
    id: int,
    path: string,
    title: Option<string>,
    artist: Option<string>,
    album: Option<string>,
    duration: I64,
    coverMime: Option<string>,
    hasCover: bool)

  /** `map_track_row`: every column copied, the duration converted back to unsigned. */
  function MapTrackRow(r: TrackRow): (t: Track)
    ensures t.id == r.id && t.path == r.path && t.title == r.title && t.artist == r.artist
    ensures t.album == r.album && t.coverMime == r.coverMime && t.hasCover == r.hasCover
    ensures t.durationSecs == ReadDuration(r.duration)
  {
    Track(r.id, r.path, r.title, r.artist, r.album, ReadDuration(r.duration), r.coverMime, r.hasCover)
  }

  /** The row `add_tracks` writes for `t` under rowid `id`; the caller's `id` field is not stored. */
  function NewRow(id: int, t: Track): TrackRow
  {
    TrackRow(id, t.path, t.title, t.artist, t.album, StoredDuration(t.durationSecs), t.coverMime, t.hasCover)
  }

  /** Storing a track and reading it back gives it under its new id, duration included when it fits. */
  lemma StoredTrackReadsBack(id: int, t: Track)
    requires t.durationSecs <= I64_MAX
    ensures MapTrackRow(NewRow(id, t)) == t.(id := id)
  {
  }

  /** The table invariant: positive, strictly increasing rowids and unique paths. */
  ghost predicate TracksOk(rows: seq<TrackRow>)
  {
    && (forall i :: 0 <= i < |rows| ==> rows[i].id >= 1)
    && (forall i, j :: 0 <= i < j < |rows| ==> rows[i].id < rows[j].id)
    && (forall i, j :: 0 <= i < j < |rows| ==> rows[i].path != rows[j].path)
  }

  predicate HasPath(rows: seq<TrackRow>, path: string)
  {
    exists i :: 0 <= i < |rows| && rows[i].path == path
  }

  /** The rowid of a new row: one past the largest, which is the last; 1 in an empty table. */
  function NextId(rows: seq<TrackRow>): int
  {
    if rows == [] then 1 else rows[|rows| - 1].id + 1
  }

  /** `INSERT OR IGNORE` of one track: a path already present leaves the table as it is. */
  function InsertTrack(rows: seq<TrackRow>, t: Track): (r: seq<TrackRow>)
    ensures |rows| <= |r| <= |rows| + 1 && r[..|rows|] == rows
    ensures HasPath(r, t.path)
    ensures r == rows <==> HasPath(rows, t.path)
    ensures |r| == |rows| + 1 ==> r[|rows|] == NewRow(NextId(rows), t)
  {
    if HasPath(rows, t.path) then rows
    else
      var r := rows + [NewRow(NextId(rows), t)];
      assert r[|rows|].path == t.path;
      r
  }

  /** The table after inserting `ts` in order. */
  function InsertAll(rows: seq<TrackRow>, ts: seq<Track>): seq<TrackRow>
    decreases |ts|
  {
    if ts == [] then rows else InsertTrack(InsertAll(rows, ts[..|ts| - 1]), ts[|ts| - 1])
  }

  /** One insert keeps the table invariant. */
  lemma InsertTrackOk(rows: seq<TrackRow>, t: Track)
    requires TracksOk(rows)
    ensures TracksOk(InsertTrack(rows, t))
  {
    if !HasPath(rows, t.path) {
      var r := InsertTrack(rows, t);
      assert r == rows + [NewRow(NextId(rows), t)];
      if rows != [] {
        assert forall i :: 0 <= i < |rows| ==> rows[i].id <= rows[|rows| - 1].id;
      }
      assert forall i :: 0 <= i < |rows| ==> r[i] == rows[i];
    }
  }

  /** Inserting a batch keeps the table invariant. */
  lemma {:induction false} InsertAllOk(rows: seq<TrackRow>, ts: seq<Track>)
    requires TracksOk(rows)
    ensures TracksOk(InsertAll(rows, ts))
    decreases |ts|
  {
    if ts != [] {
      InsertAllOk(rows, ts[..|ts| - 1]);
      InsertTrackOk(InsertAll(rows, ts[..|ts| - 1]), ts[|ts| - 1]);
    }
  }

  /** Inserting a batch keeps every old row in place: the old table is a prefix of the new. */
  lemma {:induction false} InsertAllExtends(rows: seq<TrackRow>, ts: seq<Track>)
    ensures |InsertAll(rows, ts)| >= |rows| && InsertAll(rows, ts)[..|rows|] == rows
    decreases |ts|
  {
    if ts != [] {
      var before := InsertAll(rows, ts[..|ts| - 1]);
      InsertAllExtends(rows, ts[..|ts| - 1]);
      var after := InsertAll(rows, ts);
      assert after[..|before|] == before;
      assert after[..|rows|] == before[..|rows|];
    }
  }

  /** After inserting a batch, every path of the batch is stored. */
  lemma {:induction false} InsertAllStores(rows: seq<TrackRow>, ts: seq<Track>)
    ensures forall k :: 0 <= k < |ts| ==> HasPath(InsertAll(rows, ts), ts[k].path)
    decreases |ts|
  {
    if ts != [] {
      var init := ts[..|ts| - 1];
      var before := InsertAll(rows, init);
      InsertAllStores(rows, init);
      var after := InsertAll(rows, ts);
      assert after[..|before|] == before;
      forall k | 0 <= k < |ts|
        ensures HasPath(after, ts[k].path)
      {
        if k < |ts| - 1 {
          assert init[k] == ts[k];
          var i :| 0 <= i < |before| && before[i].path == ts[k].path;
          assert after[i] == before[i];
        } else if !HasPath(before, ts[k].path) {
          assert after[|before|].path == ts[k].path;
        }
      }
    }
  }

  /** Re-adding tracks whose paths are all stored neither duplicates nor replaces any row. */
  lemma {:induction false} ReinsertChangesNothing(rows: seq<TrackRow>, ts: seq<Track>)
    requires forall k :: 0 <= k < |ts| ==> HasPath(rows, ts[k].path)
    ensures InsertAll(rows, ts) == rows
    decreases |ts|
  {
    if ts != [] {
      ReinsertChangesNothing(rows, ts[..|ts| - 1]);
    }
  }

  /** Whether a row passes the optional title filter; a null title never matches. */
  predicate TitleMatches(r: TrackRow, titleQuery: Option<string>)
  {
    titleQuery.None? || (r.title.Some? && LikeSubstring(r.title.value, titleQuery.value))
  }

  /** The mapped rows that pass the filter, in table order. */
  function Select(rows: seq<TrackRow>, titleQuery: Option<string>): seq<Track>
    decreases |rows|
  {
    if rows == [] then []
    else
      var last := rows[|rows| - 1];
      Select(rows[..|rows| - 1], titleQuery) + (if TitleMatches(last, titleQuery) then [MapTrackRow(last)] else [])
  }

  /** Without a filter every row comes back, in order. */
  lemma {:induction false} SelectUnfiltered(rows: seq<TrackRow>)
    ensures |Select(rows, None)| == |rows|
    ensures forall i :: 0 <= i < |rows| ==> Select(rows, None)[i] == MapTrackRow(rows[i])
    decreases |rows|
  {
    if rows != [] {
      SelectUnfiltered(rows[..|rows| - 1]);
    }
  }

  /** A track comes back exactly when some row passing the filter maps to it. */
  lemma {:induction false} SelectMembers(rows: seq<TrackRow>, titleQuery: Option<string>, t: Track)
    ensures t in Select(rows, titleQuery) <==> exists i :: 0 <= i < |rows| && TitleMatches(rows[i], titleQuery) && MapTrackRow(rows[i]) == t
    decreases |rows|
  {
    if rows != [] {
      var init := rows[..|rows| - 1];
      SelectMembers(init, titleQuery, t);
      assert forall i :: 0 <= i < |init| ==> init[i] == rows[i];
    }
  }
}
