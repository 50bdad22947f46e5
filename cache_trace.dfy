/**
 * The observable history of a cached collection: every store write, in order,
 * interleaved with the backend calls the operation made.
 */
module CacheTrace {
  import opened Types
  import opened Boundary

  datatype Step =
    | Loading(on: bool)
    | ErrorSet(error: Option<string>)
    | PlaylistsSet(playlists: seq<Playlist>)
    | PlaylistTracksSet(playlistTracks: seq<Track>)
    | TracksSet(tracks: seq<Track>)
    | FoldersSet(folders: seq<LocalFolder>)
    | Invoked(call: Call)

  /**
   * The bracket every cache operation writes: `loading` on, `error` cleared,
   * the backend call, what the outcome writes, and `loading` off in `finally`.
   */
  function Bracket(c: Call, settle: seq<Step>): (r: seq<Step>)
    ensures |r| == |settle| + 4
    ensures r[0] == Loading(true) && r[1] == ErrorSet(None) && r[2] == Invoked(c)
    ensures r[3..|r| - 1] == settle && r[|r| - 1] == Loading(false)
  {
    [Loading(true), ErrorSet(None), Invoked(c)] + settle + [Loading(false)]
  }

  /** A history extended by an opening, an outcome and the closing is extended by their bracket. */
  lemma AppendBracket(h0: seq<Step>, c: Call, settle: seq<Step>)
    ensures h0 + [Loading(true), ErrorSet(None), Invoked(c)] + settle + [Loading(false)] == h0 + Bracket(c, settle)
  {
  }

  /** What a failed call writes: the failure's string form into `error`. */
  function Failed(r: Response): seq<Step>
    requires r.Err?
  {
    [ErrorSet(Some(r.message))]
  }

  /** The state reached by applying the steps of `h` to `s`, oldest first. */
  function Replay<S>(apply: (S, Step) -> S, s: S, h: seq<Step>): S
    decreases |h|
  {
    if h == [] then s else apply(Replay(apply, s, h[..|h| - 1]), h[|h| - 1])
  }

  lemma ReplaySnoc<S>(apply: (S, Step) -> S, s: S, h: seq<Step>, x: Step)
    ensures Replay(apply, s, h + [x]) == apply(Replay(apply, s, h), x)
  {
    assert (h + [x])[..|h + [x]| - 1] == h;
  }

  /** Replaying a concatenation is replaying its parts one after the other. */
  lemma {:induction false} ReplayConcat<S>(apply: (S, Step) -> S, s: S, a: seq<Step>, b: seq<Step>)
    ensures Replay(apply, s, a + b) == Replay(apply, Replay(apply, s, a), b)
    decreases |b|
  {
    if b == [] {
      assert a + b == a;
    } else {
      var b' := b[..|b| - 1];
      var x := b[|b| - 1];
      assert b == b' + [x];
      assert a + b == (a + b') + [x];
      ReplaySnoc(apply, s, a + b', x);
      ReplayConcat(apply, s, a, b');
      ReplaySnoc(apply, Replay(apply, s, a), b', x);
    }
  }

  /** Replaying a bracket: the three opening steps, the outcome, then `loading` off. */
  lemma ReplayBracket<S>(apply: (S, Step) -> S, s: S, c: Call, settle: seq<Step>)
    ensures Replay(apply, s, Bracket(c, settle))
         == apply(Replay(apply, apply(apply(apply(s, Loading(true)), ErrorSet(None)), Invoked(c)), settle), Loading(false))
  {
    var opening := [Loading(true), ErrorSet(None), Invoked(c)];
    assert Bracket(c, settle) == (opening + settle) + [Loading(false)];
    ReplaySnoc(apply, s, opening + settle, Loading(false));
    ReplayConcat(apply, s, opening, settle);
    assert opening == [Loading(true)] + [ErrorSet(None)] + [Invoked(c)];
    ReplaySnoc(apply, s, [], Loading(true));
    ReplaySnoc(apply, s, [Loading(true)], ErrorSet(None));
    ReplaySnoc(apply, s, [Loading(true), ErrorSet(None)], Invoked(c));
  }

  /** Replaying one step. */
  lemma ReplayOne<S>(apply: (S, Step) -> S, s: S, x: Step)
    ensures Replay(apply, s, [x]) == apply(s, x)
  {
    ReplaySnoc(apply, s, [], x);
  }
}
