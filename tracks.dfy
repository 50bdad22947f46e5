/** The track hook: one fetch, bracketed by `loading`/`error` writes around `get_tracks`. */
module Tracks {
  import opened Types
  import opened Boundary
  import opened CacheTrace

  datatype State = State(tracks: seq<Track>, loading: bool, error: Option<string>)

  const Initial: State := State([], false, None)

  /** The effect of one step on the hook's state: a setter replaces its own slot only. */
  function Apply(s: State, st: Step): (r: State)
    ensures r.tracks == s.tracks || (st.TracksSet? && r.tracks == st.tracks)
    ensures r.loading == s.loading || (st.Loading? && r.loading == st.on)
    ensures r.error == s.error || (st.ErrorSet? && r.error == st.error)
    ensures st.TracksSet? ==> r.tracks == st.tracks
    ensures st.Loading? ==> r.loading == st.on
    ensures st.ErrorSet? ==> r.error == st.error
  {
    match st
    case TracksSet(ts) => s.(tracks := ts)
    case Loading(b) => s.(loading := b)
    case ErrorSet(e) => s.(error := e)
    case _ => s
  }

  /** `titleFilter` is passed verbatim, `undefined` when omitted. */
  function GetTracksCall(titleFilter: Option<string>): Call
  {
    Call("get_tracks", Fields([("titleFilter", Optional(titleFilter))]))
  }

  /** The writes of getTracks(titleFilter) answered by `r`. */
  function FetchSteps(titleFilter: Option<string>, r: Response): seq<Step>
    requires GivesTracks(r)
  {
    Bracket(GetTracksCall(titleFilter), if r.Ok? then [TracksSet(r.reply.tracks)] else Failed(r))
  }

  /**
   * After getTracks settles, `loading` is false; on success `tracks` is the result and
   * `error` is cleared (also after an earlier failure); on failure `tracks` is unchanged.
   */
  lemma {:induction false} FetchOutcome(s: State, titleFilter: Option<string>, r: Response)
    requires GivesTracks(r)
    ensures var t := Replay(Apply, s, FetchSteps(titleFilter, r));
      && !t.loading
      && (r.Ok? ==> t.tracks == r.reply.tracks && t.error == None)
      && (r.Err? ==> t.tracks == s.tracks && t.error == Some(r.message))
  {
    var settle := if r.Ok? then [TracksSet(r.reply.tracks)] else Failed(r);
    ReplayBracket(Apply, s, GetTracksCall(titleFilter), settle);
    ReplayOne(Apply, s.(loading := true, error := None), settle[0]);
  }


  class TracksHook {
    var tracks: seq<Track>
    var loading: bool
    var error: Option<string>
    ghost var history: seq<Step>

    function Current(): State
      reads this
    {
      State(tracks, loading, error)
    }

    ghost predicate Valid()
      reads this
    {
      Current() == Replay(Apply, Initial, history)
    }

    constructor ()
      ensures Valid() && history == []
      ensures tracks == [] && !loading && error == None
    {
      tracks, loading, error := [], false, None;
      history := [];
    }

    method SetTracks(ts: seq<Track>)
      requires Valid()
      modifies this
      ensures Valid() && history == old(history) + [TracksSet(ts)]
      ensures Current() == old(Current()).(tracks := ts)
    {
      ReplaySnoc(Apply, Initial, history, TracksSet(ts));
      tracks := ts;
      history := history + [TracksSet(ts)];
    }

    method SetLoading(b: bool)
      requires Valid()
      modifies this
      ensures Valid() && history == old(history) + [Loading(b)]
      ensures Current() == old(Current()).(loading := b)
    {
      ReplaySnoc(Apply, Initial, history, Loading(b));
      loading := b;
      history := history + [Loading(b)];
    }

    method SetError(e: Option<string>)
      requires Valid()
      modifies this
      ensures Valid() && history == old(history) + [ErrorSet(e)]
      ensures Current() == old(Current()).(error := e)
    {
      ReplaySnoc(Apply, Initial, history, ErrorSet(e));
      error := e;
      history := history + [ErrorSet(e)];
    }

    ghost method NoteCall(c: Call)
      requires Valid()
      modifies this
      ensures Valid() && history == old(history) + [Invoked(c)]
      ensures Current() == old(Current())
    {
      ReplaySnoc(Apply, Initial, history, Invoked(c));
      history := history + [Invoked(c)];
    }

    /** The opening writes and the call itself: `loading` on, `error` cleared, then invoke. */
    method Begin(backend: Backend, c: Call) returns (r: Response)
      requires Valid()
      modifies this, backend
      ensures Valid()
      ensures backend.log == old(backend.log) + [c]
      ensures r == old(backend.Peek(0)) && backend.Peek(0) == old(backend.Peek(1))
      ensures backend.script == Rest(old(backend.script))
      ensures history == old(history) + [Loading(true), ErrorSet(None), Invoked(c)]
    {
      SetLoading(true);
      SetError(None);
      r := backend.Invoke(c);
      NoteCall(c);
    }

    /** The `catch` of a failed call followed by the `finally`: `error` set, `loading` off. */
    method Reject(r: Response)
      requires Valid() && r.Err?
      modifies this
      ensures Valid()
      ensures history == old(history) + Failed(r) + [Loading(false)]
    {
      SetError(Some(r.message));
      SetLoading(false);
    }

    method GetTracks(backend: Backend, titleFilter: Option<string>)
      requires Valid() && GivesTracks(backend.Peek(0))
      modifies this, backend
      ensures Valid()
      ensures backend.log == old(backend.log) + [GetTracksCall(titleFilter)]
      ensures backend.script == Rest(old(backend.script))
      ensures history == old(history) + FetchSteps(titleFilter, old(backend.Peek(0)))
      ensures Current() == Replay(Apply, old(Current()), FetchSteps(titleFilter, old(backend.Peek(0))))
    {
      ghost var h0 := history;
      var c := GetTracksCall(titleFilter);
      var r := Begin(backend, c);
      if r.Ok? {
        SetTracks(r.reply.tracks);
        SetLoading(false);
      } else {
        Reject(r);
      }
      AppendBracket(h0, c, if r.Ok? then [TracksSet(r.reply.tracks)] else Failed(r));
      ReplayConcat(Apply, Initial, h0, FetchSteps(titleFilter, r));
    }
  }
}
