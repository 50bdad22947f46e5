/** The playlist store: four fields, each replaced wholesale by its own setter. */
module PlaylistState {
  import opened Types
  import opened CacheTrace
  import Boundary

  datatype State = State(
    playlists: seq<Playlist>,
    currentPlaylistTracks: seq<Track>,
    loading: bool,
    error: Option<string>)

  const Initial: State := State([], [], false, None)

  /** The effect of one step on the store: a setter replaces its own field only. */
  function Apply(s: State, st: Step): (r: State)
    ensures r.playlists == s.playlists || (st.PlaylistsSet? && r.playlists == st.playlists)
    ensures r.currentPlaylistTracks == s.currentPlaylistTracks || (st.PlaylistTracksSet? && r.currentPlaylistTracks == st.playlistTracks)
    ensures r.loading == s.loading || (st.Loading? && r.loading == st.on)
    ensures r.error == s.error || (st.ErrorSet? && r.error == st.error)
    ensures st.PlaylistsSet? ==> r.playlists == st.playlists
    ensures st.PlaylistTracksSet? ==> r.currentPlaylistTracks == st.playlistTracks
    ensures st.Loading? ==> r.loading == st.on
    ensures st.ErrorSet? ==> r.error == st.error
  {
    match st
    case PlaylistsSet(ps) => s.(playlists := ps)
    case PlaylistTracksSet(ts) => s.(currentPlaylistTracks := ts)
    case Loading(b) => s.(loading := b)
    case ErrorSet(e) => s.(error := e)
    case _ => s
  }

  /** Applying any setter twice with the same value is applying it once. */
  lemma ApplyIdempotent(s: State, st: Step)
    ensures Apply(Apply(s, st), st) == Apply(s, st)
  {
  }

  class PlaylistStore {
    var playlists: seq<Playlist>
    var currentPlaylistTracks: seq<Track>
    var loading: bool
    var error: Option<string>
    /** Every write made to the store, with the backend calls between them. */
    ghost var history: seq<Step>

    function Current(): State
      reads this
    {
      State(playlists, currentPlaylistTracks, loading, error)
    }

    /** The fields are always the replay of the history from the initial state. */
    ghost predicate Valid()
      reads this
    {
      Current() == Replay(Apply, Initial, history)
    }

    constructor ()
      ensures Valid() && history == []
      ensures playlists == [] && currentPlaylistTracks == [] && !loading && error == None
    {
      playlists, currentPlaylistTracks, loading, error := [], [], false, None;
      history := [];
    }

    method SetPlaylists(ps: seq<Playlist>)
      requires Valid()
      modifies this
      ensures Valid() && history == old(history) + [PlaylistsSet(ps)]
      ensures Current() == old(Current()).(playlists := ps)
    {
      ReplaySnoc(Apply, Initial, history, PlaylistsSet(ps));
      playlists := ps;
      history := history + [PlaylistsSet(ps)];
    }

    method SetCurrentPlaylistTracks(ts: seq<Track>)
      requires Valid()
      modifies this
      ensures Valid() && history == old(history) + [PlaylistTracksSet(ts)]
      ensures Current() == old(Current()).(currentPlaylistTracks := ts)
    {
      ReplaySnoc(Apply, Initial, history, PlaylistTracksSet(ts));
      currentPlaylistTracks := ts;
      history := history + [PlaylistTracksSet(ts)];
    }

    method SetLoading(b: bool)
      requires Valid()
      modifies this
      ensures Valid() && history == old(history) + [Loading(b)]
      ensures Current() == old(Current()).(loading := b)
    {
      ReplaySnoc(Apply, Initial, history, Loading(b));
      loading := b;
      history := history + [Loading(b)];
    }

    method SetError(e: Option<string>)
      requires Valid()
      modifies this
      ensures Valid() && history == old(history) + [ErrorSet(e)]
      ensures Current() == old(Current()).(error := e)
    {
      ReplaySnoc(Apply, Initial, history, ErrorSet(e));
      error := e;
      history := history + [ErrorSet(e)];
    }

    /** Records, in the history, a backend call made by an operation on this store. */
    ghost method NoteCall(c: Boundary.Call)
      requires Valid()
      modifies this
      ensures Valid() && history == old(history) + [Invoked(c)]
      ensures Current() == old(Current())
    {
      ReplaySnoc(Apply, Initial, history, Invoked(c));
      history := history + [Invoked(c)];
    }
  }
}
