/**
 * The playlist hook: fetch and mutation operations over the playlist store,
 * each bracketed by `loading`/`error` writes around its backend calls.
 *
 * Each operation is specified by the writes it makes (`...Steps`), appended to
 * the store's history; the store's fields are the replay of those writes, and
 * the `...Outcome` lemmas say what that replay leaves in each field.
 */
module Playlists {
  import opened Types
  import opened Boundary
  import opened CacheTrace
  import opened PlaylistState

  const GetPlaylistsCall: Call := Call("get_playlists", NoArgs)

  function CreatePlaylistCall(name: string): Call
  {
    Call("create_playlist", Fields([("name", Str(name))]))
  }

  function DeletePlaylistCall(playlistId: string): Call
  {
    Call("delete_playlist", Fields([("playlistId", Str(playlistId))]))
  }

  function PlaylistTracksCall(playlistId: string): Call
  {
    Call("get_tracks_by_playlist", Fields([("playlistId", Str(playlistId))]))
  }

  function AddTracksCall(playlistId: string, trackIds: seq<int>): Call
  {
    Call("add_tracks_to_playlist", Fields([("playlistId", Str(playlistId)), ("trackIds", Ints(trackIds))]))
  }

  function DeleteTracksCall(playlistId: string, trackIds: seq<int>): Call
  {
    Call("delete_tracks_from_playlist", Fields([("playlistId", Str(playlistId)), ("trackIds", Ints(trackIds))]))
  }

  /** The writes of getPlaylists answered by `r`. */
  function FetchPlaylistsSteps(r: Response): seq<Step>
    requires GivesPlaylists(r)
  {
    Bracket(GetPlaylistsCall, if r.Ok? then [PlaylistsSet(r.reply.playlists)] else Failed(r))
  }

  /** The writes of getPlaylistTracks(playlistId) answered by `r`. */
  function FetchTracksSteps(playlistId: string, r: Response): seq<Step>
    requires GivesTracks(r)
  {
    Bracket(PlaylistTracksCall(playlistId), if r.Ok? then [PlaylistTracksSet(r.reply.tracks)] else Failed(r))
  }

  /**
   * The writes of a mutation whose command `c` is answered by `r0` and which, on
   * success, refetches the playlist list answered by `r1` (createPlaylist, deletePlaylist).
   */
  function RefetchPlaylistsSteps(c: Call, r0: Response, r1: Response): seq<Step>
    requires r0.Ok? ==> GivesPlaylists(r1)
  {
    Bracket(c, if r0.Ok? then FetchPlaylistsSteps(r1) else Failed(r0))
  }

  /** The writes of deleteTracksFromPlaylist answered by `r0`, refetching that playlist's tracks (`r1`). */
  function RefetchTracksSteps(playlistId: string, trackIds: seq<int>, r0: Response, r1: Response): seq<Step>
    requires r0.Ok? ==> GivesTracks(r1)
  {
    Bracket(DeleteTracksCall(playlistId, trackIds), if r0.Ok? then FetchTracksSteps(playlistId, r1) else Failed(r0))
  }

  /** The writes of addTracksToPlaylist answered by `r`: no refetch either way. */
  function AddTracksSteps(playlistId: string, trackIds: seq<int>, r: Response): seq<Step>
  {
    Bracket(AddTracksCall(playlistId, trackIds), if r.Ok? then [] else Failed(r))
  }

  /** The backend calls of a mutation `c` that refetches with `refetch` after a success. */
  function MutationCalls(c: Call, r0: Response, refetch: Call): seq<Call>
  {
    if r0.Ok? then [c, refetch] else [c]
  }

  /** The script left after a mutation answered by `r0`: one response more on success. */
  function MutationRest(script: seq<Response>, r0: Response): seq<Response>
  {
    if r0.Ok? then Rest(Rest(script)) else Rest(script)
  }

  /** The store after getPlaylists settles with `r`. */
  lemma {:induction false} FetchPlaylistsOutcome(s: State, r: Response)
    requires GivesPlaylists(r)
    ensures var t := Replay(Apply, s, FetchPlaylistsSteps(r));
      && !t.loading
      && t.currentPlaylistTracks == s.currentPlaylistTracks
      && (r.Ok? ==> t.playlists == r.reply.playlists && t.error == None)
      && (r.Err? ==> t.playlists == s.playlists && t.error == Some(r.message))
  {
    var settle := if r.Ok? then [PlaylistsSet(r.reply.playlists)] else Failed(r);
    ReplayBracket(Apply, s, GetPlaylistsCall, settle);
    ReplayOne(Apply, s.(loading := true, error := None), settle[0]);
  }

  /** The store after getPlaylistTracks settles with `r`: `playlists` is never written. */
  lemma {:induction false} FetchTracksOutcome(s: State, playlistId: string, r: Response)
    requires GivesTracks(r)
    ensures var t := Replay(Apply, s, FetchTracksSteps(playlistId, r));
      && !t.loading
      && t.playlists == s.playlists
      && (r.Ok? ==> t.currentPlaylistTracks == r.reply.tracks && t.error == None)
      && (r.Err? ==> t.currentPlaylistTracks == s.currentPlaylistTracks && t.error == Some(r.message))
  {
    var settle := if r.Ok? then [PlaylistTracksSet(r.reply.tracks)] else Failed(r);
    ReplayBracket(Apply, s, PlaylistTracksCall(playlistId), settle);
    ReplayOne(Apply, s.(loading := true, error := None), settle[0]);
  }

  /**
   * The store after createPlaylist or deletePlaylist: a failed command leaves the list
   * and reports its error; a failed refetch is absorbed and reports the refetch's error.
   */
  lemma {:induction false} RefetchPlaylistsOutcome(s: State, c: Call, r0: Response, r1: Response)
    requires r0.Ok? ==> GivesPlaylists(r1)
    ensures var t := Replay(Apply, s, RefetchPlaylistsSteps(c, r0, r1));
      && !t.loading
      && t.currentPlaylistTracks == s.currentPlaylistTracks
      && (r0.Err? ==> t.playlists == s.playlists && t.error == Some(r0.message))
      && (r0.Ok? && r1.Ok? ==> t.playlists == r1.reply.playlists && t.error == None)
      && (r0.Ok? && r1.Err? ==> t.playlists == s.playlists && t.error == Some(r1.message))
  {
    var s' := s.(loading := true, error := None);
    if r0.Ok? {
      ReplayBracket(Apply, s, c, FetchPlaylistsSteps(r1));
      FetchPlaylistsOutcome(s', r1);
    } else {
      ReplayBracket(Apply, s, c, Failed(r0));
      ReplayOne(Apply, s', Failed(r0)[0]);
    }
  }

  /** The store after deleteTracksFromPlaylist: `playlists` is never written. */
  lemma {:induction false} RefetchTracksOutcome(s: State, playlistId: string, trackIds: seq<int>, r0: Response, r1: Response)
    requires r0.Ok? ==> GivesTracks(r1)
    ensures var t := Replay(Apply, s, RefetchTracksSteps(playlistId, trackIds, r0, r1));
      && !t.loading
      && t.playlists == s.playlists
      && (r0.Err? ==> t.currentPlaylistTracks == s.currentPlaylistTracks && t.error == Some(r0.message))
      && (r0.Ok? && r1.Ok? ==> t.currentPlaylistTracks == r1.reply.tracks && t.error == None)
      && (r0.Ok? && r1.Err? ==> t.currentPlaylistTracks == s.currentPlaylistTracks && t.error == Some(r1.message))
  {
    var s' := s.(loading := true, error := None);
    if r0.Ok? {
      ReplayBracket(Apply, s, DeleteTracksCall(playlistId, trackIds), FetchTracksSteps(playlistId, r1));
      FetchTracksOutcome(s', playlistId, r1);
    } else {
      ReplayBracket(Apply, s, DeleteTracksCall(playlistId, trackIds), Failed(r0));
      ReplayOne(Apply, s', Failed(r0)[0]);
    }
  }

  /** The store after addTracksToPlaylist: neither list is written, only `loading` and `error`. */
  lemma {:induction false} AddTracksOutcome(s: State, playlistId: string, trackIds: seq<int>, r: Response)
    ensures var t := Replay(Apply, s, AddTracksSteps(playlistId, trackIds, r));
      && t.playlists == s.playlists && t.currentPlaylistTracks == s.currentPlaylistTracks
      && !t.loading
      && t.error == (if r.Ok? then None else Some(r.message))
  {
    var settle := if r.Ok? then [] else Failed(r);
    ReplayBracket(Apply, s, AddTracksCall(playlistId, trackIds), settle);
    if r.Err? {
      ReplayOne(Apply, s.(loading := true, error := None), settle[0]);
    }
  }

  /** The opening of every operation: `loading` on, `error` cleared, then the backend call. */
  method Begin(store: PlaylistStore, backend: Backend, c: Call) returns (r: Response)
    requires store.Valid()
    modifies store, backend
    ensures store.Valid()
    ensures backend.log == old(backend.log) + [c]
    ensures r == old(backend.Peek(0)) && backend.Peek(0) == old(backend.Peek(1))
    ensures backend.script == Rest(old(backend.script))
    ensures store.history == old(store.history) + [Loading(true), ErrorSet(None), Invoked(c)]
  {
    store.SetLoading(true);
    store.SetError(None);
    r := backend.Invoke(c);
    store.NoteCall(c);
  }

  /** The `catch` of a failed call followed by the `finally`: `error` set, `loading` off. */
  method Reject(store: PlaylistStore, r: Response)
    requires store.Valid() && r.Err?
    modifies store
    ensures store.Valid()
    ensures store.history == old(store.history) + Failed(r) + [Loading(false)]
  {
    store.SetError(Some(r.message));
    store.SetLoading(false);
  }

  method GetPlaylists(store: PlaylistStore, backend: Backend)
    requires store.Valid() && GivesPlaylists(backend.Peek(0))
    modifies store, backend
    ensures store.Valid()
    ensures backend.log == old(backend.log) + [GetPlaylistsCall]
    ensures backend.script == Rest(old(backend.script))
    ensures store.history == old(store.history) + FetchPlaylistsSteps(old(backend.Peek(0)))
    ensures store.Current() == Replay(Apply, old(store.Current()), FetchPlaylistsSteps(old(backend.Peek(0))))
  {
    ghost var h0 := store.history;
    var r := Begin(store, backend, GetPlaylistsCall);
    if r.Ok? {
      store.SetPlaylists(r.reply.playlists);
      store.SetLoading(false);
    } else {
      Reject(store, r);
    }
    AppendBracket(h0, GetPlaylistsCall, if r.Ok? then [PlaylistsSet(r.reply.playlists)] else Failed(r));
    ReplayConcat(Apply, Initial, h0, FetchPlaylistsSteps(r));
  }

  method GetPlaylistTracks(store: PlaylistStore, backend: Backend, playlistId: string)
    requires store.Valid() && GivesTracks(backend.Peek(0))
    modifies store, backend
    ensures store.Valid()
    ensures backend.log == old(backend.log) + [PlaylistTracksCall(playlistId)]
    ensures backend.script == Rest(old(backend.script))
    ensures store.history == old(store.history) + FetchTracksSteps(playlistId, old(backend.Peek(0)))
    ensures store.Current() == Replay(Apply, old(store.Current()), FetchTracksSteps(playlistId, old(backend.Peek(0))))
  {
    ghost var h0 := store.history;
    var r := Begin(store, backend, PlaylistTracksCall(playlistId));
    if r.Ok? {
      store.SetCurrentPlaylistTracks(r.reply.tracks);
      store.SetLoading(false);
    } else {
      Reject(store, r);
    }
    AppendBracket(h0, PlaylistTracksCall(playlistId), if r.Ok? then [PlaylistTracksSet(r.reply.tracks)] else Failed(r));
    ReplayConcat(Apply, Initial, h0, FetchTracksSteps(playlistId, r));
  }

  /**
   * createPlaylist: the command, then on success a refetch of the playlist list.
   * A failing command is re-raised (`thrown`); a failing refetch is absorbed by the
   * refetch's own handler, so nothing is thrown.
   */
  method CreatePlaylist(store: PlaylistStore, backend: Backend, name: string) returns (thrown: Option<string>)
    requires store.Valid()
    requires backend.Peek(0).Ok? ==> GivesPlaylists(backend.Peek(1))
    modifies store, backend
    ensures store.Valid()
    ensures thrown == (if old(backend.Peek(0)).Ok? then None else Some(old(backend.Peek(0)).message))
    ensures backend.log == old(backend.log) + MutationCalls(CreatePlaylistCall(name), old(backend.Peek(0)), GetPlaylistsCall)
    ensures backend.script == MutationRest(old(backend.script), old(backend.Peek(0)))
    ensures store.history == old(store.history)
      + RefetchPlaylistsSteps(CreatePlaylistCall(name), old(backend.Peek(0)), old(backend.Peek(1)))
    ensures store.Current()
      == Replay(Apply, old(store.Current()), RefetchPlaylistsSteps(CreatePlaylistCall(name), old(backend.Peek(0)), old(backend.Peek(1))))
  {
    ghost var h0 := store.history;
    ghost var next := backend.Peek(1);
    ghost var script0 := backend.script;
    var c := CreatePlaylistCall(name);
    var r := Begin(store, backend, c);
    ghost var settle := if r.Ok? then FetchPlaylistsSteps(next) else Failed(r);
    if r.Ok? {
      GetPlaylists(store, backend);
      store.SetLoading(false);
      thrown := None;
      assert backend.script == Rest(Rest(script0));
    } else {
      Reject(store, r);
      thrown := Some(r.message);
    }
    assert store.history == h0 + [Loading(true), ErrorSet(None), Invoked(c)] + settle + [Loading(false)];
    AppendBracket(h0, c, settle);
    ReplayConcat(Apply, Initial, h0, RefetchPlaylistsSteps(c, r, next));
  }

  /** deletePlaylist: as createPlaylist, with the `delete_playlist` command. */
  method DeletePlaylist(store: PlaylistStore, backend: Backend, playlistId: string) returns (thrown: Option<string>)
    requires store.Valid()
    requires backend.Peek(0).Ok? ==> GivesPlaylists(backend.Peek(1))
    modifies store, backend
    ensures store.Valid()
    ensures thrown == (if old(backend.Peek(0)).Ok? then None else Some(old(backend.Peek(0)).message))
    ensures backend.log == old(backend.log) + MutationCalls(DeletePlaylistCall(playlistId), old(backend.Peek(0)), GetPlaylistsCall)
    ensures backend.script == MutationRest(old(backend.script), old(backend.Peek(0)))
    ensures store.history == old(store.history)
      + RefetchPlaylistsSteps(DeletePlaylistCall(playlistId), old(backend.Peek(0)), old(backend.Peek(1)))
    ensures store.Current()
      == Replay(Apply, old(store.Current()), RefetchPlaylistsSteps(DeletePlaylistCall(playlistId), old(backend.Peek(0)), old(backend.Peek(1))))
  {
    ghost var h0 := store.history;
    ghost var next := backend.Peek(1);
    ghost var script0 := backend.script;
    var c := DeletePlaylistCall(playlistId);
    var r := Begin(store, backend, c);
    ghost var settle := if r.Ok? then FetchPlaylistsSteps(next) else Failed(r);
    if r.Ok? {
      GetPlaylists(store, backend);
      store.SetLoading(false);
      thrown := None;
      assert backend.script == Rest(Rest(script0));
    } else {
      Reject(store, r);
      thrown := Some(r.message);
    }
    assert store.history == h0 + [Loading(true), ErrorSet(None), Invoked(c)] + settle + [Loading(false)];
    AppendBracket(h0, c, settle);
    ReplayConcat(Apply, Initial, h0, RefetchPlaylistsSteps(c, r, next));
  }

  /** addTracksToPlaylist: exactly one backend call and no refetch of either list. */
  method AddTracksToPlaylist(store: PlaylistStore, backend: Backend, playlistId: string, trackIds: seq<int>)
    returns (thrown: Option<string>)
    requires store.Valid()
    modifies store, backend
    ensures store.Valid()
    ensures thrown == (if old(backend.Peek(0)).Ok? then None else Some(old(backend.Peek(0)).message))
    ensures backend.log == old(backend.log) + [AddTracksCall(playlistId, trackIds)]
    ensures backend.script == Rest(old(backend.script))
    ensures store.history == old(store.history) + AddTracksSteps(playlistId, trackIds, old(backend.Peek(0)))
    ensures store.Current() == Replay(Apply, old(store.Current()), AddTracksSteps(playlistId, trackIds, old(backend.Peek(0))))
  {
    ghost var h0 := store.history;
    var r := Begin(store, backend, AddTracksCall(playlistId, trackIds));
    if r.Ok? {
      store.SetLoading(false);
      thrown := None;
    } else {
      Reject(store, r);
      thrown := Some(r.message);
    }
    AppendBracket(h0, AddTracksCall(playlistId, trackIds), if r.Ok? then [] else Failed(r));
    ReplayConcat(Apply, Initial, h0, AddTracksSteps(playlistId, trackIds, r));
  }

  /** deleteTracksFromPlaylist: on success, refetch the tracks of the same playlist. */
  method DeleteTracksFromPlaylist(store: PlaylistStore, backend: Backend, playlistId: string, trackIds: seq<int>)
    returns (thrown: Option<string>)
    requires store.Valid()
    requires backend.Peek(0).Ok? ==> GivesTracks(backend.Peek(1))
    modifies store, backend
    ensures store.Valid()
    ensures thrown == (if old(backend.Peek(0)).Ok? then None else Some(old(backend.Peek(0)).message))
    ensures backend.log == old(backend.log)
      + MutationCalls(DeleteTracksCall(playlistId, trackIds), old(backend.Peek(0)), PlaylistTracksCall(playlistId))
    ensures backend.script == MutationRest(old(backend.script), old(backend.Peek(0)))
    ensures store.history == old(store.history) + RefetchTracksSteps(playlistId, trackIds, old(backend.Peek(0)), old(backend.Peek(1)))
    ensures store.Current()
      == Replay(Apply, old(store.Current()), RefetchTracksSteps(playlistId, trackIds, old(backend.Peek(0)), old(backend.Peek(1))))
  {
    ghost var h0 := store.history;
    ghost var next := backend.Peek(1);
    ghost var script0 := backend.script;
    var c := DeleteTracksCall(playlistId, trackIds);
    var r := Begin(store, backend, c);
    ghost var settle := if r.Ok? then FetchTracksSteps(playlistId, next) else Failed(r);
    if r.Ok? {
      GetPlaylistTracks(store, backend, playlistId);
      store.SetLoading(false);
      thrown := None;
      assert backend.script == Rest(Rest(script0));
    } else {
      Reject(store, r);
      thrown := Some(r.message);
    }
    assert store.history == h0 + [Loading(true), ErrorSet(None), Invoked(c)] + settle + [Loading(false)];
    AppendBracket(h0, c, settle);
    ReplayConcat(Apply, Initial, h0, RefetchTracksSteps(playlistId, trackIds, r, next));
  }
}
