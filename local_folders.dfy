/**
 * The local-folder hook: a fetch of the folder list and two mutations
 * (add, delete) that refetch the unfiltered list after success and re-raise
 * their own failure.
 */
module LocalFolders {
  import opened Types
  import opened Boundary
  import opened CacheTrace

  datatype State = State(folders: seq<LocalFolder>, loading: bool, error: Option<string>)

  const Initial: State := State([], false, None)

  /** The effect of one step on the hook's state: a setter replaces its own slot only. */
  function Apply(s: State, st: Step): (r: State)
    ensures r.folders == s.folders || (st.FoldersSet? && r.folders == st.folders)
    ensures r.loading == s.loading || (st.Loading? && r.loading == st.on)
    ensures r.error == s.error || (st.ErrorSet? && r.error == st.error)
    ensures st.FoldersSet? ==> r.folders == st.folders
    ensures st.Loading? ==> r.loading == st.on
    ensures st.ErrorSet? ==> r.error == st.error
  {
    match st
    case FoldersSet(fs) => s.(folders := fs)
    case Loading(b) => s.(loading := b)
    case ErrorSet(e) => s.(error := e)
    case _ => s
  }

  function GetFoldersCall(nameFilter: Option<string>): Call
  {
    Call("get_folders", Fields([("nameFilter", Optional(nameFilter))]))
  }

  function AddFolderCall(name: string, path: string): Call
  {
    Call("add_folder", Fields([("name", Str(name)), ("path", Str(path))]))
  }

  function DeleteFoldersCall(ids: seq<string>): Call
  {
    Call("delete_folders", Fields([("ids", Strs(ids))]))
  }

  /** The refresh after a mutation asks for every folder: no name filter. */
  const RefreshCall: Call := GetFoldersCall(None)

  /** The writes of getFolders(nameFilter) answered by `r`. */
  function FetchSteps(nameFilter: Option<string>, r: Response): seq<Step>
    requires GivesFolders(r)
  {
    Bracket(GetFoldersCall(nameFilter), if r.Ok? then [FoldersSet(r.reply.folders)] else Failed(r))
  }

  /** The writes of a mutation `c` answered by `r0`, refreshing with `r1` after success. */
  function MutationSteps(c: Call, r0: Response, r1: Response): seq<Step>
    requires r0.Ok? ==> GivesFolders(r1)
  {
    Bracket(c, if r0.Ok? then FetchSteps(None, r1) else Failed(r0))
  }

  /** The backend calls of a mutation `c`: the refresh follows only a success. */
  function MutationCalls(c: Call, r0: Response): seq<Call>
  {
    if r0.Ok? then [c, RefreshCall] else [c]
  }

  /** The script left after a mutation answered by `r0`: one response more on success. */
  function MutationRest(script: seq<Response>, r0: Response): seq<Response>
  {
    if r0.Ok? then Rest(Rest(script)) else Rest(script)
  }

  /** The hook after getFolders settles with `r`. */
  lemma {:induction false} FetchOutcome(s: State, nameFilter: Option<string>, r: Response)
    requires GivesFolders(r)
    ensures var t := Replay(Apply, s, FetchSteps(nameFilter, r));
      && !t.loading
      && (r.Ok? ==> t.folders == r.reply.folders && t.error == None)
      && (r.Err? ==> t.folders == s.folders && t.error == Some(r.message))
  {
    var settle := if r.Ok? then [FoldersSet(r.reply.folders)] else Failed(r);
    ReplayBracket(Apply, s, GetFoldersCall(nameFilter), settle);
    ReplayOne(Apply, s.(loading := true, error := None), settle[0]);
  }

  /**
   * The hook after addFolder or deleteFolders: a failed command leaves the list and
   * reports its error; a failed refresh is absorbed and reports the refresh's error.
   */
  lemma {:induction false} MutationOutcome(s: State, c: Call, r0: Response, r1: Response)
    requires r0.Ok? ==> GivesFolders(r1)
    ensures var t := Replay(Apply, s, MutationSteps(c, r0, r1));
      && !t.loading
      && (r0.Err? ==> t.folders == s.folders && t.error == Some(r0.message))
      && (r0.Ok? && r1.Ok? ==> t.folders == r1.reply.folders && t.error == None)
      && (r0.Ok? && r1.Err? ==> t.folders == s.folders && t.error == Some(r1.message))
  {
    var s' := s.(loading := true, error := None);
    if r0.Ok? {
      ReplayBracket(Apply, s, c, FetchSteps(None, r1));
      FetchOutcome(s', None, r1);
    } else {
      ReplayBracket(Apply, s, c, Failed(r0));
      ReplayOne(Apply, s', Failed(r0)[0]);
    }
  }


  class LocalFoldersHook {
    var folders: seq<LocalFolder>
    var loading: bool
    var error: Option<string>
    ghost var history: seq<Step>

    function Current(): State
      reads this
    {
      State(folders, loading, error)
    }

    ghost predicate Valid()
      reads this
    {
      Current() == Replay(Apply, Initial, history)
    }

    constructor ()
      ensures Valid() && history == []
      ensures folders == [] && !loading && error == None
    {
      folders, loading, error := [], false, None;
      history := [];
    }

    method SetFolders(fs: seq<LocalFolder>)
      requires Valid()
      modifies this
      ensures Valid() && history == old(history) + [FoldersSet(fs)]
      ensures Current() == old(Current()).(folders := fs)
    {
      ReplaySnoc(Apply, Initial, history, FoldersSet(fs));
      folders := fs;
      history := history + [FoldersSet(fs)];
    }

    method SetLoading(b: bool)
      requires Valid()
      modifies this
      ensures Valid() && history == old(history) + [Loading(b)]
      ensures Current() == old(Current()).(loading := b)
    {
      ReplaySnoc(Apply, Initial, history, Loading(b));
      loading := b;
      history := history + [Loading(b)];
    }

    method SetError(e: Option<string>)
      requires Valid()
      modifies this
      ensures Valid() && history == old(history) + [ErrorSet(e)]
      ensures Current() == old(Current()).(error := e)
    {
      ReplaySnoc(Apply, Initial, history, ErrorSet(e));
      error := e;
      history := history + [ErrorSet(e)];
    }

    ghost method NoteCall(c: Call)
      requires Valid()
      modifies this
      ensures Valid() && history == old(history) + [Invoked(c)]
      ensures Current() == old(Current())
    {
      ReplaySnoc(Apply, Initial, history, Invoked(c));
      history := history + [Invoked(c)];
    }

    /** The opening writes and the call itself: `loading` on, `error` cleared, then invoke. */
    method Begin(backend: Backend, c: Call) returns (r: Response)
      requires Valid()
      modifies this, backend
      ensures Valid()
      ensures backend.log == old(backend.log) + [c]
      ensures r == old(backend.Peek(0)) && backend.Peek(0) == old(backend.Peek(1))
      ensures backend.script == Rest(old(backend.script))
      ensures history == old(history) + [Loading(true), ErrorSet(None), Invoked(c)]
    {
      SetLoading(true);
      SetError(None);
      r := backend.Invoke(c);
      NoteCall(c);
    }

    /** The `catch` of a failed call followed by the `finally`: `error` set, `loading` off. */
    method Reject(r: Response)
      requires Valid() && r.Err?
      modifies this
      ensures Valid()
      ensures history == old(history) + Failed(r) + [Loading(false)]
    {
      SetError(Some(r.message));
      SetLoading(false);
    }

    method GetFolders(backend: Backend, nameFilter: Option<string>)
      requires Valid() && GivesFolders(backend.Peek(0))
      modifies this, backend
      ensures Valid()
      ensures backend.log == old(backend.log) + [GetFoldersCall(nameFilter)]
      ensures backend.script == Rest(old(backend.script))
      ensures history == old(history) + FetchSteps(nameFilter, old(backend.Peek(0)))
      ensures Current() == Replay(Apply, old(Current()), FetchSteps(nameFilter, old(backend.Peek(0))))
    {
      ghost var h0 := history;
      var c := GetFoldersCall(nameFilter);
      var r := Begin(backend, c);
      if r.Ok? {
        SetFolders(r.reply.folders);
        SetLoading(false);
      } else {
        Reject(r);
      }
      AppendBracket(h0, c, if r.Ok? then [FoldersSet(r.reply.folders)] else Failed(r));
      ReplayConcat(Apply, Initial, h0, FetchSteps(nameFilter, r));
    }

    /** The shared body of addFolder and deleteFolders: command `c`, then refresh; a failure is re-raised. */
    method Mutate(backend: Backend, c: Call) returns (thrown: Option<string>)
      requires Valid()
      requires backend.Peek(0).Ok? ==> GivesFolders(backend.Peek(1))
      modifies this, backend
      ensures Valid()
      ensures thrown == (if old(backend.Peek(0)).Ok? then None else Some(old(backend.Peek(0)).message))
      ensures backend.log == old(backend.log) + MutationCalls(c, old(backend.Peek(0)))
      ensures backend.script == MutationRest(old(backend.script), old(backend.Peek(0)))
      ensures history == old(history) + MutationSteps(c, old(backend.Peek(0)), old(backend.Peek(1)))
      ensures Current() == Replay(Apply, old(Current()), MutationSteps(c, old(backend.Peek(0)), old(backend.Peek(1))))
    {
      ghost var h0 := history;
      ghost var next := backend.Peek(1);
      ghost var script0 := backend.script;
      var r := Begin(backend, c);
      ghost var settle := if r.Ok? then FetchSteps(None, next) else Failed(r);
      if r.Ok? {
        GetFolders(backend, None);
        SetLoading(false);
        thrown := None;
        assert backend.script == Rest(Rest(script0));
      } else {
        Reject(r);
        thrown := Some(r.message);
      }
      assert history == h0 + [Loading(true), ErrorSet(None), Invoked(c)] + settle + [Loading(false)];
      AppendBracket(h0, c, settle);
      ReplayConcat(Apply, Initial, h0, MutationSteps(c, r, next));
    }

    /** addFolder(name, path): `add_folder`, then the unfiltered refresh. */
    method AddFolder(backend: Backend, name: string, path: string) returns (thrown: Option<string>)
      requires Valid()
      requires backend.Peek(0).Ok? ==> GivesFolders(backend.Peek(1))
      modifies this, backend
      ensures Valid()
      ensures thrown == (if old(backend.Peek(0)).Ok? then None else Some(old(backend.Peek(0)).message))
      ensures backend.log == old(backend.log) + MutationCalls(AddFolderCall(name, path), old(backend.Peek(0)))
      ensures backend.script == MutationRest(old(backend.script), old(backend.Peek(0)))
      ensures history == old(history) + MutationSteps(AddFolderCall(name, path), old(backend.Peek(0)), old(backend.Peek(1)))
      ensures Current()
        == Replay(Apply, old(Current()), MutationSteps(AddFolderCall(name, path), old(backend.Peek(0)), old(backend.Peek(1))))
    {
      thrown := Mutate(backend, AddFolderCall(name, path));
    }

    /** deleteFolders(ids): `delete_folders`, then the unfiltered refresh. */
    method DeleteFolders(backend: Backend, ids: seq<string>) returns (thrown: Option<string>)
      requires Valid()
      requires backend.Peek(0).Ok? ==> GivesFolders(backend.Peek(1))
      modifies this, backend
      ensures Valid()
      ensures thrown == (if old(backend.Peek(0)).Ok? then None else Some(old(backend.Peek(0)).message))
      ensures backend.log == old(backend.log) + MutationCalls(DeleteFoldersCall(ids), old(backend.Peek(0)))
      ensures backend.script == MutationRest(old(backend.script), old(backend.Peek(0)))
      ensures history == old(history) + MutationSteps(DeleteFoldersCall(ids), old(backend.Peek(0)), old(backend.Peek(1)))
      ensures Current()
        == Replay(Apply, old(Current()), MutationSteps(DeleteFoldersCall(ids), old(backend.Peek(0)), old(backend.Peek(1))))
    {
      thrown := Mutate(backend, DeleteFoldersCall(ids));
    }
  }
}
