/**
 * The mobile bottom navigation: five entries, two of which stand for the
 * reserved playlists found by exact name. Clicks become UI store actions;
 * an entry is highlighted according to the UI state.
 */
module BottomNav {
  import opened Types
  import opened Ui

  datatype NavItem = Menu | HomeItem | Recent | Favorites | LocalItem

  /** The first playlist in `ps` whose name is exactly `name`. */
  function FindByName(ps: seq<Playlist>, name: string): (r: Option<Playlist>)
    ensures r.None? <==> forall i :: 0 <= i < |ps| ==> ps[i].name != name
    ensures r.Some? ==> exists i :: 0 <= i < |ps| && ps[i] == r.value && ps[i].name == name && (forall j :: 0 <= j < i ==> ps[j].name != name)
    decreases |ps|
  {
    if ps == [] then None
    else if ps[0].name == name then Some(ps[0])
    else
      var r := FindByName(ps[1..], name);
      assert forall i :: 1 <= i < |ps| ==> ps[1..][i - 1] == ps[i];
      if r.Some? then
        assert exists i :: 1 <= i < |ps| && ps[i] == r.value && ps[i].name == name && (forall j :: 0 <= j < i ==> ps[j].name != name) by {
          var k :| 0 <= k < |ps[1..]| && ps[1..][k] == r.value && ps[1..][k].name == name && (forall j :: 0 <= j < k ==> ps[1..][j].name != name);
          assert ps[k + 1] == r.value;
        }
        r
      else r
  }

  /** The playlist a reserved entry resolves to in `ps`. */
  function Reserved(ps: seq<Playlist>, item: NavItem): Option<Playlist>
  {
    match item
    case Recent => FindByName(ps, "Recent")
    case Favorites => FindByName(ps, "Favorites")
    case _ => None
  }

  /** Whether an entry is highlighted in state `s`. */
  predicate IsActive(s: UiState, ps: seq<Playlist>, item: NavItem)
  {
    match item
    case Menu => false
    case HomeItem => s.currentView == Library
    case LocalItem => s.currentView == Local
    case _ =>
      var p := Reserved(ps, item);
      s.currentView == PlaylistView && p.Some? && s.selectedPlaylistId == Some(p.value.id)
  }

  /** The store actions a click on `item` performs, in order. */
  function ClickActions(ps: seq<Playlist>, item: NavItem): seq<UiAction>
  {
    match item
    case Menu => [UiAction.ToggleSidebar]
    case HomeItem => [UiAction.SetView(Library)]
    case LocalItem => [UiAction.SetView(Local)]
    case _ =>
      var p := Reserved(ps, item);
      if p.Some? then [UiAction.SetSelectedPlaylistId(Some(p.value.id)), UiAction.SetView(PlaylistView)] else []
  }

  /** The state after clicking `item`. */
  function Click(s: UiState, ps: seq<Playlist>, item: NavItem): UiState
  {
    DispatchAll(s, ClickActions(ps, item))
  }

  /**
   * A click on a resolved reserved entry selects that playlist's id and shows the
   * playlist view; a click on a missing one changes nothing.
   */
  lemma ReservedClick(s: UiState, ps: seq<Playlist>, item: NavItem)
    requires item.Recent? || item.Favorites?
    ensures var p := Reserved(ps, item);
      && (p.Some? ==> Click(s, ps, item) == s.(selectedPlaylistId := Some(p.value.id), currentView := PlaylistView))
      && (p.None? ==> Click(s, ps, item) == s)
  {
    var acts := ClickActions(ps, item);
    if Reserved(ps, item).Some? {
      assert acts[..1][..0] == [];
      assert DispatchAll(s, acts[..1]) == Dispatch(s, acts[0]);
      assert DispatchAll(s, acts) == Dispatch(Dispatch(s, acts[0]), acts[1]);
    }
  }

  /** The other entries: Home and Local set the view; Menu only toggles the sidebar. */
  lemma PlainClick(s: UiState, ps: seq<Playlist>)
    ensures Click(s, ps, HomeItem) == s.(currentView := Library)
    ensures Click(s, ps, LocalItem) == s.(currentView := Local)
    ensures Click(s, ps, Menu) == s.(isSidebarOpen := !s.isSidebarOpen)
  {
    assert [UiAction.SetView(Library)][..0] == [];
    assert [UiAction.SetView(Local)][..0] == [];
    assert [UiAction.ToggleSidebar][..0] == [];
  }

  /** Every entry except Menu is highlighted right after a click that did something. */
  lemma ClickActivates(s: UiState, ps: seq<Playlist>, item: NavItem)
    requires !item.Menu?
    requires (item.Recent? || item.Favorites?) ==> Reserved(ps, item).Some?
    ensures IsActive(Click(s, ps, item), ps, item)
  {
    if item.Recent? || item.Favorites? {
      ReservedClick(s, ps, item);
    } else {
      PlainClick(s, ps);
    }
  }

  /** Menu is never highlighted, nor is a reserved entry whose playlist is missing. */
  lemma NeverActive(s: UiState, ps: seq<Playlist>, item: NavItem)
    requires item.Menu? || ((item.Recent? || item.Favorites?) && Reserved(ps, item).None?)
    ensures !IsActive(s, ps, item)
  {
  }

  /** A reserved entry is highlighted exactly on the playlist view of the first playlist with its name. */
  lemma {:induction false} ReservedActive(s: UiState, ps: seq<Playlist>, name: string, i: nat)
    requires name == "Recent" || name == "Favorites"
    requires i < |ps| && ps[i].name == name && forall j :: 0 <= j < i ==> ps[j].name != name
    ensures IsActive(s, ps, if name == "Recent" then Recent else Favorites)
      <==> s.currentView == PlaylistView && s.selectedPlaylistId == Some(ps[i].id)
  {
    var r := FindByName(ps, name);
    var k :| 0 <= k < |ps| && ps[k] == r.value && ps[k].name == name && (forall j :: 0 <= j < k ==> ps[j].name != name);
    assert k == i;
  }

  /** The click handler over the UI store: the same transitions, written through its setters. */
  method HandleClick(ui: UiStore, ps: seq<Playlist>, item: NavItem)
    modifies ui
    ensures ui.State() == Click(old(ui.State()), ps, item)
  {
    match item
    case Menu =>
      ui.ToggleSidebar();
      PlainClick(old(ui.State()), ps);
    case HomeItem =>
      ui.SetView(Library);
      PlainClick(old(ui.State()), ps);
    case LocalItem =>
      ui.SetView(Local);
      PlainClick(old(ui.State()), ps);
    case _ =>
      var p := Reserved(ps, item);
      if p.Some? {
        HandlePlaylistClick(ui, p.value.id);
      }
      ReservedClick(old(ui.State()), ps, item);
  }

  /** Select the playlist, then switch to the playlist view. */
  method HandlePlaylistClick(ui: UiStore, id: string)
    modifies ui
    ensures ui.State() == old(ui.State()).(selectedPlaylistId := Some(id), currentView := PlaylistView)
  {
    ui.SetSelectedPlaylistId(Some(id));
    ui.SetView(PlaylistView);
  }
}
