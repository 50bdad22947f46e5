/**
 * The UI store: the current view, the selected playlist and three flags,
 * changed through setters and toggles. `Dispatch` is the transition each
 * store method performs.
 */
module Ui {
  import opened Types

  datatype View = Home | Library | Local | Settings | PlaylistView

  datatype UiState = UiState(
    currentView: View,
    selectedPlaylistId: Option<string>,
    isMobile: bool,
    isSidebarOpen: bool,
    isPlayerExpanded: bool)

  const Initial: UiState := UiState(Library, None, false, false, false)

  datatype UiAction =
    | SetView(view: View)
    | SetSelectedPlaylistId(id: Option<string>)
    | SetMobile(mobile: bool)
    | ToggleSidebar
    | CloseSidebar
    | TogglePlayerExpanded

  /** One store update: each action writes a single field, a toggle from its previous value. */
  function Dispatch(s: UiState, a: UiAction): (r: UiState)
    ensures !a.SetView? ==> r.currentView == s.currentView
    ensures !a.SetSelectedPlaylistId? ==> r.selectedPlaylistId == s.selectedPlaylistId
    ensures !a.SetMobile? ==> r.isMobile == s.isMobile
    ensures !(a.ToggleSidebar? || a.CloseSidebar?) ==> r.isSidebarOpen == s.isSidebarOpen
    ensures !a.TogglePlayerExpanded? ==> r.isPlayerExpanded == s.isPlayerExpanded
    ensures a.SetView? ==> r.currentView == a.view
    ensures a.SetSelectedPlaylistId? ==> r.selectedPlaylistId == a.id
    ensures a.SetMobile? ==> r.isMobile == a.mobile
    ensures a.ToggleSidebar? ==> r.isSidebarOpen != s.isSidebarOpen
    ensures a.CloseSidebar? ==> !r.isSidebarOpen
    ensures a.TogglePlayerExpanded? ==> r.isPlayerExpanded != s.isPlayerExpanded
  {
    match a
    case SetView(v) => s.(currentView := v)
    case SetSelectedPlaylistId(id) => s.(selectedPlaylistId := id)
    case SetMobile(b) => s.(isMobile := b)
    case ToggleSidebar => s.(isSidebarOpen := !s.isSidebarOpen)
    case CloseSidebar => s.(isSidebarOpen := false)
    case TogglePlayerExpanded => s.(isPlayerExpanded := !s.isPlayerExpanded)
  }

  /** The state after a series of actions, in order. */
  function DispatchAll(s: UiState, actions: seq<UiAction>): UiState
    decreases |actions|
  {
    if actions == [] then s else Dispatch(DispatchAll(s, actions[..|actions| - 1]), actions[|actions| - 1])
  }

  /** How many sidebar toggles are in `actions`. */
  function Toggles(actions: seq<UiAction>): nat
  {
    if actions == [] then 0
    else Toggles(actions[..|actions| - 1]) + (if actions[|actions| - 1].ToggleSidebar? then 1 else 0)
  }

  /** Toggling the sidebar twice restores every field. */
  lemma ToggleSidebarTwice(s: UiState)
    ensures Dispatch(Dispatch(s, ToggleSidebar), ToggleSidebar) == s
  {
  }

  /** Closing is idempotent and always leaves the sidebar closed. */
  lemma CloseSidebarIdempotent(s: UiState)
    ensures Dispatch(Dispatch(s, CloseSidebar), CloseSidebar) == Dispatch(s, CloseSidebar)
    ensures !Dispatch(s, CloseSidebar).isSidebarOpen
  {
  }

  /**
   * After a run of sidebar toggles, and of actions other than closing, the sidebar
   * is open exactly when it started open and was toggled an even number of times,
   * or started closed and was toggled an odd number.
   */
  lemma {:induction false} SidebarParity(s: UiState, actions: seq<UiAction>)
    requires forall i :: 0 <= i < |actions| ==> !actions[i].CloseSidebar?
    ensures DispatchAll(s, actions).isSidebarOpen == (s.isSidebarOpen != (Toggles(actions) % 2 == 1))
    decreases |actions|
  {
    if actions != [] {
      var init := actions[..|actions| - 1];
      assert forall i :: 0 <= i < |init| ==> init[i] == actions[i];
      SidebarParity(s, init);
    }
  }

  class UiStore {
    var currentView: View
    var selectedPlaylistId: Option<string>
    var isMobile: bool
    var isSidebarOpen: bool
    var isPlayerExpanded: bool

    function State(): UiState
      reads this
    {
      UiState(currentView, selectedPlaylistId, isMobile, isSidebarOpen, isPlayerExpanded)
    }

    constructor ()
      ensures State() == Initial
    {
      currentView, selectedPlaylistId := Library, None;
      isMobile, isSidebarOpen, isPlayerExpanded := false, false, false;
    }

    method SetView(v: View)
      modifies this
      ensures State() == Dispatch(old(State()), UiAction.SetView(v))
    {
      currentView := v;
    }

    method SetSelectedPlaylistId(id: Option<string>)
      modifies this
      ensures State() == Dispatch(old(State()), UiAction.SetSelectedPlaylistId(id))
    {
      selectedPlaylistId := id;
    }

    method SetMobile(b: bool)
      modifies this
      ensures State() == Dispatch(old(State()), UiAction.SetMobile(b))
    {
      isMobile := b;
    }

    method ToggleSidebar()
      modifies this
      ensures State() == Dispatch(old(State()), UiAction.ToggleSidebar)
    {
      isSidebarOpen := !isSidebarOpen;
    }

    method CloseSidebar()
      modifies this
      ensures State() == Dispatch(old(State()), UiAction.CloseSidebar)
    {
      isSidebarOpen := false;
    }

    method TogglePlayerExpanded()
      modifies this
      ensures State() == Dispatch(old(State()), UiAction.TogglePlayerExpanded)
    {
      isPlayerExpanded := !isPlayerExpanded;
    }
  }
}
