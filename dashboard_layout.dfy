/** The page shell (components/layout/DashboardLayout.tsx): it owns the one
    piece of layout state, whether the mobile sidebar drawer is open, hands the
    sidebar a close callback and the navbar an open callback, and offsets the
    content area by the sidebar's width in each mode. */
module Layout {
  import opened Breakpoints

  /** Everything that can change the drawer state: the navbar's menu button,
      the sidebar's close callback called directly, a click on the overlay, and
      a navigation link's `onClick` handler at a given `window.innerWidth`
      (the route change that may follow it is not part of this model). */
  datatype DrawerEvent = MenuClick | CloseRequest | OverlayClick | LinkClick(innerWidth: nat)

  /** The drawer state after one event. */
  function DrawerStep(open: bool, e: DrawerEvent): (next: bool)
    ensures next && !open ==> e.MenuClick?
    ensures e.MenuClick? ==> next
    ensures e.CloseRequest? || e.OverlayClick? ==> !next
    ensures e.LinkClick? ==> (next <==> open && ModeOf(e.innerWidth) != Mobile)
  {
    match e
    case MenuClick => true
    case CloseRequest => false
    case OverlayClick => false
    case LinkClick(w) => if w < 768 then false else open
  }

  /** The drawer state after a run of events, applied first to last. */
  function DrawerRun(open: bool, evs: seq<DrawerEvent>): bool
    decreases |evs|
  {
    if evs == [] then open else DrawerStep(DrawerRun(open, evs[..|evs| - 1]), evs[|evs| - 1])
  }

  /** Only the menu button opens the drawer: a run without it never turns a
      closed drawer open. */
  lemma {:induction false} OnlyMenuOpens(evs: seq<DrawerEvent>)
    requires forall i :: 0 <= i < |evs| ==> !evs[i].MenuClick?
    ensures !DrawerRun(false, evs)
    decreases |evs|
  {
    if evs != [] {
      OnlyMenuOpens(evs[..|evs| - 1]);
    }
  }

  /** Link clicks at a width of 768 or more leave the drawer as it was. */
  lemma {:induction false} WideLinksKeepDrawer(open: bool, evs: seq<DrawerEvent>)
    requires forall i :: 0 <= i < |evs| ==> evs[i].LinkClick? && evs[i].innerWidth >= TabletMin
    ensures DrawerRun(open, evs) == open
    decreases |evs|
  {
    if evs != [] {
      WideLinksKeepDrawer(open, evs[..|evs| - 1]);
    }
  }

  /** Opening and closing are idempotent, and opening then closing returns to
      the initial, closed state. */
  lemma OpenCloseIdempotent(open: bool)
    ensures DrawerRun(open, [MenuClick, MenuClick]) == DrawerRun(open, [MenuClick])
    ensures DrawerRun(open, [CloseRequest, CloseRequest]) == DrawerRun(open, [CloseRequest])
    ensures DrawerRun(false, [MenuClick, CloseRequest]) == false
  {
  }

  /** The left margin of the content area (`ml-0 md:ml-[60px] xl:ml-60`). */
  function ContentOffset(width: nat): (px: nat)
    ensures ModeOf(width) == Mobile ==> px == 0
    ensures ModeOf(width) == Tablet ==> px == 60
    ensures ModeOf(width) == Desktop ==> px == 240
  {
    if width >= 1280 then 240 else if width >= 768 then 60 else 0
  }

  /** The shell's own state. */
  class DashboardLayout {
    var isSidebarOpen: bool

    /** The shell mounts with the drawer closed. */
    constructor ()
      ensures !isSidebarOpen
    {
      isSidebarOpen := false;
    }

    /** The navbar's `onMenuClick`: open the drawer. */
    method OpenSidebar()
      modifies this
      ensures isSidebarOpen
      ensures isSidebarOpen == DrawerStep(old(isSidebarOpen), MenuClick)
    {
      isSidebarOpen := true;
    }

    /** The sidebar's `onClose`: close the drawer. */
    method CloseSidebar()
      modifies this
      ensures !isSidebarOpen
      ensures isSidebarOpen == DrawerStep(old(isSidebarOpen), CloseRequest)
    {
      isSidebarOpen := false;
    }
  }
}
