/** The navigation rail (components/layout/Sidebar.tsx): the fixed list of
    links, which of them is highlighted for the current path, how wide the rail
    is and whether it is on screen in each mode, the overlay behind the mobile
    drawer, and the two click handlers that call the shell's `onClose`. */
module Sidebar {
  import opened Breakpoints
  import opened Layout

  /** A navigation entry (its icon is presentation and left out). */
  datatype NavItem = NavItem(name: string, href: string)

  /** The `navigation` list. */
  const Navigation: seq<NavItem> := [
    NavItem("Dashboard", "/dashboard"),
    NavItem("Analytics", "/analytics"),
    NavItem("Settings", "/settings")
  ]

  /** No two entries lead to the same path. */
  predicate DistinctHrefs(items: seq<NavItem>) {
    forall i, j :: 0 <= i < j < |items| ==> items[i].href != items[j].href
  }

  /** `isActive` for every entry, in list order: exact equality with the path,
      no prefix match. */
  function ActiveFlags(items: seq<NavItem>, pathname: string): (flags: seq<bool>)
    ensures |flags| == |items|
    ensures forall i :: 0 <= i < |items| ==> (flags[i] <==> items[i].href == pathname)
    decreases |items|
  {
    if items == [] then [] else [items[0].href == pathname] + ActiveFlags(items[1..], pathname)
  }

  /** How many flags are set. */
  function CountSet(flags: seq<bool>): nat
    decreases |flags|
  {
    if flags == [] then 0 else (if flags[0] then 1 else 0) + CountSet(flags[1..])
  }

  /** A path no entry leads to highlights nothing. */
  lemma {:induction false} NoneActive(items: seq<NavItem>, pathname: string)
    requires forall i :: 0 <= i < |items| ==> items[i].href != pathname
    ensures CountSet(ActiveFlags(items, pathname)) == 0
    decreases |items|
  {
    if items != [] {
      NoneActive(items[1..], pathname);
      assert ActiveFlags(items, pathname)[1..] == ActiveFlags(items[1..], pathname);
    }
  }

  /** When no two entries share a path, at most one entry is highlighted. */
  lemma {:induction false} AtMostOneActive(items: seq<NavItem>, pathname: string)
    requires DistinctHrefs(items)
    ensures CountSet(ActiveFlags(items, pathname)) <= 1
    decreases |items|
  {
    if items != [] {
      var rest := items[1..];
      assert ActiveFlags(items, pathname)[1..] == ActiveFlags(rest, pathname);
      if items[0].href == pathname {
        forall i | 0 <= i < |rest| ensures rest[i].href != pathname {
          assert rest[i] == items[i + 1];
        }
        NoneActive(rest, pathname);
      } else {
        AtMostOneActive(rest, pathname);
      }
    }
  }

  /** The shipped list: three entries in this order, with distinct paths, so
      at most one is ever highlighted; `/dashboard` highlights the first entry
      alone and `/dashboard/x` highlights none. */
  lemma NavigationHighlights(pathname: string)
    ensures |Navigation| == 3
    ensures Navigation[0] == NavItem("Dashboard", "/dashboard")
    ensures Navigation[1] == NavItem("Analytics", "/analytics")
    ensures Navigation[2] == NavItem("Settings", "/settings")
    ensures CountSet(ActiveFlags(Navigation, pathname)) <= 1
    ensures ActiveFlags(Navigation, "/dashboard") == [true, false, false]
    ensures ActiveFlags(Navigation, "/dashboard/x") == [false, false, false]
  {
    AtMostOneActive(Navigation, pathname);
  }

  /** The rail's width (`w-64 md:w-[60px] xl:w-60`). */
  function RailWidth(width: nat): (px: nat)
    ensures ModeOf(width) == Mobile ==> px == 256
    ensures ModeOf(width) == Tablet ==> px == 60
    ensures ModeOf(width) == Desktop ==> px == 240
  {
    if width >= 1280 then 240 else if width >= 768 then 60 else 256
  }

  /** Whether the rail is on screen: `translate-x-0` when open, otherwise
      `-translate-x-full`, overridden by `md:translate-x-0`. */
  function RailOnScreen(isOpen: bool, width: nat): (shown: bool)
    ensures shown <==> isOpen || ModeOf(width) != Mobile
  {
    if width >= 768 then true else isOpen
  }

  /** Whether the overlay is rendered and visible: it exists only while the
      drawer is open, and `xl:hidden` hides it from 1280 px up. */
  function OverlayVisible(isOpen: bool, width: nat): (shown: bool)
    ensures shown <==> isOpen && ModeOf(width) != Desktop
  {
    isOpen && !(width >= 1280)
  }

  /** Outside Mobile mode the content offset is the rail's width, so content
      starts where the rail ends; in Mobile mode the drawer overlays content,
      which is not offset. */
  lemma OffsetMatchesRail(width: nat)
    ensures ModeOf(width) != Mobile ==> ContentOffset(width) == RailWidth(width)
    ensures ModeOf(width) == Mobile ==> ContentOffset(width) == 0
  {
  }

  /** In Tablet mode the overlay is shown too once the menu opens the drawer,
      and a click on the link of the page already shown leaves it shown; only
      the overlay or the close callback removes it. (A link to another page
      mounts a fresh shell, whose drawer starts closed.) */
  lemma TabletLinkKeepsOverlay(width: nat)
    requires ModeOf(width) == Tablet
    ensures OverlayVisible(DrawerRun(false, [MenuClick]), width)
    ensures OverlayVisible(DrawerRun(false, [MenuClick, LinkClick(width)]), width)
    ensures !OverlayVisible(DrawerRun(false, [MenuClick, LinkClick(width), OverlayClick]), width)
  {
  }

  /** A navigation link's `onClick`: close the drawer through `onClose` when
      the window is narrower than 768 px, and do nothing otherwise. */
  method OnLinkClick(shell: DashboardLayout, innerWidth: nat)
    modifies shell
    ensures shell.isSidebarOpen == (old(shell.isSidebarOpen) && innerWidth >= TabletMin)
    ensures shell.isSidebarOpen == DrawerStep(old(shell.isSidebarOpen), LinkClick(innerWidth))
  {
    if innerWidth < 768 {
      shell.CloseSidebar();
    }
  }

  /** The overlay's `onClick`, which can only happen while it is rendered:
      close the drawer through `onClose`. */
  method OnOverlayClick(shell: DashboardLayout)
    requires shell.isSidebarOpen
    modifies shell
    ensures !shell.isSidebarOpen
    ensures shell.isSidebarOpen == DrawerStep(old(shell.isSidebarOpen), OverlayClick)
  {
    shell.CloseSidebar();
  }
}
