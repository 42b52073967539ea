/** The top bar (components/layout/Navbar.tsx): the menu button that asks the
    shell to open the drawer, the profile dropdown with its toggle and
    backdrop, and the fallbacks shown for the signed-in user's initial, name
    and role. The user is read from the auth store and passed in. */
module Navbar {
  import opened AuthSlice
  import opened Breakpoints
  import Layout

  /** The avatar letter: the first character of the name, or "U" when there
      is no user or the name is empty (`charAt(0)` of "" is "", which is
      falsy). */
  function AvatarInitial(user: Option<User>): (s: string)
    ensures |s| == 1
    ensures user.Some? && user.value.name != "" ==> s[0] == user.value.name[0]
    ensures user.None? || user.value.name == "" ==> s == "U"
  {
    if user.Some? && |user.value.name| > 0 then [user.value.name[0]] else "U"
  }

  /** The name shown next to the avatar: the user's name, or "User" when there
      is no user or the name is empty. */
  function DisplayName(user: Option<User>): (s: string)
    ensures s != ""
    ensures user.Some? && user.value.name != "" ==> s == user.value.name
    ensures user.None? || user.value.name == "" ==> s == "User"
  {
    if user.Some? && user.value.name != "" then user.value.name else "User"
  }

  /** The role shown under the name: the user's role, or "Role" when there is
      no user (a role is never the empty string). */
  function DisplayRole(user: Option<User>): (s: string)
    ensures user.Some? ==> s == RoleName(user.value.role)
    ensures user.None? ==> s == "Role"
    ensures s in {"admin", "user", "Role"}
  {
    if user.Some? && RoleName(user.value.role) != "" then RoleName(user.value.role) else "Role"
  }

  /** The avatar letter always starts the name shown beside it, fallbacks
      included. */
  lemma InitialStartsDisplayName(user: Option<User>)
    ensures AvatarInitial(user) == DisplayName(user)[..1]
  {
  }

  /** The seeded user shows as "J", "John Doe", "admin"; no user shows the
      placeholders. */
  lemma SeededDisplay()
    ensures AvatarInitial(InitialState.user) == "J"
    ensures DisplayName(InitialState.user) == "John Doe"
    ensures DisplayRole(InitialState.user) == "admin"
    ensures AvatarInitial(None) == "U" && DisplayName(None) == "User" && DisplayRole(None) == "Role"
  {
  }

  /** The chevron's rotation in degrees (`rotate-180` while open). */
  function ChevronDegrees(isProfileOpen: bool): (deg: int)
    ensures deg == 180 <==> isProfileOpen
    ensures deg == 0 <==> !isProfileOpen
  {
    if isProfileOpen then 180 else 0
  }

  /** Whether the menu button is shown (`xl:hidden`). */
  function MenuButtonShown(width: nat): (shown: bool)
    ensures shown <==> ModeOf(width) != Desktop
  {
    !(width >= 1280)
  }

  /** Clicks that reach the dropdown's state: the avatar button, the backdrop,
      and the panel itself (whose entries have no handler that closes it). */
  datatype DropdownEvent = AvatarClick | BackdropClick | PanelClick

  /** The dropdown state after one click. */
  function DropdownStep(open: bool, e: DropdownEvent): (next: bool)
    ensures e.AvatarClick? ==> next != open
    ensures e.BackdropClick? ==> !next
    ensures e.PanelClick? ==> next == open
  {
    match e
    case AvatarClick => !open
    case BackdropClick => false
    case PanelClick => open
  }

  /** The dropdown state after a run of clicks, applied first to last. */
  function DropdownRun(open: bool, evs: seq<DropdownEvent>): bool
    decreases |evs|
  {
    if evs == [] then open else DropdownStep(DropdownRun(open, evs[..|evs| - 1]), evs[|evs| - 1])
  }

  /** How many avatar clicks a run holds. */
  function AvatarClicks(evs: seq<DropdownEvent>): nat
    decreases |evs|
  {
    if evs == [] then 0 else AvatarClicks(evs[..|evs| - 1]) + (if evs[|evs| - 1].AvatarClick? then 1 else 0)
  }

  /** Without the backdrop, the dropdown flips once per avatar click: it ends
      as it started exactly when the clicks were even in number, so two
      consecutive clicks restore the prior state. */
  lemma {:induction false} AvatarClicksParity(open: bool, evs: seq<DropdownEvent>)
    requires forall i :: 0 <= i < |evs| ==> !evs[i].BackdropClick?
    ensures DropdownRun(open, evs) == (open != (AvatarClicks(evs) % 2 == 1))
    decreases |evs|
  {
    if evs != [] {
      AvatarClicksParity(open, evs[..|evs| - 1]);
    }
  }

  /** The Navbar's own state. */
  class Navbar {
    var isProfileOpen: bool

    /** The dropdown starts closed. */
    constructor ()
      ensures !isProfileOpen
    {
      isProfileOpen := false;
    }

    /** The avatar button: toggle the dropdown. */
    method OnAvatarClick()
      modifies this
      ensures isProfileOpen == !old(isProfileOpen)
      ensures isProfileOpen == DropdownStep(old(isProfileOpen), AvatarClick)
    {
      isProfileOpen := !isProfileOpen;
    }

    /** The backdrop, which is rendered only while the dropdown is open:
      close the dropdown. */
    method OnBackdropClick()
      requires isProfileOpen
      modifies this
      ensures !isProfileOpen
      ensures isProfileOpen == DropdownStep(old(isProfileOpen), BackdropClick)
    {
      isProfileOpen := false;
    }

    /** The menu button: call the shell's `onMenuClick` and nothing else. */
    method OnMenuClick(shell: Layout.DashboardLayout)
      modifies shell
      ensures shell.isSidebarOpen
      ensures unchanged(this)
    {
      shell.OpenSidebar();
    }
  }
}
