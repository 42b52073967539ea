# Admin dashboard template: stores and page-shell state

This project models the logic of a small admin-dashboard front end. The logic has two parts.

- **Two mock global stores.** The auth store holds `isAuthenticated` and `user`, with the reducers `login`, `logout` and `updateUser`. The dashboard store holds `stats`, `transactions` and `isLoading`, with the setters `setStats`, `setTransactions` and `setLoading`. Each store has a datatype for its state and a pure `Reduce` for its exported reducer. A class holds the fields the case reducers assign. Each class method is proved to leave the store in `Reduce(old state, action)`. Lemmas over runs of actions (`ReduceAll`) carry the invariants.
- **The page shell's state and breakpoint rules.** `Breakpoints.ModeOf` maps the viewport width to Mobile (< 768), Tablet (768 to 1279) or Desktop (>= 1280). The `Layout.DashboardLayout` class owns the drawer flag `isSidebarOpen`. The `Sidebar` module has the navigation list, the active-link flags, the rail's width and visibility, the overlay, and the click handlers that close the drawer through the shell. The `Navbar` class owns the profile dropdown flag. The `Navbar` module also defines the avatar initial and the name and role fallbacks. The viewport width, `window.innerWidth`, the current path and the signed-in user are passed in as parameters.

Files: `auth_slice.dfy`, `dashboard_slice.dfy`, `breakpoints.dfy`, `dashboard_layout.dfy`, `sidebar.dfy`, `navbar.dfy`.

Two behaviours of the code as written are modelled as they are:

- The overlay behind the drawer is hidden only from 1280 px up (`xl:hidden`), although its comment says mobile only. So in Tablet mode, the menu button shows the overlay over the content. A click on the link of the page already shown does not remove it, because links close the drawer only below 768 px (`Sidebar.TabletLinkKeepsOverlay`). A link to another page mounts a new shell, which starts with the drawer closed.
- The dropdown's "Logout" button has no click handler, so nothing in the shell dispatches `logout`.

## Model

| member | source | states |
|---|---|---|
| `AuthSlice.RoleName` | store/slices/authSlice.ts:17 | the role union's text is "admin" exactly for the admin role and "user" exactly for the user role |
| `AuthSlice.Merge` | store/slices/authSlice.ts:56 | `{ ...user, ...payload }`: every key present in the payload takes the payload's value, every other key keeps the user's; presence, not definedness, decides |
| `AuthSlice.Overlay` | store/slices/authSlice.ts:56 | helper for the law about two successive `updateUser` calls (`MergeOverlay`): the combined payload has the keys of both, the later one winning key by key |
| `AuthSlice.UserExtensional` | store/slices/authSlice.ts:13-19 | two users that agree on every key are equal |
| `AuthSlice.MergeEmpty` | store/slices/authSlice.ts:56 | an empty payload leaves the user unchanged |
| `AuthSlice.MergeIdempotent` | store/slices/authSlice.ts:56 | merging the same payload twice equals merging it once |
| `AuthSlice.MergeOverlay` | store/slices/authSlice.ts:56 | two successive merges equal one merge of the overlaid payloads |
| `AuthSlice.InitialStateSeeded` | store/slices/authSlice.ts:27-38 | the seed is signed in as John Doe, role admin, no avatar, and satisfies authenticated iff user present |
| `AuthSlice.Reduce` | store/slices/authSlice.ts:43-58 | every action keeps authenticated iff user present; `updateUser` never changes `isAuthenticated` or whether a user exists, and with no user it changes nothing |
| `AuthSlice.LoginForgetsPrior` | store/slices/authSlice.ts:44-47 | `login(u)` yields authenticated with user `u`, the same whatever the prior state |
| `AuthSlice.LogoutIdempotent` | store/slices/authSlice.ts:49-52 | `logout` yields signed out with no user, and a second `logout` changes nothing |
| `AuthSlice.UpdateUserMerges` | store/slices/authSlice.ts:54-57 | with a user present, `updateUser(p)` replaces it by the merge with `p`; an empty payload leaves the state unchanged |
| `AuthSlice.ConsistentAfterAll` | store/slices/authSlice.ts:43-58 | from a consistent state, every run of actions ends in a state where authenticated iff user present |
| `AuthSlice.ReachableConsistent` | store/slices/authSlice.ts:35-58 | every state reachable from the seed satisfies authenticated iff user present |
| `AuthSlice.UpdatesKeepSession` | store/slices/authSlice.ts:54-58 | a run of `updateUser` calls never changes `isAuthenticated` or whether a user is present |
| `AuthSlice.AuthStore.constructor` | store/slices/authSlice.ts:35-38 | the store starts in the seeded state |
| `AuthSlice.AuthStore.Login` | store/slices/authSlice.ts:44-47 | sets authenticated and the user to the payload, which is the reducer's result |
| `AuthSlice.AuthStore.Logout` | store/slices/authSlice.ts:49-52 | clears authentication and the user, which is the reducer's result |
| `AuthSlice.AuthStore.UpdateUser` | store/slices/authSlice.ts:54-58 | keeps `isAuthenticated`; with no user leaves it absent, otherwise merges the payload; this is the reducer's result |
| `DashboardSlice.InitialStateSeeded` | store/slices/dashboardSlice.ts:36-131 | the seed has 4 stats with ids "1" to "4", 8 transactions with ids "1" to "8", and is not loading; trend and status are enumerations |
| `DashboardSlice.Reduce` | store/slices/dashboardSlice.ts:137-147 | each setter replaces its own field with the payload and leaves the other two fields unchanged |
| `DashboardSlice.ReduceIdempotent` | store/slices/dashboardSlice.ts:137-147 | applying a setter twice with the same payload equals applying it once |
| `DashboardSlice.ReduceCommutes` | store/slices/dashboardSlice.ts:137-147 | setters of different fields commute |
| `DashboardSlice.LastWriteWins` | store/slices/dashboardSlice.ts:137-147 | after any run of setters, each field holds the payload of the last setter of that field, or its starting value if there was none |
| `DashboardSlice.DashboardStore.constructor` | store/slices/dashboardSlice.ts:127-131 | the store starts in the seeded state |
| `DashboardSlice.DashboardStore.SetStats` | store/slices/dashboardSlice.ts:137-139 | replaces `stats`; `transactions` and `isLoading` are unchanged |
| `DashboardSlice.DashboardStore.SetTransactions` | store/slices/dashboardSlice.ts:141-143 | replaces `transactions`; `stats` and `isLoading` are unchanged |
| `DashboardSlice.DashboardStore.SetLoading` | store/slices/dashboardSlice.ts:145-147 | sets `isLoading`; both lists are unchanged |
| `Breakpoints.ModeOf` | components/layout/DashboardLayout.tsx:24-27 | Mobile iff width < 768, Tablet iff 768 <= width < 1280, Desktop iff width >= 1280 |
| `Breakpoints.ModeMonotone` | components/layout/Sidebar.tsx:19-21 | a wider viewport never gives a narrower mode |
| `Layout.DrawerStep` | components/layout/DashboardLayout.tsx:43-52 | only the menu click opens the drawer, and it always does; a close request or an overlay click always closes it; a link click keeps it open iff it was open and the width is at least 768 |
| `Layout.OnlyMenuOpens` | components/layout/DashboardLayout.tsx:36-52 | from the initial closed state, no run of events without a menu click opens the drawer |
| `Layout.WideLinksKeepDrawer` | components/layout/Sidebar.tsx:100-105 | link clicks at a width of 768 or more leave the drawer state as it was |
| `Layout.OpenCloseIdempotent` | components/layout/DashboardLayout.tsx:43-52 | opening twice equals opening once, closing twice equals closing once, and open then close returns to closed |
| `Layout.ContentOffset` | components/layout/DashboardLayout.tsx:50 | the content's left margin is 0 in Mobile, 60 in Tablet and 240 in Desktop |
| `Layout.DashboardLayout.constructor` | components/layout/DashboardLayout.tsx:36 | the drawer starts closed |
| `Layout.DashboardLayout.OpenSidebar` | components/layout/DashboardLayout.tsx:52 | the menu callback sets the drawer open whatever it was |
| `Layout.DashboardLayout.CloseSidebar` | components/layout/DashboardLayout.tsx:43 | the close callback sets the drawer closed whatever it was |
| `Sidebar.ActiveFlags` | components/layout/Sidebar.tsx:94-95 | one flag per entry, in order, set iff the entry's href equals the path exactly |
| `Sidebar.NoneActive` | components/layout/Sidebar.tsx:95 | a path that no entry's href equals highlights no entry |
| `Sidebar.AtMostOneActive` | components/layout/Sidebar.tsx:94-95 | when hrefs are distinct, at most one entry is highlighted |
| `Sidebar.NavigationHighlights` | components/layout/Sidebar.tsx:29-58 | the list is Dashboard, Analytics, Settings in that order; at most one is active; `/dashboard` activates only the first and `/dashboard/x` activates none |
| `Sidebar.RailWidth` | components/layout/Sidebar.tsx:78 | the rail is 256 wide in Mobile, 60 in Tablet and 240 in Desktop |
| `Sidebar.RailOnScreen` | components/layout/Sidebar.tsx:78 | the rail is on screen iff the drawer is open or the mode is not Mobile |
| `Sidebar.OverlayVisible` | components/layout/Sidebar.tsx:66-70 | the overlay shows only while the drawer is open, and then iff the mode is not Desktop |
| `Sidebar.OffsetMatchesRail` | components/layout/Sidebar.tsx:78 | in Tablet and Desktop the content offset equals the rail's width; in Mobile it is 0 |
| `Sidebar.TabletLinkKeepsOverlay` | components/layout/Sidebar.tsx:66-70 | in Tablet mode the menu click shows the overlay, a link click keeps it, and an overlay click removes it |
| `Sidebar.OnLinkClick` | components/layout/Sidebar.tsx:100-105 | a link click closes the drawer through `onClose` iff `innerWidth < 768`, and otherwise leaves it unchanged |
| `Sidebar.OnOverlayClick` | components/layout/Sidebar.tsx:66-70 | a click on the overlay, which exists only while open, closes the drawer |
| `Navbar.AvatarInitial` | components/layout/Navbar.tsx:78 | one character: the name's first, or "U" when there is no user or the name is empty |
| `Navbar.DisplayName` | components/layout/Navbar.tsx:83 | never empty: the user's name, or "User" when there is no user or the name is empty |
| `Navbar.DisplayRole` | components/layout/Navbar.tsx:84 | the user's role text, or "Role" when there is no user |
| `Navbar.InitialStartsDisplayName` | components/layout/Navbar.tsx:78-83 | the avatar letter is always the first character of the displayed name, fallbacks included |
| `Navbar.SeededDisplay` | components/layout/Navbar.tsx:78-84 | the seeded user shows "J", "John Doe", "admin"; no user shows "U", "User", "Role" |
| `Navbar.ChevronDegrees` | components/layout/Navbar.tsx:88-89 | the chevron is rotated 180 degrees iff the dropdown is open |
| `Navbar.MenuButtonShown` | components/layout/Navbar.tsx:36-38 | the menu button is shown iff the mode is not Desktop |
| `Navbar.DropdownStep` | components/layout/Navbar.tsx:72-106 | an avatar click flips the dropdown, a backdrop click closes it, a click in the panel leaves it |
| `Navbar.AvatarClicksParity` | components/layout/Navbar.tsx:72 | without backdrop clicks the dropdown ends as it began iff there was an even number of avatar clicks, so two clicks restore it |
| `Navbar.Navbar.constructor` | components/layout/Navbar.tsx:29 | the dropdown starts closed |
| `Navbar.Navbar.OnAvatarClick` | components/layout/Navbar.tsx:72 | toggles the dropdown |
| `Navbar.Navbar.OnBackdropClick` | components/layout/Navbar.tsx:100-106 | a click on the backdrop, which exists only while open, closes the dropdown |
| `Navbar.Navbar.OnMenuClick` | components/layout/Navbar.tsx:36-38 | the menu button opens the shell's drawer and changes no state of the navbar |

## Left out

- Markup, Tailwind styling other than the breakpoint widths and offsets, icons, and the 200 ms and 300 ms transitions are presentation.
- The Redux Toolkit machinery (`createSlice`, Immer drafts, action creators, selectors) is library code. The case reducers are modelled directly as methods on the store classes, and the exported reducers as `Reduce`. Unknown action types are not modelled.
- Next.js routing (`usePathname`, `Link`) and `window.innerWidth` are external. The path and the widths are parameters.
- `AuthSlice.Merge`: a `Partial<User>` payload may carry `undefined` for a required key such as `name`, and the spread would then store `undefined`. The model's payload keys for required fields carry defined values only. `avatar` is the exception: there a present key with value `undefined` is modelled as `Present(None)`.
- `Navbar.AvatarInitial`: `charAt(0)` returns one UTF-16 code unit. The model returns the first Unicode character, so a name that starts with a surrogate pair is not modelled.
- The dropdown panel's name and email lines print the user's fields as they are, and nothing when there is no user. They have no branch, so they are not modelled.
- The rendering order and z-index stacking of the backdrop and overlay are not modelled. The backdrop covers the avatar button, so a second avatar click lands on the backdrop. Both paths close the dropdown.
- The same stacking applies to the drawer. While the drawer is open, the overlay (`fixed inset-0 z-40`) covers the menu button in Mobile and Tablet mode, and the button is hidden in Desktop mode. So no user click produces `MenuClick` on an open drawer. The "opening twice" part of `Layout.OpenCloseIdempotent` is a fact about the callback only.
- Navigation between routes is not modelled. Each page wraps itself in its own `DashboardLayout`, so a link to another route mounts a fresh shell, with `isSidebarOpen` and `isProfileOpen` both false. `Layout.DrawerStep`'s `LinkClick` models only the link's `onClick` handler.
- app/dashboard/page.tsx is not part of this model. Its loading gate is a `setTimeout` timer tied to the page's lifetime. app/analytics/page.tsx and app/settings/page.tsx are static markup.
- `ToggleTheme`, `Card`, `Button` and the dashboard widgets are not part of this model.
