# Side-menu navigation state

A model of the navigation logic of the portfolio site's `SideMenu` React
component. The component has three state fields: `isCollapsed`, `activeItem`
and `isMobileMenuOpen`. These event handlers change them:

- the **scroll tracker** runs on every window scroll and once at mount. On a
  wide viewport it looks 100 px ahead of the scroll offset. It scans the
  sections `about, skills, projects, experiences` from last to first and makes
  the first section whose anchor is at or above that position active;
- the **menu click** makes the clicked entry active at once. On a mobile
  viewport (width at most 768) it closes the menu. When the anchor exists it
  scrolls the window to the anchor's top minus 15 px (desktop) or 75 px
  (mobile);
- the **side-menu button** flips `isMobileMenuOpen`. The **top-bar button**
  sets it to true.

The browser is replaced by plain inputs. The viewport width and `scrollY` are
integers. The section anchors are a `map<string, int>` from an element id to
its `offsetTop`, and a missing key means the anchor is not on the page. The
`window.scrollTo` call becomes a returned `Option<int>` target.

Files:

- `wrappers.dfy`: the `Option` type.
- `viewport.dfy`: the width threshold, the lookahead and the scroll biases.
- `navigation.dfy`: the state as a value (`NavState`), one transition function
  per handler, the reverse scan (`LastReached`), and the lemmas about them.
  These include invariants over any sequence of events (`Run`).
- `side_menu.dfy`: the component as a class with the three fields. Each handler
  is a method proved against its transition function. The scroll handler keeps
  the source's descending loop with its early `break`. Two client methods walk
  through a desktop session and a mobile session.

Two facts about the code:

- The initial active item is `"home"` (line 10), which is not a section. So
  "the active item is always a section id" does not hold at mount.
  `HomeOrSection` proves what does hold: the active item is always `"home"` or
  a section, and once it is a section it never returns to `"home"`.
- Nothing calls `setIsCollapsed` (line 9), so `isCollapsed` stays `false`
  (`NeverCollapses`).

## Model

| member | source | states |
|---|---|---|
| `Viewport.MobileBoundary` | src/components/SideMenu.jsx:16 | the classifier `IsMobile` (the width test of lines 16, 49 and 59) holds at 767 and 768 and not at 769: the threshold includes 768 |
| `Viewport.ScrollBias` | src/components/SideMenu.jsx:56-61 | the scroll bias is 15 px on a desktop width, and it equals 15 px plus the 60 px navbar (75 px) exactly when the viewport is mobile |
| `Viewport.MobileBiasClearsNavbar` | src/components/SideMenu.jsx:56-61 | the mobile bias exceeds the desktop bias by the navbar height |
| `Navigation.Initial` | src/components/SideMenu.jsx:9-11 | at mount the menu is expanded, the mobile menu is open and the active item is "home", which is not a section id |
| `Navigation.LastReached` | src/components/SideMenu.jsx:21-27 | a found index is in range and names a section that is present and at or above the position |
| `Navigation.LastReachedIsGreatest` | src/components/SideMenu.jsx:21-27 | the reverse scan returns the greatest reached index, and returns nothing exactly when no section is reached |
| `Navigation.LastReachedMonotone` | src/components/SideMenu.jsx:19-26 | with the lookahead position moved further down, the scan still finds a section, and one no earlier than before |
| `Navigation.Scrolled` | src/components/SideMenu.jsx:15-28 | a scroll changes only the active item; on a mobile width it changes nothing; a changed active item is a section id |
| `Navigation.ScrolledPicksLatest` | src/components/SideMenu.jsx:18-27 | on a wide viewport the reached section latest in document order becomes active |
| `Navigation.ScrolledMissKeeps` | src/components/SideMenu.jsx:21-27 | when no present section is at or above the position, the state is unchanged (no reset; missing anchors are skipped) |
| `Navigation.Clicked` | src/components/SideMenu.jsx:45-51 | a click makes the item active even if its anchor is absent; afterwards the mobile menu is closed iff the viewport is mobile or it was already closed; the collapse flag is kept |
| `Navigation.ClickTarget` | src/components/SideMenu.jsx:54-67 | there is a scroll target iff the anchor is present, and the target plus the bias is the anchor's top |
| `Navigation.ClickTargetMobileVsDesktop` | src/components/SideMenu.jsx:56-63 | the same click scrolls 60 px higher on mobile than on desktop |
| `Navigation.Toggled` | src/components/SideMenu.jsx:93 | the side-menu button negates the mobile-menu flag and keeps the other two fields |
| `Navigation.ToggledTwice` | src/components/SideMenu.jsx:93 | two presses of the side-menu button restore the state |
| `Navigation.Shown` | src/components/SideMenu.jsx:81 | the top-bar button leaves the mobile menu open and keeps the other two fields |
| `Navigation.ShownIdempotent` | src/components/SideMenu.jsx:81 | pressing the top-bar button again changes nothing |
| `Navigation.NeverCollapses` | src/components/SideMenu.jsx:9 | no sequence of events collapses an expanded menu |
| `Navigation.StaysOnSection` | src/components/SideMenu.jsx:38-46 | once the active item is a section id, scrolls, buttons and clicks on menu entries keep it one |
| `Navigation.HomeOrSection` | src/components/SideMenu.jsx:10-46 | the active item is always "home" or a section id, and it never goes back to "home" once it is a section |
| `Navigation.MountAboveAllAnchorsStaysHome` | src/components/SideMenu.jsx:21-31 | the scroll run at mount leaves the active item on "home" when no anchor is reached |
| `Navigation.ReverseScanExample` | src/components/SideMenu.jsx:21-26 | anchors at 0, 500, 1000 and 1500 with a position of 1100 select "projects", not "skills" |
| `Navigation.ClickTargetExample` | src/components/SideMenu.jsx:56-63 | an anchor at 1000 gives target 985 on desktop and 925 at width 768; an absent anchor gives no target |
| `SideMenuComponent.SideMenu.constructor` | src/components/SideMenu.jsx:9-11 | the fields start in the initial navigation state |
| `SideMenuComponent.SideMenu.HandleScroll` | src/components/SideMenu.jsx:15-28 | the descending loop with early exit leaves the fields equal to the scroll transition of the old fields |
| `SideMenuComponent.SideMenu.HandleMenuClick` | src/components/SideMenu.jsx:45-71 | the fields become the click transition of the old fields, and the returned target is the click target |
| `SideMenuComponent.SideMenu.PressSideMenuButton` | src/components/SideMenu.jsx:93 | the fields become the toggled state |
| `SideMenuComponent.SideMenu.PressTopBarButton` | src/components/SideMenu.jsx:81 | the fields become the shown state |

## Left out

- Rendering (JSX, CSS class names, icons, titles; lines 73-156): presentation that only reads the flags.
- The GitHub and mail buttons and the environment-supplied URL and address (lines 3-4, 111, 118): browser calls and build configuration.
- Registering and removing the scroll listener and the `useEffect` lifecycle (lines 14, 30-35): event-runtime plumbing. Scrolls are explicit `HandleScroll` calls, and the call at mount is the first of them.
- The smooth-scroll animation (lines 64-67): only its computed target is modelled.
- The `console.log` of the clicked item (line 70): output.
- Fractional `scrollY`: browsers may report a non-integer scroll offset. The model uses integers for the width, the scroll offset and the anchor tops.
- Menu clicks with arbitrary ids: the rendered menu only passes the four menu-entry ids. `HandleMenuClick` accepts any id, as the handler does, and the invariant lemmas assume clicks come from the menu (`FromMenu`).
