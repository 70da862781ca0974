/** The navigation state of the side menu as a value, and the transition each
    event handler makes on it. The class `SideMenu` in module
    `SideMenuComponent` is proved against
    these functions; the lemmas here state what the handlers promise. */
module Navigation {
  import opened Wrappers
  import opened Viewport

  /** The section anchors, in document order, that the scroll tracker scans. */
  const Sections: seq<string> := ["about", "skills", "projects", "experiences"]

  /** The item the component starts on; it is not one of the sections. */
  const InitialItem: string := "home"

  /** A menu entry: the section it leads to and its caption. The caption
      stands for the rendered label only; no handler reads it (the icon is
      left out). */
  datatype MenuItem = MenuItem(id: string, caption: string)

  /** The fixed list of menu entries, one per section, in the same order. */
  const MenuItems: seq<MenuItem> := [
    MenuItem("about", "About Me"),
    MenuItem("skills", "Skills"),
    MenuItem("projects", "Projects"),
    MenuItem("experiences", "Experiences")
  ]

  /** The three state fields of the component. */
  datatype NavState = NavState(isCollapsed: bool, activeItem: string, isMobileMenuOpen: bool)

  /** The state at mount: expanded, on "home", mobile menu shown. */
  function Initial(): (s: NavState)
    ensures !s.isCollapsed && s.isMobileMenuOpen
    ensures s.activeItem == InitialItem && s.activeItem !in Sections
  {
    NavState(false, InitialItem, true)
  }

  /** Section `id` has an anchor on the page and that anchor starts at or
      above `position`. A missing key in `offsets` is a missing anchor. */
  predicate Reached(offsets: map<string, int>, id: string, position: int)
  {
    id in offsets && offsets[id] <= position
  }

  /** The index of the last of `ids[..n]` that is reached, scanning from
      index n - 1 down to 0 and stopping at the first reached one. */
  function LastReached(ids: seq<string>, offsets: map<string, int>, position: int, n: nat): (r: Option<nat>)
    requires n <= |ids|
    ensures r.Some? ==> r.value < n && Reached(offsets, ids[r.value], position)
  {
    if n == 0 then None
    else if Reached(offsets, ids[n - 1], position) then Some(n - 1)
    else LastReached(ids, offsets, position, n - 1)
  }

  /** The scan finds the greatest reached index below n, and finds nothing
      exactly when no index below n is reached. */
  lemma {:induction false} LastReachedIsGreatest(ids: seq<string>, offsets: map<string, int>, position: int, n: nat)
    requires n <= |ids|
    ensures LastReached(ids, offsets, position, n).Some? ==>
      forall j :: LastReached(ids, offsets, position, n).value < j < n ==> !Reached(offsets, ids[j], position)
    ensures LastReached(ids, offsets, position, n).None? <==>
      forall j :: 0 <= j < n ==> !Reached(offsets, ids[j], position)
  {
    if n > 0 && !Reached(offsets, ids[n - 1], position) {
      LastReachedIsGreatest(ids, offsets, position, n - 1);
    }
  }

  /** Scrolling further down never moves the pick to an earlier section:
      a section found at position p1 is still reached at any p2 >= p1, so the
      scan at p2 finds it or a later one. */
  lemma {:induction false} LastReachedMonotone(ids: seq<string>, offsets: map<string, int>, p1: int, p2: int, n: nat)
    requires n <= |ids| && p1 <= p2
    requires LastReached(ids, offsets, p1, n).Some?
    ensures LastReached(ids, offsets, p2, n).Some?
    ensures LastReached(ids, offsets, p1, n).value <= LastReached(ids, offsets, p2, n).value
  {
    var i := LastReached(ids, offsets, p1, n).value;
    assert Reached(offsets, ids[i], p2);
    LastReachedIsGreatest(ids, offsets, p2, n);
  }

  /** The state after one scroll event with the given viewport width,
      vertical scroll offset and section anchor tops. */
  function Scrolled(s: NavState, width: int, scrollY: int, offsets: map<string, int>): (r: NavState)
    ensures r.isCollapsed == s.isCollapsed && r.isMobileMenuOpen == s.isMobileMenuOpen
    ensures IsMobile(width) ==> r == s
    ensures r.activeItem == s.activeItem || r.activeItem in Sections
  {
    if IsMobile(width) then s
    else match LastReached(Sections, offsets, EffectivePosition(scrollY), |Sections|)
      case Some(i) => s.(activeItem := Sections[i])
      case None => s
  }

  /** On a wide viewport the section latest in document order among those
      reached becomes active, whatever the earlier ones are. */
  lemma ScrolledPicksLatest(s: NavState, width: int, scrollY: int, offsets: map<string, int>, k: nat)
    requires !IsMobile(width)
    requires k < |Sections| && Reached(offsets, Sections[k], scrollY + ScrollLookahead)
    requires forall j :: k < j < |Sections| ==> !Reached(offsets, Sections[j], scrollY + ScrollLookahead)
    ensures Scrolled(s, width, scrollY, offsets) == s.(activeItem := Sections[k])
  {
    var p := EffectivePosition(scrollY);
    LastReachedIsGreatest(Sections, offsets, p, |Sections|);
    var r := LastReached(Sections, offsets, p, |Sections|);
    assert r.Some? by {
      assert !(forall j :: 0 <= j < |Sections| ==> !Reached(offsets, Sections[j], p)) by {
        assert Reached(offsets, Sections[k], p);
      }
    }
  }

  /** On a wide viewport with no reached section (all absent or all below the
      position) the active item keeps its previous value. */
  lemma ScrolledMissKeeps(s: NavState, width: int, scrollY: int, offsets: map<string, int>)
    requires forall j :: 0 <= j < |Sections| ==> !Reached(offsets, Sections[j], scrollY + ScrollLookahead)
    ensures Scrolled(s, width, scrollY, offsets) == s
  {
    LastReachedIsGreatest(Sections, offsets, EffectivePosition(scrollY), |Sections|);
  }

  /** The state after a click on the menu entry `itemId`. */
  function Clicked(s: NavState, itemId: string, width: int): (r: NavState)
    ensures r.activeItem == itemId && r.isCollapsed == s.isCollapsed
    ensures !r.isMobileMenuOpen <==> IsMobile(width) || !s.isMobileMenuOpen
  {
    var r := s.(activeItem := itemId);
    if IsMobile(width) then r.(isMobileMenuOpen := false) else r
  }

  /** Where a click on `itemId` scrolls the window to, if anywhere. */
  function ClickTarget(itemId: string, width: int, offsets: map<string, int>): (t: Option<int>)
    ensures t.Some? <==> itemId in offsets
    ensures t.Some? ==> t.value + ScrollBias(width) == offsets[itemId]
  {
    if itemId in offsets then Some(offsets[itemId] - ScrollBias(width)) else None
  }

  /** The same click scrolls one navbar height higher on mobile than on desktop. */
  lemma ClickTargetMobileVsDesktop(itemId: string, mobile: int, desktop: int, offsets: map<string, int>)
    requires IsMobile(mobile) && !IsMobile(desktop)
    requires itemId in offsets
    ensures ClickTarget(itemId, mobile, offsets).value == ClickTarget(itemId, desktop, offsets).value - MobileNavbarHeight
  {
  }

  /** The side-menu button: flips whether the mobile menu is open. */
  function Toggled(s: NavState): (r: NavState)
    ensures r.isMobileMenuOpen != s.isMobileMenuOpen
    ensures r.activeItem == s.activeItem && r.isCollapsed == s.isCollapsed
  {
    s.(isMobileMenuOpen := !s.isMobileMenuOpen)
  }

  /** The top-bar button: opens the mobile menu. */
  function Shown(s: NavState): (r: NavState)
    ensures r.isMobileMenuOpen
    ensures r.activeItem == s.activeItem && r.isCollapsed == s.isCollapsed
  {
    s.(isMobileMenuOpen := true)
  }

  /** Pressing the side-menu button twice restores the state. */
  lemma ToggledTwice(s: NavState)
    ensures Toggled(Toggled(s)) == s
  {
  }

  /** Pressing the top-bar button again changes nothing. */
  lemma ShownIdempotent(s: NavState)
    ensures Shown(Shown(s)) == s.(isMobileMenuOpen := true) == Shown(s)
  {
  }

  /** Every event the component reacts to, with the page facts it reads. */
  datatype Event =
    | Scroll(width: int, scrollY: int, offsets: map<string, int>)
    | MenuClick(itemId: string, width: int)
    | SideMenuButton
    | TopBarButton

  function Step(s: NavState, e: Event): NavState
  {
    match e
    case Scroll(w, y, o) => Scrolled(s, w, y, o)
    case MenuClick(id, w) => Clicked(s, id, w)
    case SideMenuButton => Toggled(s)
    case TopBarButton => Shown(s)
  }

  /** The state after the events `es`, in order, starting from `s`. */
  function Run(s: NavState, es: seq<Event>): NavState
    decreases |es|
  {
    if es == [] then s else Run(Step(s, es[0]), es[1..])
  }

  /** A click whose item is one of the menu entries, as every click on the rendered menu is. */
  predicate FromMenu(e: Event)
  {
    e.MenuClick? ==> exists m :: m in MenuItems && m.id == e.itemId
  }

  /** No event handler collapses the menu: from mount on it stays expanded. */
  lemma {:induction false} NeverCollapses(s: NavState, es: seq<Event>)
    requires !s.isCollapsed
    ensures !Run(s, es).isCollapsed
    decreases |es|
  {
    if es != [] {
      NeverCollapses(Step(s, es[0]), es[1..]);
    }
  }

  /** Once the active item is a section id, clicks on menu entries and scrolls keep it one. */
  lemma {:induction false} StaysOnSection(s: NavState, es: seq<Event>)
    requires s.activeItem in Sections
    requires forall i :: 0 <= i < |es| ==> FromMenu(es[i])
    ensures Run(s, es).activeItem in Sections
    decreases |es|
  {
    if es != [] {
      assert FromMenu(es[0]);
      StaysOnSection(Step(s, es[0]), es[1..]);
    }
  }

  /** The active item is always "home" or a section: it only leaves "home"
      for a section and never returns there. */
  lemma {:induction false} HomeOrSection(s: NavState, es: seq<Event>)
    requires s.activeItem == InitialItem || s.activeItem in Sections
    requires forall i :: 0 <= i < |es| ==> FromMenu(es[i])
    ensures Run(s, es).activeItem == InitialItem || Run(s, es).activeItem in Sections
    ensures s.activeItem in Sections ==> Run(s, es).activeItem != InitialItem
    decreases |es|
  {
    if s.activeItem in Sections {
      StaysOnSection(s, es);
    } else if es != [] {
      assert FromMenu(es[0]);
      HomeOrSection(Step(s, es[0]), es[1..]);
    }
  }

  /** A scroll event with no reached section leaves the mounted state on
      "home": a page loaded above every anchor shows no section as active. */
  lemma MountAboveAllAnchorsStaysHome(width: int, scrollY: int, offsets: map<string, int>)
    requires forall j :: 0 <= j < |Sections| ==> !Reached(offsets, Sections[j], scrollY + ScrollLookahead)
    ensures Scrolled(Initial(), width, scrollY, offsets).activeItem == InitialItem
  {
    ScrolledMissKeeps(Initial(), width, scrollY, offsets);
  }

  /** Anchors at 0, 500, 1000, 1500 with an effective position of 1100:
      "projects" wins over "skills" and "about". */
  lemma ReverseScanExample(s: NavState)
    ensures Scrolled(s, 1024, 1000, map["about" := 0, "skills" := 500, "projects" := 1000, "experiences" := 1500]).activeItem == "projects"
  {
    ScrolledPicksLatest(s, 1024, 1000, map["about" := 0, "skills" := 500, "projects" := 1000, "experiences" := 1500], 2);
  }

  /** An anchor at 1000 is scrolled to 985 on desktop and 925 on mobile. */
  lemma ClickTargetExample()
    ensures ClickTarget("projects", 1024, map["projects" := 1000]) == Some(985)
    ensures ClickTarget("projects", 768, map["projects" := 1000]) == Some(925)
    ensures ClickTarget("projects", 1024, map["skills" := 400]) == None
  {
  }
}
