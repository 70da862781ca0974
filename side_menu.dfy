/** The side-menu component as an object: its three state fields are updated
    in place by the scroll handler, the menu-click handler and the two menu
    buttons. Each method is proved against the transition in module Navigation. */
module SideMenuComponent {
  import opened Wrappers
  import opened Viewport
  import opened Navigation

  class SideMenu {
    var isCollapsed: bool
    var activeItem: string
    var isMobileMenuOpen: bool

    /** The fields as a navigation state. */
    function State(): NavState
      reads this
    {
      NavState(isCollapsed, activeItem, isMobileMenuOpen)
    }

    /** Mount: the three fields take their initial values. */
    constructor ()
      ensures State() == Initial()
    {
      isCollapsed := false;
      activeItem := InitialItem;
      isMobileMenuOpen := true;
    }

    /** The scroll listener: on a wide viewport, scan the sections from the
        last to the first and make the first reached one active. */
    method HandleScroll(width: int, scrollY: int, offsets: map<string, int>)
      modifies this
      ensures State() == Scrolled(old(State()), width, scrollY, offsets)
    {
      if IsMobile(width) {
        return;
      }
      var sections := Sections;
      var scrollPosition := scrollY + ScrollLookahead;
      var i: int := |sections| - 1;
      while i >= 0
        invariant -1 <= i < |sections|
        invariant LastReached(sections, offsets, scrollPosition, |sections|)
               == LastReached(sections, offsets, scrollPosition, i + 1)
        invariant State() == old(State())
      {
        var id := sections[i];
        if id in offsets && offsets[id] <= scrollPosition {
          activeItem := id;
          break;
        }
        i := i - 1;
      }
    }

    /** A click on menu entry `itemId`: make it active, close the menu on
        mobile, and return where the window scrolls to, if the anchor exists. */
    method HandleMenuClick(itemId: string, width: int, offsets: map<string, int>) returns (target: Option<int>)
      modifies this
      ensures State() == Clicked(old(State()), itemId, width)
      ensures target == ClickTarget(itemId, width, offsets)
    {
      activeItem := itemId;
      if IsMobile(width) {
        isMobileMenuOpen := false;
      }
      target := None;
      if itemId in offsets {
        var offset := DesktopScrollBias;
        if IsMobile(width) {
          offset := MobileScrollBias;
        }
        target := Some(offsets[itemId] - offset);
      }
    }

    /** The button on the side menu: show or hide the menu. */
    method PressSideMenuButton()
      modifies this
      ensures State() == Toggled(old(State()))
    {
      isMobileMenuOpen := !isMobileMenuOpen;
    }

    /** The button on the mobile top bar: show the menu. */
    method PressTopBarButton()
      modifies this
      ensures State() == Shown(old(State()))
    {
      isMobileMenuOpen := true;
    }
  }

  /** Mount on a desktop page with anchors at 0, 400, 900 and 1600, the
      immediate scroll run, then a scroll to 850 and a click on "skills". */
  method DesktopSession()
  {
    var offsets := map["about" := 0, "skills" := 400, "projects" := 900, "experiences" := 1600];
    var menu := new SideMenu();
    ScrolledPicksLatest(menu.State(), 1280, 0, offsets, 0);
    menu.HandleScroll(1280, 0, offsets);
    assert menu.activeItem == "about";
    ScrolledPicksLatest(menu.State(), 1280, 850, offsets, 2);
    menu.HandleScroll(1280, 850, offsets);
    assert menu.activeItem == "projects";
    var target := menu.HandleMenuClick("skills", 1280, offsets);
    assert target == Some(385);
    assert menu.activeItem == "skills" && menu.isMobileMenuOpen;
  }

  /** On a phone the scroll tracker is off, a click closes the menu, and the
      top-bar button brings it back. */
  method MobileSession()
  {
    var offsets := map["about" := 0, "skills" := 400];
    var menu := new SideMenu();
    menu.HandleScroll(375, 600, offsets);
    assert menu.activeItem == "home";
    var target := menu.HandleMenuClick("projects", 375, offsets);
    assert target == None && menu.activeItem == "projects" && !menu.isMobileMenuOpen;
    menu.PressTopBarButton();
    assert menu.isMobileMenuOpen;
    menu.PressSideMenuButton();
    menu.PressSideMenuButton();
    assert menu.isMobileMenuOpen && !menu.isCollapsed;
  }
}
