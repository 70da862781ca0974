/** The viewport classifier and the pixel constants of the side menu.
    Every width test in the component is `window.innerWidth <= 768`;
    it is written once here. */
module Viewport {

  /** The widest viewport, in CSS pixels, that still counts as mobile. */
  const MobileMaxWidth: int := 768

  /** How far below the current scroll position a section may start and
      still be taken as the one in view. */
  const ScrollLookahead: int := 100

  /** Gap left above a section when it is scrolled to on a desktop viewport. */
  const DesktopScrollBias: int := 15

  /** Height of the fixed mobile top bar, which the mobile bias also clears. */
  const MobileNavbarHeight: int := 60

  /** Gap left above a section when it is scrolled to on a mobile viewport. */
  const MobileScrollBias: int := 75

  /** A viewport is mobile when its width is at most 768; 768 itself is mobile. */
  predicate IsMobile(width: int)
  {
    width <= MobileMaxWidth
  }

  /** The vertical position the scroll tracker compares section tops against. */
  function EffectivePosition(scrollY: int): int
  {
    scrollY + ScrollLookahead
  }

  /** The distance kept between a section's top and the top of the viewport
      after a menu click: 15 on desktop, 75 on mobile. */
  function ScrollBias(width: int): (b: int)
    ensures !IsMobile(width) ==> b == DesktopScrollBias
    ensures IsMobile(width) <==> b == DesktopScrollBias + MobileNavbarHeight
  {
    if IsMobile(width) then MobileScrollBias else DesktopScrollBias
  }

  /** The classifier's boundary: 768 is mobile, 769 is not. */
  lemma MobileBoundary()
    ensures IsMobile(MobileMaxWidth) && IsMobile(MobileMaxWidth - 1)
    ensures !IsMobile(MobileMaxWidth + 1)
  {
  }

  /** The mobile bias is a desktop bias plus the top bar: a mobile scroll
      lands exactly one navbar height higher than a desktop one. */
  lemma MobileBiasClearsNavbar(mobile: int, desktop: int)
    requires IsMobile(mobile) && !IsMobile(desktop)
    ensures ScrollBias(mobile) == ScrollBias(desktop) + MobileNavbarHeight
  {
  }
}
