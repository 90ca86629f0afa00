/** The navigation bar: a mobile menu that opens and closes, and a
    background that changes once the page has scrolled past a threshold. */
module Navbar {

  /** The scroll offset, in pixels, beyond which the bar counts as scrolled. */
  const ScrollThreshold: int := 50

  /** The scroll handler's test: strictly past the threshold. */
  predicate IsScrolled(scrollY: int)
  {
    scrollY > ScrollThreshold
  }

  /** The test is strict: offset 50 is not scrolled, 51 is. */
  lemma ThresholdIsStrict()
    ensures !IsScrolled(50) && IsScrolled(51)
  {
  }

  /** The test is monotone in the offset. */
  lemma ScrolledMonotone(y1: int, y2: int)
    requires y1 <= y2 && IsScrolled(y1)
    ensures IsScrolled(y2)
  {
  }

  /** The targets of the navigation buttons, as (label, selector) pairs. */
  const NavItems: seq<(string, string)> := [
    ("Home", "#home"), ("About", "#about"), ("Portfolio", "#portfolio"),
    ("Services", "#services"), ("Blog", "#blog"), ("Contact", "#contact")
  ]

  /** The navigation bar's state. */
  class NavbarState {
    var isOpen: bool
    var scrolled: bool

    /** The menu starts closed and the page unscrolled. */
    constructor ()
      ensures !isOpen && !scrolled
    {
      isOpen := false;
      scrolled := false;
    }

    /** A window scroll event at offset `scrollY`; only `scrolled` changes. */
    method HandleScroll(scrollY: int)
      modifies this
      ensures scrolled == IsScrolled(scrollY)
      ensures isOpen == old(isOpen)
    {
      scrolled := IsScrolled(scrollY);
    }

    /** The mobile menu button flips the menu; `scrolled` is untouched. */
    method ToggleMenu()
      modifies this
      ensures isOpen == !old(isOpen)
      ensures scrolled == old(scrolled)
    {
      isOpen := !isOpen;
    }

    /** A navigation button. `href` is one of the menu's selectors (the
        "Hire Me" buttons use "#contact", which is among them). `found` is
        whether the page has an element for it; only then is a smooth scroll
        to it requested, which the result reports. The menu is closed in both
        cases and `scrolled` is left to the scroll handler. */
    method ScrollToSection(href: string, found: bool) returns (scrollRequested: bool)
      requires exists item :: item in NavItems && item.1 == href
      modifies this
      ensures scrollRequested == found
      ensures !isOpen
      ensures scrolled == old(scrolled)
    {
      scrollRequested := found;
      isOpen := false;
    }
  }

  /** Two presses of the menu button restore the menu. */
  method ToggleTwice(nav: NavbarState)
    modifies nav
    ensures nav.isOpen == old(nav.isOpen)
    ensures nav.scrolled == old(nav.scrolled)
  {
    nav.ToggleMenu();
    nav.ToggleMenu();
  }
}
