/**
 * The fixed navigation bar: a scroll-threshold flag, the mobile menu flag and
 * smooth scrolling to in-page anchors. The document is abstracted as the set
 * of element ids present on the page.
 */
module Navigation {
  import opened Wrappers

  datatype NavLink = NavLink(name: string, href: string)

  /** The links of the desktop bar and of the mobile overlay. */
  const NavLinks: seq<NavLink> := [
    NavLink("About", "#about"),
    NavLink("Work", "#work"),
    NavLink("Contact", "#contact")
  ]

  /** The element ids that the mounted sections carry (the About and Contact sections). */
  const PageIds: set<string> := {"about", "contact"}

  /** The ids the link targets call for: the page as built plus the Projects section as `work`. */
  const IntendedPageIds: set<string> := PageIds + {"work"}

  /** The scroll distance, in pixels, beyond which the bar turns opaque. */
  const ScrollThreshold: real := 100.0

  /** A character of a plain CSS identifier: an ASCII letter, digit, hyphen or underscore. */
  predicate IsIdentChar(c: char)
  {
    ('a' <= c <= 'z') || ('A' <= c <= 'Z') || ('0' <= c <= '9') || c == '-' || c == '_'
  }

  /**
   * A selector of the form `#id`, the only form the navigation passes to the
   * document: a plain identifier that starts with a letter or an underscore.
   */
  predicate IsIdSelector(href: string)
  {
    && |href| >= 2 && href[0] == '#'
    && (('a' <= href[1] <= 'z') || ('A' <= href[1] <= 'Z') || href[1] == '_')
    && forall k :: 1 <= k < |href| ==> IsIdentChar(href[k])
  }

  /** The element an id selector finds in a document whose element ids are `ids`. */
  function Resolve(href: string, ids: set<string>): (r: Option<string>)
    requires IsIdSelector(href)
    ensures r.Some? <==> href[1..] in ids
    ensures r.Some? ==> "#" + r.value == href
  {
    if href[1..] in ids then Some(href[1..]) else None
  }

  // ---------------------------------------------------------------------------
  // The two flags as a value, and what each event does to them
  // ---------------------------------------------------------------------------

  datatype NavState = NavState(isScrolled: bool, isMobileMenuOpen: bool)

  const InitialNavState: NavState := NavState(false, false)

  /** A scroll event: the flag becomes exactly "past the threshold", whatever it was. */
  function OnScroll(s: NavState, scrollY: real): (r: NavState)
    ensures r.isScrolled <==> scrollY > ScrollThreshold
    ensures r.isMobileMenuOpen == s.isMobileMenuOpen
  {
    s.(isScrolled := scrollY > ScrollThreshold)
  }

  /** `scrollToSection`: the menu is closed whether or not the target was found. */
  function OnNavigate(s: NavState): (r: NavState)
    ensures !r.isMobileMenuOpen
    ensures r.isScrolled == s.isScrolled
  {
    s.(isMobileMenuOpen := false)
  }

  /** The menu button. */
  function OnToggle(s: NavState): (r: NavState)
    ensures r.isMobileMenuOpen != s.isMobileMenuOpen
    ensures r.isScrolled == s.isScrolled
  {
    s.(isMobileMenuOpen := !s.isMobileMenuOpen)
  }

  /** The threshold is strict: exactly 100 pixels still counts as "at the top". */
  lemma ThresholdIsStrict()
    ensures !OnScroll(InitialNavState, 100.0).isScrolled
    ensures OnScroll(InitialNavState, 100.5).isScrolled
  {
  }

  /** No hysteresis: after a scroll event the state depends only on the latest offset. */
  lemma ScrollForgetsHistory(s: NavState, y0: real, y: real)
    ensures OnScroll(OnScroll(s, y0), y) == OnScroll(s, y)
  {
  }

  /** Toggling twice restores the menu. */
  lemma ToggleTwice(s: NavState)
    ensures OnToggle(OnToggle(s)) == s
  {
  }

  /** Navigating is idempotent, and closes the menu even when it was open. */
  lemma NavigateClosesMenu(s: NavState)
    ensures OnNavigate(OnNavigate(s)) == OnNavigate(s)
    ensures OnNavigate(OnToggle(InitialNavState)) == InitialNavState
  {
  }

  /** Only two of the three link targets exist on the page: "Work" never scrolls. */
  lemma WorkLinkIsDangling()
    ensures forall k :: 0 <= k < |NavLinks| ==> IsIdSelector(NavLinks[k].href)
    ensures Resolve(NavLinks[0].href, PageIds) == Some("about")
    ensures Resolve(NavLinks[1].href, PageIds) == None
    ensures Resolve(NavLinks[2].href, PageIds) == Some("contact")
  {
    assert NavLinks[0].href[1..] == "about";
    assert NavLinks[1].href[1..] == "work";
    assert NavLinks[2].href[1..] == "contact";
  }

  /** Were the Projects section given the id `work`, every link would scroll. */
  lemma IntendedLinksResolve()
    ensures forall k :: 0 <= k < |NavLinks| ==>
      IsIdSelector(NavLinks[k].href) && Resolve(NavLinks[k].href, IntendedPageIds).Some?
  {
    WorkLinkIsDangling();
  }

  // ---------------------------------------------------------------------------
  // The component's state
  // ---------------------------------------------------------------------------

  class NavigationBar {
    var isScrolled: bool
    var isMobileMenuOpen: bool

    function State(): NavState
      reads this
    {
      NavState(isScrolled, isMobileMenuOpen)
    }

    constructor ()
      ensures State() == InitialNavState
    {
      isScrolled := false;
      isMobileMenuOpen := false;
    }

    /** The passive scroll listener, given the window's current `scrollY`. */
    method HandleScroll(scrollY: real)
      modifies this
      ensures State() == OnScroll(old(State()), scrollY)
    {
      isScrolled := scrollY > ScrollThreshold;
    }

    /**
     * `scrollToSection(href)` against a document whose element ids are `ids`;
     * `scrolledTo` is the element brought into view, if any.
     */
    method ScrollToSection(href: string, ids: set<string>) returns (scrolledTo: Option<string>)
      requires IsIdSelector(href)
      modifies this
      ensures scrolledTo == Resolve(href, ids)
      ensures State() == OnNavigate(old(State()))
    {
      scrolledTo := Resolve(href, ids);
      isMobileMenuOpen := false;
    }

    /** A click on link `k`, in the desktop bar or in the mobile overlay. */
    method ClickLink(k: int, ids: set<string>) returns (scrolledTo: Option<string>)
      requires 0 <= k < |NavLinks|
      modifies this
      ensures scrolledTo == Resolve(NavLinks[k].href, ids)
      ensures State() == OnNavigate(old(State()))
    {
      assert IsIdSelector(NavLinks[k].href);
      scrolledTo := ScrollToSection(NavLinks[k].href, ids);
    }

    /** Either "Start" button: the same as navigating to `#contact`. */
    method ClickStart(ids: set<string>) returns (scrolledTo: Option<string>)
      modifies this
      ensures scrolledTo == Resolve("#contact", ids)
      ensures ids == PageIds ==> scrolledTo == Some("contact")
      ensures State() == OnNavigate(old(State()))
    {
      scrolledTo := ScrollToSection("#contact", ids);
      assert "#contact"[1..] == "contact";
    }

    /** The mobile menu button. */
    method ToggleMenu()
      modifies this
      ensures State() == OnToggle(old(State()))
    {
      isMobileMenuOpen := !isMobileMenuOpen;
    }
  }
}
