/**
 * The fixed navigation bar: a scroll-reactive background tier, a mobile menu
 * that opens and closes, in-page anchor links, a light/dark theme switch and
 * a hydration guard that renders nothing before the component has mounted.
 *
 * Browser effects are results, not actions: a click yields a `NavClickEffect`
 * saying whether the default navigation is suppressed and where the page
 * scrolls; the ids present in the document are a parameter.
 */
module Navigation {
  import opened Wrappers

  /** A link of the bar; `name` is the source's `label`, a reserved word in Dafny. */
  datatype NavItem = NavItem(name: string, href: string, isScroll: bool)

  /** The links of the bar, in display order. Their hrefs are the React keys. */
  const NavItems: seq<NavItem> := [
    NavItem("Home", "#top", true),
    NavItem("Menu", "#menu", true),
    NavItem("About", "#about", true),
    NavItem("Gallery", "#gallery", true),
    NavItem("Contact", "#contact", true),
    NavItem("Reservations", "#reservations", true)
  ]

  /** The brand link passes its own target to the click handler. */
  const LogoHref: string := "#top"

  const TopHref: string := "#top"

  /** `window.scrollY` above this many pixels counts as scrolled. */
  const ScrollThreshold: real := 20.0

  predicate DistinctHrefs(items: seq<NavItem>)
  {
    forall i, j :: 0 <= i < j < |items| ==> items[i].href != items[j].href
  }

  lemma NavItemsWellFormed()
    ensures |NavItems| == 6
    ensures DistinctHrefs(NavItems)
    ensures forall k :: 0 <= k < |NavItems| ==> |NavItems[k].href| > 0 && NavItems[k].href[0] == '#'
    ensures forall k :: 0 <= k < |NavItems| ==> NavItems[k].isScroll
  {
  }

  // ---------------------------------------------------------------------------
  // Click on a link

  datatype ScrollAction = NoScroll | ScrollToTop | ScrollIntoView(elementId: string)

  datatype NavClickEffect = NavClickEffect(preventDefault: bool, scroll: ScrollAction)

  /** `href.substring(1)`: the href without its first character, or "" for an empty href. */
  function AnchorId(href: string): (r: string)
    ensures |href| > 0 ==> [href[0]] + r == href
    ensures |href| == 0 ==> r == ""
  {
    if |href| == 0 then "" else href[1..]
  }

  /** The browser effect of `handleNavClick` on a link, given the ids present in the document. */
  function NavClickEffectOf(href: string, isScroll: bool, elementIds: set<string>): (r: NavClickEffect)
    ensures r.preventDefault == isScroll
    ensures r.scroll == ScrollToTop <==> isScroll && href == TopHref
    ensures r.scroll.ScrollIntoView? <==> isScroll && href != TopHref && AnchorId(href) in elementIds
    ensures r.scroll.ScrollIntoView? ==> r.scroll.elementId == AnchorId(href)
  {
    if !isScroll then NavClickEffect(false, NoScroll)
    else if href == TopHref then NavClickEffect(true, ScrollToTop)
    else if AnchorId(href) in elementIds then NavClickEffect(true, ScrollIntoView(AnchorId(href)))
    else NavClickEffect(true, NoScroll)
  }

  /** Every link of the bar takes over the navigation and scrolls whenever its target section exists. */
  lemma NavItemsScroll(k: nat, elementIds: set<string>)
    requires k < |NavItems|
    ensures NavClickEffectOf(NavItems[k].href, NavItems[k].isScroll, elementIds).preventDefault
    ensures k == 0 ==> NavClickEffectOf(NavItems[k].href, NavItems[k].isScroll, elementIds).scroll == ScrollToTop
    ensures k > 0 && AnchorId(NavItems[k].href) in elementIds
            ==> NavClickEffectOf(NavItems[k].href, NavItems[k].isScroll, elementIds).scroll
                == ScrollIntoView(AnchorId(NavItems[k].href))
    ensures k > 0 && AnchorId(NavItems[k].href) !in elementIds
            ==> NavClickEffectOf(NavItems[k].href, NavItems[k].isScroll, elementIds).scroll == NoScroll
  {
    NavItemsWellFormed();
  }

  /** The brand link always takes over the navigation and scrolls to the top. */
  lemma LogoScrollsToTop(elementIds: set<string>)
    ensures NavClickEffectOf(LogoHref, true, elementIds) == NavClickEffect(true, ScrollToTop)
  {
  }

  // ---------------------------------------------------------------------------
  // Theme

  /** `theme === 'dark' ? 'light' : 'dark'`; `theme` is undefined until the theme provider resolves it. */
  function NextTheme(theme: Option<string>): (r: string)
    ensures r == "light" <==> theme == Some("dark")
    ensures r == "dark" <==> theme != Some("dark")
  {
    if theme == Some("dark") then "light" else "dark"
  }

  /** Two flips restore "light" and "dark"; any other value (undefined, "system") ends at "light". */
  lemma NextThemeTwice(theme: Option<string>)
    ensures NextTheme(Some(NextTheme(theme))) == if theme == Some("dark") then "dark" else "light"
    ensures theme == Some("light") || theme == Some("dark") ==> Some(NextTheme(Some(NextTheme(theme)))) == theme
  {
  }

  datatype ThemeIcon = Sun | Moon
  datatype MenuIcon = CloseIcon | HamburgerIcon

  /** The theme button shows a sun in dark mode and a moon otherwise. */
  function ThemeIconFor(theme: Option<string>): (r: ThemeIcon)
    ensures r == Sun <==> NextTheme(theme) == "light"
  {
    if theme == Some("dark") then Sun else Moon
  }

  /** The caption of the mobile theme button names the theme a click switches to. */
  function MobileThemeLabel(theme: Option<string>): (r: string)
    ensures r == "Light Mode" <==> NextTheme(theme) == "light"
    ensures r == "Dark Mode" <==> NextTheme(theme) == "dark"
  {
    if theme == Some("dark") then "Light Mode" else "Dark Mode"
  }

  // ---------------------------------------------------------------------------
  // Render

  /** The three background styles of the bar. */
  datatype NavTier = Open | Scrolled | Base

  /** An open mobile menu takes precedence over the scrolled style. */
  function Tier(isMobileMenuOpen: bool, isScrolled: bool): (r: NavTier)
    ensures r == Open <==> isMobileMenuOpen
    ensures r == Scrolled <==> !isMobileMenuOpen && isScrolled
    ensures r == Base <==> !isMobileMenuOpen && !isScrolled
  {
    if isMobileMenuOpen then Open else if isScrolled then Scrolled else Base
  }

  /** What a mounted bar shows. */
  datatype NavView = NavView(
    tier: NavTier,
    menuIcon: MenuIcon,
    mobileMenuShown: bool,
    themeIcon: ThemeIcon,
    mobileThemeLabel: string)

  class Navbar {
    var isScrolled: bool
    var isMobileMenuOpen: bool
    var mounted: bool
    /** The in-memory theme; reading and persisting it belongs to the theme provider. */
    var theme: Option<string>

    constructor (theme: Option<string>)
      ensures !isScrolled && !isMobileMenuOpen && !mounted && this.theme == theme
    {
      isScrolled, isMobileMenuOpen, mounted := false, false, false;
      this.theme := theme;
    }

    /** The effect after the first render. It only ever sets `mounted`. */
    method Mount()
      modifies this
      ensures mounted
      ensures isScrolled == old(isScrolled) && isMobileMenuOpen == old(isMobileMenuOpen) && theme == old(theme)
    {
      mounted := true;
    }

    /** The window's scroll listener. */
    method HandleScroll(scrollY: real)
      modifies this
      ensures isScrolled == (scrollY > ScrollThreshold)
      ensures isMobileMenuOpen == old(isMobileMenuOpen) && mounted == old(mounted) && theme == old(theme)
    {
      isScrolled := scrollY > ScrollThreshold;
    }

    /** The hamburger / close button. */
    method ToggleMobileMenu()
      modifies this
      ensures isMobileMenuOpen == !old(isMobileMenuOpen)
      ensures isScrolled == old(isScrolled) && mounted == old(mounted) && theme == old(theme)
    {
      isMobileMenuOpen := !isMobileMenuOpen;
    }

    /** `handleNavClick`: a scroll link scrolls (when its target exists) and always closes the mobile menu. */
    method HandleNavClick(href: string, isScroll: bool, elementIds: set<string>) returns (effect: NavClickEffect)
      modifies this
      ensures effect == NavClickEffectOf(href, isScroll, elementIds)
      ensures isMobileMenuOpen == (if isScroll then false else old(isMobileMenuOpen))
      ensures isScrolled == old(isScrolled) && mounted == old(mounted) && theme == old(theme)
    {
      effect := NavClickEffectOf(href, isScroll, elementIds);
      if isScroll {
        isMobileMenuOpen := false;
      }
    }

    /** The desktop theme button: flips the theme, leaves the menu alone. */
    method ToggleThemeDesktop()
      modifies this
      ensures theme == Some(NextTheme(old(theme)))
      ensures isMobileMenuOpen == old(isMobileMenuOpen) && isScrolled == old(isScrolled) && mounted == old(mounted)
    {
      theme := Some(NextTheme(theme));
    }

    /** The mobile theme button: flips the theme and closes the menu. */
    method ToggleThemeMobile()
      modifies this
      ensures theme == Some(NextTheme(old(theme)))
      ensures !isMobileMenuOpen
      ensures isScrolled == old(isScrolled) && mounted == old(mounted)
    {
      theme := Some(NextTheme(theme));
      isMobileMenuOpen := false;
    }

    /** `if (!mounted) return null`; otherwise the bar in its current tier. */
    function Render(): (r: Option<NavView>)
      reads this
      ensures r.None? <==> !mounted
      ensures r.Some? ==> r.value.tier == Tier(isMobileMenuOpen, isScrolled)
      ensures r.Some? ==> (r.value.mobileMenuShown <==> isMobileMenuOpen)
      ensures r.Some? ==> (r.value.menuIcon == CloseIcon <==> isMobileMenuOpen)
      ensures r.Some? ==> (r.value.themeIcon == Sun <==> NextTheme(theme) == "light")
      ensures r.Some? ==> r.value.mobileThemeLabel == MobileThemeLabel(theme)
    {
      if !mounted then None
      else Some(NavView(
        Tier(isMobileMenuOpen, isScrolled),
        if isMobileMenuOpen then CloseIcon else HamburgerIcon,
        isMobileMenuOpen,
        ThemeIconFor(theme),
        MobileThemeLabel(theme)))
    }
  }

  // ---------------------------------------------------------------------------
  // Scenarios

  /** Scrolling to 0, 25 and 10 pixels: not scrolled, scrolled, not scrolled; 20 is not past the threshold, 21 is. */
  method ScrollScenario()
  {
    var nav := new Navbar(None);
    nav.Mount();
    nav.HandleScroll(0.0);
    assert !nav.isScrolled && nav.Render() == Some(NavView(Base, HamburgerIcon, false, Moon, "Dark Mode"));
    nav.HandleScroll(25.0);
    assert nav.isScrolled && nav.Render().value.tier == Scrolled;
    nav.HandleScroll(10.0);
    assert !nav.isScrolled;
    nav.HandleScroll(20.0);
    assert !nav.isScrolled;
    nav.HandleScroll(20.5);
    assert nav.isScrolled;
    nav.HandleScroll(21.0);
    assert nav.isScrolled;
  }

  /** Before mounting nothing renders; mounting is never undone by the other handlers. */
  method HydrationScenario()
  {
    var nav := new Navbar(Some("dark"));
    assert nav.Render() == None;
    nav.Mount();
    assert nav.Render() == Some(NavView(Base, HamburgerIcon, false, Sun, "Light Mode"));
    nav.HandleScroll(100.0);
    nav.ToggleMobileMenu();
    assert nav.Render().value.tier == Open;
    nav.ToggleThemeMobile();
    assert !nav.isMobileMenuOpen;
    nav.ToggleMobileMenu();
    nav.ToggleMobileMenu();
    assert !nav.isMobileMenuOpen;
    nav.ToggleMobileMenu();
    assert nav.isMobileMenuOpen;
    var effect := nav.HandleNavClick("#menu", true, {});
    assert effect == NavClickEffect(true, NoScroll);
    assert nav.mounted && !nav.isMobileMenuOpen && nav.theme == Some("light");
    assert nav.Render().value.tier == Scrolled;
  }
}
