/**
 * The site navigation bar: which link is highlighted for the current
 * location, the mobile menu's open/closed state, the "scrolled" look and
 * the bar's own light/dark switch.
 */
module Navbar {
  import opened Strings

  /** The link targets, in the order the bar lists them. */
  const NavPaths: seq<string> := ["/", "/dashboard", "/predict", "/batch", "/analytics", "/model-info", "/about"]

  /** `isActive`: the home link only for "/" itself, any other link for every location under its path. */
  predicate IsActive(pathname: string, path: string)
    ensures IsActive(pathname, path) ==> |path| <= |pathname|
    ensures path != "/" && IsActive(pathname, path) ==> pathname[..|path|] == path
  {
    if path == "/" then pathname == path else StartsWith(pathname, path)
  }

  /** The home link is highlighted exactly at "/", and every link is highlighted at its own path. */
  lemma ActiveAtOwnPath(pathname: string, path: string)
    ensures IsActive(pathname, "/") <==> pathname == "/"
    ensures IsActive(path, path)
    ensures path != "/" ==> (IsActive(pathname, path) <==> |path| <= |pathname| && pathname[..|path|] == path)
  {
    assert path[..|path|] == path;
  }

  /** No link target other than "/" is a prefix of another one. */
  predicate PrefixFree(paths: seq<string>) {
    forall a, b :: 0 <= a < |paths| && 0 <= b < |paths| && a != b && paths[a] != "/" ==> !StartsWith(paths[b], paths[a])
  }

  lemma {:induction false} NavPathsPrefixFree()
    ensures PrefixFree(NavPaths)
  {
    forall a, b | 0 <= a < |NavPaths| && 0 <= b < |NavPaths| && a != b && NavPaths[a] != "/"
      ensures !StartsWith(NavPaths[b], NavPaths[a])
    {
      var p := NavPaths[a];
      var q := NavPaths[b];
      if |p| <= |q| {
        // the character after "/" tells every pair apart
        assert p[1] != q[1] || p[2] != q[2];
        assert q[..|p|][1] == q[1] && q[..|p|][2] == q[2];
      }
    }
  }

  /** At most one link of the bar is highlighted, wherever the user is. */
  lemma AtMostOneActive(pathname: string, a: nat, b: nat)
    requires a < |NavPaths| && b < |NavPaths|
    requires IsActive(pathname, NavPaths[a]) && IsActive(pathname, NavPaths[b])
    ensures a == b
  {
    NavPathsPrefixFree();
    if a != b && NavPaths[a] != "/" && NavPaths[b] != "/" {
      PrefixesComparable(pathname, NavPaths[a], NavPaths[b]);
    }
  }

  /**
   * The bar's state. `darkClass` stands for the `dark` class on the
   * document's root element, which the bar's own switch adds and removes.
   */
  class NavbarState {
    var isOpen: bool
    var scrolled: bool
    var isDarkMode: bool
    var darkClass: bool

    /** All three flags start false; the document's class is whatever it already was. */
    constructor(documentDark: bool)
      ensures !isOpen && !scrolled && !isDarkMode
      ensures darkClass == documentDark
    {
      isOpen := false;
      scrolled := false;
      isDarkMode := false;
      darkClass := documentDark;
    }

    /** `toggleTheme`: the switch flips, and the document's class then agrees with it. */
    method ToggleTheme()
      modifies this
      ensures isDarkMode == !old(isDarkMode)
      ensures darkClass == isDarkMode
      ensures isOpen == old(isOpen) && scrolled == old(scrolled)
    {
      var wasDark := isDarkMode;
      isDarkMode := !wasDark;
      if !wasDark {
        darkClass := true;
      } else {
        darkClass := false;
      }
    }

    /** The scroll listener: the bar counts as scrolled once the page is more than 10 pixels down. */
    method OnScroll(scrollY: real)
      modifies this
      ensures scrolled <==> scrollY > 10.0
      ensures isOpen == old(isOpen) && isDarkMode == old(isDarkMode) && darkClass == old(darkClass)
    {
      scrolled := scrollY > 10.0;
    }

    /** The location effect: moving to another page closes the mobile menu. */
    method OnLocationChange()
      modifies this
      ensures !isOpen
      ensures scrolled == old(scrolled) && isDarkMode == old(isDarkMode) && darkClass == old(darkClass)
    {
      isOpen := false;
    }

    /** The menu button of the small-screen bar. */
    method OpenMenu()
      modifies this
      ensures isOpen
      ensures scrolled == old(scrolled) && isDarkMode == old(isDarkMode) && darkClass == old(darkClass)
    {
      isOpen := true;
    }

    /** The menu/close button of the mobile header. */
    method ToggleMenu()
      modifies this
      ensures isOpen == !old(isOpen)
      ensures scrolled == old(scrolled) && isDarkMode == old(isDarkMode) && darkClass == old(darkClass)
    {
      isOpen := !isOpen;
    }

    /** The backdrop, the close button and every link of the open menu. */
    method CloseMenu()
      modifies this
      ensures !isOpen
      ensures scrolled == old(scrolled) && isDarkMode == old(isDarkMode) && darkClass == old(darkClass)
    {
      isOpen := false;
    }
  }

  /** Toggling the bar's theme twice restores the mode, and leaves the document's class in step with it. */
  method ToggleTwice(nav: NavbarState)
    modifies nav
    ensures nav.isDarkMode == old(nav.isDarkMode)
    ensures nav.darkClass == nav.isDarkMode
  {
    nav.ToggleTheme();
    nav.ToggleTheme();
  }
}
