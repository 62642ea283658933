/**
 * The site header: a scrolled flag sampled from the window's scroll offset,
 * the mobile menu flag, and the current route, from which the highlighted
 * link and the "glass" header style are derived.
 */
module Navigation {

  /** The header counts as scrolled strictly beyond this many pixels. */
  const ScrollThreshold: real := 100.0

  datatype NavLink = NavLink(name: string, href: string)

  const NavLinks: seq<NavLink> := [
    NavLink("Home", "/"),
    NavLink("About", "/about"),
    NavLink("Services", "/services"),
    NavLink("Projects", "/projects"),
    NavLink("Contact", "/contact")
  ]

  /** `isActive(path)`: exact equality with the current pathname, no normalisation. */
  predicate IsActive(pathname: string, path: string): (r: bool)
    ensures r <==> |pathname| == |path| && forall k :: 0 <= k < |path| ==> pathname[k] == path[k]
  {
    pathname == path
  }

  /** A trailing slash or a change of case is enough to leave a link unhighlighted. */
  lemma NoNormalisation()
    ensures !IsActive("/about/", "/about")
    ensures !IsActive("/About", "/about")
  {
    assert |"/about/"| != |"/about"|;
    assert "/About"[1] != "/about"[1];
  }

  /** The header turns to glass once scrolled, and on every page other than the home page. */
  predicate UsesGlass(isScrolled: bool, pathname: string): (r: bool)
    ensures !r <==> !isScrolled && pathname == "/"
  {
    isScrolled || pathname != "/"
  }

  /** How many of `links` render as active for `pathname`. */
  function ActiveLinkCount(pathname: string, links: seq<NavLink>): nat {
    if links == [] then 0
    else (if IsActive(pathname, links[0].href) then 1 else 0) + ActiveLinkCount(pathname, links[1..])
  }

  predicate DistinctHrefs(links: seq<NavLink>) {
    forall i, j :: 0 <= i < j < |links| ==> links[i].href != links[j].href
  }

  predicate HasHref(links: seq<NavLink>, path: string) {
    exists i :: 0 <= i < |links| && links[i].href == path
  }

  /** With distinct hrefs a pathname highlights one link if it is one of them, and none otherwise. */
  lemma {:induction false} ActiveLinkCountExact(pathname: string, links: seq<NavLink>)
    requires DistinctHrefs(links)
    ensures ActiveLinkCount(pathname, links) == if HasHref(links, pathname) then 1 else 0
  {
    if links != [] {
      var rest := links[1..];
      assert DistinctHrefs(rest) by {
        forall i, j | 0 <= i < j < |rest| ensures rest[i].href != rest[j].href {
          assert rest[i] == links[i + 1] && rest[j] == links[j + 1];
        }
      }
      ActiveLinkCountExact(pathname, rest);
      if links[0].href == pathname {
        assert !HasHref(rest, pathname) by {
          forall i | 0 <= i < |rest| ensures rest[i].href != pathname {
            assert rest[i] == links[i + 1];
          }
        }
        assert HasHref(links, pathname) by { assert links[0].href == pathname; }
      } else {
        if HasHref(links, pathname) {
          var i :| 0 <= i < |links| && links[i].href == pathname;
          assert rest[i - 1] == links[i];
        }
        if HasHref(rest, pathname) {
          var i :| 0 <= i < |rest| && rest[i].href == pathname;
          assert links[i + 1] == rest[i];
        }
      }
    }
  }

  /** The five routes are distinct, so at most one link is highlighted, exactly one on a listed route. */
  lemma AtMostOneActiveLink(pathname: string)
    ensures ActiveLinkCount(pathname, NavLinks) <= 1
    ensures ActiveLinkCount(pathname, NavLinks) == 1 <==> HasHref(NavLinks, pathname)
  {
    ActiveLinkCountExact(pathname, NavLinks);
  }

  /** Away from the home page the header is glass whatever the scroll position. */
  lemma GlassAwayFromHome(isScrolled: bool, pathname: string)
    requires pathname != "/"
    ensures UsesGlass(isScrolled, pathname)
  {
  }

  class NavState {
    var isScrolled: bool
    var isMobileMenuOpen: bool
    var pathname: string

    /** On mount the header is unscrolled and the mobile menu closed. */
    constructor (pathname: string)
      ensures !isScrolled && !isMobileMenuOpen && this.pathname == pathname
    {
      isScrolled := false;
      isMobileMenuOpen := false;
      this.pathname := pathname;
    }

    /** `handleScroll`: a scroll event re-samples the offset against the strict threshold. */
    method HandleScroll(scrollY: real)
      modifies this
      ensures isScrolled <==> scrollY > ScrollThreshold
      ensures isMobileMenuOpen == old(isMobileMenuOpen) && pathname == old(pathname)
    {
      isScrolled := scrollY > ScrollThreshold;
    }

    /** The menu button flips the mobile menu. */
    method ToggleMobileMenu()
      modifies this
      ensures isMobileMenuOpen == !old(isMobileMenuOpen)
      ensures isScrolled == old(isScrolled) && pathname == old(pathname)
    {
      isMobileMenuOpen := !isMobileMenuOpen;
    }

    /** Every navigation, to any route, closes the mobile menu. */
    method RouteChange(newPathname: string)
      modifies this
      ensures pathname == newPathname && !isMobileMenuOpen
      ensures isScrolled == old(isScrolled)
    {
      pathname := newPathname;
      isMobileMenuOpen := false;
    }

    /** The header is transparent only while unscrolled with the Home link highlighted. */
    function Glass(): (r: bool)
      reads this
      ensures r <==> isScrolled || !IsActive(pathname, "/")
    {
      UsesGlass(isScrolled, pathname)
    }
  }

  /** Two presses of the menu button restore the menu; a scroll sample of exactly 100 is not "scrolled". */
  method MenuAndScrollExample(nav: NavState)
    modifies nav
    ensures nav.isMobileMenuOpen == old(nav.isMobileMenuOpen)
    ensures !nav.isScrolled
  {
    nav.ToggleMobileMenu();
    nav.ToggleMobileMenu();
    nav.HandleScroll(100.0);
  }
}
