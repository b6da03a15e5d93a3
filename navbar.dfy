/** The sidebar navigation: a fixed table of six links, the active-link
    highlight computed from the current pathname, and the mobile menu's
    open/closed flag with its hamburger button, overlay and link clicks. */
module Navbar {

  /** One row of `navItems`; the icon is left out. */
  datatype NavItem = NavItem(id: string, path: string, caption: string)

  const NavItems: seq<NavItem> := [
    NavItem("home", "/", "Home"),
    NavItem("about", "/about", "About"),
    NavItem("projects", "/projects", "Projects"),
    NavItem("experience", "/experience", "Experience"),
    NavItem("skills", "/skills", "Skills"),
    NavItem("contact", "/contact", "Contact")
  ]

  /** `location.pathname === item.path`: plain string equality, no prefix
      matching and no normalisation. */
  predicate IsActive(item: NavItem, pathname: string)
    ensures IsActive(item, pathname) <==>
      |pathname| == |item.path| && forall k :: 0 <= k < |pathname| ==> pathname[k] == item.path[k]
  {
    pathname == item.path
  }

  /** One rendered `<li>`: its React key, its class list, and the link's
      target and text. */
  datatype NavEntry = NavEntry(key: string, className: string, to: string, text: string)

  function RenderNavItem(item: NavItem, pathname: string): (e: NavEntry)
    ensures e.key == item.id && e.to == item.path && e.text == item.caption
    ensures e.className == "nav-item active" <==> IsActive(item, pathname)
    ensures e.className == "nav-item " <==> !IsActive(item, pathname)
  {
    NavEntry(item.id, "nav-item " + (if pathname == item.path then "active" else ""), item.path, item.caption)
  }

  /** `navItems.map(...)`: one entry per item, in table order. */
  function RenderNavItems(items: seq<NavItem>, pathname: string): (r: seq<NavEntry>)
    ensures |r| == |items|
    ensures forall i :: 0 <= i < |items| ==> r[i] == RenderNavItem(items[i], pathname)
  {
    if items == [] then [] else [RenderNavItem(items[0], pathname)] + RenderNavItems(items[1..], pathname)
  }

  /** The table is never empty, has six entries, and no two share an id or a path. */
  lemma NavTableWellFormed()
    ensures |NavItems| == 6
    ensures forall i, j :: 0 <= i < j < |NavItems| ==> NavItems[i].id != NavItems[j].id
    ensures forall i, j :: 0 <= i < j < |NavItems| ==> NavItems[i].path != NavItems[j].path
  {
  }

  /** The rendered list highlights entry `i` exactly when the pathname is
      that entry's path. */
  lemma RenderedHighlight(pathname: string)
    ensures forall i :: 0 <= i < |NavItems| ==>
      (RenderNavItems(NavItems, pathname)[i].className == "nav-item active" <==> IsActive(NavItems[i], pathname))
  {
  }

  /** Since paths are distinct, no pathname highlights two entries; each of
      the six table paths highlights its own entry, and any other pathname
      (`/projects/`, `/Projects`, `/x`) highlights none. */
  lemma AtMostOneActive(pathname: string)
    ensures forall i, j ::
      (0 <= i < |NavItems| && 0 <= j < |NavItems| && IsActive(NavItems[i], pathname) && IsActive(NavItems[j], pathname)) ==> i == j
    ensures (exists i :: 0 <= i < |NavItems| && IsActive(NavItems[i], pathname))
      <==> pathname in {"/", "/about", "/projects", "/experience", "/skills", "/contact"}
  {
    NavTableWellFormed();
    if pathname in {"/", "/about", "/projects", "/experience", "/skills", "/contact"} {
      if pathname == "/" { assert IsActive(NavItems[0], pathname); }
      else if pathname == "/about" { assert IsActive(NavItems[1], pathname); }
      else if pathname == "/projects" { assert IsActive(NavItems[2], pathname); }
      else if pathname == "/experience" { assert IsActive(NavItems[3], pathname); }
      else if pathname == "/skills" { assert IsActive(NavItems[4], pathname); }
      else { assert IsActive(NavItems[5], pathname); }
    }
  }

  /** `/` is not a prefix match: the Home link is dark on every other page. */
  lemma HomeNotActiveElsewhere(pathname: string)
    requires pathname != "/"
    ensures RenderNavItems(NavItems, pathname)[0].className == "nav-item "
  {
  }

  /** The component's one piece of state, `isMobileMenuOpen`. */
  class Navbar {
    var isMobileMenuOpen: bool

    constructor ()
      ensures !isMobileMenuOpen
    {
      isMobileMenuOpen := false;
    }

    /** The hamburger button's click handler. */
    method ToggleMobileMenu()
      modifies this
      ensures isMobileMenuOpen == !old(isMobileMenuOpen)
    {
      isMobileMenuOpen := !isMobileMenuOpen;
    }

    method CloseMobileMenu()
      modifies this
      ensures !isMobileMenuOpen
    {
      isMobileMenuOpen := false;
    }

    /** A click on nav link `i`: the menu closes and the router is sent to
        the item's path, which is returned. */
    method ClickNavLink(i: nat) returns (to: string)
      requires i < |NavItems|
      modifies this
      ensures !isMobileMenuOpen && to == NavItems[i].path
    {
      CloseMobileMenu();
      to := NavItems[i].path;
    }

    /** The overlay is rendered only while the menu is open. */
    predicate OverlayShown()
      reads this
      ensures OverlayShown() <==> HamburgerClass() == "hamburger open"
      ensures OverlayShown() <==> NavClass() == "navbar mobile-open"
    {
      isMobileMenuOpen
    }

    /** A click where the overlay would be: when it is rendered its handler
        toggles the menu, which then closes it; otherwise nothing is hit. */
    method ClickOverlay()
      modifies this
      ensures !isMobileMenuOpen
    {
      if OverlayShown() {
        ToggleMobileMenu();
      }
    }

    function HamburgerClass(): (c: string)
      reads this
      ensures c == "hamburger open" <==> isMobileMenuOpen
      ensures c == "hamburger " <==> !isMobileMenuOpen
    {
      "hamburger " + (if isMobileMenuOpen then "open" else "")
    }

    function NavClass(): (c: string)
      reads this
      ensures c == "navbar mobile-open" <==> isMobileMenuOpen
      ensures c == "navbar " <==> !isMobileMenuOpen
    {
      "navbar " + (if isMobileMenuOpen then "mobile-open" else "")
    }
  }

  /** Toggling twice restores the menu, and closing twice is closing once. */
  method ToggleTwiceRestores(nav: Navbar)
    modifies nav
    ensures nav.isMobileMenuOpen == old(nav.isMobileMenuOpen)
  {
    nav.ToggleMobileMenu();
    nav.ToggleMobileMenu();
  }

  method CloseIsIdempotent(nav: Navbar)
    modifies nav
    ensures !nav.isMobileMenuOpen
  {
    nav.CloseMobileMenu();
    nav.CloseMobileMenu();
  }

  /** Clicking the hamburger while the menu is closed opens it: the overlay
      appears and both the hamburger and the nav carry their open class. */
  method OpenMenu(nav: Navbar)
    modifies nav
    ensures nav.OverlayShown() && nav.HamburgerClass() == "hamburger open" && nav.NavClass() == "navbar mobile-open"
  {
    if !nav.isMobileMenuOpen {
      nav.ToggleMobileMenu();
    }
  }

  /** Opening the menu and then following any link leaves it closed. */
  method OpenThenNavigate(nav: Navbar, i: nat) returns (to: string)
    requires i < |NavItems|
    modifies nav
    ensures !nav.isMobileMenuOpen && to == NavItems[i].path
  {
    OpenMenu(nav);
    to := nav.ClickNavLink(i);
  }
}
