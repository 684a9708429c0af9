/** The navigation sidebar: which item is highlighted for the current path,
    and the mobile menu's open/closed state. */
module Sidebar {
  import opened Strings
  import opened Browser
  import opened AuthContext

  datatype NavItem = NavItem(href: string, caption: string)

  /** The five destinations, in display order. */
  const NavItems: seq<NavItem> := [
    NavItem("/", "Dasbor"),
    NavItem("/products", "Produk"),
    NavItem("/categories", "Kategori"),
    NavItem("/users", "Pengguna"),
    NavItem("/reports", "Laporan")
  ]

  /** `isActive(href)`: the dashboard only on `/` itself, every other item on
      any path it is a prefix of. */
  predicate IsActive(pathname: string, href: string)
    ensures IsActive(pathname, href) ==> StartsWith(pathname, href)
    ensures href == "/" ==> (IsActive(pathname, href) <==> pathname == "/")
  {
    if href == "/" then pathname == "/" else StartsWith(pathname, href)
  }

  /** The dashboard item is highlighted exactly on `/`; a sub-page such as
      `/products/7` never highlights it. */
  lemma DashboardOnlyOnRoot(pathname: string)
    ensures IsActive(pathname, NavItems[0].href) <==> pathname == "/"
  {
  }

  /** Whatever the path, at most one of the five items is highlighted. */
  lemma {:induction false} AtMostOneActive(pathname: string, i: nat, j: nat)
    requires i < j < |NavItems|
    ensures !(IsActive(pathname, NavItems[i].href) && IsActive(pathname, NavItems[j].href))
  {
    var hi, hj := NavItems[i].href, NavItems[j].href;
    if i == 0 {
      // the dashboard needs the path "/", which is shorter than every other href
      assert |hj| > 1;
    } else {
      // the other hrefs already differ in their second character
      assert hi[1] != hj[1];
      assert StartsWith(pathname, hi) ==> pathname[1] == pathname[..|hi|][1] == hi[1];
      assert StartsWith(pathname, hj) ==> pathname[1] == pathname[..|hj|][1] == hj[1];
    }
  }

  /** After following an item's link, that item is the highlighted one. */
  lemma {:induction false} FollowedItemIsActive(i: nat)
    requires i < |NavItems|
    ensures IsActive(NavItems[i].href, NavItems[i].href)
    ensures forall j :: 0 <= j < |NavItems| && j != i ==> !IsActive(NavItems[i].href, NavItems[j].href)
  {
    forall j | 0 <= j < |NavItems| && j != i
      ensures !IsActive(NavItems[i].href, NavItems[j].href)
    {
      if j < i { AtMostOneActive(NavItems[i].href, j, i); } else { AtMostOneActive(NavItems[i].href, i, j); }
    }
  }

  class SidebarState {
    var isMobileMenuOpen: bool

    constructor ()
      ensures !isMobileMenuOpen
    {
      isMobileMenuOpen := false;
    }

    /** The menu button flips the menu. */
    method ToggleMobileMenu()
      modifies this
      ensures isMobileMenuOpen == !old(isMobileMenuOpen)
    {
      isMobileMenuOpen := !isMobileMenuOpen;
    }

    /** `closeMobileMenu`, also run by a click on the overlay. */
    method CloseMobileMenu()
      modifies this
      ensures !isMobileMenuOpen
    {
      isMobileMenuOpen := false;
    }

    /** A click on a navigation link closes the menu and goes to its page. */
    method FollowNavItem(w: Window, i: nat)
      requires i < |NavItems|
      modifies this, w
      ensures !isMobileMenuOpen
      ensures w.pathname == NavItems[i].href && w.cookies == old(w.cookies)
    {
      CloseMobileMenu();
      w.Navigate(NavItems[i].href);
    }

    /** The logout button closes the menu first, then logs out. */
    method ClickLogout(auth: AuthProvider)
      modifies this, auth, auth.window
      ensures !isMobileMenuOpen
      ensures auth.State() == LoggedOut(old(auth.State()))
      ensures auth.window.pathname == "/login" && auth.loading == old(auth.loading)
    {
      CloseMobileMenu();
      auth.Logout();
    }
  }
}
