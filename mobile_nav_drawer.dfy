/**
 * The mobile navigation drawer (client/src/components/shared/Navbar/MobileNavDrawer.tsx):
 * its three links and which of them is highlighted for the current path.
 */
module MobileNavDrawer {
  import opened Text
  import NavbarClient

  /** The drawer's links, in order: Home, All Products, Contact Us. */
  const NavHrefs: seq<string> := ["/", "/products", "/contact"]

  /** The drawer's `isActiveLink`: "/" is tested first, then "/products", then an exact match. */
  predicate DrawerIsActiveLink(pathname: string, href: string) {
    if href == "/" then pathname == "/"
    else if href == "/products" then pathname == "/products" || StartsWith(pathname, "/products/")
    else pathname == href
  }

  /**
   * The special case for "/" is the exact match the last branch would make
   * anyway: the drawer and the desktop bar highlight the same links for
   * every path.
   */
  lemma SameAsNavbar(pathname: string, href: string)
    ensures DrawerIsActiveLink(pathname, href) <==> NavbarClient.IsActiveLink(pathname, href)
  {
  }

  /** Home is active only on "/" itself; the products link on "/products" and below it, not on "/productsX". */
  lemma DrawerLinksSpec(pathname: string)
    ensures DrawerIsActiveLink(pathname, "/") <==> pathname == "/"
    ensures DrawerIsActiveLink(pathname, "/products") <==> (pathname == "/products" || StartsWith(pathname, "/products/"))
    ensures DrawerIsActiveLink(pathname, "/contact") <==> pathname == "/contact"
    ensures !DrawerIsActiveLink("/productsX", "/products")
    ensures !DrawerIsActiveLink("/products/1", "/")
  {
    assert "/productsX"[..|"/products/"|] != "/products/" by {
      assert "/productsX"[9] != "/products/"[9];
    }
  }

  /** Whatever the path, at most one of the three links is highlighted. */
  lemma AtMostOneActive(pathname: string)
    ensures forall i, j :: 0 <= i < j < |NavHrefs| ==>
      !(DrawerIsActiveLink(pathname, NavHrefs[i]) && DrawerIsActiveLink(pathname, NavHrefs[j]))
  {
    if StartsWith(pathname, "/products/") {
      assert pathname[..|"/products/"|] == "/products/";
      assert pathname != "/" && pathname != "/contact" by {
        assert |pathname| >= 10;
      }
    }
  }
}
