/** The dashboard's side navigation and which of its entries is highlighted for the current
    path. */
module Sidebar {
  import opened Common
  import M = Middleware

  datatype NavItem = NavItem(name: string, href: string)

  const Navigation: seq<NavItem> := [
    NavItem("Overview", "/dashboard"),
    NavItem("API Keys", "/dashboard/keys"),
    NavItem("Usage", "/dashboard/usage"),
    NavItem("Billing", "/dashboard/billing")
  ]

  const SecondaryNavigation: seq<NavItem> := [NavItem("Documentation", "/docs")]

  /** Overview is highlighted on `/dashboard` alone; every other entry on any path below its
      address. */
  predicate IsActive(item: NavItem, pathname: string) {
    if item.href == "/dashboard" then pathname == "/dashboard" else StartsWith(pathname, item.href)
  }

  /** Which entry the path names: Overview on `/dashboard` alone, every other entry by the
      twelfth character of the path. */
  lemma ActiveEntryDetermines(pathname: string, i: nat)
    requires i < |Navigation| && IsActive(Navigation[i], pathname)
    ensures i == 0 <==> pathname == "/dashboard"
    ensures i != 0 ==> |pathname| > 11 && pathname[11] == Navigation[i].href[11]
  {
    if i != 0 {
      var h := Navigation[i].href;
      assert |h| > 11 && pathname[..|h|] == h;
      assert pathname[11] == pathname[..|h|][11];
    }
  }

  /** Two entries highlighted at once are the same entry. */
  lemma AtMostOneActive(pathname: string, i: nat, j: nat)
    requires i < |Navigation| && j < |Navigation|
    requires IsActive(Navigation[i], pathname) && IsActive(Navigation[j], pathname)
    ensures i == j
  {
    ActiveEntryDetermines(pathname, i);
    ActiveEntryDetermines(pathname, j);
  }

  /** Every page below `/dashboard/keys` highlights "API Keys", and not "Overview". */
  lemma KeysPathHighlightsKeys(pathname: string)
    requires StartsWith(pathname, "/dashboard/keys")
    ensures IsActive(Navigation[1], pathname) && !IsActive(Navigation[0], pathname)
  {
  }

  /** An entry is highlighted only on a page the middleware guards. */
  lemma HighlightedPagesAreProtected(pathname: string, i: nat)
    requires i < |Navigation| && IsActive(Navigation[i], pathname)
    ensures M.IsProtectedRoute(pathname)
  {
    if i == 0 {
      assert StartsWith(pathname, M.ProtectedRoutes[0]);
    } else {
      StartsWithTransitive(pathname, Navigation[i].href, "/dashboard");
      assert StartsWith(pathname, M.ProtectedRoutes[0]);
    }
  }
}
