/**
 * The dashboard sidebar: a fixed list of four menu entries, and the rule that
 * highlights the entry for the current pathname.
 */
module Sidebar {
  import opened Common

  datatype NavItem = NavItem(name: string, href: string)

  const DashboardHref := "/dashboard"

  /** The menu, top to bottom. */
  const Navigation: seq<NavItem> := [
    NavItem("Dashboard", DashboardHref),
    NavItem("Booking History", "/dashboard/booking-history"),
    NavItem("My Wallet", "/dashboard/my-wallet"),
    NavItem("Setting", "/dashboard/settings")
  ]

  /** The dashboard entry matches its path exactly; every other entry by raw string prefix. */
  predicate IsActive(item: NavItem, pathname: string)
  {
    if item.href == DashboardHref then pathname == item.href else StartsWith(pathname, item.href)
  }

  /** The indices of the highlighted entries. */
  function ActiveEntries(pathname: string): (r: set<nat>)
    ensures forall i: nat :: i in r <==> i < |Navigation| && IsActive(Navigation[i], pathname)
  {
    set i: nat | i < |Navigation| && IsActive(Navigation[i], pathname)
  }

  /** The menu's entries, names and order. */
  lemma NavigationOrder()
    ensures |Navigation| == 4
    ensures Navigation[0].name == "Dashboard" && Navigation[1].name == "Booking History"
    ensures Navigation[2].name == "My Wallet" && Navigation[3].name == "Setting"
    ensures forall i :: 0 <= i < |Navigation| ==> StartsWith(Navigation[i].href, DashboardHref)
  {
  }

  lemma DifferAt(a: string, b: string, k: nat)
    requires k < |a| && k < |b| && a[k] != b[k]
    ensures !StartsWith(a, b) && !StartsWith(b, a)
  {
    if |b| <= |a| { assert a[..|b|][k] == a[k]; }
    if |a| <= |b| { assert b[..|a|][k] == b[k]; }
  }

  /** No entry other than the dashboard's has an href that is a prefix of another entry's. */
  lemma HrefsIndependent(i: nat, j: nat)
    requires 1 <= i < |Navigation| && 1 <= j < |Navigation| && i != j
    ensures !StartsWith(Navigation[j].href, Navigation[i].href)
  {
    var h1, h2, h3 := Navigation[1].href, Navigation[2].href, Navigation[3].href;
    assert h1[11] == 'b' && h2[11] == 'm' && h3[11] == 's';
    DifferAt(h1, h2, 11);
    DifferAt(h1, h3, 11);
    DifferAt(h2, h3, 11);
  }

  /**
   * The dashboard entry is highlighted only on "/dashboard" itself, and every
   * other entry exactly on the paths that start with its href.
   */
  lemma ActiveRule(pathname: string)
    ensures IsActive(Navigation[0], pathname) <==> pathname == "/dashboard"
    ensures forall i :: 1 <= i < |Navigation| ==>
      (IsActive(Navigation[i], pathname) <==> StartsWith(pathname, Navigation[i].href))
  {
    forall i | 1 <= i < |Navigation|
      ensures Navigation[i].href != DashboardHref
    {
      assert |Navigation[i].href| > |DashboardHref|;
    }
  }

  /** Whatever the pathname, at most one entry is highlighted. */
  lemma AtMostOneActive(pathname: string)
    ensures |ActiveEntries(pathname)| <= 1
    ensures forall i, j :: i in ActiveEntries(pathname) && j in ActiveEntries(pathname) ==> i == j
  {
    var act := ActiveEntries(pathname);
    ActiveRule(pathname);
    // The dashboard entry is active only on "/dashboard", which is shorter
    // than every other href; two other entries would need nested hrefs.
    forall i, j | i in act && j in act ensures i == j {
      if i != j && i != 0 && j != 0 {
        if |Navigation[i].href| <= |Navigation[j].href| {
          PrefixesNest(pathname, Navigation[i].href, Navigation[j].href);
          HrefsIndependent(i, j);
        } else {
          PrefixesNest(pathname, Navigation[j].href, Navigation[i].href);
          HrefsIndependent(j, i);
        }
      }
    }
    if act != {} {
      var a :| a in act;
      assert act == {a};
    }
  }

  /** On the change-password page only the "Setting" entry is highlighted. */
  lemma ChangePasswordHighlightsSetting()
    ensures ActiveEntries("/dashboard/settings/change-password") == {3}
  {
    var p := "/dashboard/settings/change-password";
    ActiveRule(p);
    assert StartsWith(p, Navigation[3].href) by {
      assert p[..|Navigation[3].href|] == Navigation[3].href;
    }
    AtMostOneActive(p);
  }
}
