/**
 * The dashboard sidebar of `src/components/dashboard/DashboardSidebar.jsx`:
 * which navigation entry is highlighted for the current path, the collapse
 * toggle, and the quick actions shown when collapsed.
 */
module Sidebar {
  datatype NavItem = NavItem(name: string, path: string)

  const DashboardPath: string := "/dashboard"

  const NavigationItems: seq<NavItem> := [
    NavItem("Dashboard", DashboardPath),
    NavItem("Services", "/dashboard/services"),
    NavItem("Invoices", "/dashboard/invoices"),
    NavItem("Profile", "/dashboard/profile"),
    NavItem("Support", "/dashboard/support")
  ]

  const QuickActions: seq<string> := ["Add Domain", "Upgrade Plan", "SSL Certificate", "Database"]

  /**
   * `isActive(path)`: the overview entry only on exactly its own path; every
   * other entry whenever its path is a string prefix of the current one,
   * with no regard for '/' boundaries.
   */
  predicate IsActive(itemPath: string, pathname: string)
  {
    if itemPath == DashboardPath then pathname == DashboardPath
    else itemPath <= pathname
  }

  /** The names of the highlighted entries among `items`, in menu order. */
  function ActiveNames(items: seq<NavItem>, pathname: string): (names: seq<string>)
    ensures |names| <= |items|
    ensures forall n :: n in names <==>
      exists i :: 0 <= i < |items| && items[i].name == n && IsActive(items[i].path, pathname)
  {
    if |items| == 0 then []
    else
      var rest := ActiveNames(items[1..], pathname);
      var head := if IsActive(items[0].path, pathname) then [items[0].name] else [];
      assert forall n :: n in rest ==>
        exists i :: 0 <= i < |items| && items[i].name == n && IsActive(items[i].path, pathname) by {
        forall n | n in rest
          ensures exists i :: 0 <= i < |items| && items[i].name == n && IsActive(items[i].path, pathname)
        {
          var k :| 0 <= k < |items[1..]| && items[1..][k].name == n && IsActive(items[1..][k].path, pathname);
          assert items[k + 1] == items[1..][k];
        }
      }
      assert forall i :: 1 <= i < |items| && IsActive(items[i].path, pathname) ==> items[i].name in rest by {
        forall i | 1 <= i < |items| && IsActive(items[i].path, pathname) ensures items[i].name in rest {
          assert items[1..][i - 1] == items[i];
        }
      }
      head + rest
  }

  /** On the overview page itself only "Dashboard" is highlighted: no other entry's path is that short. */
  lemma OverviewHighlightsOnlyDashboard()
    ensures ActiveNames(NavigationItems, DashboardPath) == ["Dashboard"]
  {
    var items := NavigationItems;
    assert forall i :: 1 <= i < |items| ==> |items[i].path| > |DashboardPath|;
    assert ActiveNames(items[5..], DashboardPath) == [];
    assert ActiveNames(items[4..], DashboardPath) == [];
    assert ActiveNames(items[3..], DashboardPath) == [];
    assert ActiveNames(items[2..], DashboardPath) == [];
    assert ActiveNames(items[1..], DashboardPath) == [];
  }

  /** An invoice's own page highlights "Invoices" and nothing else, not even "Dashboard". */
  lemma InvoiceDetailHighlightsInvoices(id: string)
    ensures ActiveNames(NavigationItems, "/dashboard/invoices/" + id) == ["Invoices"]
  {
    var p := "/dashboard/invoices/" + id;
    var items := NavigationItems;
    assert p[..19] == "/dashboard/invoices";
    assert p[11] == 'i';
    assert !IsActive(items[4].path, p) by { assert items[4].path[11] == 's'; }
    assert !IsActive(items[3].path, p) by { assert items[3].path[11] == 'p'; }
    assert !IsActive(items[1].path, p) by { assert items[1].path[11] == 's'; }
    assert !IsActive(items[0].path, p) by { assert |p| > |DashboardPath|; }
    assert ActiveNames(items[5..], p) == [];
    assert ActiveNames(items[4..], p) == [];
    assert ActiveNames(items[3..], p) == [];
    assert ActiveNames(items[2..], p) == ["Invoices"];
    assert ActiveNames(items[1..], p) == ["Invoices"];
  }

  /** Prefix matching ignores segment boundaries: "/dashboard/servicesX" highlights "Services". */
  lemma PrefixIgnoresSegments()
    ensures IsActive("/dashboard/services", "/dashboard/servicesX")
  {
    assert "/dashboard/services" == "/dashboard/servicesX"[..19];
  }

  /** The collapse button. */
  function ToggleCollapsed(collapsed: bool): bool
  {
    !collapsed
  }

  /** Two clicks on the collapse button restore the sidebar. */
  lemma CollapseTwiceRestores(collapsed: bool)
    ensures ToggleCollapsed(ToggleCollapsed(collapsed)) == collapsed
  {
  }

  /**
   * Collapsing the open sidebar swaps the full grid of quick actions for the
   * first four as icons, and expanding it brings the full grid back.
   */
  lemma CollapseShowsFirstFour()
    ensures ShownQuickActions(ToggleCollapsed(false)) == QuickActions[..4]
    ensures ShownQuickActions(ToggleCollapsed(true)) == QuickActions
  {
  }

  /** The quick actions rendered: the full grid when open, `slice(0, 4)` as icons when collapsed. */
  function ShownQuickActions(collapsed: bool): (r: seq<string>)
    ensures r <= QuickActions
    ensures collapsed ==> |r| == if |QuickActions| < 4 then |QuickActions| else 4
    ensures !collapsed ==> r == QuickActions
  {
    if collapsed then QuickActions[..if |QuickActions| < 4 then |QuickActions| else 4] else QuickActions
  }
}
