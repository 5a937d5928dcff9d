/**
 * The portal frame: the role-filtered side menu, the header title looked up
 * from it, and the collapsible sidebar.
 */
module Layout {
  import opened Values
  import opened Types

  /** A side-menu entry: the tab id it selects, its label, and the roles that see it. */
  datatype NavItem = NavItem(id: string, name: string, roles: seq<UserRole>)

  /** The menu, in display order. */
  const NavItems: seq<NavItem> := [
    NavItem("overview", "Dashboard", [SuperAdmin, Reviewer, Inspector, Agent]),
    NavItem("revenue", "Revenue Portal", [SuperAdmin, Reviewer, Agent]),
    NavItem("inspections", "Inspections", [SuperAdmin, Inspector]),
    NavItem("agent", "Agent Operations", [SuperAdmin, Agent]),
    NavItem("users", "User Management", [SuperAdmin])
  ]

  const DefaultTitle: string := "Dashboard"

  /** `getAllowedItems()`: the menu entries whose role list includes `role`, in menu order. */
  function AllowedItems(role: UserRole): (r: seq<NavItem>)
    ensures |r| <= |NavItems|
    ensures forall i :: 0 <= i < |r| ==> r[i] in NavItems && role in r[i].roles
  {
    var r := Filter(NavItems, ShownTo(role));
    assert forall i :: 0 <= i < |r| ==> r[i] in NavItems && role in r[i].roles by {
      forall i | 0 <= i < |r|
        ensures r[i] in NavItems && role in r[i].roles
      {
        FilterMembers(NavItems, ShownTo(role), r[i]);
      }
    }
    r
  }

  /** `item => item.roles.includes(role)` */
  function ShownTo(role: UserRole): NavItem -> bool {
    (item: NavItem) => role in item.roles
  }

  function Ids(items: seq<NavItem>): (ids: seq<string>)
    ensures |ids| == |items| && forall i :: 0 <= i < |items| ==> ids[i] == items[i].id
  {
    seq(|items|, i requires 0 <= i < |items| => items[i].id)
  }

  /** Entry `k` is the first entry of `items` whose id is `tab`. */
  predicate FirstWithId(items: seq<NavItem>, tab: string, k: int) {
    0 <= k < |items| && items[k].id == tab && forall j :: 0 <= j < k ==> items[j].id != tab
  }

  /** The first entry of `items` with id `tab`, if any (`Array.prototype.find`). */
  function FindItem(items: seq<NavItem>, tab: string): (r: Option<NavItem>)
    ensures r.Some? ==> exists k :: FirstWithId(items, tab, k) && items[k] == r.value
    ensures r.None? <==> tab !in Ids(items)
  {
    if items == [] then None
    else if items[0].id == tab then
      assert FirstWithId(items, tab, 0);
      Some(items[0])
    else
      var r := FindItem(items[1..], tab);
      FindItemStep(items, tab, r);
      r
  }

  /** A miss on the head passes the first match of the tail up one position. */
  lemma FindItemStep(items: seq<NavItem>, tab: string, r: Option<NavItem>)
    requires items != [] && items[0].id != tab
    requires r.Some? ==> exists k :: FirstWithId(items[1..], tab, k) && items[1..][k] == r.value
    requires r.None? <==> tab !in Ids(items[1..])
    ensures r.Some? ==> exists k :: FirstWithId(items, tab, k) && items[k] == r.value
    ensures r.None? <==> tab !in Ids(items)
  {
    assert Ids(items) == [items[0].id] + Ids(items[1..]);
    if r.Some? {
      var k :| FirstWithId(items[1..], tab, k) && items[1..][k] == r.value;
      assert FirstWithId(items, tab, k + 1);
    }
  }

  /** The header title: the name of the allowed entry for the active tab; a missing entry or empty name shows the default. */
  function HeaderTitle(role: UserRole, activeTab: string): (title: string)
    ensures title != ""
    ensures title == DefaultTitle || exists item :: item in AllowedItems(role) && item.id == activeTab && item.name == title
  {
    match FindItem(AllowedItems(role), activeTab)
    case Some(item) => if item.name == "" then DefaultTitle else item.name
    case None => DefaultTitle
  }

  // ---------------------------------------------------------------------
  // Lemmas
  // ---------------------------------------------------------------------

  /** An entry is allowed exactly when it is on the menu and lists the role. */
  lemma AllowedItemsExact(role: UserRole, item: NavItem)
    ensures item in AllowedItems(role) <==> item in NavItems && role in item.roles
  {
    FilterMembers(NavItems, ShownTo(role), item);
  }

  /** The menu filter, written out over the five entries. */
  lemma MenuUnfolded(role: UserRole)
    ensures var m, p := NavItems, ShownTo(role);
      AllowedItems(role) ==
        Filter(m[..4], p) + (if p(m[4]) then [m[4]] else [])
    ensures var m, p := NavItems, ShownTo(role);
      Filter(m[..4], p) == Filter(m[..3], p) + (if p(m[3]) then [m[3]] else [])
    ensures var m, p := NavItems, ShownTo(role);
      Filter(m[..3], p) == Filter(m[..2], p) + (if p(m[2]) then [m[2]] else [])
    ensures var m, p := NavItems, ShownTo(role);
      Filter(m[..2], p) == (if p(m[0]) then [m[0]] else []) + (if p(m[1]) then [m[1]] else [])
  {
    var m, p := NavItems, ShownTo(role);
    assert m[..0] == [] && m[..5] == m;
    FilterPrefixStep(m, p, 0);
    FilterPrefixStep(m, p, 1);
    FilterPrefixStep(m, p, 2);
    FilterPrefixStep(m, p, 3);
    FilterPrefixStep(m, p, 4);
  }

  /** The menu each role sees, in display order. */
  lemma AllowedPerRole(role: UserRole)
    ensures AllowedItems(role) == match role
      case SuperAdmin => NavItems
      case Reviewer => [NavItems[0], NavItems[1]]
      case Inspector => [NavItems[0], NavItems[2]]
      case Agent => [NavItems[0], NavItems[1], NavItems[3]]
  {
    MenuUnfolded(role);
    match role
    case SuperAdmin =>
      assert NavItems == [NavItems[0], NavItems[1], NavItems[2], NavItems[3], NavItems[4]];
    case Reviewer =>
    case Inspector =>
    case Agent =>
  }

  /** The same, by tab id. */
  lemma AllowedIdsPerRole(role: UserRole)
    ensures Ids(AllowedItems(role)) == match role
      case SuperAdmin => ["overview", "revenue", "inspections", "agent", "users"]
      case Reviewer => ["overview", "revenue"]
      case Inspector => ["overview", "inspections"]
      case Agent => ["overview", "revenue", "agent"]
  {
    AllowedPerRole(role);
  }

  /** Every role sees the dashboard entry first. */
  lemma OverviewAlwaysAllowed(role: UserRole)
    ensures |AllowedItems(role)| > 0 && AllowedItems(role)[0] == NavItems[0]
    ensures "overview" in Ids(AllowedItems(role))
  {
    AllowedPerRole(role);
  }

  /** Only the super administrator sees user management. */
  lemma UsersOnlyForSuperAdmin(role: UserRole)
    ensures "users" in Ids(AllowedItems(role)) <==> role == SuperAdmin
  {
    AllowedIdsPerRole(role);
  }

  predicate UniqueIds(items: seq<NavItem>) {
    forall i, j :: 0 <= i < j < |items| ==> items[i].id != items[j].id
  }

  /** In a list with unique ids, looking up an entry's id finds that entry. */
  lemma {:induction false} FindUnique(items: seq<NavItem>, item: NavItem)
    requires UniqueIds(items) && item in items
    ensures FindItem(items, item.id) == Some(item)
  {
    if items[0] != item {
      var rest := items[1..];
      var k :| 0 <= k < |items| && items[k] == item;
      assert rest[k - 1] == item;
      assert UniqueIds(rest) by {
        forall i, j | 0 <= i < j < |rest|
          ensures rest[i].id != rest[j].id
        {
          assert rest[i] == items[i + 1] && rest[j] == items[j + 1];
        }
      }
      FindUnique(rest, item);
    }
  }

  /** Each role's menu names every tab at most once. */
  lemma AllowedUnique(role: UserRole)
    ensures UniqueIds(AllowedItems(role))
  {
    AllowedIdsPerRole(role);
    var items := AllowedItems(role);
    forall i, j | 0 <= i < j < |items|
      ensures items[i].id != items[j].id
    {
      assert items[i].id == Ids(items)[i] && items[j].id == Ids(items)[j];
    }
  }

  /**
   * The title is the name of the allowed entry whose id is the active tab, and
   * the default when no allowed entry has that id.
   */
  lemma HeaderTitleSpec(role: UserRole, activeTab: string, item: NavItem)
    ensures item in AllowedItems(role) && item.id == activeTab && item.name != "" ==> HeaderTitle(role, activeTab) == item.name
    ensures activeTab !in Ids(AllowedItems(role)) ==> HeaderTitle(role, activeTab) == DefaultTitle
  {
    if item in AllowedItems(role) && item.id == activeTab {
      AllowedUnique(role);
      FindUnique(AllowedItems(role), item);
    }
  }

  /** Every allowed entry has a non-empty name, so the title of an allowed tab is always its entry's name. */
  lemma MenuNamesNonEmpty(role: UserRole, item: NavItem)
    requires item in AllowedItems(role)
    ensures item.name != "" && HeaderTitle(role, item.id) == item.name
  {
    AllowedPerRole(role);
    HeaderTitleSpec(role, item.id, item);
  }

  // ---------------------------------------------------------------------
  // The sidebar
  // ---------------------------------------------------------------------

  class LayoutState {
    var isSidebarOpen: bool

    /** The sidebar starts open. */
    constructor ()
      ensures isSidebarOpen
    {
      isSidebarOpen := true;
    }

    /** The menu button flips the sidebar between open and collapsed. */
    method ToggleSidebar()
      modifies this
      ensures isSidebarOpen == !old(isSidebarOpen)
    {
      isSidebarOpen := !isSidebarOpen;
    }
  }
}
