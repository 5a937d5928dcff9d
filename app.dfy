/**
 * The portal shell: which page is showing (the landing page or the portal),
 * the role the visitor entered as, and the active tab, with the screen each
 * tab shows.
 */
module App {
  import opened Types
  import opened Layout

  datatype View = Landing | Portal

  /** The screen the portal frame shows for a tab. */
  datatype Screen = DashboardScreen | RevenueScreen(role: UserRole) | InspectionScreen | AgentScreen | UserAdminScreen

  /** What the shell renders: the landing page, or the frame around one screen. */
  datatype Page = LandingPage | Frame(activeTab: string, role: UserRole, content: Screen)

  const InitialTab: string := "overview"

  /** The tab a role starts on when entering the portal: always one its own menu offers. */
  function StartTab(role: UserRole): (tab: string)
    ensures tab in Ids(AllowedItems(role))
  {
    AllowedIdsPerRole(role);
    if role == Agent then "agent"
    else if role == Inspector then "inspections"
    else "overview"
  }

  /** `renderContent()`: the screen for the active tab; an unknown tab shows the dashboard. */
  function RenderContent(tab: string, role: UserRole): (s: Screen)
    ensures s.RevenueScreen? ==> s.role == role
    ensures s == DashboardScreen <==> tab !in ["revenue", "inspections", "agent", "users"]
  {
    if tab == "overview" then DashboardScreen
    else if tab == "revenue" then RevenueScreen(role)
    else if tab == "inspections" then InspectionScreen
    else if tab == "agent" then AgentScreen
    else if tab == "users" then UserAdminScreen
    else DashboardScreen
  }

  function Render(view: View, role: UserRole, tab: string): Page {
    if view == Landing then LandingPage else Frame(tab, role, RenderContent(tab, role))
  }

  // ---------------------------------------------------------------------
  // Lemmas
  // ---------------------------------------------------------------------

  /** Each menu tab has its own screen; every other tab falls back to the dashboard, like `overview`. */
  lemma RenderContentSpec(tab: string, other: string, role: UserRole)
    ensures tab !in Ids(NavItems) ==> RenderContent(tab, role) == RenderContent("overview", role) == DashboardScreen
    ensures tab in Ids(NavItems) && other in Ids(NavItems) && tab != other ==> RenderContent(tab, role) != RenderContent(other, role)
    ensures RenderContent(tab, role).RevenueScreen? ==> tab == "revenue" && RenderContent(tab, role).role == role
  {
    assert Ids(NavItems) == ["overview", "revenue", "inspections", "agent", "users"];
  }

  /** The landing page shows exactly when the view is the landing view. */
  lemma LandingIffLandingView(view: View, role: UserRole, tab: string)
    ensures Render(view, role, tab) == LandingPage <==> view == Landing
    ensures view == Portal ==> Render(view, role, tab).activeTab == tab && Render(view, role, tab).role == role
  {
  }

  // ---------------------------------------------------------------------
  // The shell's state
  // ---------------------------------------------------------------------

  class PortalApp {
    var view: View
    var userRole: UserRole
    var activeTab: string

    /** In the portal, the active tab is one the role's menu offers. */
    ghost predicate Valid()
      reads this
    {
      view == Portal ==> activeTab in Ids(AllowedItems(userRole))
    }

    function Page(): Page
      reads this
    {
      Render(view, userRole, activeTab)
    }

    /** The shell opens on the landing page, as super administrator, on the overview tab. */
    constructor ()
      ensures view == Landing && userRole == SuperAdmin && activeTab == InitialTab
      ensures Valid() && Page() == LandingPage
    {
      view := Landing;
      userRole := SuperAdmin;
      activeTab := InitialTab;
    }

    /** `handleEnterPortal(role)`: take the role, move to its starting tab and show the portal. */
    method HandleEnterPortal(role: UserRole)
      modifies this
      ensures userRole == role && activeTab == StartTab(role) && view == Portal
      ensures Valid()
    {
      userRole := role;
      if role == Agent {
        activeTab := "agent";
      } else if role == Inspector {
        activeTab := "inspections";
      } else {
        activeTab := "overview";
      }
      view := Portal;
    }

    /** `handleLogout()`: back to the landing page; the role and tab are kept. */
    method HandleLogout()
      requires Valid()
      modifies this
      ensures view == Landing && userRole == old(userRole) && activeTab == old(activeTab)
      ensures Valid() && Page() == LandingPage
    {
      view := Landing;
    }

    /** A click on a side-menu entry, which the frame offers only for the role's allowed entries. */
    method SelectMenuItem(item: NavItem)
      requires Valid() && item in AllowedItems(userRole)
      modifies this
      ensures activeTab == item.id && view == old(view) && userRole == old(userRole)
      ensures Valid()
    {
      activeTab := item.id;
      FilterIdsMember(userRole, item);
    }
  }

  /** An allowed entry's id is among the allowed ids. */
  lemma FilterIdsMember(role: UserRole, item: NavItem)
    requires item in AllowedItems(role)
    ensures item.id in Ids(AllowedItems(role))
  {
    var items := AllowedItems(role);
    var k :| 0 <= k < |items| && items[k] == item;
    assert Ids(items)[k] == item.id;
  }
}
