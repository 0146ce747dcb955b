/**
 * The dashboard page: a side menu whose clicks set the active menu, the
 * active sub-menu and the list of expanded menus; an auth guard that reads
 * the session from storage; logout; and the switch that picks the panel
 * for the active menu.
 */
module Dashboard {
  import opened Options
  import opened Seqs
  import opened Session
  import Argo
  import Security
  import ResourcePool

  /** A side-menu entry and the sub-items listed under it. */
  datatype MenuItem = MenuItem(title: string, subItems: seq<string>)

  const MenuItems: seq<MenuItem> := [
    MenuItem("Argo*", ["Application", "Workflow", "WorkflowTemplate"]),
    MenuItem("Security", ["Secret"]),
    MenuItem("ResourcePool", ["Overview", "Nodes"]),
    MenuItem("Network", ["VirtualService"]),
    MenuItem("Bill", [])
  ]

  /** A sub-menu string some entry of the side menu lists. */
  predicate IsListedSubItem(s: string) {
    exists i :: 0 <= i < |MenuItems| && s in MenuItems[i].subItems
  }

  /** What the guard decides from the three stored values. */
  datatype GuardOutcome = Redirect(route: Route) | Admit(username: string)

  /**
   * The auth guard: anything but the exact string "true" under `isLoggedIn`
   * goes to the login page, an admin goes to the admin page, and anyone
   * else stays with the stored username, or "" when there is none.
   */
  function Guard(loggedIn: Option<string>, role: Option<string>, username: Option<string>): (g: GuardOutcome)
    ensures g == Redirect(LoginRoute) <==> loggedIn != Some("true")
    ensures g == Redirect(AdminRoute) <==> loggedIn == Some("true") && role == Some("admin")
    ensures g.Admit? <==> loggedIn == Some("true") && role != Some("admin")
    ensures g.Admit? && username.Some? ==> g.username == username.value
    ensures g.Admit? && username.None? ==> g.username == ""
  {
    if loggedIn != Some("true") then Redirect(LoginRoute)
    else if role == Some("admin") then Redirect(AdminRoute)
    else Admit(username.GetOr(""))
  }

  /** The panel the main area shows. */
  datatype Panel =
    | ArgoPanel(argo: Argo.ArgoView)
    | SecurityPanel(secretsShown: bool)
    | ResourcePoolPanel(pool: ResourcePool.PoolView)
    | NetworkPanel(activeSubMenu: string)
    | BillingPanel
    | NoPanel

  /** `renderContent`: each of the five menu titles selects its panel, which is handed the sub-menu; any other title shows nothing. */
  function Content(activeMenu: string, activeSubMenu: string): (p: Panel)
    ensures p.ArgoPanel? <==> activeMenu == "Argo*"
    ensures p.ArgoPanel? ==> p.argo == Argo.Render(activeSubMenu)
    ensures p.SecurityPanel? <==> activeMenu == "Security"
    ensures p.SecurityPanel? ==> (p.secretsShown <==> activeSubMenu == "Secret")
    ensures p.ResourcePoolPanel? <==> activeMenu == "ResourcePool"
    ensures p.ResourcePoolPanel? ==> p.pool == ResourcePool.Render(activeSubMenu)
    ensures p.NetworkPanel? <==> activeMenu == "Network"
    ensures p.NetworkPanel? ==> p.activeSubMenu == activeSubMenu
    ensures p.BillingPanel? <==> activeMenu == "Bill"
    ensures p.NoPanel? <==> forall i :: 0 <= i < |MenuItems| ==> MenuItems[i].title != activeMenu
  {
    match activeMenu
    case "Argo*" => assert MenuItems[0].title == activeMenu; ArgoPanel(Argo.Render(activeSubMenu))
    case "Security" => assert MenuItems[1].title == activeMenu; SecurityPanel(Security.SecretsShown(activeSubMenu))
    case "ResourcePool" => assert MenuItems[2].title == activeMenu; ResourcePoolPanel(ResourcePool.Render(activeSubMenu))
    case "Network" => assert MenuItems[3].title == activeMenu; NetworkPanel(activeSubMenu)
    case "Bill" => assert MenuItems[4].title == activeMenu; BillingPanel
    case _ => NoPanel
  }

  /** No sub-menu string the menu can set reaches the Argo application browser or the kustomization browser. */
  lemma {:induction false} ArgoResourcesUnreachable(activeSubMenu: string)
    requires IsListedSubItem(activeSubMenu)
    ensures Content("Argo*", activeSubMenu) == ArgoPanel(Argo.NoView)
  {
    var i :| 0 <= i < |MenuItems| && activeSubMenu in MenuItems[i].subItems;
    assert activeSubMenu != "ArgoApplication" && activeSubMenu != "Kustomization" by {
      if i == 0 {
      } else if i == 1 {
      } else if i == 2 {
      } else if i == 3 {
      } else {
        assert MenuItems[4].subItems == [];
      }
    }
  }

  /** The page's state. */
  class DashboardPage {
    var isLoggedIn: bool
    var activeMenu: string
    var activeSubMenu: string
    var expandedMenus: seq<string>
    var username: string

    /** Every sub-menu string the page holds is one the menu lists. */
    ghost predicate Valid()
      reads this
    {
      IsListedSubItem(activeSubMenu) && NoDuplicates(expandedMenus)
    }

    constructor ()
      ensures Valid()
      ensures !isLoggedIn && username == ""
      ensures activeMenu == "Argo*" && activeSubMenu == "Application" && expandedMenus == ["Argo*"]
    {
      isLoggedIn, username := false, "";
      activeMenu, activeSubMenu, expandedMenus := "Argo*", "Application", ["Argo*"];
      assert "Application" in MenuItems[0].subItems;
    }

    /** `toggleMenu`: collapse an expanded menu, or expand a collapsed one at the end of the list. */
    method ToggleMenu(title: string)
      requires Valid()
      modifies this`expandedMenus
      ensures Valid()
      ensures expandedMenus == Toggle(old(expandedMenus), title)
    {
      ToggleNoDuplicates(expandedMenus, title);
      expandedMenus := Toggle(expandedMenus, title);
    }

    /**
     * A click on a top-level entry makes it active; an entry with sub-items
     * also flips its expansion and selects its first sub-item.
     */
    method ClickMenu(item: MenuItem)
      requires Valid()
      modifies this`activeMenu, this`activeSubMenu, this`expandedMenus
      ensures item in MenuItems ==> Valid()
      ensures activeMenu == item.title
      ensures |item.subItems| > 0 ==>
                expandedMenus == Toggle(old(expandedMenus), item.title) && activeSubMenu == item.subItems[0]
      ensures |item.subItems| == 0 ==> expandedMenus == old(expandedMenus) && activeSubMenu == old(activeSubMenu)
    {
      activeMenu := item.title;
      if |item.subItems| > 0 {
        ToggleMenu(item.title);
        activeSubMenu := item.subItems[0];
        if item in MenuItems {
          var i :| 0 <= i < |MenuItems| && MenuItems[i] == item;
          assert activeSubMenu in MenuItems[i].subItems;
        }
      }
    }

    /** A click on a sub-item makes it and its parent active; expansions stay. */
    method ClickSubItem(item: MenuItem, subItem: string)
      requires Valid()
      modifies this`activeMenu, this`activeSubMenu
      ensures item in MenuItems && subItem in item.subItems ==> Valid()
      ensures activeMenu == item.title && activeSubMenu == subItem
      ensures expandedMenus == old(expandedMenus)
    {
      activeMenu, activeSubMenu := item.title, subItem;
      if item in MenuItems && subItem in item.subItems {
        var i :| 0 <= i < |MenuItems| && MenuItems[i] == item;
        assert subItem in MenuItems[i].subItems;
      }
    }

    /** The guard effect: redirect, or log in with the stored username; storage is only read. */
    method RunAuthGuard(storage: LocalStorage) returns (route: Option<Route>)
      modifies this`isLoggedIn, this`username
      ensures var g := Guard(storage.GetItem(IsLoggedInKey), storage.GetItem(UserRoleKey), storage.GetItem(UsernameKey));
              && (g.Redirect? ==> route == Some(g.route) && isLoggedIn == old(isLoggedIn) && username == old(username))
              && (g.Admit? ==> route == None && isLoggedIn && username == g.username)
    {
      var loggedIn := storage.GetItem(IsLoggedInKey) == Some("true");
      var role := storage.GetItem(UserRoleKey);
      var name := storage.GetItem(UsernameKey);
      if !loggedIn {
        route := Some(LoginRoute);
      } else if role == Some("admin") {
        route := Some(AdminRoute);
      } else {
        isLoggedIn := true;
        username := name.GetOr("");
        route := None;
      }
    }

    /** `handleLogout`: forget the login flag and the role, keep the username, go to the login page. */
    method HandleLogout(storage: LocalStorage) returns (route: Route)
      modifies storage
      ensures storage.items == old(storage.items) - {IsLoggedInKey, UserRoleKey}
      ensures UsernameKey in old(storage.items) ==> storage.GetItem(UsernameKey) == Some(old(storage.items)[UsernameKey])
      ensures storage.GetItem(IsLoggedInKey).None? && storage.GetItem(UserRoleKey).None?
      ensures route == LoginRoute
    {
      storage.RemoveItem(IsLoggedInKey);
      storage.RemoveItem(UserRoleKey);
      route := LoginRoute;
    }

    /** What the page renders: nothing until the guard has admitted the user, then the active menu's panel. */
    function Render(): (r: Option<Panel>)
      reads this
      ensures r.None? <==> !isLoggedIn
      ensures r.Some? ==> r.value == Content(activeMenu, activeSubMenu)
    {
      if isLoggedIn then Some(Content(activeMenu, activeSubMenu)) else None
    }
  }

  /** After logout the guard sends the next visit to the login page, whatever else storage holds. */
  lemma LogoutThenGuardRedirects(items: map<string, string>)
    ensures var after := items - {IsLoggedInKey, UserRoleKey};
            Guard(Lookup(after, IsLoggedInKey), Lookup(after, UserRoleKey), Lookup(after, UsernameKey)) == Redirect(LoginRoute)
  {
  }

  /** A session written by a successful non-admin login passes the guard with that username. */
  lemma LoginThenGuardAdmits(items: map<string, string>, role: string, name: string)
    requires role != "admin"
    ensures var after := WithSession(items, role, name);
            Guard(Lookup(after, IsLoggedInKey), Lookup(after, UserRoleKey), Lookup(after, UsernameKey)) == Admit(name)
  {
  }
}
