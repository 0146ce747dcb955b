/**
 * The Argo application browser: a fixed table of applications filtered by a
 * search box, a check-box selection, one expandable row at a time, and the
 * sub-menu switch between the applications, workflow-template and workflow
 * tables.
 */
module ArgoResource {
  import opened Options
  import opened Text
  import opened Seqs

  datatype Application = Application(
    id: int, name: string, uri: string, lastUpdate: string, owner: string,
    creator: string, lastUpdater: string, lastCommitId: string, lastCommitLog: string,
    podCount: int, cpuCount: string, memoryAmount: string, secretCount: int)

  const Applications: seq<Application> := [
    Application(1, "external secret", "/apps/external secret", "2023-04-01", "John Doe",
                "Alice Smith", "Bob Johnson", "abc123", "Updated dependencies", 3, "2 cores", "4Gi", 2),
    Application(2, "argo-rollout", "/apps/argo-rollout", "2023-04-02", "Jane Smith",
                "Charlie Wilson", "Alice Brown", "def456", "Added new feature", 5, "4 cores", "8Gi", 3),
    Application(3, "kube-dashboard", "/apps/kube-dashboard", "2023-04-03", "Bob Johnson",
                "John Doe", "Charlie Wilson", "ghi789", "Fixed bug", 2, "1 core", "2Gi", 1),
    Application(4, "ray", "/apps/ray", "2023-04-04", "Alice Brown",
                "Jane Smith", "Bob Johnson", "jkl012", "Refactored code", 4, "2 cores", "4Gi", 2),
    Application(5, "tidb", "/apps/tidb", "2023-04-05", "Charlie Wilson",
                "Alice Smith", "John Doe", "mno345", "Improved performance", 6, "3 cores", "6Gi", 4)
  ]

  /** The search matches the name or the owner, ignoring case. */
  predicate AppMatches(app: Application, term: string) {
    MatchesTerm(app.name, term) || MatchesTerm(app.owner, term)
  }

  /** `filteredApps`: the applications the search term matches, in table order. */
  function FilteredApps(term: string): (r: seq<Application>)
    ensures forall a :: a in r ==> a in Applications && AppMatches(a, term)
    ensures forall a :: a in Applications && AppMatches(a, term) ==> a in r
    ensures IsSubsequence(r, Applications)
  {
    Filter(Applications, a => AppMatches(a, term))
  }

  /** The filtered view is the only order-preserving sub-list holding exactly the matching applications. */
  lemma FilteredAppsUnique(term: string, r: seq<Application>)
    requires IsSubsequence(r, Applications)
    requires forall a :: a in r ==> AppMatches(a, term)
    requires forall a :: a in Applications && AppMatches(a, term) ==> a in r
    ensures r == FilteredApps(term)
  {
    FilterUnique(Applications, a => AppMatches(a, term), r);
  }

  /** An empty search shows all five applications. */
  lemma EmptySearchShowsAll()
    ensures FilteredApps("") == Applications
  {
    forall a | a in Applications
      ensures AppMatches(a, "")
    {
      EmptyTermMatches(a.name);
    }
    FilterKeepsAll(Applications, a => AppMatches(a, ""));
  }

  /** A selection can hold ids the current filter hides: searching "tidb" hides application 1. */
  lemma SelectionMayBeHidden()
    ensures Applications[0].id == 1 && Applications[0] !in FilteredApps("tidb")
  {
    var hidden := Applications[0];
    var name, owner := "external secret", "John Doe";
    assert hidden.name == name && hidden.owner == owner;
    assert forall j :: 0 <= j < |name| ==> LowerChar(name[j]) != 'i';
    assert forall j :: 0 <= j < |owner| ==> LowerChar(owner[j]) != 'i';
    MissingLetterNoMatch(name, "tidb", 1);
    MissingLetterNoMatch(owner, "tidb", 1);
  }

  /** Which table the component body shows. */
  datatype Table = ApplicationsTable | TemplatesTable | WorkflowsTable | NoTable

  /** Each table renders only when the sub-menu string equals its name exactly. */
  function VisibleTable(activeSubMenu: string): (t: Table)
    ensures t.ApplicationsTable? <==> activeSubMenu == "Application"
    ensures t.TemplatesTable? <==> activeSubMenu == "WorkflowTemplate"
    ensures t.WorkflowsTable? <==> activeSubMenu == "Workflow"
  {
    if activeSubMenu == "Application" then ApplicationsTable
    else if activeSubMenu == "WorkflowTemplate" then TemplatesTable
    else if activeSubMenu == "Workflow" then WorkflowsTable
    else NoTable
  }

  /** The Deploy and Delete buttons appear exactly with the applications table. */
  function ActionsShown(activeSubMenu: string): (shown: bool)
    ensures shown <==> activeSubMenu == "Application"
  {
    VisibleTable(activeSubMenu).ApplicationsTable?
  }

  /** The component's state: selected ids, the search term and the expanded row. */
  class ArgoResourceState {
    var selectedApps: seq<int>
    var searchTerm: string
    var expandedApp: Option<int>

    /** The selection never lists an id twice. */
    ghost predicate Valid()
      reads this
    {
      NoDuplicates(selectedApps)
    }

    constructor ()
      ensures Valid()
      ensures selectedApps == [] && searchTerm == "" && expandedApp == None
    {
      selectedApps, searchTerm, expandedApp := [], "", None;
    }

    /** `handleAppSelect`: toggle the id's membership in the selection. */
    method HandleAppSelect(appId: int)
      requires Valid()
      modifies this`selectedApps
      ensures Valid()
      ensures selectedApps == Toggle(old(selectedApps), appId)
    {
      ToggleNoDuplicates(selectedApps, appId);
      selectedApps := Toggle(selectedApps, appId);
    }

    /** `toggleAppExpansion`: collapse the expanded row, or expand another in its place. */
    method ToggleAppExpansion(appId: int)
      requires Valid()
      modifies this`expandedApp
      ensures Valid()
      ensures old(expandedApp) == Some(appId) ==> expandedApp == None
      ensures old(expandedApp) != Some(appId) ==> expandedApp == Some(appId)
    {
      expandedApp := if expandedApp == Some(appId) then None else Some(appId);
    }

    /** Typing in the search box changes only the term: selection and expansion stay. */
    method SetSearchTerm(term: string)
      requires Valid()
      modifies this`searchTerm
      ensures Valid()
      ensures searchTerm == term
      ensures selectedApps == old(selectedApps) && expandedApp == old(expandedApp)
    {
      searchTerm := term;
    }

    /** At most one row shows its details: the one `expandedApp` names. */
    predicate IsExpanded(appId: int)
      reads this
    {
      expandedApp == Some(appId)
    }

    /** The Delete button is enabled exactly when something is selected. */
    function DeleteEnabled(): (enabled: bool)
      reads this
      ensures !enabled <==> selectedApps == []
    {
      |selectedApps| != 0
    }
  }

  /** At most one application is expanded at a time. */
  lemma AtMostOneExpanded(s: ArgoResourceState, a: int, b: int)
    requires s.IsExpanded(a) && s.IsExpanded(b)
    ensures a == b
  {
  }
}
