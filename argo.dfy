/** The Argo panel: a switch on the active sub-menu string choosing one resource view. */
module Argo {
  import ArgoResource

  datatype ArgoView =
    | ArgoResourceView(activeSubMenu: string)
    | KustomizationView
    | NoView

  /** `Argo({ activeSubMenu })`: 'ArgoApplication' and 'Kustomization' select a view, every other string renders nothing. */
  function Render(activeSubMenu: string): (v: ArgoView)
    ensures v.ArgoResourceView? <==> activeSubMenu == "ArgoApplication"
    ensures v.ArgoResourceView? ==> v.activeSubMenu == activeSubMenu
    ensures v.KustomizationView? <==> activeSubMenu == "Kustomization"
    ensures v.NoView? <==> activeSubMenu != "ArgoApplication" && activeSubMenu != "Kustomization"
  {
    match activeSubMenu
    case "ArgoApplication" => ArgoResourceView(activeSubMenu)
    case "Kustomization" => KustomizationView
    case _ => NoView
  }

  /**
   * Even when reached, the application browser is handed the string
   * 'ArgoApplication', which none of its tables or actions answers to.
   */
  lemma ApplicationBrowserShowsNoTable()
    ensures Render("ArgoApplication") == ArgoResourceView("ArgoApplication")
    ensures ArgoResource.VisibleTable(Render("ArgoApplication").activeSubMenu) == ArgoResource.NoTable
    ensures !ArgoResource.ActionsShown(Render("ArgoApplication").activeSubMenu)
  {
  }
}
