# h4-dashboard in Dafny

A model of the view logic of h4-dashboard, a Next.js/React console for a
Kubernetes platform. The console works over hard-coded mock data. Its logic
is a set of pure helpers and small state machines inside React components,
and those are what this project models and proves things about:

- **Search boxes.** The Argo applications, kustomizations and secrets lists
  are each filtered by a case-insensitive substring match on two fields.
  - Each filtered list is proved to be exactly the order-preserving
    sub-list of matching records.
  - The empty search is proved to list everything.
  - Worked examples show the consequences. A selection can hold rows the
    filter hides. The kustomization search never looks at the owner,
    although its placeholder offers it.
- **Selections and expansion.** The application check boxes and the
  dashboard's expanded menus share one toggle operation. It appends an
  absent entry, removes a present one and keeps the list free of
  duplicates. Toggling an absent entry twice restores the list. The
  expanded application row and the kustomization list/detail switch are
  one-slot states.
- **Dashboard navigation.** Menu and sub-menu clicks, the auth guard that
  reads the session from `localStorage`, logout, and the switch that picks
  the panel for the active menu.
  - The Argo sub-items the menu sets are 'Application', 'Workflow' and
    'WorkflowTemplate'. The Argo panel dispatches only on
    'ArgoApplication' and 'Kustomization'. So every sub-menu string the
    menu can set renders an empty Argo panel (`Dashboard.ArgoResourcesUnreachable`).
- **Login.** Two implementations of the same credential check: the
  table-driven login component and the if/else login page. Each writes the
  three session keys and routes by role. They are proved to decide
  identically on every username/password pair. The copy of the user table
  in `mockData.tsx` lists the same two accounts in the other order, and it
  is proved to give the same lookups.
- **Deploy forms.** A form draft updated one named field at a time, and a
  simulated repository check: `null`, then loading, then success or
  error.
  - The dialog runs a three-part check and never resets its statuses when
    the URL changes.
  - The stand-alone page runs a single check and clears it when the URL
    is edited. A check still running is not cancelled by that edit, so its
    result then shows under a URL it was never run on
    (`DeployPage.EditDuringCheck`).
  - The enable and show flags are derived from this state.
- **Helpers.** Two helpers are modelled:
  - `parseValue` on the resource-pool page reads the leading number of a
    quota string and scales it by its unit. The mock quota charts as
    10000 millicores, 32768 Mi and 512000 Mi.
  - `mockYamlTemplate` fills a Deployment manifest from a namespace and a
    cluster, with defaulting and a lookup in the cluster-quota table.

How the browser and the environment appear in the model:

- `localStorage` is a `LocalStorage` class over a `map<string, string>`.
- Navigation is a returned route value.
- The random outcome of a validation (`Math.random() > 0.5`) is a boolean
  parameter of the method that finishes the check.
- The one-second delay splits each validation into a start method and a
  finish method, plus one method that runs both.

## Model

| member | source | states |
|---|---|---|
| Text.Split | app/dashboard/components/KustomizationResource.tsx:228 | `split(' ')` gives one more piece than there are separators; no piece holds the separator; joining the pieces gives the string back |
| Text.SplitJoin | app/dashboard/components/KustomizationResource.tsx:228 | splitting a join of separator-free words gives the words back |
| Text.MissingLetterNoMatch | app/dashboard/components/ArgoResource.tsx:112-115 | a term with a letter the field lacks in both cases never matches the field |
| Seqs.Filter | app/dashboard/components/ArgoResource.tsx:112-115 | `filter` keeps exactly the elements the test accepts, in their original order |
| Seqs.FilterUnique | app/dashboard/components/ArgoResource.tsx:112-115 | on a list without duplicates, the filter result is the only order-preserving sub-list that holds exactly the accepted elements |
| Seqs.Toggle | app/dashboard/components/ArgoResource.tsx:100-106 | toggling flips the entry's membership and no other's; an absent entry is appended after an unchanged prefix; removal keeps the rest in order |
| Seqs.ToggleNoDuplicates | app/dashboard/components/ArgoResource.tsx:100-106 | toggling never creates a duplicate |
| Seqs.ToggleTwiceAbsent | app/dashboard/page.tsx:52-58 | toggling an absent entry twice restores the list |
| Seqs.ToggleRemovesOne | app/dashboard/components/ArgoResource.tsx:102-103 | toggling a present entry deletes exactly its position; the others keep their relative order |
| ArgoResource.FilteredApps | app/dashboard/components/ArgoResource.tsx:112-115 | an application is listed iff its name or owner contains the term, ignoring case; the list is a sub-list of the table |
| ArgoResource.FilteredAppsUnique | app/dashboard/components/ArgoResource.tsx:112-115 | the filtered view is the unique order-preserving sub-list of matching applications |
| ArgoResource.EmptySearchShowsAll | app/dashboard/components/ArgoResource.tsx:11-33 | the empty search lists all five applications, in order |
| ArgoResource.SelectionMayBeHidden | app/dashboard/components/ArgoResource.tsx:112-115 | searching "tidb" hides application 1, so a selection can hold ids outside the view |
| ArgoResource.VisibleTable | app/dashboard/components/ArgoResource.tsx:278-280 | each table renders iff the sub-menu string equals its name exactly |
| ArgoResource.ActionsShown | app/dashboard/components/ArgoResource.tsx:269-276 | Deploy and Delete appear iff the sub-menu is 'Application' |
| ArgoResource.ArgoResourceState.constructor | app/dashboard/components/ArgoResource.tsx:96-98 | empty selection, empty term, nothing expanded |
| ArgoResource.ArgoResourceState.HandleAppSelect | app/dashboard/components/ArgoResource.tsx:100-106 | the selection becomes the toggle of the id and stays duplicate-free |
| ArgoResource.ArgoResourceState.ToggleAppExpansion | app/dashboard/components/ArgoResource.tsx:108-110 | the expanded row collapses, and any other row replaces it |
| ArgoResource.ArgoResourceState.SetSearchTerm | app/dashboard/components/ArgoResource.tsx:125 | a new term leaves the selection and the expansion unchanged |
| ArgoResource.ArgoResourceState.DeleteEnabled | app/dashboard/components/ArgoResource.tsx:272 | Delete is disabled exactly when the selection is empty |
| ArgoResource.AtMostOneExpanded | app/dashboard/components/ArgoResource.tsx:167 | no two applications are expanded at once |
| KustomizationResource.FilteredKustomizations | app/dashboard/components/KustomizationResource.tsx:14-17 | a record is listed iff its name or path contains the term, ignoring case, in table order |
| KustomizationResource.FilteredKustomizationsUnique | app/dashboard/components/KustomizationResource.tsx:14-17 | the filtered list is the unique order-preserving sub-list of matching records |
| KustomizationResource.EmptySearchShowsAll | app/dashboard/components/KustomizationResource.tsx:14-17 | the empty search lists all six kustomizations |
| KustomizationResource.OwnerIsNotSearched | app/dashboard/components/KustomizationResource.tsx:14-17 | "platform" matches the owner 'Platform Team' and yet lists no row |
| KustomizationResource.RecordMissesPlatform | app/dashboard/components/kustomizationMock.tsx:29-198 | no record's name or path contains "platform" |
| KustomizationResource.Initials | app/dashboard/components/KustomizationResource.tsx:228 | the initials are characters of the owner, never spaces, at most one per space-separated piece |
| KustomizationResource.InitialsAreWordStarts | app/dashboard/components/KustomizationResource.tsx:228 | for every owner, however spaced, the initials are exactly the non-space characters that start the string or follow a space, in order; empty pieces contribute nothing |
| KustomizationResource.InitialsOfWords | app/dashboard/components/KustomizationResource.tsx:228 | for single-space-separated words the initials are exactly the words' first letters, in order |
| KustomizationResource.DevOpsTeamInitials | app/dashboard/components/KustomizationResource.tsx:228 | 'DevOps Team' shows as 'DT' |
| KustomizationResource.KustomizationResourceState.constructor | app/dashboard/components/KustomizationResource.tsx:11-12 | empty term, nothing selected |
| KustomizationResource.KustomizationResourceState.CurrentView | app/dashboard/components/KustomizationResource.tsx:143-145 | the detail view shows iff a record is selected; otherwise the filtered list shows |
| KustomizationResource.KustomizationResourceState.Select | app/dashboard/components/KustomizationResource.tsx:205 | clicking a name opens its detail and keeps the term |
| KustomizationResource.KustomizationResourceState.Back | app/dashboard/components/KustomizationResource.tsx:24 | back clears the selection, keeps the term and shows the same filtered list |
| KustomizationResource.KustomizationResourceState.SetSearchTerm | app/dashboard/components/KustomizationResource.tsx:173 | typing changes only the term |
| KustomizationResource.OpenThenBack | app/dashboard/components/KustomizationResource.tsx:11-24 | opening a record and going back restores the view exactly |
| Security.FilteredSecrets | app/dashboard/components/Security.tsx:22-25 | a secret is listed iff its name or type contains the term, ignoring case; the list is a sub-list of the source |
| Security.FilteredSecretsUnique | app/dashboard/components/Security.tsx:22-25 | the filtered list is the unique order-preserving sub-list of matching secrets |
| Security.EmptySearchShowsAll | app/dashboard/components/Security.tsx:11-25 | the empty search lists all five secrets |
| Security.SecretsShown | app/dashboard/components/Security.tsx:73-79 | the table and "Create Secret" appear iff the sub-menu is exactly 'Secret' |
| ResourcePool.ParseNumber | app/dashboard/components/ResourcePool.tsx:24-25 | no number (`NaN`) exactly when no digit follows the leading white space |
| ResourcePool.ParseValue | app/dashboard/components/ResourcePool.tsx:23-30 | 0 without a number; otherwise Gi scales by 1024 first, then Mi by 1, then cores by 1000, else the plain number |
| ResourcePool.NumeralParses | app/dashboard/components/ResourcePool.tsx:24 | a decimal numeral followed by a non-digit reads back as its value |
| ResourcePool.NoNumberIsZero | app/dashboard/components/ResourcePool.tsx:25 | a string without a leading number charts as 0 |
| ResourcePool.GiValue | app/dashboard/components/ResourcePool.tsx:26 | "nGi" charts as n × 1024 |
| ResourcePool.CoresValueOf | app/dashboard/components/ResourcePool.tsx:28 | "n cores" charts as n × 1000 |
| ResourcePool.QuotaChartValues | app/dashboard/components/ResourcePool.tsx:9-36 | the mock quota charts as CPU 10000, memory 32768, storage 512000 |
| ResourcePool.Render | app/dashboard/components/ResourcePool.tsx:114-115 | Overview and Nodes each render iff the sub-menu equals their name exactly |
| Argo.Render | app/dashboard/components/Argo.tsx:5-11 | 'ArgoApplication' passes the sub-menu on to the application browser, 'Kustomization' shows the kustomizations, anything else nothing |
| Argo.ApplicationBrowserShowsNoTable | app/dashboard/components/Argo.tsx:7 | the application browser, when reached, is handed 'ArgoApplication' and so shows no table and no Deploy/Delete actions |
| Dashboard.Guard | app/dashboard/page.tsx:66-78 | login page iff `isLoggedIn` is not exactly "true"; admin page iff logged in as 'admin'; otherwise admitted with the stored username or "" |
| Dashboard.Content | app/dashboard/page.tsx:84-99 | each of the five titles selects its panel, handed the sub-menu; any other title shows nothing |
| Dashboard.ArgoResourcesUnreachable | app/dashboard/page.tsx:16-42 | no sub-menu string the menu lists reaches the application or kustomization browser |
| Dashboard.DashboardPage.constructor | app/dashboard/page.tsx:45-50 | starts logged out, on 'Argo*' / 'Application' with ['Argo*'] expanded |
| Dashboard.DashboardPage.ToggleMenu | app/dashboard/page.tsx:52-58 | the expanded list becomes the toggle of the title and stays duplicate-free |
| Dashboard.DashboardPage.ClickMenu | app/dashboard/page.tsx:167-173 | the entry becomes active; one with sub-items flips its expansion and selects its first sub-item; one without changes nothing else |
| Dashboard.DashboardPage.ClickSubItem | app/dashboard/page.tsx:188-191 | parent and sub-item become active; expansions unchanged |
| Dashboard.DashboardPage.RunAuthGuard | app/dashboard/page.tsx:66-78 | redirects as `Guard` decides, or logs in with `Guard`'s username |
| Dashboard.DashboardPage.HandleLogout | app/dashboard/page.tsx:60-64 | removes `isLoggedIn` and `userRole`, keeps `username` and everything else, routes to /login |
| Dashboard.DashboardPage.Render | app/dashboard/page.tsx:80-82 | nothing renders until logged in |
| Dashboard.LogoutThenGuardRedirects | app/dashboard/page.tsx:60-78 | after logout the guard sends the next visit to /login |
| Dashboard.LoginThenGuardAdmits | app/dashboard/page.tsx:66-78 | a session written by a non-admin login passes the guard with that username |
| Session.RouteForRole | app/components/login.tsx:30-34 | /admin iff the role is 'admin', otherwise /dashboard |
| Session.WithSession | app/components/login.tsx:25-27 | the three session keys hold "true", the role and the username; other keys keep their values |
| Session.Lookup | app/dashboard/page.tsx:67-69 | `getItem` is null exactly for an absent key |
| LoginForm.Find | app/components/login.tsx:23 | the first entry matching both fields exactly, or none when no entry matches |
| LoginForm.Decide | app/components/login.tsx:23-37 | an accepted login routes by its role; a refused one carries 'Invalid username or password' |
| LoginForm.DecideAcceptsIff | app/components/login.tsx:10-23 | accepted iff some entry matches both fields, storing that entry's role and name |
| LoginForm.AtMostOneMatch | app/components/login.tsx:10-13 | at most one entry matches |
| LoginForm.CaseSensitive | app/components/login.tsx:23 | 'Admin'/'admin' is refused |
| LoginForm.FakeAuthentication.constructor | app/components/login.tsx:15-17 | username, password and error start empty |
| LoginForm.FakeAuthentication.SetUsername | app/components/login.tsx:48 | typing sets the username only |
| LoginForm.FakeAuthentication.SetPassword | app/components/login.tsx:59 | typing sets the password only |
| LoginForm.FakeAuthentication.HandleLogin | app/components/login.tsx:21-38 | on a match: three writes and a route by role; otherwise: the error, no write and no route |
| LoginPage.Decide | app/login/page.tsx:16-31 | accepted iff the pair is admin/admin or user1/user1 |
| LoginPage.AgreesWithLoginForm | app/login/page.tsx:16-31 | same writes, route and error as the login component for every pair |
| LoginPage.LoginPage.constructor | app/login/page.tsx:11-13 | username, password and error start empty |
| LoginPage.LoginPage.SetUsername | app/login/page.tsx:57 | typing sets the username only |
| LoginPage.LoginPage.SetPassword | app/login/page.tsx:68 | typing sets the password only |
| LoginPage.LoginPage.HandleLogin | app/login/page.tsx:16-31 | admin/admin and user1/user1 write the session and route; any other pair only sets the error |
| Validation.Outcome | app/components/deploy.tsx:62-64 | a finished check is 'success' iff the draw passed, else 'error' |
| DeployDialog.FormData.With | app/components/deploy.tsx:42-49 | the named field takes the value; every other field, the check box included, is kept |
| DeployDialog.WithOwnValue | app/components/deploy.tsx:42-49 | writing a field's own value back changes nothing |
| DeployDialog.WithOverwrites | app/components/deploy.tsx:42-49 | the later of two edits to one field wins |
| DeployDialog.WithCommutes | app/components/deploy.tsx:42-49 | edits to different fields commute |
| DeployDialog.DeployApp.constructor | app/components/deploy.tsx:24-40 | closed, no vault, draft '' / '' / '1000m' / '1024M' / '0G' / '' / false, all three statuses null |
| DeployDialog.DeployApp.HandleInputChange | app/components/deploy.tsx:42-45 | only the named field changes; statuses are not reset |
| DeployDialog.DeployApp.HandleSelectChange | app/components/deploy.tsx:47-49 | only the named field changes |
| DeployDialog.DeployApp.SetAutoSync | app/components/deploy.tsx:241 | only the check box changes |
| DeployDialog.DeployApp.SetUseVault | app/components/deploy.tsx:134 | only the vault flag changes |
| DeployDialog.DeployApp.SetOpen | app/components/deploy.tsx:71-74 | the Create button (line 74), the dialog's own open/close control (line 71) and Cancel (line 259) set only the open flag |
| DeployDialog.DeployApp.HandleSubmit | app/components/deploy.tsx:51-55 | closes the dialog and hands over the draft without resetting it |
| DeployDialog.DeployApp.StartValidation | app/components/deploy.tsx:58-59 | validating, all three parts loading |
| DeployDialog.DeployApp.FinishValidation | app/components/deploy.tsx:61-66 | not validating; each part 'success' or 'error' from its draw |
| DeployDialog.DeployApp.ValidateRepo | app/components/deploy.tsx:57-67 | ends with every part a result and the results shown |
| DeployDialog.DeployApp.ShowValidationResults | app/components/deploy.tsx:69 | hidden only before the first check; shown once all parts have results |
| DeployDialog.DeployApp.ValidateEnabled | app/components/deploy.tsx:105 | enabled iff the URL is non-empty and no check runs |
| DeployPage.Draft.With | app/deploy/page.tsx:25 | the named field takes the value; every other field is kept |
| DeployPage.StatusAfterEdit | app/deploy/page.tsx:23-29 | a URL edit clears the status; any other edit keeps it |
| DeployPage.Message | app/deploy/page.tsx:69-80 | a message shows iff the check finished: 'Valid repository' or 'Invalid repository' |
| DeployPage.DeployForm.constructor | app/deploy/page.tsx:13-21 | five empty fields, status null |
| DeployPage.DeployForm.HandleInputChange | app/deploy/page.tsx:23-29 | the named field changes; the status is cleared iff the field is the URL |
| DeployPage.DeployForm.SelectSecret | app/deploy/page.tsx:90 | only `secretId` changes |
| DeployPage.DeployForm.SetUseVault | app/deploy/page.tsx:83 | only the vault flag changes |
| DeployPage.DeployForm.HandleSubmit | app/deploy/page.tsx:31-34 | returns the draft and changes nothing |
| DeployPage.DeployForm.StartValidation | app/deploy/page.tsx:38 | status loading, Validate disabled |
| DeployPage.DeployForm.FinishValidation | app/deploy/page.tsx:39-40 | after the delay the status is 'success' or 'error' from the draw |
| DeployPage.UrlEditClearsMessage | app/deploy/page.tsx:26-28 | whatever the status, an edit of the URL leaves no message |
| DeployPage.EditDuringCheck | app/deploy/page.tsx:23-40 | a URL edit while a check runs does not stop it: the new URL ends up showing the old check's message |
| DeployPage.DeployForm.ValidateRepo | app/deploy/page.tsx:36-41 | ends 'success' iff the draw passed, else 'error'; the draft is untouched |
| DeployPage.DeployForm.ValidateEnabled | app/deploy/page.tsx:64 | enabled iff the URL is non-empty and the status is not loading |
| MockData.ClusterDefaultsShape | app/components/mockData.tsx:77-106 | exactly the keys SIT, SIT1, UAT, PRD; SIT and SIT1 hold identical quotas |
| MockData.OrElse | app/components/mockData.tsx:113 | JavaScript `||` on strings: the fallback replaces only the empty string |
| MockData.TemplateFields | app/components/mockData.tsx:109-161 | defined iff the cluster, or SIT when empty, is a key; namespace or 'default'; environment or 'dev'; limits quota.cpu+"m" and quota.memory+"Gi"; requests "500m" and "1Gi" |
| MockData.EmptyClusterUsesSitQuota | app/components/mockData.tsx:116-158 | no cluster labels 'dev' but takes SIT's limits "2m" and "4Gi" |
| MockData.TemplateDefinedFor | app/components/mockData.tsx:157 | among the table's own keys, the template is defined exactly for '', SIT, SIT1, UAT and PRD |
| MockData.MockYamlTemplate | app/components/mockData.tsx:109-192 | the manifest text for the filled fields, or no text where the lookup fails |
| MockData.ManifestShowsFields | app/components/mockData.tsx:113-158 | the text carries the namespace, environment and both limit lines |
| MockData.UsersShape | app/components/mockData.tsx:251-254 | two accounts, distinct usernames, roles 'user' and 'admin' |
| MockData.UsersAgreeWithLoginForm | app/components/mockData.tsx:251-254 | every lookup in this table finds what the login component's table finds |

## Left out

- Text.LowerChar: `toLowerCase` is modelled on ASCII only. Other characters are left unchanged, so Unicode case mapping is not captured.
- ResourcePool.ParseNumber: models `parseFloat` as the run of decimal digits after leading white space, read as an exact natural number. The differences from `parseFloat`:
  - A fraction or an exponent is cut off at the '.' or 'e', so "1.5Gi" charts as 1024 rather than 1536 and "2e3" as 2 rather than 2000.
  - A leading sign or `Infinity` reads as no number and charts as 0.
  - Only ASCII white space is skipped. A leading no-break space or other Unicode space also gives 0, where `parseFloat` skips it.
  - Numerals above 2^53 stay exact instead of being rounded to a double.
- Deploy validation timing: the one-second delay is split into a start and a finish method, which callers may interleave with edits, as `DeployPage.EditDuringCheck` does. Two checks in flight at once, and the order in which their results land, are not modelled.
- Random outcomes: `Math.random()` is a boolean parameter per draw. Its distribution is not modelled.
- JSX, styling, icons, tooltips and charts: the recharts pie charts, the detail-only kustomization fields (sources, resource counts, events) and the workflow tables' contents have no stateable behaviour beyond which view shows.
- The Network panel: the dashboard hands it the sub-menu. Its source is not part of this model.
- The billing panel: its figures are formatted with `toFixed`, which is floating-point formatting.
- `console.log` in the submit handlers: the submitted draft is returned instead.
- The rest of `mockData.tsx` (field descriptions, tenants, interfaces): display data with no logic.
- The 3-D components, the landing page, headers, breadcrumb and layout: presentation or floating-point animation.
- Dashboard.DashboardPage.ClickMenu and Dashboard.DashboardPage.ClickSubItem: the invariant that the active sub-menu is a listed sub-item is kept only for clicks on the real menu entries. The handlers accept any entry.
- MockData.TemplateFields: the quota table is a map, so a cluster name that is not one of its own keys gives no manifest. In JavaScript the table is a plain object. An inherited `Object.prototype` name such as "toString" or "constructor" finds a value whose `cpu` and `memory` are `undefined`, and the template renders `"undefinedm"` and `"undefinedGi"` instead of failing. This also bounds MockData.TemplateDefinedFor and MockData.MockYamlTemplate.
- KustomizationResource.Initials: strings are sequences of Unicode scalar values, while JavaScript's `n[0]` reads a UTF-16 code unit. For a word that starts with a character outside the Basic Multilingual Plane, such as an emoji, the source shows the lone high surrogate and the model shows the whole character. The same holds for KustomizationResource.InitialsAreWordStarts and KustomizationResource.FirstChar.
