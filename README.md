# CRM core of the Eco Web Agency portal, in Dafny

The portal is a small CRM for a web agency. It keeps three in-memory
collections: clients (leads with a pipeline status, contact details,
tagged services and a log of interactions), projects won from clients, and
the catalogue of services on offer. This project models the logic around
those collections:

- the domain records and the two status enumerations (`types.ts`);
- the global state and its eight handlers, each of which replaces one
  collection by an append, a `map` over the matching id or a `filter`
  (`App.tsx`);
- the dashboard figures: calls logged, active projects, estimated revenue
  and the pipeline projection, the follow-up call queue and the
  client-status histogram (`components/Dashboard.tsx`);
- the client list: search and status filter, the add/edit form and the
  record it builds, logging a call, toggling an interested service, and
  the website label (`components/ClientList.tsx`);
- the project board: client-name lookup, per-status columns, "move to"
  targets, and the new-project form (`components/ProjectBoard.tsx`);
- the new-service form and its guard (`components/Settings.tsx`).

Files and modules:

| file | module | models |
|---|---|---|
| `seqs.dfy` | `Seqs` | `filter`, `map` on the matching id, and grouping by key, with their laws |
| `text.dfy` | `Text` | `toLowerCase` (ASCII), `includes`, removal of one prefix or suffix |
| `types.dfy` | `Types` | `types.ts` |
| `app.dfy` | `App` | `App.tsx`: the new collections as functions, class `AppState` with one method per handler |
| `dashboard.dfy` | `Dashboard` | `components/Dashboard.tsx` |
| `client_list.dfy` | `ClientList` | `components/ClientList.tsx`, with class `ClientListView` for its state |
| `project_board.dfy` | `ProjectBoard` | `components/ProjectBoard.tsx`, with class `ProjectBoardView` for its form |
| `settings.dfy` | `Settings` | `components/Settings.tsx`, with class `SettingsView` for its form |

Conventions:

- Dates are integer millisecond timestamps. A stored date is the UTC
  midnight that the application's `YYYY-MM-DD` strings denote. "Now" is a
  parameter and may carry a time of day. Where the source stores today's
  date, the model truncates "now" to its day with `Types.Today`.
- Ids are opaque strings. Ids that the source makes from `Date.now()` are
  parameters (`freshId`, `interactionId`). The add handlers require the id
  to be new in its collection.
- `AppState.Valid()` says that ids are pairwise distinct in each
  collection. The constructor establishes it from distinct seed
  collections and every handler keeps it.
- A form field the source treats as falsy when empty is an empty string. A
  number a form holds is a whole number, and a falsy number is `0`.
- The view classes hold the component state that the handlers change
  (`selectedClient`, `formData`, `clientToCall`, `callNote`, `newProject`,
  `newService`) and a reference to the `AppState` whose handlers they call
  (`onAddClient`, `onUpdateClient`, `onAddProject`, `onAddService`).
- `App.DanglingReferences` is a small client of `AppState`. It shows that
  deleting a client keeps the projects that name it, and deleting a
  service keeps the clients that list it.

Two behaviours of the source are easy to miss. First, the service guard
tests the price for truthiness only, so it accepts any non-zero price,
negative ones included (`Settings.PriceGuard`, `components/Settings.tsx:18`).
Second, "now" carries a time of day while a stored date is a UTC midnight.
So a client last contacted 14 calendar days ago is due from any moment
after midnight of that 14th day (`Dashboard.FollowUpBoundary`,
`components/Dashboard.tsx:19-26`).

## Model

| member | source | states |
|---|---|---|
| `Types.ClientStatusIndex` | types.ts:1-7 | every client status has exactly one position in the enumeration Lead, Contacted, Negotiating, Closed, Lost |
| `Types.ProjectStatusIndex` | types.ts:9-14 | every project status has exactly one position in the enumeration Planning, In Progress, Review, Completed |
| `Types.Today` | components/ClientList.tsx:111 | the stored date of "now" (`toISOString().split('T')[0]`, also at components/ProjectBoard.tsx:35) is the UTC midnight starting the day that contains "now" |
| `Types.EnumerationsComplete` | types.ts:1-14 | the enumerations list all five and all four values once each; the labels differ pairwise, and no client-status label is `ALL` |
| `App.ReplaceClient` | App.tsx:21 | the updated list has the same length; exactly the positions whose id matches hold the new client, and every other position is unchanged |
| `App.ReplaceClientKeepsIds` | App.tsx:21 | updating keeps the sequence of ids; an unknown id leaves the list identical |
| `App.SetProjectStatus` | App.tsx:24-26 | only projects with the id change, and only in `status`; any target status is taken from any current one |
| `App.SetProjectStatusKeepsIds` | App.tsx:24-26 | a status change keeps the sequence of ids; an unknown id leaves the list identical |
| `App.RemoveById` | App.tsx:22 | an element stays after delete (clients, and likewise projects at line 29 and services at line 32) exactly when it was present and has a different id |
| `App.RemoveByIdProperties` | App.tsx:22 | delete keeps the other elements in order, leaves the list unchanged when the id is absent, and is idempotent |
| `App.AppState.constructor` | App.tsx:15-17 | the state starts from the seed collections, with ids distinct |
| `App.AppState.AddClient` | App.tsx:20 | clients become `old + [client]`; projects and services unchanged; ids stay distinct given a fresh id |
| `App.AppState.UpdateClient` | App.tsx:21 | clients become the replaced list; projects and services unchanged; ids stay distinct |
| `App.AppState.DeleteClient` | App.tsx:22 | clients become the filtered list; projects and services unchanged (no cascade) |
| `App.AppState.UpdateProjectStatus` | App.tsx:24-26 | projects become the status-updated list; clients and services unchanged |
| `App.AppState.AddProject` | App.tsx:28 | projects become `old + [project]`; clients and services unchanged; ids stay distinct given a fresh id |
| `App.AppState.DeleteProject` | App.tsx:29 | projects become the filtered list; clients and services unchanged |
| `App.AppState.AddService` | App.tsx:31 | services become `old + [service]`; clients and projects unchanged; ids stay distinct given a fresh id |
| `App.AppState.DeleteService` | App.tsx:32 | services become the filtered list; clients, and so their `interestedServices`, unchanged |
| `App.DanglingReferences` | App.tsx:22-32 | deletes do not cascade: after deleting a client and a service, a project still names the gone client and a client still lists the gone service |
| `Text.Lower` | components/ClientList.tsx:37-39 | `toLowerCase` keeps the length, maps each character by itself, and leaves no ASCII capital |
| `Text.Contains` | components/ClientList.tsx:37-39 | `includes`: the empty term is included in every string, and an included term is no longer than the string |
| `Text.ContainsAt` | components/ClientList.tsx:37-39 | `includes` holds exactly when the term occurs at some position |
| `Dashboard.CallCount` | components/Dashboard.tsx:15 | a client's call count is at most its number of interactions |
| `Dashboard.CallsMade` | components/Dashboard.tsx:15 | the calls-made figure is at most the number of interactions of all clients |
| `Dashboard.CallsMadeCountsCalls` | components/Dashboard.tsx:15 | calls made equals the number of interactions of kind Call across all clients; Email, Meeting and Note are not counted |
| `Dashboard.ActiveProjects` | components/Dashboard.tsx:16 | the active count is at most the number of projects |
| `Dashboard.ActivePlusCompleted` | components/Dashboard.tsx:16 | active and Completed projects add up to all projects |
| `Dashboard.EstimatedRevenue` | components/Dashboard.tsx:17 | with no negative value the revenue is non-negative and at least the value of every single project |
| `Dashboard.RevenueConcat` | components/Dashboard.tsx:17 | revenue of two lists joined is the sum of their revenues |
| `Dashboard.RevenueAppend` | components/Dashboard.tsx:17 | appending a project adds exactly its value |
| `Dashboard.RevenueIgnoresStatus` | components/Dashboard.tsx:17 | revenue depends only on the values, whatever the statuses |
| `Dashboard.RevenueData` | components/Dashboard.tsx:34-37 | the Projects bar is the revenue and the Pipeline bar is 1.5 times it |
| `Dashboard.RevenueExample` | components/Dashboard.tsx:34-37 | values 1200, 5000 and 0 give revenue 6200 and pipeline 9300 |
| `Dashboard.CeilDiv` | components/Dashboard.tsx:25 | `Math.ceil(d / m)` is the least `n` with `n * m >= d` |
| `Dashboard.DaysApart` | components/Dashboard.tsx:24-25 | the day count is the least whole number of days covering the distance between the two instants; it is zero only for the same instant |
| `Dashboard.NeedsFollowUp` | components/Dashboard.tsx:21-26 | the queue rule holds exactly for an open client never contacted or contacted more than 14 × 86 400 000 ms away from now |
| `Dashboard.FourteenDays` | components/Dashboard.tsx:24-26 | more than 14 days, rounded up, is the same as strictly more than 14 × 86 400 000 ms |
| `Dashboard.CallQueue` | components/Dashboard.tsx:20-27 | a client is queued exactly when it is present and meets the rule; no queued client is Closed or Lost |
| `Dashboard.CallQueueProperties` | components/Dashboard.tsx:20-27 | the queue keeps the clients' order; an open client never contacted is always queued; an open client with a date is queued iff the date is more than 14 days away |
| `Dashboard.FollowUpSymmetric` | components/Dashboard.tsx:24 | a date `d` ms in the future counts like one `d` ms in the past |
| `Dashboard.FollowUpBoundary` | components/Dashboard.tsx:19-26 | contacted on day D: due on D+15, not due at midnight of D+14, due at any later moment of D+14 |
| `Dashboard.Histogram` | components/Dashboard.tsx:29-32 | one slice per given status, in order, with the number of clients holding it |
| `Dashboard.StatusData` | components/Dashboard.tsx:29-32 | exactly five slices, one per status in enumeration order |
| `Dashboard.HistogramIsGrouping` | components/Dashboard.tsx:29-32 | the slice counts total the sizes of the per-status groups |
| `Dashboard.StatusDataTotal` | components/Dashboard.tsx:29-32 | the slice counts add up to the number of clients; with no clients every slice is zero |
| `ClientList.FilteredClients` | components/ClientList.tsx:36-42 | a client is shown exactly when its name, company or industry includes the term (lower-cased) and its status matches unless the filter is ALL |
| `ClientList.FilteredClientsProperties` | components/ClientList.tsx:36-42 | shown clients keep the list order; with ALL and an empty term every client is shown |
| `ClientList.BuildClient` | components/ClientList.tsx:46-59 | editing keeps id, interactions and last-contacted; adding gives the new id, no interactions and none; empty name and company become `Unknown` and `Unknown Company`; other fields are taken as entered |
| `ClientList.EditWithoutChangesIsIdentity` | components/ClientList.tsx:69-73 | opening a client and saving unchanged gives back the same client iff its name and company are non-empty |
| `ClientList.BuildClientKeepsLastContact` | components/ClientList.tsx:57-58 | saving the form keeps "last contact is the latest interaction" |
| `ClientList.LogCall` | components/ClientList.tsx:109-120 | exactly one Call interaction, dated the UTC day of now, is appended; `lastContacted` becomes that date; an empty note is `No notes added.`; all other fields unchanged |
| `ClientList.LogCallAddsOneCall` | components/ClientList.tsx:109-120 | after logging, the client's call count is one more and its last contact is the latest interaction |
| `ClientList.CallsMadeAfterReplace` | components/ClientList.tsx:122 | replacing one stored client changes calls made by the difference of the two call counts |
| `ClientList.SavedCallIsCounted` | components/ClientList.tsx:116-122 | saving a call for a stored client raises the dashboard's calls made by exactly one |
| `ClientList.CalledClientLeavesQueue` | components/ClientList.tsx:109-120 | a client called now is not in the call queue; later it is due again exactly when it is open and more than 14 days of ms have passed since the midnight of the call's day |
| `ClientList.ToggleService` | components/ClientList.tsx:378-384 | afterwards the service is present iff it was absent before; every other tag keeps its presence |
| `ClientList.ToggleTwiceRestores` | components/ClientList.tsx:378-384 | toggling a tag on and off again, from a list without it, restores the list |
| `ClientList.DisplayWebsite` | components/ClientList.tsx:212 | the label is never longer than the website |
| `ClientList.DropSchemeLeavesRest` | components/ClientList.tsx:212 | the first `replace` removes one leading `https://` or `http://` and nothing else |
| `ClientList.DropSlashLeavesHost` | components/ClientList.tsx:212 | the second `replace` removes one trailing `/` and nothing else |
| `ClientList.DisplayWebsiteShowsHost` | components/ClientList.tsx:212 | one leading `http://` or `https://` and one trailing `/` are dropped, so every such website shows as its host |
| `ClientList.ClientListView.constructor` | components/ClientList.tsx:15-28 | no selected client, the empty form, no client to call, empty note |
| `ClientList.ClientListView.OpenModal` | components/ClientList.tsx:69-84 | the selected client is set, and the form holds its fields or the empty form |
| `ClientList.ClientListView.CloseModal` | components/ClientList.tsx:86-89 | the selection is cleared and nothing else changes |
| `ClientList.ClientListView.EditForm` | components/ClientList.tsx:314-367 | the form takes the entered fields and nothing else changes |
| `ClientList.ClientListView.ToggleInterestedService` | components/ClientList.tsx:378-384 | only the form's service list changes, by the toggle |
| `ClientList.ClientListView.Submit` | components/ClientList.tsx:44-67 | the built client replaces the stored one when editing or is appended when adding; the selection is then cleared |
| `ClientList.ClientListView.OpenCallModal` | components/ClientList.tsx:100-104 | the client to call is set and the note cleared |
| `ClientList.ClientListView.EditCallNote` | components/ClientList.tsx:425 | the note takes the typed text |
| `ClientList.ClientListView.SaveCall` | components/ClientList.tsx:106-125 | without a client to call nothing changes; otherwise the client with the call logged at now replaces the stored one and the dialog's client is cleared |
| `ProjectBoard.FirstIndex` | components/ProjectBoard.tsx:23 | the position of the first client with the id, or none when no client has it |
| `ProjectBoard.ClientName` | components/ProjectBoard.tsx:23 | the first matching client's name; `Unknown Client` when there is no match or that name is empty; never empty |
| `ProjectBoard.Columns` | components/ProjectBoard.tsx:72-85 | four columns in enumeration order, each the projects of that status |
| `ProjectBoard.ColumnsPartition` | components/ProjectBoard.tsx:80-85 | each project is in exactly the column of its status; columns keep the order; column counts add up to the number of projects |
| `ProjectBoard.ActiveIsAllButLastColumn` | components/Dashboard.tsx:16 | the dashboard's active projects are those outside the Completed column |
| `ProjectBoard.NewProjectJoinsPlanning` | components/ProjectBoard.tsx:34 | a created project joins the end of the Planning column and no other column changes |
| `ProjectBoard.MoveTargets` | components/ProjectBoard.tsx:112 | exactly three targets: every status except the current one |
| `ProjectBoard.ThreeMoveTargets` | components/ProjectBoard.tsx:112 | filtering out the current status from the four leaves three |
| `ProjectBoard.MoveTargetsInOrder` | components/ProjectBoard.tsx:112 | the targets keep the enumeration order |
| `ProjectBoard.BuildProject` | components/ProjectBoard.tsx:28-38 | no project without a client or title; otherwise status Planning, deadline defaulting to the UTC day of now, and the entered client, title, value and description |
| `ProjectBoard.ProjectBoardView.constructor` | components/ProjectBoard.tsx:15-21 | the form starts empty |
| `ProjectBoard.ProjectBoardView.EditForm` | components/ProjectBoard.tsx:151-199 | the form takes the entered fields |
| `ProjectBoard.ProjectBoardView.Submit` | components/ProjectBoard.tsx:26-43 | on success the project is appended and the form reset; otherwise nothing changes |
| `Settings.BuildService` | components/Settings.tsx:18-24 | a service exactly when the name is non-empty and the price non-zero, carrying the new id and the entered name, description and price |
| `Settings.PriceGuard` | components/Settings.tsx:18 | a price of 0 is refused, and a negative price is accepted |
| `Settings.SettingsView.constructor` | components/Settings.tsx:12-14 | the form starts empty |
| `Settings.SettingsView.EditForm` | components/Settings.tsx:81-103 | the form takes the entered fields |
| `Settings.SettingsView.Add` | components/Settings.tsx:16-27 | on success the service is appended and the form reset; otherwise nothing changes |

## Left out

- Rendering: JSX, the Tailwind classes, `getStatusColor`, icons, the charts, and `toLocaleString` / `toLocaleDateString`. These are presentation only.
- Modal open and close flags, and the AI-script dialog state (`aiModalOpen`, `generatedScript`, `isGenerating`). These are presentation only.
- `ViewState` navigation and the sidebar flag in `App.tsx`. These are navigation only.
- `services/geminiService.ts` and `handleGenerateScript`: an asynchronous call into an external text-generation library that is not part of this model. The missing-key branch returns an error string before any call is made; that branch is not modelled either.
- `constants.tsx`: seed data only. The `AppState` constructor takes the seed collections as parameters.
- Id generation from `Date.now()`, with its `c_`, `p_`, `srv_` and `i_` prefixes: ids are parameters. Two adds within one millisecond could collide in the source; the model's add handlers require a fresh id instead.
- Parsing date strings: dates are timestamps. An unparsable `lastContacted` (NaN, so never queued in the source) cannot be expressed. An empty `lastContacted` string is falsy in the source and is modelled as `None`.
- JavaScript numbers: values and prices are integers, and the pipeline figure is a real. The rounding of `Math.ceil` on a floating-point quotient is taken as exact. `NaN` from `Number(...)` is not modelled.
- `toLowerCase` beyond ASCII letters: the model lower-cases A–Z only.
- The search term and status filter of the client list are parameters of `ClientList.FilteredClients`, not fields of `ClientListView`.
- The browser's `required` check on the company and industry inputs: `ClientList.BuildClient` accepts empty values as the handler itself does.
- The board's per-card quick actions and the delete buttons: they call `AppState.UpdateProjectStatus`, `DeleteProject`, `DeleteClient` and `DeleteService` directly, so they have no method of their own.
- ClientList.DisplayWebsite: its own contract states only the length bound. The exact label is stated by `ClientList.DisplayWebsiteShowsHost`: it covers websites with an `http://` or `https://` scheme, and those without one when they do not start with a scheme. The `No Website` text shown for an empty website is a fixed label.
