# Rescue Response Nexus — a Dafny model of the report workflow

Rescue Response Nexus is a disaster-reporting web application. Anyone can submit a report: a disaster category, a location, a description and photos. Each report then passes through one lifecycle: pending, assigned, dispatched, in progress, resolved.

There are three kinds of signed-in staff:

- administrators, who see everything and assign reports to a team;
- volunteers, who see the volunteer pool's reports that are open or assigned to them;
- members of the NDRF (National Disaster Response Force) unit, who see every report assigned to NDRF.

This project models what the application does over that lifecycle:

- the report provider: the hosted report and note collections and the blob store;
- the per-role view of the reports;
- the status, assignment and image updates;
- the authentication provider and the route guard;
- the sidebar of the dashboard frame;
- the three dashboards with their counts and tabs;
- the report detail page (one class for the three role variants);
- the forms: "report a disaster", registration and sign-in;
- the status progress bar.

The model is organised as follows:

- Pure logic is written as datatypes, functions and lemmas:
  - the enumerations and records (`Types`);
  - the JavaScript string helpers (`Text`);
  - newest-first ordering (`Ordering`);
  - the report edits and the visibility rules (`ReportLogic`);
  - the per-role status flow (`StatusFlow`);
  - the guard (`RouteGuard`);
  - the progress bar (`StatusProgress`);
  - the bucket counting (`DashboardViews`).
- State-changing parts are classes whose methods modify their fields: the stores, the sessions and the pages.
- Remote calls are modelled by `Remote.Call()`, which may succeed or fail. Generated ids and download URLs are modelled by `Remote.FreshName`, which returns a name not yet used.
- Timestamps are `nat` parameters.

## Model

| member | source | states |
|---|---|---|
| Types.Rank | src/lib/types.ts:16-21 | each status sits at exactly one position of the single linear lifecycle |
| Types.LifecycleIsExactlyTheStatuses | src/lib/types.ts:16-21 | the lifecycle lists each of the five statuses exactly once |
| Types.ParseStatus | src/lib/types.ts:16-21 | a parsed wire name prints back to the same string; an unparsed string is the name of no status |
| Types.StatusNameRoundTrip | src/lib/types.ts:16-21 | every status survives printing and parsing its wire name |
| Types.ParseRole | src/lib/types.ts:32 | a recognised role string prints back to itself; any other string names no role |
| Types.RoleNameRoundTrip | src/lib/types.ts:32 | every role survives printing and parsing |
| Types.DisasterTypesAreTen | src/lib/types.ts:4-14 | there are exactly ten distinct disaster categories and every category is listed |
| Text.TrimStart | src/pages/admin/ReportDetails.tsx:178 | leading trim yields a suffix with no leading white space, and everything it removes is white space |
| Text.TrimEnd | src/pages/admin/ReportDetails.tsx:178 | trailing trim yields a prefix with no trailing white space, and everything it removes is white space |
| Text.TrimStartEmptyIff | src/pages/admin/ReportDetails.tsx:178 | leading trim empties a string exactly when all of it is white space |
| Text.TrimEndOfNonBlank | src/pages/admin/ReportDetails.tsx:178 | trailing trim of a string that starts with a non-space is empty only for the empty string |
| Text.TrimEmptyIffBlank | src/pages/admin/ReportDetails.tsx:178 | `trim()` is empty exactly when every character is white space, so a whitespace-only note is refused |
| Text.Utf16Length | src/pages/RegisterPage.tsx:76 | a string's JavaScript length lies between its character count and twice that; one character counts two units exactly when it lies outside the Basic Multilingual Plane |
| Text.Utf16LengthAppend | src/pages/RegisterPage.tsx:76 | the JavaScript length of a concatenation is the sum of the lengths, so with the one-character case it fixes the length of every string |
| Text.Utf16LengthOfAstral | src/pages/RegisterPage.tsx:76 | a string made only of characters outside the Basic Multilingual Plane is twice as long as its character count |
| Text.Utf16LengthOfBmp | src/pages/RegisterPage.tsx:76 | inside the Basic Multilingual Plane the JavaScript length is the character count |
| Ordering.InsertDesc | src/contexts/DisasterReportContext.tsx:355 | inserting one element is a permutation that grows the list by one |
| Ordering.InsertDescSorted | src/contexts/DisasterReportContext.tsx:355 | inserting into a newest-first list keeps it newest-first |
| Ordering.SortDesc | src/contexts/DisasterReportContext.tsx:355 | the newest-first sort is a permutation of its input |
| Ordering.SortDescSorted | src/contexts/DisasterReportContext.tsx:355 | the sort's result has non-increasing keys |
| Ordering.SortDescSameElements | src/contexts/DisasterReportContext.tsx:355 | the sort keeps exactly the elements it was given |
| Ordering.InsertDescBounded | src/contexts/DisasterReportContext.tsx:355 | inserting an element no newer than a bound into a list whose keys stay within the bound keeps every key within it |
| ReportLogic.Find | src/contexts/DisasterReportContext.tsx:305-312 | lookup by id succeeds exactly for stored ids and returns a stored report with that id |
| ReportLogic.FindAppended | src/contexts/DisasterReportContext.tsx:148-158 | a record appended under a fresh id is the one found by that id |
| ReportLogic.NewReport | src/contexts/DisasterReportContext.tsx:137-158 | a new record is pending with equal creation and update times, reads back with an empty response-image list, and only administrators can see it |
| ReportLogic.Materialize | src/contexts/DisasterReportContext.tsx:314-328 | reading a document defaults missing response images to an empty list and changes nothing else |
| ReportLogic.Snapshot | src/contexts/DisasterReportContext.tsx:63-80 | the fetched list has one record per document, in order, each read as above |
| ReportLogic.CreateThenReadBack | src/contexts/DisasterReportContext.tsx:137-158 | a created report read back by its id is pending, unassigned and without assignee, with the submitted fields, the uploaded URLs, equal creation and update times, and no response images |
| ReportLogic.RemoteAssignee | src/contexts/DisasterReportContext.tsx:206-211 | as written: a truthy id is stored; otherwise unassigning stores null, and any other target leaves the field alone |
| ReportLogic.RemoteAssigneeIntended | src/contexts/DisasterReportContext.tsx:206-211 | corrected: unassigning without an id removes the field, so the write never introduces a null |
| ReportLogic.LocalAssignee | src/contexts/DisasterReportContext.tsx:216-226 | the local copy holds the id argument as given, or no field when none was passed |
| ReportLogic.Apply | src/contexts/DisasterReportContext.tsx:167-303 | an update stamps the update time and changes nothing but status, team, assignee and response images; each kind of update changes only its own fields |
| ReportLogic.EditKeepsSubmission | src/contexts/DisasterReportContext.tsx:167-303 | no update changes a report's id, category, location, description, submitted images or creation time; each stamps the update time |
| ReportLogic.StatusEditOnlyStatus | src/contexts/DisasterReportContext.tsx:167-190 | a status update changes only status and update time, and repeating it is idempotent up to the timestamp |
| ReportLogic.AssignKeepsStatus | src/contexts/DisasterReportContext.tsx:197-229 | assignment, remote as written, remote as intended or local, sets the target and never the status |
| ReportLogic.AppendImageKeepsEarlier | src/contexts/DisasterReportContext.tsx:286-295 | adding a response image keeps the earlier ones in place and puts the new URL last |
| ReportLogic.Patch | src/contexts/DisasterReportContext.tsx:176-190 | the patched list has the same length and changes exactly the reports with the given id |
| ReportLogic.PatchKeepsIds | src/contexts/DisasterReportContext.tsx:176-190 | patching keeps every id in place, so distinct ids stay distinct |
| ReportLogic.FindAfterPatch | src/contexts/DisasterReportContext.tsx:176-190 | after a patch the id finds the patched report, and a missing id stays missing |
| ReportLogic.VisibleTo | src/contexts/DisasterReportContext.tsx:85-99 | a team member only ever sees an assigned report; an unknown role sees nothing; a stored null assignee hides a report from every volunteer |
| ReportLogic.KeepVisible | src/contexts/DisasterReportContext.tsx:90-99 | the filter keeps exactly the reports visible to the profile, as a sub-multiset |
| ReportLogic.RoleView | src/contexts/DisasterReportContext.tsx:85-101 | administrators see all reports; volunteers see exactly the volunteer pool's reports with their own id or no assignee; NDRF sees exactly the NDRF reports; any other role sees none |
| ReportLogic.NoCrossRoleLeak | src/contexts/DisasterReportContext.tsx:90-99 | no team member ever sees another team's or an unassigned report |
| ReportLogic.NotesOf | src/contexts/DisasterReportContext.tsx:337-352 | the query returns exactly the notes of the report |
| ReportLogic.NotesOfAppend | src/contexts/DisasterReportContext.tsx:342-352 | selecting over a concatenation is concatenating the selections |
| ReportLogic.NewestNotes | src/contexts/DisasterReportContext.tsx:335-357 | the fetched notes are a reordering of the report's notes, none added or lost |
| ReportLogic.NewestNotesSpec | src/contexts/DisasterReportContext.tsx:335-357 | the fetched notes are exactly the report's notes, latest first |
| ReportLogic.AsWrittenReassignHidesReport | src/contexts/DisasterReportContext.tsx:93 | as written, unassigning and then handing a report to the volunteer team stores null, and no volunteer can see the report |
| ReportLogic.AsWrittenStoreHidesReassigned | src/contexts/DisasterReportContext.tsx:197-234 | as written, in the store itself: after the two assignment writes the report is handed to the volunteer team and still no volunteer can see it |
| ReportLogic.AsWrittenRemoteDiffersFromLocal | src/contexts/DisasterReportContext.tsx:206-226 | as written, unassigning stores null while the local copy holds no field |
| ReportLogic.IntendedReassignOpensReport | src/contexts/DisasterReportContext.tsx:93 | with the corrected write, the re-assigned report is handed to the volunteer team without an assignee and is open to every volunteer |
| ReportLogic.IntendedRemoteMatchesLocal | src/contexts/DisasterReportContext.tsx:197-229 | with the corrected write, the stored and local copies agree exactly when a non-empty id is passed, or none is passed and the call unassigns or the field was already absent, or the empty string is passed to a team whose record already holds it; with no id and no prior assignee they always agree |
| ReportStore.ReadReports | src/contexts/DisasterReportContext.tsx:63-80 | the read loop produces the snapshot of the collection |
| ReportStore.ReadNotes | src/contexts/DisasterReportContext.tsx:338-352 | the query loop produces exactly the report's notes in collection order |
| ReportStore.Store.constructor | src/contexts/DisasterReportContext.tsx:49-53 | the provider starts with empty lists and loading |
| ReportStore.Store.FetchReports | src/contexts/DisasterReportContext.tsx:56-108 | success sets `reports` to the snapshot and, with a profile, `userReports` to its role view; failure keeps both; loading ends either way |
| ReportStore.Store.Upload | src/contexts/DisasterReportContext.tsx:126-130 | two calls, the byte upload and the URL lookup: once the upload succeeds one blob holding the file, with a path in the folder, is stored under a fresh key, even if the lookup then fails; success returns that key as the URL; a failed upload stores nothing; existing blobs are untouched |
| ReportStore.Store.CreateReport | src/contexts/DisasterReportContext.tsx:114-165 | uploads every image in order under pairwise distinct fresh URLs, then appends one pending, unassigned report under a fresh id to the store and to `reports`; a failure adds no report |
| ReportStore.Store.UpdateReportStatus | src/contexts/DisasterReportContext.tsx:167-195 | on success the store and both local lists are patched with the status; on failure nothing changes |
| ReportStore.Store.AssignReport | src/contexts/DisasterReportContext.tsx:197-234 | on success the store gets the remote write as written (null when unassigning without an id) and both local lists the local one; on failure nothing changes |
| ReportStore.Store.FetchReportNotes | src/contexts/DisasterReportContext.tsx:335-361 | success loads the report's notes latest first; a failure is swallowed and keeps the list |
| ReportStore.Store.AddNote | src/contexts/DisasterReportContext.tsx:236-257 | without a profile it fails with "User must be logged in to add notes"; otherwise it appends one note carrying the profile's id and name, then reloads |
| ReportStore.Store.AddResponseImage | src/contexts/DisasterReportContext.tsx:259-303 | fails for a missing document, before any document write, and with "Report not found" once the upload and the read have succeeded; otherwise the stored list and both local lists end with the new URL |
| ReportStore.Store.FetchReportDetails | src/contexts/DisasterReportContext.tsx:305-333 | returns the document read as a record, or nothing when it is missing or the read fails |
| StatusProgress.Progress | src/components/ui/status-progress.tsx:11-26 | the bar is 20% per lifecycle step reached, and 0 exactly for an unknown status |
| StatusProgress.ProgressColor | src/components/ui/status-progress.tsx:28-34 | an unknown status is grey |
| StatusProgress.ProgressFollowsLifecycle | src/components/ui/status-progress.tsx:11-26 | the bar grows strictly along the lifecycle |
| StatusProgress.FullOnlyWhenResolved | src/components/ui/status-progress.tsx:11-26 | only "resolved" fills the bar, and only unknown names leave it empty |
| StatusProgress.ColorsByStatus | src/components/ui/status-progress.tsx:28-34 | no status is grey, and two statuses share a colour exactly when both are assigned or dispatched, or they are the same |
| StatusFlow.StatusOptions | src/pages/admin/ReportDetails.tsx:438-444 | the selector lists statuses in lifecycle order; for administrators it lists the whole lifecycle |
| StatusFlow.OptionsByRole | src/pages/volunteer/ReportDetails.tsx:484-488 | NDRF is offered every status but pending; volunteers every status but pending and dispatched; administrators all |
| StatusFlow.SelectorEnabled | src/pages/volunteer/ReportDetails.tsx:476-479 | only the volunteer page locks the selector, and only for a status the selector does not list |
| StatusFlow.HeaderAction | src/pages/ndrf/ReportDetails.tsx:275-300 | no header action on the administrator page or for a pending report, and every status button moves the report strictly forward |
| StatusFlow.HeaderActionAdvances | src/pages/ndrf/ReportDetails.tsx:275-300 | header buttons appear only on team pages past pending; each moves a report forward to a status the role's selector also offers, exactly one step on the NDRF page; only NDRF gets the download, and only on resolved reports |
| StatusFlow.FollowButtons | src/pages/volunteer/ReportDetails.tsx:265-277 | the status changes only if at least one press was made on a page whose header shows a status button |
| StatusFlow.FollowButtonsForward | src/pages/volunteer/ReportDetails.tsx:265-277 | pressing header buttons never moves a report backwards |
| StatusFlow.ButtonsReachResolved | src/pages/ndrf/ReportDetails.tsx:275-300 | NDRF buttons reach resolved within three presses; volunteer buttons within two, except that a dispatched report offers a volunteer no button at all |
| StatusFlow.Timeline | src/pages/ndrf/ReportDetails.tsx:571-655 | the NDRF timeline has five steps and the others four |
| StatusFlow.StepThresholds | src/pages/admin/ReportDetails.tsx:450-510 | the lifecycle position each step needs never decreases down the timeline |
| StatusFlow.TimelineThresholds | src/pages/volunteer/ReportDetails.tsx:506-575 | each step is completed exactly when the report has reached its threshold |
| StatusFlow.TimelineIsPrefix | src/pages/ndrf/ReportDetails.tsx:571-655 | completed steps form a prefix; all are completed exactly for a resolved report, and a pending one completes at most the first |
| StatusFlow.TimelineMonotone | src/pages/volunteer/ReportDetails.tsx:506-575 | a later lifecycle status never un-completes a step; the volunteer timeline cannot tell dispatched from assigned |
| StatusFlow.DetailAssignStatus | src/pages/admin/ReportDetails.tsx:151-160 | assigning on the detail page moves only a pending report, to assigned |
| StatusFlow.DashboardAssignStatus | src/pages/admin/Dashboard.tsx:142-147 | a dashboard assignment to a team sets assigned; unassigning keeps the status |
| StatusFlow.AssignRulesAgree | src/pages/admin/Dashboard.tsx:366-372 | on the pending reports the dashboard offers to assign, both pages reach assigned |
| StatusFlow.DetailUnassignOfPending | src/pages/admin/ReportDetails.tsx:151-160 | choosing "unassigned" for a pending report on the detail page still marks it assigned, unlike the dashboard |
| RouteGuard.RoleHome | src/components/ProtectedRoute.tsx:30-38 | a refused user goes to the route named after their role, or to "/" for an unknown role |
| RouteGuard.Guard | src/components/ProtectedRoute.tsx:11-43 | spinner exactly while loading; children exactly for a signed-in user with a loaded profile whose role is allowed; login when signed out or profileless; otherwise the role's home |
| RouteGuard.RouteRolesIn | src/App.tsx:49-100 | a path has roles exactly when it is in the table, and then they are its table entry |
| RouteGuard.RouteRoles | src/App.tsx:49-100 | a path is guarded exactly when the route table lists it |
| RouteGuard.HomesAreOwnRoutes | src/App.tsx:49-100 | each role's home admits exactly that role; "/" and "/login" are public |
| RouteGuard.PublicPaths | src/App.tsx:49-100 | neither "/login" nor "/" is a guarded route |
| RouteGuard.RedirectsSettle | src/components/ProtectedRoute.tsx:22-40 | a redirect leads to a public page or to a route that renders for the same session, so redirects never loop |
| RouteGuard.NoSpinnerUnderProvider | src/contexts/AuthContext.tsx:123 | once the provider renders its children, the guard never shows its spinner |
| RouteGuard.UnknownRoleGoesHome | src/components/ProtectedRoute.tsx:37-38 | a profile with an unknown role is sent to "/" by every guarded route |
| AuthSession.Session.constructor | src/contexts/AuthContext.tsx:34-37 | the provider starts signed out and loading |
| AuthSession.Session.FetchUserProfile | src/contexts/AuthContext.tsx:39-51 | the profile becomes the stored one under the user id, or none when missing or on failure |
| AuthSession.Session.AuthStateChanged | src/contexts/AuthContext.tsx:53-67 | the listener mirrors the service's user, loads or clears the profile, and ends loading |
| AuthSession.Session.SignIn | src/contexts/AuthContext.tsx:69-77 | a wrong email or password fails and changes nothing; success signs that account in and loads its profile |
| AuthSession.Session.SignOut | src/contexts/AuthContext.tsx:79-87 | success signs out and drops the profile; failure keeps both |
| AuthSession.Session.Register | src/contexts/AuthContext.tsx:89-110 | a taken email fails with the service's code; success creates the account and stores and loads a profile with its uid, name, email and role |
| DashboardLayout.BaseUrl | src/components/layouts/DashboardLayout.tsx:34 | the base path is "/" followed by the role |
| DashboardLayout.NavLinks | src/components/layouts/DashboardLayout.tsx:37-97 | two common links for every role, two more for each recognised role |
| DashboardLayout.IsActive | src/components/layouts/DashboardLayout.tsx:111-118 | a highlighted link's target always prefixes the path; every link but the dashboard is highlighted exactly on the paths it prefixes |
| DashboardLayout.Sidebar | src/components/layouts/DashboardLayout.tsx:29-31 | the frame shows nothing without a profile; otherwise each role link with its highlight |
| DashboardLayout.LinksUnderBase | src/components/layouts/DashboardLayout.tsx:37-97 | every link lies under the role's base path, and only the dashboard link is the base itself |
| DashboardLayout.OnlyDashboardAtBase | src/components/layouts/DashboardLayout.tsx:111-118 | on the base path only the dashboard link is highlighted |
| DashboardLayout.NdrfReportsLinkTwice | src/components/layouts/DashboardLayout.tsx:80-93 | the NDRF sidebar has two links to the same reports target, highlighted together |
| DashboardLayout.NothingActiveOnDetails | src/components/layouts/DashboardLayout.tsx:111-118 | on a report detail page no sidebar link is highlighted |
| DashboardLayout.SuffixMisses | src/components/layouts/DashboardLayout.tsx:111-118 | a link whose suffix parts from "/report/" at some position does not prefix the detail path |
| DashboardLayout.Layout.constructor | src/components/layouts/DashboardLayout.tsx:24-27 | the frame starts without a pending navigation |
| DashboardLayout.Layout.HandleSignOut | src/components/layouts/DashboardLayout.tsx:101-108 | after a successful sign-out the user is signed out and sent to "/"; a failure keeps the page as it was |
| DashboardViews.Select | src/pages/admin/Dashboard.tsx:85-90 | a status filter keeps exactly the reports whose status is in the bucket |
| DashboardViews.SelectUnion | src/pages/admin/Dashboard.tsx:87-89 | filtering by two disjoint buckets is filtering by each and combining |
| DashboardViews.SelectPartition | src/pages/admin/Dashboard.tsx:85-90 | four disjoint buckets covering all statuses split the list exactly |
| DashboardViews.SelectAll | src/pages/admin/Dashboard.tsx:133-134 | the bucket of all statuses keeps the whole list |
| DashboardViews.Count | src/pages/admin/Dashboard.tsx:85-90 | a count never exceeds the list, and is zero exactly when no report's status is in the bucket |
| DashboardViews.CountMonotone | src/pages/admin/Dashboard.tsx:85-90 | a larger bucket never counts fewer reports |
| DashboardViews.TabListSameReports | src/pages/admin/Dashboard.tsx:113-138 | a tab holds the same reports as its bucket |
| DashboardViews.TabListSpec | src/pages/admin/Dashboard.tsx:113-138 | a tab lists exactly its bucket's reports, newest first |
| DashboardViews.TeamTabsCover | src/pages/ndrf/Dashboard.tsx:74-97 | three disjoint non-pending buckets that with pending cover every status give tabs that, with the pending reports, hold the whole list once |
| DashboardViews.TypeCount | src/pages/admin/Dashboard.tsx:92-96 | a category count never exceeds the list |
| DashboardViews.FirstAppearance | src/pages/admin/Dashboard.tsx:92-100 | the chart categories are exactly those present, each once |
| DashboardViews.TypeCountSnoc | src/pages/admin/Dashboard.tsx:93-96 | counting one more report adds one to its own category only |
| DashboardViews.TypeCountAbsent | src/pages/admin/Dashboard.tsx:94 | an absent category counts zero |
| AdminDashboard.TypeSlices | src/pages/admin/Dashboard.tsx:92-100 | one chart entry per category present |
| AdminDashboard.TypeSlicesSnocPresent | src/pages/admin/Dashboard.tsx:94-95 | a report of a category already charted bumps that entry only |
| AdminDashboard.TypeSlicesSnocAbsent | src/pages/admin/Dashboard.tsx:94-95 | a report of a new category appends an entry with count one |
| AdminDashboard.TypeSlicesSum | src/pages/admin/Dashboard.tsx:92-100 | the chart's counts add up to the number of reports |
| AdminDashboard.BuildTypeCounts | src/pages/admin/Dashboard.tsx:92-100 | the map loop yields the chart entries, each a positive count of its category, summing to the total |
| AdminDashboard.TypeCountPositive | src/pages/admin/Dashboard.tsx:93-96 | every listed report's category has a positive count |
| AdminDashboard.AdminTabBucket | src/pages/admin/Dashboard.tsx:113-138 | a filtering tab selects a non-empty set of statuses |
| AdminDashboard.AdminTabBucketNames | src/pages/admin/Dashboard.tsx:113-138 | exactly the tabs "pending", "assigned", "inProgress" and "resolved" filter; "all" and any other name show everything |
| AdminDashboard.StatsOf | src/pages/admin/Dashboard.tsx:83-111 | the total is the list's length and no card exceeds it |
| AdminDashboard.ComputeStats | src/pages/admin/Dashboard.tsx:83-111 | the stats effect computes the cards and the chart of the given list |
| AdminDashboard.StatsPartition | src/pages/admin/Dashboard.tsx:83-111 | the four status cards add up to the total; "In Progress" counts both dispatched and in-progress reports |
| AdminDashboard.TabsPartition | src/pages/admin/Dashboard.tsx:113-138 | the four status tabs together list every report exactly once |
| AdminDashboard.AdminDashboardPage.constructor | src/pages/admin/Dashboard.tsx:71-81 | the page starts on the "all" tab with an empty list and zero counts |
| AdminDashboard.AdminDashboardPage.RefreshStats | src/pages/admin/Dashboard.tsx:83-111 | with reports the cards are recomputed; with none they stay |
| AdminDashboard.AdminDashboardPage.RefreshTab | src/pages/admin/Dashboard.tsx:113-140 | with reports the tab list is recomputed for the active tab; with none it stays |
| AdminDashboard.AdminDashboardPage.SetTab | src/pages/admin/Dashboard.tsx:316 | choosing a tab makes it the active one |
| AdminDashboard.AdminDashboardPage.Refresh | src/pages/admin/Dashboard.tsx:83-140 | with reports, the cards and the tab list are recomputed; with none, the previous ones stay |
| AdminDashboard.AdminDashboardPage.HandleAssign | src/pages/admin/Dashboard.tsx:142-165 | assigns without a user id with the store's write as written and, for a team, then marks the report assigned; both local lists get the local assignment and the same status patch; a failure leaves the store and both lists as they were or with only the assignment |
| NdrfDashboard.NdrfTabBucket | src/pages/ndrf/Dashboard.tsx:78-92 | a filtering tab selects a non-empty set of statuses without pending |
| NdrfDashboard.NdrfTabBucketNames | src/pages/ndrf/Dashboard.tsx:78-92 | exactly the tabs "assigned", "active" and "resolved" filter; "all" and any other name show everything |
| NdrfDashboard.StatsOf | src/pages/ndrf/Dashboard.tsx:100-106 | the total is the list's length and no card exceeds it |
| NdrfDashboard.StatsCoverNonPending | src/pages/ndrf/Dashboard.tsx:100-106 | the four cards count every listed report except pending ones, so they never exceed the total |
| NdrfDashboard.TabsPartition | src/pages/ndrf/Dashboard.tsx:74-97 | the three tabs and the pending reports together hold every listed report once; "active" is dispatched plus in progress |
| NdrfDashboard.TabsShowOnlyNdrfReports | src/pages/ndrf/Dashboard.tsx:59 | built from the NDRF view, every tab shows only NDRF reports |
| NdrfDashboard.DispatchMatchesDetailPage | src/pages/ndrf/Dashboard.tsx:254-261 | the card's "Dispatch Team" does what the detail page's header button does for an assigned report |
| NdrfDashboard.NdrfDashboardPage.constructor | src/pages/ndrf/Dashboard.tsx:63-71 | the page starts on the "all" tab with an empty list and zero counts |
| NdrfDashboard.NdrfDashboardPage.SetTab | src/pages/ndrf/Dashboard.tsx:212 | choosing a tab makes it the active one |
| NdrfDashboard.NdrfDashboardPage.Refresh | src/pages/ndrf/Dashboard.tsx:74-117 | with reports, the cards and tab list are recomputed; with none, both reset |
| NdrfDashboard.NdrfDashboardPage.HandleDispatch | src/pages/ndrf/Dashboard.tsx:119-134 | on success the store and both local lists are patched with dispatched for that report, which exists; on failure none of them changes |
| VolunteerDashboard.VolunteerTabBucket | src/pages/volunteer/Dashboard.tsx:78-89 | a filtering tab selects a non-empty set of statuses without pending |
| VolunteerDashboard.VolunteerTabBucketNames | src/pages/volunteer/Dashboard.tsx:78-89 | exactly the tabs "assigned", "inProgress" and "resolved" filter; "all" and any other name show everything |
| VolunteerDashboard.StatsOf | src/pages/volunteer/Dashboard.tsx:98-103 | the total is the list's length and no card exceeds it |
| VolunteerDashboard.StatsCoverNonPending | src/pages/volunteer/Dashboard.tsx:98-103 | the three cards count every listed report except pending ones; "In Progress" includes dispatched reports |
| VolunteerDashboard.TabsPartition | src/pages/volunteer/Dashboard.tsx:74-95 | the three tabs and the pending reports together hold every listed report once |
| VolunteerDashboard.TabsShowOnlyOwnReports | src/pages/volunteer/Dashboard.tsx:60 | built from the volunteer view, every tab shows only volunteer-pool reports open to this volunteer |
| VolunteerDashboard.TakeResponsibilityMatchesDetailPage | src/pages/volunteer/Dashboard.tsx:240-246 | the card's "Take Responsibility" does what the detail page's header button does for an assigned report |
| VolunteerDashboard.VolunteerDashboardPage.constructor | src/pages/volunteer/Dashboard.tsx:64-71 | the page starts on the "all" tab with an empty list and zero counts |
| VolunteerDashboard.VolunteerDashboardPage.SetTab | src/pages/volunteer/Dashboard.tsx:198 | choosing a tab makes it the active one |
| VolunteerDashboard.VolunteerDashboardPage.Refresh | src/pages/volunteer/Dashboard.tsx:74-113 | with reports, the cards and tab list are recomputed; with none, both reset |
| VolunteerDashboard.VolunteerDashboardPage.HandleTakeResponsibility | src/pages/volunteer/Dashboard.tsx:115-130 | on success the store and both local lists are patched with in progress for that report, which exists; on failure none of them changes |
| ReportDetailsPage.DetailsPage.constructor | src/pages/admin/ReportDetails.tsx:89-92 | the page starts loading, with no report, an empty note and no pending navigation |
| ReportDetailsPage.DetailsPage.Load | src/pages/admin/ReportDetails.tsx:94-124 | without an id nothing happens; a found report is shown and its notes loaded; a missing one sends the user to their dashboard; loading then ends |
| ReportDetailsPage.DetailsPage.HandleStatusChange | src/pages/ndrf/ReportDetails.tsx:131-149 | without a report nothing happens; once the write succeeds the page, the stored collection and both local lists carry the new status; a failure changes nothing |
| ReportDetailsPage.DetailsPage.HandleAssign | src/pages/admin/ReportDetails.tsx:146-175 | assigns without a user id with the store's write as written, then moves a pending report to assigned; both local lists get the local assignment and the same status patch; page and store agree on team and status afterwards; a failure leaves the store and both lists as they were or with only the assignment |
| ReportDetailsPage.DetailsPage.SetNoteText | src/pages/admin/ReportDetails.tsx:352 | typing sets the note input |
| ReportDetailsPage.DetailsPage.HandleAddNote | src/pages/admin/ReportDetails.tsx:177-200 | a blank note or a missing report is skipped; a stored note is non-blank and carries the author's id and name and the call's time; the input is cleared and the notes are reloaded, or kept when the reload fails |
| ReportDetailsPage.DetailsPage.HandleImageUpload | src/pages/ndrf/ReportDetails.tsx:174-205 | with no report or no file nothing happens; otherwise the first file is uploaded and appended to the stored response images and to both local lists, and the page shows the re-read report or keeps its copy; unless it completes, no document or list changes |
| LoginForm.ValidateLogin | src/pages/LoginPage.tsx:40-47 | the form passes exactly when both fields are non-empty |
| LoginForm.LoginErrorMessage | src/pages/LoginPage.tsx:56-62 | unknown user and wrong password give the invalid-credentials message; too many requests its own; all else the generic one |
| LoginForm.LoginPage.constructor | src/pages/LoginPage.tsx:17-21 | the form starts empty and not loading |
| LoginForm.LoginPage.Render | src/pages/LoginPage.tsx:24-27 | a signed-in visitor is sent to "/" |
| LoginForm.LoginPage.HandleChange | src/pages/LoginPage.tsx:29-35 | a change sets exactly the named field |
| LoginForm.LoginPage.HandleSubmit | src/pages/LoginPage.tsx:37-72 | an incomplete form is refused before any sign-in; a failed sign-in shows the mapped message; loading ends |
| RegisterForm.ValidateRegistration | src/pages/RegisterPage.tsx:57-83 | the checks run in order, required fields then match then length, and the first failing one gives its message |
| RegisterForm.PasswordLengthInCodeUnits | src/pages/RegisterPage.tsx:76 | the length rule counts UTF-16 units: six or more characters always pass, and an otherwise valid form whose password is three characters outside the Basic Multilingual Plane passes |
| RegisterForm.RegisterErrorMessage | src/pages/RegisterPage.tsx:103-109 | email-in-use and invalid-email codes give their messages; all else the generic one |
| RegisterForm.RegisteredUserLandsOnDashboard | src/pages/RegisterPage.tsx:100 | the route a new user is sent to admits their profile |
| RegisterForm.RegisterPage.constructor | src/pages/RegisterPage.tsx:23-31 | the form starts empty with the volunteer role and not loading |
| RegisterForm.RegisterPage.Render | src/pages/RegisterPage.tsx:34-37 | a signed-in visitor is sent to "/" |
| RegisterForm.RegisterPage.HandleChange | src/pages/RegisterPage.tsx:39-45 | a change sets exactly the named text field and leaves the others and the role alone |
| RegisterForm.RegisterPage.HandleRoleChange | src/pages/RegisterPage.tsx:47-52 | choosing a role changes only the role |
| RegisterForm.RegisterPage.HandleSubmit | src/pages/RegisterPage.tsx:54-119 | a form failing a check is refused with its message; success registers with the chosen role and goes to that role's dashboard |
| ReportForm.OfferedTypesAreSeven | src/pages/ReportDisaster.tsx:152-180 | the form offers seven of the ten categories, all but chemical, biological and nuclear, and the default is offered |
| ReportForm.RemoveAt | src/pages/ReportDisaster.tsx:53-58 | removing an index drops exactly that file; an index out of range keeps all |
| ReportForm.ValidateReport | src/pages/ReportDisaster.tsx:63-79 | location is checked first, then description; the form passes exactly when both are non-empty |
| ReportForm.ReportFormPage.constructor | src/pages/ReportDisaster.tsx:19-26 | the form starts with the flood category, empty fields, no images and nothing submitted |
| ReportForm.ReportFormPage.HandleDisasterTypeChange | src/pages/ReportDisaster.tsx:28-33 | sets only the category |
| ReportForm.ReportFormPage.HandleChange | src/pages/ReportDisaster.tsx:35-41 | sets only the named text field |
| ReportForm.ReportFormPage.HandleImageChange | src/pages/ReportDisaster.tsx:43-51 | newly chosen files go after those already chosen; no selection changes nothing |
| ReportForm.ReportFormPage.RemoveImage | src/pages/ReportDisaster.tsx:53-58 | removes the file at the index |
| ReportForm.ReportFormPage.HandleSubmit | src/pages/ReportDisaster.tsx:60-108 | a failing check shows its message and creates nothing; success appends to the store and to `reports` exactly the new report under a fresh id, with the form's fields and one distinct fresh URL per chosen file, each a new blob holding that file in the images folder; earlier blobs stay; submitting ends |

## Left out

- The remote services are left out: Firebase Auth, Firestore and Storage. Each call is modelled by `Remote.Call()` succeeding or failing, with the state change the call makes when it succeeds. Error codes are arbitrary strings from `Remote.ErrorCode()`.
- Concurrency is left out: the interleaving of the auth listener, the provider's effects and the pages' awaits is not modelled. Each operation runs to completion.
- Clocks are left out: `Timestamp.now()` and `new Date()` are `nat` parameters. One call uses one "now" for its remote and local writes.
- Random ids are left out: `Math.random()` file prefixes are arbitrary, and document ids and download URLs are fresh names.
- Toasts are left out, except where a page keeps the message as its only observable result. Their titles and the `setTimeout` navigation after a submitted report are also left out.
- Generating the PDF on the NDRF page is left out. `DownloadReport` appears only as the header action.
- Rendering is left out: markup, icons, the charts' colours and `formatDate`.
- Selector and dialog widget behaviour is left out. The volunteer selector's `disabled` is modelled by `StatusFlow.SelectorEnabled`.
- The HTML `required` attributes of the forms are not modelled. Browser-side validation happens before `handleSubmit`, so the model only has the checks the handler itself performs.
- The optional fields of `types.ts` are not modelled: `notes`, `severity`, `affectedArea`, `estimatedPeopleAffected`, `resourcesNeeded`, `contactInfo`, coordinates, and the profile's optional fields. The `ResourceRequest`, `EmergencyContact` and `DisasterStatistics` records are not modelled either, because no core operation reads or writes them.
- The registration form's phone field is kept in `RegisterData` but, as in the source, never sent.
- `src/pages/HomePage.tsx`, `src/components/layouts/NavbarLayout.tsx` and `src/lib/firebase.ts` are not part of this model. `src/App.tsx` enters only through its guarded route table.
- ReportStore.Store.CreateReport: the order of the hosted reports collection is modelled as creation order, so a new report goes last. A query without `orderBy` returns documents in document-id order, and the ids are random. So the model does not capture where a new report appears after a re-fetch, nor the resulting order of the administrator chart's categories.
- ReportStore.Store.Upload: no longer promises that a failed call leaves the stored files unchanged. When the byte upload succeeds and the URL lookup fails, the file stays stored with no URL returned, as in the source. Only a failed byte upload leaves them unchanged.
- ReportStore.Store.FetchReports: a list that is read but malformed is not modelled. The source would throw while reading `createdAt.toDate()`; the model treats every document as well-formed.
- ReportDetailsPage.DetailsPage.Load: `fetchReportDetails` swallows read errors into null, so a failed read and a missing report both send the user back to their dashboard. The contract follows that and does not tell them apart.
- AuthSession.Session.Register: the contract does not say which account the service keeps when the profile write fails after the account was created. It says only that the account may exist and be signed in while the profile is unchanged.

Where the code does something its comments or names do not suggest, the model follows the code:

- After a successful sign-in, the login page navigates to "/" once `currentUser` is set. The comment about a role-based redirect describes nothing the code does.
- The registration check `!formData.role` can never fire, because the selector always holds a role.
- Whitespace-only locations, descriptions, names and passwords pass the form checks; only notes are trimmed.
- On the administrator's detail page, choosing "unassigned" for a pending report still marks it assigned (`StatusFlow.DetailUnassignOfPending`).
- The administrator dashboard keeps its previous counts and tab list when the report list becomes empty; the team dashboards reset theirs.

## Findings

| source | as written | input that shows it | evidently intended | confidence | as-written member | corrected member |
|---|---|---|---|---|---|---|
| src/contexts/DisasterReportContext.tsx:206-211 | unassigning without a user id stores `assignedUserId: null`, although the comment says the field is removed | an administrator sets a report to "unassigned" and later to "volunteer" (the admin pages never pass a user id); the stored assignee stays null, and the volunteer filter at line 93 admits only a matching id or `undefined`, so no volunteer sees the report | remove the field (`deleteField()`), so that a report handed back to the volunteer pool is open to every volunteer and the stored record matches the local one | not executed | ReportLogic.AsWrittenStoreHidesReassigned | ReportLogic.IntendedReassignOpensReport |

The store and the pages model the write as the code makes it:

- `ReportStore.Store.AssignReport` and both `HandleAssign` methods apply `ReportLogic.RemoteAssignEdit`, whose assignee rule is `ReportLogic.RemoteAssignee`.
- `ReportLogic.AsWrittenReassignHidesReport` and `ReportLogic.AsWrittenStoreHidesReassigned` show the hidden report on one record and on the stored collection.
- The corrected write is `ReportLogic.IntendedAssignEdit`, with the assignee rule `ReportLogic.RemoteAssigneeIntended`.
- `ReportLogic.IntendedReassignOpensReport` and `ReportLogic.IntendedRemoteMatchesLocal` prove the intended behaviour about the corrected write.
