# TrashKita screens in Dafny

TrashKita is a React Native app for community waste cleanup. Citizens report waste with a photo and a location. Workers apply for paid cleanup tasks, check in at the task site, submit before/after proof and withdraw their earnings. LGU administrators review reports and applications.

This project models the logic inside the app's screens. That logic covers:

- the check-in session and its distance gate;
- how reports and tasks are projected into map markers, with their colours, icons and bounding box;
- the place search;
- the admin review lists, with their status updates and tab counts;
- the form validators and submit guards;
- a set of small derivations: the payment totals, the My Tasks tabs, the status tables, the onboarding pager, the notification lookups and the profile stats.

Each source file is one Dafny module. The shared pieces are in four modules:

- `Common`: the option type, JavaScript truthiness of strings, coordinates, theme colours, navigation requests, picker results, and `filter` with its lemmas.
- `Text`: JavaScript's `\s`, `includes`, `toLowerCase`, `trim`, `split` and `join`.
- `Records`: the record shapes of the mock data.
- `MockData`: the shipped fixtures, used by the concrete lemmas.

State that a screen keeps with `useState` and updates in its handlers becomes a class. The class has those fields, and its methods say what the new state is. In most screens the new state is stated as a pure transition function of the old state. The lemmas are stated about those functions. Pure computations become functions and lemmas.

Asynchronous platform calls become inputs to the methods:

- location, camera and gallery results;
- permission answers;
- answers to confirmation dialogs.

Each `setTimeout` continuation becomes a separate `Complete…` method, which returns the navigation request its alert issues.

## Model

| member | source | states |
|---|---|---|
| CheckIn.AcquireLocation | src/screens/CheckInScreen.js:26-42 | a fix replaces the current location; a denied permission or an error leaves the whole session unchanged |
| CheckIn.BeginCheckIn | src/screens/CheckInScreen.js:55-80 | no location: error and no change; distance strictly above 0.5 km: mismatch and no change; otherwise (0.5 exactly included) loading starts and nothing else changes |
| CheckIn.CompleteCheckIn | src/screens/CheckInScreen.js:83-92 | the timer ends loading and sets checked-in, keeping the location |
| CheckIn.CheckOut | src/screens/CheckInScreen.js:99-114 | a confirmed check-out clears checked-in; cancelling changes nothing |
| CheckIn.Button | src/screens/CheckInScreen.js:168-169 | the button is disabled exactly while loading, runs check-out exactly when checked in, check-in otherwise |
| CheckIn.ButtonLabel | src/screens/CheckInScreen.js:172-176 | 'Processing...' iff loading, else 'Check Out' iff checked in, else 'Check In' |
| CheckIn.Step | src/screens/CheckInScreen.js:55-114 | a press while loading does nothing; a press runs check-out when checked in and check-in otherwise; the timer completes only a pending check-in |
| CheckIn.StepConsistent | src/screens/CheckInScreen.js:55-114 | no event leads to loading and checked-in at the same time |
| CheckIn.Run | src/screens/CheckInScreen.js:55-114 | the session after a sequence of events; no events, or only timers while nothing is in flight, leave it unchanged |
| CheckIn.RunConsistent | src/screens/CheckInScreen.js:55-114 | every sequence of presses, timers and location results keeps that invariant |
| CheckIn.CheckInStartsOnlyWhenIdle | src/screens/CheckInScreen.js:168-169 | a press starts loading only when not checked in, with a location and a distance of at most 0.5 km; a second press is then ignored |
| CheckIn.CheckInScreen.constructor | src/screens/CheckInScreen.js:16-20 | the session starts idle, with no location |
| CheckIn.CheckInScreen.GetCurrentLocation | src/screens/CheckInScreen.js:26-42 | the state becomes AcquireLocation of the old state |
| CheckIn.CheckInScreen.HandleCheckIn | src/screens/CheckInScreen.js:55-81 | the state and outcome are BeginCheckIn's |
| CheckIn.CheckInScreen.FinishCheckIn | src/screens/CheckInScreen.js:83-92 | the state becomes CompleteCheckIn's; the result opens ProofSubmission for the same task |
| CheckIn.CheckInScreen.HandleCheckOut | src/screens/CheckInScreen.js:99-114 | the state becomes CheckOut's; a confirmed check-out opens ProofSubmission for the same task |
| CheckIn.CheckInScreen.PressButton | src/screens/CheckInScreen.js:166-170 | the state becomes Step of a press |
| OpenStreetMapWebView.MarkerColor | src/components/OpenStreetMapWebView.js:102-118 | reports: pending warning, approved success, converted_to_task info; every other type uses the task table: active primary, upcoming accent, completed success; gray exactly for an unknown status |
| OpenStreetMapWebView.MarkerIcon | src/components/OpenStreetMapWebView.js:120-126 | 'document-text' iff the type is 'report', 'construct' otherwise |
| OpenStreetMapWebView.Markers | src/components/OpenStreetMapWebView.js:163-171 | one marker per item, in input order, with its index, position, title and status, and the popup kind 'Report' iff the item is a report, 'Task' otherwise |
| OpenStreetMapWebView.MarkersAppend | src/components/OpenStreetMapWebView.js:163-171 | the markers of a concatenation are the first part's markers followed by the second part's, their indices shifted by the first part's length |
| OpenStreetMapWebView.Widen | src/components/OpenStreetMapWebView.js:46-51 | one fold step: each bound moves outward to the point or stays, and ends equal to one of the two |
| OpenStreetMapWebView.BoundsOf | src/components/OpenStreetMapWebView.js:46-52 | the fold from [90, 180, -90, -180] contains every point, and each bound is either its seed or some point's coordinate |
| OpenStreetMapWebView.BoundsAttained | src/components/OpenStreetMapWebView.js:146-152 | for a non-empty list of points within latitude and longitude ranges, every bound is attained by some point |
| OpenStreetMapWebView.SinglePointBounds | src/components/OpenStreetMapWebView.js:46-52 | one point within range gives the box collapsed onto it |
| OpenStreetMapWebView.ReduceBounds | src/components/OpenStreetMapWebView.js:146-152 | the in-place four-slot accumulator ends holding BoundsOf the coordinates |
| OpenStreetMapWebView.WidenPrefix | src/components/OpenStreetMapWebView.js:46-51 | folding one more point is one Widen step |
| OpenStreetMapWebView.FitToCoordinates | src/components/OpenStreetMapWebView.js:44-58 | a fit is issued iff the view exists and the list is non-empty, and it uses BoundsOf the list |
| OpenStreetMapWebView.Coordinates | src/components/OpenStreetMapWebView.js:145 | one coordinate per item, in order |
| OpenStreetMapWebView.FitAllMarkers | src/components/OpenStreetMapWebView.js:143-159 | no fit for empty data; otherwise the box contains every item's coordinate |
| OpenStreetMapWebView.FitButtonDisabled | src/components/OpenStreetMapWebView.js:236-237 | disabled iff there is no data |
| OpenStreetMapWebView.LocateButtonDisabled | src/components/OpenStreetMapWebView.js:224-225 | disabled iff location permission is missing |
| OpenStreetMapWebView.RecenteredRegion | src/components/OpenStreetMapWebView.js:89-96 | the region moves to the fix, with deltas 0.02, only when data is empty |
| OpenStreetMapWebView.CenterTarget | src/components/OpenStreetMapWebView.js:134-141 | centring happens iff a user location is known and the view exists, at zoom 15 |
| OpenStreetMapWebView.MapView.constructor | src/components/OpenStreetMapWebView.js:25-32 | the region is the given one or the Manila default; no location and no permission yet |
| OpenStreetMapWebView.MapView.GetCurrentLocation | src/components/OpenStreetMapWebView.js:80-100 | a fix is stored and recentres the region per RecenteredRegion; a failure changes nothing |
| OpenStreetMapWebView.MapView.RequestLocationPermission | src/components/OpenStreetMapWebView.js:68-78 | a grant sets the permission and then acquires a location; a refusal changes nothing |
| OpenStreetMapWebView.MapView.CenterOnUserLocation | src/components/OpenStreetMapWebView.js:134-141 | nothing while the button is disabled; otherwise CenterTarget |
| OpenStreetMapWebView.MapView.FitAll | src/components/OpenStreetMapWebView.js:143-159 | FitAllMarkers over the view's data, with the bounds of its coordinates |
| OpenStreetMapWebView.MapView.AnimateToRegion | src/components/OpenStreetMapWebView.js:35-42 | the target region is applied only when the view exists |
| MapScreen.ReportItems | src/screens/MapScreen.js:33-41 | one map item per report, in order |
| MapScreen.TaskItems | src/screens/MapScreen.js:42-50 | one map item per task, in order |
| MapScreen.TasksWithStatus | src/screens/MapScreen.js:42-59 | exactly the tasks with the given status |
| MapScreen.FilteredData | src/screens/MapScreen.js:31-80 | 'reports' gives one item per report, the task filters at most one per task, any other filter one per report and task |
| MapScreen.ReportsFilter | src/screens/MapScreen.js:33-41 | 'reports' gives every report in order, tagged 'report', with its location as coordinate |
| MapScreen.StatusFilterExact | src/screens/MapScreen.js:42-59 | the items of the tasks with a status are exactly the tasks with that status |
| MapScreen.StatusFilters | src/screens/MapScreen.js:42-59 | 'active' and 'completed' give exactly the tasks with that status, tagged 'task', as many as there are such tasks |
| MapScreen.StatusFilterConcat | src/screens/MapScreen.js:42-59 | the status filters keep order: the items of a concatenation of task lists are each part's items, in order |
| MapScreen.StatusFilterSingle | src/screens/MapScreen.js:42-59 | under a status filter no task gives nothing, and one task gives its item iff it has the status |
| MapScreen.DefaultFilter | src/screens/MapScreen.js:60-78 | any other filter gives all reports followed by all tasks, in order |
| MapScreen.ItemsTagged | src/screens/MapScreen.js:31-80 | every item of every filter is tagged 'report' or 'task' |
| MapScreen.Stats | src/screens/MapScreen.js:195-210 | Total Items is the length of the shown list; the report and task counts never exceed it |
| MapScreen.StatsPerFilter | src/screens/MapScreen.js:195-210 | the card per filter: 'reports' gives (reports, reports, 0), 'active'/'completed' (n, 0, n) for the n tasks with that status, any other filter (reports + tasks, reports, tasks) |
| MapScreen.StatsAddUp | src/screens/MapScreen.js:195-210 | Total Items is Reports plus Tasks |
| MapScreen.NoReportsUnderTaskFilters | src/screens/MapScreen.js:42-59 | the task filters count no report |
| MapScreen.MarkerPressAction | src/screens/MapScreen.js:82-95 | a report shows an alert with its title and description; anything else opens TaskDetails for that item |
| MapScreen.LocationSelectRegion | src/screens/MapScreen.js:105-113 | the selected coordinate with deltas 0.01 |
| MapScreen.MapScreenState.constructor | src/screens/MapScreen.js:20-21 | filter 'all', legend shown |
| MapScreen.MapScreenState.ToggleLegend | src/screens/MapScreen.js:101-103 | the legend flag is negated and nothing else changes |
| MapScreen.MapScreenState.SelectFilter | src/screens/MapScreen.js:151 | the filter is set and nothing else changes |
| MapScreen.MapScreenState.HandleLocationSelect | src/screens/MapScreen.js:105-113 | the map animates to LocationSelectRegion only when it exists |
| MapScreen.ToggleTwice | src/screens/MapScreen.js:101-103 | toggling twice restores the state |
| HomeScreen.SameStatusFilter | src/screens/HomeScreen.js:45-62 | the home screen's status filter selects the same tasks as the map screen's |
| HomeScreen.FilteredData | src/screens/HomeScreen.js:34-83 | the home screen's copy of the filter: one item per report under 'reports', at most one per task under the task filters, one per report and task otherwise |
| HomeScreen.SameAsMapScreen | src/screens/HomeScreen.js:34-83 | the home screen's projection equals the map screen's for every filter |
| HomeScreen.DefaultKeepsOrder | src/screens/HomeScreen.js:63-82 | the default branch lists the report items first, then the task items |
| HomeScreen.NoReportUnderTaskFilters | src/screens/HomeScreen.js:45-62 | 'active' and 'completed' never yield a report |
| HomeScreen.NoCompletedMarkersInShippedData | src/screens/HomeScreen.js:54-62 | with the shipped tasks, 'completed' yields no marker |
| HomeScreen.SameMarkerColor | src/screens/HomeScreen.js:85-101 | the home screen's colour table equals the map component's |
| HomeScreen.MarkerColor | src/screens/HomeScreen.js:85-101 | the home screen's copy of the colour table: info iff a converted report, primary iff an active task, gray exactly for an unknown status |
| HomeScreen.MarkerIcon | src/screens/HomeScreen.js:103-109 | the same icon as the map component: 'document-text' iff a report |
| HomeScreen.MarkerPressAction | src/screens/HomeScreen.js:111-124 | the same routing as the map screen: a report alerts, anything else opens TaskDetails |
| MapSearchBar.SearchResults | src/components/MapSearchBar.js:23-30 | Search over the four fixed places: exactly the places whose lower-cased name contains the lower-cased query (their order is SearchResultsInOrder) |
| MapSearchBar.Search | src/components/MapSearchBar.js:23-30 | over any list of places: exactly the matching places |
| MapSearchBar.SearchConcat | src/components/MapSearchBar.js:28-30 | the search keeps order: searching a concatenation searches each part, in order |
| MapSearchBar.SearchSingle | src/components/MapSearchBar.js:28-30 | no places give no results, and one place is found iff it matches |
| MapSearchBar.SearchResultsInOrder | src/components/MapSearchBar.js:28-30 | the results are the four places in list order, each kept iff it matches |
| MapSearchBar.LowerCasedQuerySame | src/components/MapSearchBar.js:29 | a query and its lower-cased form find the same places |
| MapSearchBar.EmptyQueryFindsAll | src/components/MapSearchBar.js:28-30 | the empty query finds all four places |
| MapSearchBar.CaseInsensitive | src/components/MapSearchBar.js:29 | queries equal after lower-casing find the same places |
| MapSearchBar.LowerCaseQueryMatchesCapitalised | src/components/MapSearchBar.js:29 | 'manila' and 'MANILA' both find 'Manila Bay' |
| MapSearchBar.SearchBar.constructor | src/components/MapSearchBar.js:14-16 | empty query, no results, not searching |
| MapSearchBar.SearchBar.HandleSearch | src/components/MapSearchBar.js:18-38 | the query is stored, the results are SearchResults of it, searching ends, and the query is passed on |
| MapSearchBar.SearchBar.HandleLocationSelect | src/components/MapSearchBar.js:40-48 | the query becomes the place's name, the results empty, and the place's coordinate is passed on |
| MapSearchBar.SearchBar.ClearSearch | src/components/MapSearchBar.js:50-54 | empty query, no results, not searching |
| MapSearchBar.ClearTwice | src/components/MapSearchBar.js:50-54 | clearing twice is clearing once |
| MapSearchBar.ResultsPanelShown | src/components/MapSearchBar.js:94 | the panel is shown iff there are results |
| MapSearchBar.ClearButtonShown | src/components/MapSearchBar.js:80 | the clear button is shown iff the query is non-empty |
| MapSearchBar.PanelAfterSearch | src/components/MapSearchBar.js:94 | after a search the panel is shown iff some place matches |
| ReportApproval.SetStatus | src/screens/ReportApprovalScreen.js:40-46 | the reports with the id get the new status; every other report is unchanged; the length is kept |
| ReportApproval.Approve | src/screens/ReportApprovalScreen.js:31-52 | the report with the id becomes approved; every other field and every other report is unchanged |
| ReportApproval.Reject | src/screens/ReportApprovalScreen.js:54-76 | the report with the id becomes rejected; every other field and every other report is unchanged |
| ReportApproval.ConvertToTask | src/screens/ReportApprovalScreen.js:78-99 | the report with the id becomes converted_to_task; every other field and every other report is unchanged |
| ReportApproval.SetStatusKeepsRecords | src/screens/ReportApprovalScreen.js:40-46 | ids, order and every field except the status are kept |
| ReportApproval.SetStatusIdempotent | src/screens/ReportApprovalScreen.js:40-46 | applying an action twice is applying it once |
| ReportApproval.SetStatusCommutes | src/screens/ReportApprovalScreen.js:64-70 | updates of different ids commute |
| ReportApproval.Filtered | src/screens/ReportApprovalScreen.js:26-29 | 'all' lists everything; otherwise exactly the reports with that status |
| ReportApproval.FilteredConcat | src/screens/ReportApprovalScreen.js:26-29 | filtering keeps order: the list of a concatenation is the lists of the parts, in order |
| ReportApproval.FilteredSingle | src/screens/ReportApprovalScreen.js:26-29 | no reports give nothing, and one report is listed iff the filter is 'all' or its status |
| ReportApproval.Tabs | src/screens/ReportApprovalScreen.js:20-24 | three tabs, pending, approved and converted, with their captions; each count is the number of shipped reports with the status pending, approved or converted_to_task, never the screen's current list |
| ReportApproval.ShippedTabCounts | src/screens/ReportApprovalScreen.js:20-24 | with the shipped reports every tab counts one |
| ReportApproval.ConvertedTabMissesConversions | src/screens/ReportApprovalScreen.js:20-29 | the Converted tab filters on 'converted' while conversion (line 90) writes 'converted_to_task', so a converted report is never listed there |
| ReportApproval.ConvertedTabCountDisagrees | src/screens/ReportApprovalScreen.js:20-29 | with the shipped reports the Converted tab counts 1 and lists none |
| ReportApproval.CountsGoStale | src/screens/ReportApprovalScreen.js:20-46 | after approving the pending report, the Pending tab still counts 1 but lists none |
| ReportApproval.ActionsShown | src/screens/ReportApprovalScreen.js:165 | the buttons are shown iff the report is pending |
| ReportApproval.Target | src/screens/ReportApprovalScreen.js:40-93 | Approve writes 'approved', Reject 'rejected' and Convert 'converted_to_task', each iff |
| ReportApproval.UiTransitionsFromPending | src/screens/ReportApprovalScreen.js:165 | with unique ids, a button press changes only the pressed report, which was pending |
| ReportApproval.StatusColor | src/screens/ReportApprovalScreen.js:101-109 | the four known statuses have their colours; gray exactly for the others |
| ReportApproval.StatusText | src/screens/ReportApprovalScreen.js:111-119 | 'Pending', 'Approved', 'Rejected' and 'Converted' each iff its status; 'Unknown' exactly for unknown statuses |
| ReportApproval.DefaultsAgree | src/screens/ReportApprovalScreen.js:101-119 | the colour is gray exactly when the text is 'Unknown' |
| ReportApproval.ReportApprovalScreen.constructor | src/screens/ReportApprovalScreen.js:17-18 | the Pending tab and the shipped reports |
| ReportApproval.ReportApprovalScreen.SelectFilter | src/screens/ReportApprovalScreen.js:202 | the tab is set and the reports are kept |
| ReportApproval.ReportApprovalScreen.Act | src/screens/ReportApprovalScreen.js:31-99 | a confirmed action replaces the reports with SetStatus of them; cancelling changes nothing |
| TaskApplicationApproval.SetStatus | src/screens/TaskApplicationApprovalScreen.js:40-46 | the applications with the id get the new status; all others are unchanged |
| TaskApplicationApproval.Approve | src/screens/TaskApplicationApprovalScreen.js:31-52 | the application with the id becomes approved; its task id, user id and every other application are unchanged |
| TaskApplicationApproval.Reject | src/screens/TaskApplicationApprovalScreen.js:54-76 | the application with the id becomes rejected; its task id, user id and every other application are unchanged |
| TaskApplicationApproval.LastDecisionWins | src/screens/TaskApplicationApprovalScreen.js:31-76 | approve-then-reject equals reject, and the other way round |
| TaskApplicationApproval.Filtered | src/screens/TaskApplicationApprovalScreen.js:26-29 | 'all' lists everything; otherwise exactly the applications with that status |
| TaskApplicationApproval.TabsPartition | src/screens/TaskApplicationApprovalScreen.js:20-29 | when every status is pending, approved or rejected, the three tab lists' lengths add up to the total |
| TaskApplicationApproval.FilteredCons | src/screens/TaskApplicationApprovalScreen.js:26-29 | a tab's list of a non-empty list is its first element, if that has the tab's status, followed by the tab's list of the rest |
| TaskApplicationApproval.FilteredConcat | src/screens/TaskApplicationApprovalScreen.js:26-29 | filtering keeps order: the list of a concatenation is the lists of the parts, in order |
| TaskApplicationApproval.FilteredSingle | src/screens/TaskApplicationApprovalScreen.js:26-29 | no applications give nothing, and one application is listed iff the filter is 'all' or its status |
| TaskApplicationApproval.ListedUnderOneTab | src/screens/TaskApplicationApprovalScreen.js:26-29 | an application is under a tab iff it has that tab's status |
| TaskApplicationApproval.Tabs | src/screens/TaskApplicationApprovalScreen.js:20-24 | three tabs, pending, approved and rejected, with their captions; each count is the length of the tab's list over the shipped applications, never the screen's current list |
| TaskApplicationApproval.ShippedTabCounts | src/screens/TaskApplicationApprovalScreen.js:20-24 | with the shipped applications the tabs count 1 pending, 2 approved and 0 rejected |
| TaskApplicationApproval.CountsGoStale | src/screens/TaskApplicationApprovalScreen.js:20-70 | after rejecting the pending application, Pending still counts 1 and Rejected 0, while the lists hold 0 and 1 |
| TaskApplicationApproval.ActionsShown | src/screens/TaskApplicationApprovalScreen.js:156 | the buttons are shown iff the application is pending |
| TaskApplicationApproval.DecisionsFinal | src/screens/TaskApplicationApprovalScreen.js:156 | with unique ids, a decision leaves every approved or rejected application as it was |
| TaskApplicationApproval.StatusColor | src/screens/TaskApplicationApprovalScreen.js:78-85 | pending warning, approved success, rejected error; gray exactly otherwise |
| TaskApplicationApproval.StatusText | src/screens/TaskApplicationApprovalScreen.js:87-94 | the three labels; 'Unknown' exactly otherwise |
| TaskApplicationApproval.CardTaskShown | src/screens/TaskApplicationApprovalScreen.js:97 | the task block is shown iff some task has the application's task id, and it shows the first such task |
| TaskApplicationApproval.CardTask | src/screens/TaskApplicationApprovalScreen.js:97 | None iff no shipped task has the task id; otherwise the first shipped task with that id |
| TaskApplicationApproval.ShippedCardsShowTasks | src/screens/TaskApplicationApprovalScreen.js:136 | every shipped application shows its task |
| TaskApplicationApproval.TaskApplicationApprovalScreen.constructor | src/screens/TaskApplicationApprovalScreen.js:17-18 | the Pending tab and the shipped applications |
| TaskApplicationApproval.TaskApplicationApprovalScreen.SelectFilter | src/screens/TaskApplicationApprovalScreen.js:186 | the tab is set and the applications are kept |
| TaskApplicationApproval.TaskApplicationApprovalScreen.HandleApprove | src/screens/TaskApplicationApprovalScreen.js:31-52 | confirmed: the list becomes Approve of it; cancelled: unchanged |
| TaskApplicationApproval.TaskApplicationApprovalScreen.HandleReject | src/screens/TaskApplicationApprovalScreen.js:54-76 | confirmed: the list becomes Reject of it; cancelled: unchanged |
| Records.FindTaskById | src/screens/TaskApplicationApprovalScreen.js:97 | None iff no task has the id; otherwise the first task with it |
| MyTasks.TaskEntries | src/screens/MyTasksScreen.js:42-43 | one entry per task, in order |
| MyTasks.Upcoming | src/screens/MyTasksScreen.js:35-36 | exactly the upcoming tasks: every task kept is a given upcoming one, and every upcoming task is kept |
| MyTasks.AppliedEntries | src/screens/MyTasksScreen.js:37-41 | one entry per application, in order, paired with the first task with its task id |
| MyTasks.TasksByStatus | src/screens/MyTasksScreen.js:33-47 | 'upcoming': exactly the upcoming tasks, as entries (their order is UpcomingConcat and UpcomingSingle); 'applied': the paired applications; 'completed': the completed list unchanged; any other tab: empty |
| MyTasks.UpcomingConcat | src/screens/MyTasksScreen.js:35-36 | the upcoming tab keeps order: the entries of a concatenation of task lists are each part's entries, in order |
| MyTasks.UpcomingSingle | src/screens/MyTasksScreen.js:35-36 | no tasks give no entries, and one task is listed iff it is upcoming |
| MyTasks.EntriesHoldTasks | src/screens/MyTasksScreen.js:35-36 | every task of a list has its entry |
| MyTasks.AppliedTab | src/screens/MyTasksScreen.js:37-41 | the applied tab's entries keep their applications and have a task iff one has the task id |
| MyTasks.ShippedUpcoming | src/screens/MyTasksScreen.js:35-36 | with the shipped data the upcoming tab lists the one upcoming task |
| MyTasks.CheckInButton | src/screens/MyTasksScreen.js:105 | shown iff on the upcoming tab, opening CheckIn for that task |
| MyTasks.StatusColor | src/screens/MyTasksScreen.js:117-127 | six known statuses, approved and completed both success; gray exactly for the rest |
| MyTasks.StatusText | src/screens/MyTasksScreen.js:129-139 | the six labels Pending, Approved, Rejected, Active, Upcoming and Completed, each iff its status; 'Unknown' exactly for statuses outside the six |
| MyTasks.TextSeparatesSharedColour | src/screens/MyTasksScreen.js:117-139 | approved and completed share a colour but not a text |
| MyTasks.TextInjectiveOnKnown | src/screens/MyTasksScreen.js:129-139 | distinct known statuses have distinct texts, and none falls to a default |
| MyTasks.MyTasksScreen.constructor | src/screens/MyTasksScreen.js:16-17 | the upcoming tab, not refreshing |
| MyTasks.MyTasksScreen.SelectTab | src/screens/MyTasksScreen.js:151 | the tab is set |
| MyTasks.MyTasksScreen.OnRefresh | src/screens/MyTasksScreen.js:25-27 | refreshing starts |
| MyTasks.MyTasksScreen.CompleteRefresh | src/screens/MyTasksScreen.js:28-30 | refreshing ends |
| SignUp.ValidEmailIff | src/screens/SignUpScreen.js:32-35 | the pattern holds iff: exactly one '@', not first; no white space; a '.' after the '@' that is neither the first nor the last character of the domain part |
| SignUp.ValidEmailHasShape | src/screens/SignUpScreen.js:33 | every string matching the pattern has that shape |
| SignUp.ShapeIsValidEmail | src/screens/SignUpScreen.js:33 | every string of that shape matches the pattern |
| SignUp.EmailExamples | src/screens/SignUpScreen.js:33 | 'a@b.c' matches; 'a@b.', 'a@@b.c' and 'a b@c.d' do not |
| SignUp.ValidEmail | src/screens/SignUpScreen.js:32-35 | the pattern as three runs without white space or '@', cut by an '@' and a '.'; a match has at least five characters, an '@' and a '.' |
| SignUp.ValidPassword | src/screens/SignUpScreen.js:37-39 | an accepted password is non-empty and the meter does not show it as weak |
| SignUp.PasswordStrength | src/screens/SignUpScreen.js:41-46 | length 0 none, 1-5 weak, 6-7 medium, 8 or more strong, each with its colour |
| SignUp.ValidPasswordIffStrong | src/screens/SignUpScreen.js:37-46 | a password is accepted iff the meter says medium or strong |
| SignUp.StrengthShown | src/screens/SignUpScreen.js:149 | the meter is shown iff a password is typed |
| SignUp.Check | src/screens/SignUpScreen.js:48-67 | each error holds iff all earlier checks pass and its own fails; accepted iff all pass |
| SignUp.MismatchImpliesLongEnough | src/screens/SignUpScreen.js:59-67 | a reported mismatch implies at least six characters |
| SignUp.SignUpScreen.constructor | src/screens/SignUpScreen.js:17-24 | empty form, not loading |
| SignUp.SignUpScreen.Fill | src/screens/SignUpScreen.js:17-21 | the form becomes the typed one |
| SignUp.SignUpScreen.HandleSignUp | src/screens/SignUpScreen.js:48-70 | the outcome is Check of the form; loading starts iff accepted |
| SignUp.SignUpScreen.CompleteSignUp | src/screens/SignUpScreen.js:72-80 | loading ends and Login is opened |
| Login.Check | src/screens/LoginScreen.js:27-36 | missing field iff a field is empty; invalid email iff both filled and the pattern fails; accepted otherwise |
| Login.Route | src/screens/LoginScreen.js:45-49 | 'Admin' iff the email contains 'admin' or 'lgu' as written, else 'Main' |
| Login.PasswordIrrelevant | src/screens/LoginScreen.js:28 | any two non-empty passwords give the same outcome |
| Login.ShippedAdminRoute | src/screens/LoginScreen.js:45-49 | the shipped LGU address routes to Admin |
| Login.CapitalsRouteToMain | src/screens/LoginScreen.js:45-49 | the same address in capitals routes to Main, since matching is case-sensitive |
| Login.LoginScreen.constructor | src/screens/LoginScreen.js:17-20 | empty fields, not loading |
| Login.LoginScreen.Fill | src/screens/LoginScreen.js:80-93 | the fields become the typed text |
| Login.LoginScreen.ButtonEnabled | src/screens/LoginScreen.js:116 | enabled iff not loading |
| Login.LoginScreen.HandleLogin | src/screens/LoginScreen.js:27-39 | the outcome is Check's; loading starts iff accepted, remembering the email |
| Login.LoginScreen.CompleteLogin | src/screens/LoginScreen.js:41-50 | loading ends and the route is replaced by Route of the submitted email |
| ReportScreen.Check | src/screens/ReportScreen.js:105-119 | no photo first; then a description blank after trimming; then no location; accepted iff all three are there |
| ReportScreen.BlankDescriptionRefused | src/screens/ReportScreen.js:111-114 | a description made only of white space is refused |
| ReportScreen.VisibleDescriptionAccepted | src/screens/ReportScreen.js:105-121 | with a photo, a location and any visible character, the report is accepted |
| ReportScreen.RefreshEnabled | src/screens/ReportScreen.js:185 | the location button works iff no request is running |
| ReportScreen.SubmitLabel | src/screens/ReportScreen.js:214-217 | 'Submitting...' iff loading |
| ReportScreen.ReportScreen.constructor | src/screens/ReportScreen.js:20-24 | no photo, empty description, no location, no flags |
| ReportScreen.ReportScreen.BeginGetLocation | src/screens/ReportScreen.js:30-31 | the location indicator comes on |
| ReportScreen.ReportScreen.FinishGetLocation | src/screens/ReportScreen.js:32-49 | a fix is stored; the indicator goes off on every path, denial and errors included |
| ReportScreen.ReportScreen.PickImage | src/screens/ReportScreen.js:52-68 | only a picked image replaces the photo |
| ReportScreen.ReportScreen.TakePhoto | src/screens/ReportScreen.js:70-91 | without camera permission nothing changes; otherwise as a pick |
| ReportScreen.ReportScreen.SetDescription | src/screens/ReportScreen.js:203 | the description becomes the typed text |
| ReportScreen.ReportScreen.HandleSubmit | src/screens/ReportScreen.js:105-121 | the outcome is Check's; loading starts iff accepted |
| ReportScreen.ReportScreen.CompleteSubmit | src/screens/ReportScreen.js:124-136 | loading ends and the screen goes back |
| ProofSubmission.WithPicked | src/screens/ProofSubmissionScreen.js:30-36 | a picked image goes to the before slot iff the slot is 'before', else to the after slot; a cancellation or error changes nothing |
| ProofSubmission.CanSubmit | src/screens/ProofSubmissionScreen.js:83-86 | submitting is allowed iff both photos are there |
| ProofSubmission.ComparisonShown | src/screens/ProofSubmissionScreen.js:161 | the comparison is shown iff submitting is allowed |
| ProofSubmission.SubmitLabel | src/screens/ProofSubmissionScreen.js:181-185 | 'Submitting...' iff submitting |
| ProofSubmission.PickKeepsOtherSlot | src/screens/ProofSubmissionScreen.js:31-35 | a pick leaves the slot it does not name unchanged |
| ProofSubmission.BothSlotsFilled | src/screens/ProofSubmissionScreen.js:83-86 | filling both slots, in either order, allows submitting |
| ProofSubmission.LaterPickWins | src/screens/ProofSubmissionScreen.js:30-36 | a second pick into a slot replaces the first |
| ProofSubmission.ProofSubmissionScreen.constructor | src/screens/ProofSubmissionScreen.js:16-19 | both slots empty, not submitting |
| ProofSubmission.ProofSubmissionScreen.PickImage | src/screens/ProofSubmissionScreen.js:21-41 | the slots become WithPicked of them |
| ProofSubmission.ProofSubmissionScreen.TakePhoto | src/screens/ProofSubmissionScreen.js:43-68 | refused permission leaves both slots; otherwise as a pick |
| ProofSubmission.ProofSubmissionScreen.HandleSubmit | src/screens/ProofSubmissionScreen.js:82-89 | refused unless both photos are there; otherwise submitting starts |
| ProofSubmission.ProofSubmissionScreen.CompleteSubmit | src/screens/ProofSubmissionScreen.js:91-103 | submitting ends and Payment is opened |
| Payment.TotalEarned | src/screens/PaymentScreen.js:18 | 0 for no payments, never negative for non-negative amounts |
| Payment.TotalConcat | src/screens/PaymentScreen.js:18 | the total of two lists is the sum of their totals |
| Payment.TotalSwap | src/screens/PaymentScreen.js:18 | swapping two blocks of payments keeps the total |
| Payment.TotalSingle | src/screens/PaymentScreen.js:18 | one payment totals its amount, so with TotalConcat the total is the sum of the amounts |
| Payment.TotalPermutation | src/screens/PaymentScreen.js:18 | any permutation of the payments (equal multisets) has the same total |
| Payment.AvailableAmount | src/screens/PaymentScreen.js:19-20 | available plus the 1200 pending is the total; it may be negative |
| Payment.WithdrawDisabled | src/screens/PaymentScreen.js:114 | enabled iff not withdrawing and the total exceeds 1200 |
| Payment.WithdrawLabel | src/screens/PaymentScreen.js:118 | 'Processing...' iff withdrawing |
| Payment.AveragePerTask | src/screens/PaymentScreen.js:154 | 0 for no payments; otherwise the mean rounded half up, within one half of the exact mean |
| Payment.RoundedQuotient | src/screens/PaymentScreen.js:154 | the quotient rounded half up, as Math.round does |
| Payment.ShippedEarnings | src/screens/PaymentScreen.js:18-20 | shipped data: 600 earned, -600 available, button disabled, average 600 |
| Payment.PaymentScreen.constructor | src/screens/PaymentScreen.js:16 | not withdrawing |
| Payment.PaymentScreen.ProcessWithdrawal | src/screens/PaymentScreen.js:35-41 | nothing available: refused with the flag unchanged; otherwise withdrawing starts with the chosen method |
| Payment.PaymentScreen.CompleteWithdrawal | src/screens/PaymentScreen.js:44-51 | withdrawing ends; the reported amount is the available amount, sent to the chosen method |
| TaskDetails.StatusColor | src/screens/TaskDetailsScreen.js:51-58 | active primary, upcoming accent, completed success; gray exactly otherwise |
| TaskDetails.StatusText | src/screens/TaskDetailsScreen.js:60-67 | the three labels; 'Unknown' exactly otherwise |
| TaskDetails.DefaultsAgree | src/screens/TaskDetailsScreen.js:51-67 | gray exactly when 'Unknown' |
| TaskDetails.Items | src/screens/TaskDetailsScreen.js:159 | an absent string throws (None) exactly when absent; otherwise at least one item, none containing ', ', joining back to the string |
| TaskDetails.OutfitItems | src/screens/TaskDetailsScreen.js:159 | the throw exactly for an absent outfit; otherwise at least one item, joining with ', ' back to the outfit string |
| TaskDetails.GearItems | src/screens/TaskDetailsScreen.js:172 | the throw exactly for an absent gear list; otherwise at least one item, joining with ', ' back to the gear string |
| TaskDetails.ShippedTaskPages | src/data/mockData.js:200-216 | the three shipped tasks render both lists; the shipped completed task, opened from My Tasks, has neither and throws |
| TaskDetails.ItemsAreSeparated | src/screens/TaskDetailsScreen.js:159-172 | no listed item contains ', ' |
| TaskDetails.ApplyDisabled | src/screens/TaskDetailsScreen.js:188 | enabled iff not applying and the task is not completed |
| TaskDetails.ApplyLabel | src/screens/TaskDetailsScreen.js:191 | 'Applying...' iff applying |
| TaskDetails.TaskDetailsScreen.constructor | src/screens/TaskDetailsScreen.js:18-19 | not applying |
| TaskDetails.TaskDetailsScreen.HandleApply | src/screens/TaskDetailsScreen.js:21-49 | a confirmed apply starts applying; cancelling changes nothing |
| TaskDetails.TaskDetailsScreen.CompleteApply | src/screens/TaskDetailsScreen.js:32-44 | applying ends and the screen goes back |
| Text.JoinSplit | src/screens/TaskDetailsScreen.js:159 | splitting on a non-empty separator and joining with it gives back the string |
| Text.SplitJoin | src/screens/ProfileScreen.js:130 | for a two-character separator of distinct characters, such as ', ', splitting a join of pieces free of it gives the pieces back |
| Text.SplitPiecesFree | src/screens/TaskDetailsScreen.js:172 | no piece of a split contains the separator |
| Text.TrimEmptyIff | src/screens/ReportScreen.js:111 | a string trims to empty iff every character is white space |
| Text.Trim | src/screens/ReportScreen.js:111 | a slice of the string with no white space at either end, with only white space cut off around it |
| Text.IncludesIff | src/screens/LoginScreen.js:45 | includes holds iff the substring occurs at some index |
| Text.LowerIdempotent | src/components/MapSearchBar.js:29 | lower-casing twice is lower-casing once, so a lower-cased query searches like the original |
| Onboarding.NextFrom | src/screens/OnboardingScreen.js:50-59 | before the last slide: scroll to the next one; from the last (or past it): replace with Login |
| Onboarding.Skip | src/screens/OnboardingScreen.js:61-63 | Login from any index |
| Onboarding.NextLabel | src/screens/OnboardingScreen.js:108 | 'Get Started' iff on the last slide, else 'Next' |
| Onboarding.NextIcon | src/screens/OnboardingScreen.js:111 | 'checkmark' iff on the last slide, else 'arrow-forward' |
| Onboarding.LabelMatchesAction | src/screens/OnboardingScreen.js:106-115 | on every slide, the button reads 'Get Started' with a checkmark iff pressing it leaves for Login |
| Onboarding.PastLastSlide | src/screens/OnboardingScreen.js:44-59 | an index past the last slide reads 'Next' but leaves for Login |
| Onboarding.NextWalksThePager | src/screens/OnboardingScreen.js:50-59 | from the first slide, the third press reaches Login |
| Onboarding.Dots | src/screens/OnboardingScreen.js:95-103 | one dot per slide |
| Onboarding.ExactlyOneActiveDot | src/screens/OnboardingScreen.js:95-103 | exactly one active dot, the current one, for a slide index; none otherwise |
| Onboarding.OnboardingScreen.constructor | src/screens/OnboardingScreen.js:17 | the first slide |
| Onboarding.OnboardingScreen.HandleScroll | src/screens/OnboardingScreen.js:44-48 | the scrolled-to index becomes current |
| Onboarding.OnboardingScreen.HandleNext | src/screens/OnboardingScreen.js:50-59 | the action is NextFrom of the current index |
| Onboarding.OnboardingScreen.HandleSkip | src/screens/OnboardingScreen.js:61-63 | Login |
| AdminDashboard.NotificationColor | src/screens/AdminDashboardScreen.js:74-81 | success, warning and error have their colours; info exactly for every other type |
| AdminDashboard.NotificationIcon | src/screens/AdminDashboardScreen.js:83-90 | checkmark-circle, warning, close-circle; information-circle exactly otherwise |
| AdminDashboard.DefaultsCoincide | src/screens/AdminDashboardScreen.js:74-90 | colour and icon fall back for the same types, and two types share a colour iff they share an icon |
| AdminDashboard.UnreadDotShown | src/screens/AdminDashboardScreen.js:70 | the dot is shown iff the notification is unread |
| AdminDashboard.ShippedFeed | src/screens/AdminDashboardScreen.js:58-71 | the shipped feed: an unread success notice and a read info notice drawn with the defaults |
| Profile.TotalEarned | src/screens/ProfileScreen.js:140 | a multiple of 500 that gives back the completed-task count, zero iff no task |
| Profile.HoursWorked | src/screens/ProfileScreen.js:144 | twice the cleanup hours: even, and half of it is the cleanup hours |
| Profile.EarnedMonotone | src/screens/ProfileScreen.js:140 | more completed tasks never show less earned |
| Profile.HourlyRateShown | src/screens/ProfileScreen.js:125 | 150 for a missing or zero rate, the rate otherwise; never zero |
| Profile.SpecializationsText | src/screens/ProfileScreen.js:130 | 'General' when absent; an empty list shows ''; one item shows itself; two or more show the first, ', ', then the rest joined with ', ' |
| Profile.SpecializationsRecoverable | src/screens/ProfileScreen.js:130 | when no specialization contains ', ', splitting the shown text on ', ' gives the list back |
| Profile.View | src/screens/ProfileScreen.js:79-135 | name, role and email as given; bio and join date shown iff present and non-empty; the worker section iff the role is 'Worker', with the rate and specializations; the two stats |
| Profile.ShippedProfile | src/screens/ProfileScreen.js:16 | the shown user is a citizen: no worker section, 4000 earned, 50 hours |
| Profile.ShippedWorkerSection | src/screens/ProfileScreen.js:119-135 | the shipped worker shows 150 per hour and three specializations joined by ', ' |
| Profile.Logout | src/screens/ProfileScreen.js:51-64 | a confirmed logout replaces the route with Login; cancelling does nothing |

## Left out

- The haversine distance in `CheckInScreen.js` (lines 44-53) is left out. It is floating-point trigonometry, so the check-in step takes the distance in kilometres as an input.
- Zoom levels computed with `Math.log2`, the slot-progress percentage in `TaskDetailsScreen.js` and the rounding of the onboarding scroll offset are left out. They are floating-point only; `Onboarding.OnboardingScreen.HandleScroll` takes the rounded index as its input.
- The Leaflet HTML and JavaScript that `createMapHTML` generates, and every `injectJavaScript` call, are left out. They are foreign code run in a WebView. The model returns the region, bounds or centre that the script would receive.
- The marker colour and icon that `createMapHTML` computes for each item are not attached to the markers, because the generated HTML never uses them: the HTML draws plain markers. They are modelled on their own, as `OpenStreetMapWebView.MarkerColor` and `OpenStreetMapWebView.MarkerIcon`.
- Platform calls are not modelled; only their outcomes are, as inputs: expo-location, expo-image-picker, permission requests and the WebView. Confirmation dialogs are boolean inputs. `setTimeout` delays are separate completion methods. Console logging and alert texts are left out.
- Whether the WebView exists (`webViewRef.current`, `mapRef.current`) is an input, `viewReady`.
- Styles, JSX layout and the `toLocaleString`/`toLocaleDateString` formatting are left out. So are the static texts, images, menu items and quick actions.
- `AppNavigator.js` and `SplashScreen.js` are not part of this model. They are navigation wiring and an animation timer.
- `mockData.js` is copied only in part, as constants for the concrete lemmas. The model keeps only the fields that the modelled logic reads.
- `TaskDetails.OutfitItems`/`GearItems`: the shipped completed task (`mockData.js` lines 200-216) has no `requiredOutfit` or `providedGear`, and no `slots`, `time` or `duration` either. In the source its page throws first at `task.slots.available` (`TaskDetailsScreen.js` line 125); slots are not part of this model, so it is the `split` that the model shows failing. These two fields are options, and the function returns `None` where `split` on `undefined` throws and the page does not render. Its missing `description` is an empty string, which renders the same as `undefined`.
- JavaScript numbers in coordinates, region deltas and bounds are exact `real`s (`Common.Coordinate`, `OpenStreetMapWebView.BoundsOf`, `MapScreen.LocationSelectRegion`). So `NaN`, `Infinity` and binary rounding are not modelled.
- Navigation parameters carry the record's id where the source passes the whole record (`{ task: item }`): `MapScreen.MarkerPressAction`, `HomeScreen.MarkerPressAction`, `MyTasks.CheckInButton`, `CheckIn.CheckInScreen.FinishCheckIn` and `CheckIn.CheckInScreen.HandleCheckOut`. The id names the record among the shipped ones.
- Map items carry only type, id, title, description, status and coordinate, although the source spreads whole records into them.
- `Text.Lower` folds only ASCII letters, while JavaScript's `toLowerCase` folds full Unicode. The four searchable place names are ASCII.
- Lengths are counted in Unicode scalar values, not in JavaScript's UTF-16 code units. This matters only for password lengths of astral-plane characters.
- `Login.Check` uses the same email predicate as `SignUp`, because the two screens define textually identical regular expressions.
- HomeScreen's copies of the filter, colour table, icon and press routing are modelled as definitions of their own, and lemmas prove them equal to the map screen's and the map component's. Its filter copy reuses `MapScreen.ReportItems` and `MapScreen.TaskItems` for the item projections, because the two screens' projection code is textually identical. So `HomeScreen.SameAsMapScreen` compares only the two status filters.
- The applied tab of My Tasks renders `item.task.title` without a check. An application whose task is missing would throw there. `MyTasks.AppliedEntries` models the lookup result as an option instead, and no rendering is modelled.
- `HandleApprove`/`HandleReject`/`Act` do not model the alert texts. The report detail navigation after a report's alert ("View Details") and the report-screen navigation buttons are left out too.
- `CheckIn.CheckInScreen.GetCurrentLocation` combines the "Try Again" retry path and the initial acquisition, because both call the same function.
- `Payment.TotalEarned` does not model JavaScript's floating-point addition; the amounts are integers. `Payment.AveragePerTask` models `Math.round` of the exact rational mean, and it does not model floating-point rounding error in the division.
- `Profile.HourlyRateShown` models the rate as an integer. A rate of `NaN` is left out.
