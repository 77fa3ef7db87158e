# GOAT Media dashboards — a Dafny model

This project models the logic of the GOAT Media agency dashboards:

- **Executive route** (`GET /api/executive/dashboard`): the summary cards, the per-client revenue (a `reduce` over projects), the six-month charts and the sales pipeline.
- **Employee route** (`GET /api/employee/dashboard`): quick statistics over the user's tasks, two fixed charts, and the fetched lists passed through.
- **Dismiss route** (`POST /api/notifications/dismiss`): validates the id, marks the notification read in the notifications table, and answers 200, 400, 404 or 500.
- **Employee page**: loads the dashboard once and renders a skeleton, an error, "No data found." or the dashboard. Dismissing a notification removes it from the list at once and restores the list when the request is rejected.
- **Login page**: the demo credentials per role. A successful submit writes `isAuthenticated` and a JSON `user` record to `localStorage` and navigates to the role's dashboard.
- **Dashboard layout**: a client-side guard over `localStorage`. It sends signed-out visitors to `/login`, records the stored role, and forwards `/dashboard` to the role's page. Logging out clears the store.
- **Landing page**: a visitor who is already signed in is forwarded to their dashboard.
- **Sidebar**: the navigation and user card for each role, and the header label.

The database queries, the fetches, the clock and the browser store enter the model as values:

- a query is `QueryFailed` or `QueryRows(rows)`;
- a fetch is an outcome value;
- today's local midnight is an integer parameter;
- `localStorage` is a `Storage` object over a `map<string, string>`.

`JSON.stringify` and `JSON.parse` are modelled for the values the pages store: `null`, and flat objects whose members are strings. Parsing the text that `Stringify` writes is proved to give the value back.

Modules:

- `Prelude`: Option, `String.prototype.includes`, decimal rendering, and `filter`/`reduce` over sequences.
- `Records`: the row and payload shapes.
- `Json`: the JSON subset.
- `LocalStorage`: the browser store.
- One module per source file: `ExecutiveDashboard`, `EmployeeDashboard`, `DismissNotification`, `EmployeePage`, `LoginPage`, `DashboardLayout`, `HomePage` and `AppSidebar`.
- `AuthFlow`: lemmas about how the login, landing page, guard and sidebar fit together through the store.

Some figures are fixed literals or are computed more simply than their names suggest:

- **Employee charts.** `taskCompletionData` and `workloadData` are fixed literals that do not depend on the tasks.
- **Executive charts.** `revenueTrendData` and `expensesProfitData` are fixed for January to May. Only June uses the closed revenue, and June's expenses are the constant 80000.
- **Per-client revenue.** A client's revenue adds up the leads of every status whose `client_name` contains the client label. It is added once per project of that client, so a client with k projects counts its leads k times. This is stated by `RevenuePerProject`, and `PerClientRevenueIgnoresStatus` shows the total need not equal the closed revenue.
- **Pipeline.** `pipelineLeads` is the first four leads of any status.

## Model

| member | source | states |
|---|---|---|
| Prelude.IncludesWindow | app/api/executive/dashboard/route.ts:53 | `includes` holds exactly when the needle occurs at some index of the haystack |
| Prelude.FilterCount | app/api/executive/dashboard/route.ts:47-48 | the length of `s.filter(p)` is the number of positions of `s` satisfying `p` |
| Prelude.DecimalInjective | app/api/executive/dashboard/route.ts:58 | distinct numbers render as distinct decimal texts in the template literal |
| Prelude.Includes | app/api/executive/dashboard/route.ts:53 | a haystack can include only a needle no longer than itself |
| Json.Stringify | app/login/page.tsx:68-72 | `JSON.stringify` writes `null` exactly for null, and an object between braces |
| Json.Parse | app/dashboard/layout.tsx:34 | a text parses only if, after leading whitespace, it starts with `n` for `null` or `{` for an object |
| Json.Lookup | app/dashboard/layout.tsx:35 | `obj[key]` is defined exactly when some member has that key, and then it is the value of the last member with that key |
| Json.ParseStringify | app/login/page.tsx:68-72 | `JSON.parse(JSON.stringify(v))` gives `v` back for `null` and flat string objects, escapes included |
| Json.EscapeRoundTrip | app/login/page.tsx:68-72 | an escaped string followed by its closing quote reads back as the string and the remaining text |
| Json.MembersRoundTrip | app/login/page.tsx:68-72 | the members of an object read back in order up to the closing brace |
| LocalStorage.Get | app/dashboard/layout.tsx:25-26 | `getItem` answers a value exactly when the key is stored, and that value |
| LocalStorage.Storage.SetItem | app/login/page.tsx:67-68 | `setItem` stores the value under the key and changes nothing else |
| LocalStorage.Storage.RemoveItem | app/dashboard/layout.tsx:58-59 | `removeItem` drops the key and changes nothing else |
| ExecutiveDashboard.TotalRevenue | app/api/executive/dashboard/route.ts:43 | with no closed lead the revenue is 0 (the properties below pin it down further) |
| ExecutiveDashboard.TotalRevenueAppend | app/api/executive/dashboard/route.ts:43 | closed revenue over a concatenation is the sum of the parts' closed revenues |
| ExecutiveDashboard.TotalRevenueIgnoresOpenLeads | app/api/executive/dashboard/route.ts:43 | the value of a lead that is not closed does not affect the revenue |
| ExecutiveDashboard.TotalRevenueBounded | app/api/executive/dashboard/route.ts:43 | with non-negative values, the closed revenue lies between 0 and the value of all leads |
| ExecutiveDashboard.SummaryCardsOf | app/api/executive/dashboard/route.ts:44-49 | the lead count with change 12.5, the closed revenue with change -2.1, and two counts bounded by their lists with change 0 |
| ExecutiveDashboard.SummaryCounts | app/api/executive/dashboard/route.ts:47-48 | active campaigns count exactly the projects in progress or on track; pending approvals count exactly the tasks in review |
| ExecutiveDashboard.ClientLabel | app/api/executive/dashboard/route.ts:52 | the joined client's name, or "Unknown Client" when there is no client or the name is empty |
| ExecutiveDashboard.MatchingLeads | app/api/executive/dashboard/route.ts:53 | exactly the leads whose client name contains the label |
| ExecutiveDashboard.MatchedRevenue | app/api/executive/dashboard/route.ts:53 | `projectRevenue` is 0 when no lead's client name contains the label |
| ExecutiveDashboard.EntriesFor | app/api/executive/dashboard/route.ts:51-61 | one entry per distinct label, in first-seen order |
| ExecutiveDashboard.RevenueByClientSpec | app/api/executive/dashboard/route.ts:51-61 | at most one entry per project, and none without projects |
| ExecutiveDashboard.FindClient | app/api/executive/dashboard/route.ts:54 | the index of the first entry for the client, or the length when there is none |
| ExecutiveDashboard.AddProject | app/api/executive/dashboard/route.ts:52-60 | one step of the reducer takes the entries for the labels so far to the entries with one more project's label |
| ExecutiveDashboard.RevenueByClient | app/api/executive/dashboard/route.ts:51-61 | the reduce over projects yields the declarative per-client entries |
| ExecutiveDashboard.RevenueByClientShape | app/api/executive/dashboard/route.ts:51-61 | at most one entry per project; every project's client has an entry; clients and colours pairwise distinct; entry i has colour slot i+1; first-seen order |
| ExecutiveDashboard.RevenuePerProject | app/api/executive/dashboard/route.ts:53-56 | an entry's revenue is its number of projects times the value of the leads matching its name |
| ExecutiveDashboard.PerClientRevenueIgnoresStatus | app/api/executive/dashboard/route.ts:53 | a client with two projects and one open lead is credited twice the lead's value while the closed revenue is 0 |
| ExecutiveDashboard.DistinctFirstSeenOrder | app/api/executive/dashboard/route.ts:54-58 | new clients are appended in the order their first project appears |
| ExecutiveDashboard.FillInjective | app/api/executive/dashboard/route.ts:58 | distinct positions get distinct `hsl(var(--chart-n))` colours |
| ExecutiveDashboard.PipelineLeads | app/api/executive/dashboard/route.ts:81 | the first min(4, n) leads, in order, each with assignee "Alex" |
| ExecutiveDashboard.RevenueTrend | app/api/executive/dashboard/route.ts:65-72 | six months Jan to Jun, June carrying the closed revenue |
| ExecutiveDashboard.ExpensesProfit | app/api/executive/dashboard/route.ts:73-80 | six months Jan to Jun, June with expenses 80000 and profit revenue minus 80000 |
| ExecutiveDashboard.ChartsAgree | app/api/executive/dashboard/route.ts:65-80 | each month's expenses plus profit equal its revenue; only June depends on the leads; June's profit is negative iff revenue < 80000 |
| ExecutiveDashboard.Get | app/api/executive/dashboard/route.ts:4-93 | 404 without a user, 500 when a query fails, otherwise the payload built from the three row sets |
| EmployeeDashboard.QuickStatsOf | app/api/employee/dashboard/route.ts:48-52 | both task counts are bounded by the task count; shoots this week is the number of fetched shoots |
| EmployeeDashboard.QuickStatsCount | app/api/employee/dashboard/route.ts:49-50 | tasks due count exactly the tasks due from today on and not done; pending approvals count exactly the tasks in review |
| EmployeeDashboard.InReviewDueCounted | app/api/employee/dashboard/route.ts:49-50 | for any tasks, the tasks in review due from today on are at most `tasksDue`; an overdue task in review counts only as a pending approval |
| EmployeeDashboard.InReviewDueAlsoDue | app/api/employee/dashboard/route.ts:49-50 | when no task in review is overdue, pending approvals never exceed tasks due |
| EmployeeDashboard.MarkingDoneDropsTask | app/api/employee/dashboard/route.ts:49 | marking one task done lowers tasks due by one exactly when that task was counted |
| EmployeeDashboard.Get | app/api/employee/dashboard/route.ts:4-80 | 404 without a user, 500 when a query fails, otherwise the quick stats, the fixed charts and the fetched lists unchanged |
| EmployeeDashboard.ChartsAreFixed | app/api/employee/dashboard/route.ts:55-68 | the two charts are the fixed tables, whatever the tasks, the shoots or the date |
| DismissNotification.DismissSpec | app/api/notifications/dismiss/route.ts:4-31 | the key set never changes; a rejection leaves the table as it was; a success names a present id and marks exactly that row read |
| DismissNotification.MarkRead | app/api/notifications/dismiss/route.ts:12-16 | the row with the id becomes read; every other row and the key set stay as they were |
| DismissNotification.NotificationTable.UpdateIsRead | app/api/notifications/dismiss/route.ts:12-16 | the update marks the row read, keeps rows keyed by id, and returns the updated rows |
| DismissNotification.NotificationTable.Post | app/api/notifications/dismiss/route.ts:4-31 | the response and the new table are those of the route's specification, and the table stays keyed by id |
| DismissNotification.FalsyIdRejected | app/api/notifications/dismiss/route.ts:8-10 | a missing, null or empty id is answered 400 and changes nothing |
| DismissNotification.Classification | app/api/notifications/dismiss/route.ts:4-31 | exactly when each of 400, 404, 500 and 200 is answered; every rejection leaves the table unchanged |
| DismissNotification.SuccessMarksExactlyThatRow | app/api/notifications/dismiss/route.ts:12-27 | success returns that row read and changes nothing but its read flag |
| DismissNotification.DismissIdempotent | app/api/notifications/dismiss/route.ts:12-27 | dismissing twice succeeds both times with the same answer and the same table |
| DismissNotification.UnknownIdNotFound | app/api/notifications/dismiss/route.ts:23-25 | an id with no row is answered 404 and changes nothing |
| EmployeePage.Fetched | app/dashboard/employee/page.tsx:29-47 | when `fetchData` settles, loading is over |
| EmployeePage.WithoutId | app/dashboard/employee/page.tsx:55-58 | `filter(n => n.id !== id)` keeps exactly the notifications with another id |
| EmployeePage.Dismissed | app/dashboard/employee/page.tsx:51-71 | loading and error untouched; a rejected request or missing data leaves the state as it was; otherwise only the notifications change, to those with another id |
| EmployeePage.ViewOf | app/dashboard/employee/page.tsx:73-83 | skeleton exactly while loading; after loading, the error text exactly when it is non-empty, else "No data found." exactly without data, else the dashboard with the data held |
| EmployeePage.Page.constructor | app/dashboard/employee/page.tsx:25-27 | no data, loading, no error |
| EmployeePage.Page.FetchData | app/dashboard/employee/page.tsx:29-47 | the new state is that of the fetch's outcome |
| EmployeePage.Page.HandleDismiss | app/dashboard/employee/page.tsx:51-71 | the new state is the optimistic removal, or the snapshot again when the request rejects |
| EmployeePage.FetchOutcomeShown | app/dashboard/employee/page.tsx:29-83 | the dashboard shows exactly when the route answered ok; each failure shows its message; an empty message shows "No data found." |
| EmployeePage.DismissRemovesOnlyThatId | app/dashboard/employee/page.tsx:54-58 | the list keeps exactly the notifications with another id; the rest of the data is untouched |
| EmployeePage.DismissKeepsOrder | app/dashboard/employee/page.tsx:57 | the removal keeps the relative order of the remaining notifications |
| EmployeePage.DismissTwice | app/dashboard/employee/page.tsx:55-58 | dismissing the same id twice is dismissing it once |
| EmployeePage.DismissAbsentId | app/dashboard/employee/page.tsx:55-58 | dismissing an id the list does not hold changes nothing |
| EmployeePage.RejectedDismissRestores | app/dashboard/employee/page.tsx:51-71 | a rejected request restores the page's data; without data a click does nothing |
| LoginPage.RoleCredentials | app/login/page.tsx:33-38 | credentials exist exactly for the four roles; username and password are the role; the dashboard is `/dashboard/<role>` |
| LoginPage.SignedIn | app/login/page.tsx:67-72 | the store gains `isAuthenticated = "true"` and a `user` text that parses back to the record; other keys are unchanged |
| LoginPage.SubmitSpec | app/login/page.tsx:49-81 | a submit that stays leaves the store alone with an error message; one that navigates clears the error and goes to `/dashboard/<role>` |
| LoginPage.LoginForm.constructor | app/login/page.tsx:26-30 | empty fields, not loading, no error |
| LoginPage.LoginForm.SelectRole | app/login/page.tsx:40-47 | the role is selected; a known role also fills in its username and password |
| LoginPage.LoginForm.EditUsername | app/login/page.tsx:150 | the username field takes the typed value and nothing else changes |
| LoginPage.LoginForm.EditPassword | app/login/page.tsx:163 | the password field takes the typed value and nothing else changes |
| LoginPage.LoginForm.Submit | app/login/page.tsx:49-81 | the error, the store and the navigation are those of the submit specification; loading ends false |
| LoginPage.EmptyRoleRejected | app/login/page.tsx:54-58 | without a role the submit sets "Please select a role first", writes nothing and stays |
| LoginPage.SubmitSucceedsIff | app/login/page.tsx:60-78 | a submit navigates exactly when a role is chosen and both fields equal its credentials, and then to `/dashboard/<role>` |
| LoginPage.FailedSubmitKeepsStore | app/login/page.tsx:75-78 | a failed submit leaves the store unchanged and names the reason |
| LoginPage.SuccessStoresUser | app/login/page.tsx:66-72 | the stored user reads back as the role's name, `<role>@thegoatmedia.com` and the role |
| LoginPage.SelectedRoleSignsIn | app/login/page.tsx:40-74 | picking a role and submitting right away signs in |
| DashboardLayout.RoleRoute | app/dashboard/layout.tsx:40-48 | a route exists exactly for the four roles, and it is `/dashboard/<role>` |
| DashboardLayout.ViewOf | app/dashboard/layout.tsx:63-65 | "Loading..." exactly while not authenticated; otherwise the shell with the recorded role |
| DashboardLayout.Guard | app/dashboard/layout.tsx:24-55 | going to `/login` leaves the state alone; otherwise the visitor is authenticated, and any other redirect is from `/dashboard` |
| DashboardLayout.StoredUser | app/dashboard/layout.tsx:25-35 | the store holds a signed-in user exactly when the flag is "true" and `user` parses to an object, whose members it answers |
| DashboardLayout.SignedOut | app/dashboard/layout.tsx:57-59 | logging out removes exactly the two keys |
| DashboardLayout.Layout.constructor | app/dashboard/layout.tsx:19-20 | not authenticated, empty role |
| DashboardLayout.Layout.CheckAuth | app/dashboard/layout.tsx:24-55 | the new state and the navigation are those of the guard |
| DashboardLayout.Layout.Logout | app/dashboard/layout.tsx:57-61 | the store loses both keys and the page goes to `/login` |
| DashboardLayout.SignedOutGoesToLogin | app/dashboard/layout.tsx:28-31 | without `isAuthenticated = "true"` or a non-empty user, the guard goes to `/login` and changes nothing |
| DashboardLayout.GuardAcceptsIff | app/dashboard/layout.tsx:28-54 | the guard lets the visitor in exactly when the store holds a signed-in user object, and records its role |
| DashboardLayout.RedirectOnlyFromDashboard | app/dashboard/layout.tsx:39-50 | any redirect other than to `/login` happens only on `/dashboard`, for a known role, to its page |
| DashboardLayout.OtherPathsStay | app/dashboard/layout.tsx:39 | on any other path a signed-in visitor stays and others go to `/login` |
| DashboardLayout.DashboardRedirect | app/dashboard/layout.tsx:39-50 | on `/dashboard` a signed-in visitor goes to the role's page, or stays when the role is unknown or missing |
| DashboardLayout.LogoutThenGuard | app/dashboard/layout.tsx:57-61 | after logging out the guard sends the visitor to `/login` |
| DashboardLayout.RejectedStaysLoading | app/dashboard/layout.tsx:63-65 | from the initial state a rejected visit renders only "Loading..." |
| HomePage.HomeRoleRoute | app/page.tsx:29-34 | a route exists exactly for the four roles, and it is `/dashboard/<role>` |
| HomePage.HomeRedirect | app/page.tsx:21-44 | a redirect happens only when signed in with a non-empty stored user, and only to one of the four role dashboards |
| HomePage.NoRedirectUnlessAuthenticated | app/page.tsx:24 | no redirect unless `isAuthenticated` is exactly "true" |
| HomePage.NoRedirectWithoutUser | app/page.tsx:25-26 | no redirect without a stored user |
| HomePage.RedirectIff | app/page.tsx:21-44 | the page redirects exactly when signed in with a stored user object whose role is one of the four, to `/dashboard/<role>` |
| AppSidebar.RoleNav | components/dashboard/app-sidebar.tsx:60-224 | a role's navigation is its dashboard followed by one item per page under the role's root |
| AppSidebar.GetRoleData | components/dashboard/app-sidebar.tsx:44-237 | every role gets the Settings item and the default avatar; a known role six main items starting with its dashboard; any other role the default card and the single `/dashboard` item |
| AppSidebar.SidebarData | components/dashboard/app-sidebar.tsx:243 | an undefined role shows the default card and `/dashboard`; a known role six items starting with its dashboard |
| AppSidebar.UpperAscii | components/dashboard/app-sidebar.tsx:263 | lower-case ASCII letters become upper case; every other character is kept |
| AppSidebar.HeaderLabel | components/dashboard/app-sidebar.tsx:263 | "Employee Dashboard" for an undefined or empty role; otherwise the role capitalised, then " Dashboard" |
| AppSidebar.RoleNavUnderRoot | components/dashboard/app-sidebar.tsx:60-224 | every navigation url lies under the role's root |
| AppSidebar.PageUrl | components/dashboard/app-sidebar.tsx:60-224 | a page's url is the root, a slash and the page name |
| AppSidebar.DashboardUrlDiffers | components/dashboard/app-sidebar.tsx:60-224 | no page item shares the dashboard's url |
| AppSidebar.PageUrlsDiffer | components/dashboard/app-sidebar.tsx:60-224 | page items with distinct page names have distinct urls |
| AppSidebar.RoleNavDistinct | components/dashboard/app-sidebar.tsx:60-224 | distinct page names give pairwise distinct urls |
| AppSidebar.BuiltNavigation | components/dashboard/app-sidebar.tsx:60-224 | five distinct pages under the role's root give the six-item navigation a known role has |
| AppSidebar.CreativeData | components/dashboard/app-sidebar.tsx:61-101 | the creative sidebar is built from its five pages and carries `creative@thegoatmedia.com` |
| AppSidebar.ManagerData | components/dashboard/app-sidebar.tsx:102-142 | the manager sidebar is built from its five pages and carries `manager@thegoatmedia.com` |
| AppSidebar.SocialData | components/dashboard/app-sidebar.tsx:143-183 | the social sidebar is built from its five pages and carries `social@thegoatmedia.com` |
| AppSidebar.FinanceData | components/dashboard/app-sidebar.tsx:184-224 | the finance sidebar is built from its five pages and carries `finance@thegoatmedia.com` |
| AppSidebar.CreativePagesDistinct | components/dashboard/app-sidebar.tsx:61-101 | the creative role has five pages with distinct names |
| AppSidebar.ManagerPagesDistinct | components/dashboard/app-sidebar.tsx:102-142 | the manager role has five pages with distinct names |
| AppSidebar.SocialPagesDistinct | components/dashboard/app-sidebar.tsx:143-183 | the social role has five pages with distinct names |
| AppSidebar.FinancePagesDistinct | components/dashboard/app-sidebar.tsx:184-224 | the finance role has five pages with distinct names |
| AppSidebar.CreativeNavigation | components/dashboard/app-sidebar.tsx:61-101 | the creative sidebar has the known-role shape |
| AppSidebar.ManagerNavigation | components/dashboard/app-sidebar.tsx:102-142 | the manager sidebar has the known-role shape |
| AppSidebar.SocialNavigation | components/dashboard/app-sidebar.tsx:143-183 | the social sidebar has the known-role shape |
| AppSidebar.FinanceNavigation | components/dashboard/app-sidebar.tsx:184-224 | the finance sidebar has the known-role shape |
| AppSidebar.KnownRoleNavigation | components/dashboard/app-sidebar.tsx:60-224 | a known role has six items, first its dashboard, all under `/dashboard/<role>`, no url twice, and its own e-mail address |
| AppSidebar.OtherRoleNavigation | components/dashboard/app-sidebar.tsx:225-235 | any other role gets the default card and the single `/dashboard` item |
| AppSidebar.SharedParts | components/dashboard/app-sidebar.tsx:45-57 | every role has the Settings item and the default avatar |
| AppSidebar.UndefinedRoleIsDefault | components/dashboard/app-sidebar.tsx:243 | an undefined role is shown like the empty one, with the label "Employee Dashboard" |
| AppSidebar.CreativeLabel | components/dashboard/app-sidebar.tsx:263 | the creative header reads "Creative Dashboard" |
| AppSidebar.ManagerLabel | components/dashboard/app-sidebar.tsx:263 | the manager header reads "Manager Dashboard" |
| AppSidebar.SocialLabel | components/dashboard/app-sidebar.tsx:263 | the social header reads "Social Dashboard" |
| AppSidebar.FinanceLabel | components/dashboard/app-sidebar.tsx:263 | the finance header reads "Finance Dashboard" |
| AuthFlow.RouteTablesAgree | app/page.tsx:29-34 | the login dashboards, the landing redirects and the guard redirects name the same page for every role |
| AuthFlow.SubmitWritesSignedIn | app/login/page.tsx:62-72 | a submit with a known role's credentials writes the signed-in store |
| AuthFlow.SignedInStoredUser | app/login/page.tsx:67-72 | the signed-in store holds the written record as its user |
| AuthFlow.RecordRole | app/login/page.tsx:68-72 | the written record's role is the selected role |
| AuthFlow.StoredRole | app/login/page.tsx:67-72 | after a successful login the store holds a user object whose role is the chosen role |
| AuthFlow.LoginThenGuard | app/dashboard/layout.tsx:24-55 | right after login the guard admits the user with that role, forwards `/dashboard` to the login's target and leaves other paths alone |
| AuthFlow.HomeRedirectOfStoredUser | app/page.tsx:21-44 | the landing redirect is the guard's route for the stored user's role |
| AuthFlow.LoginThenHome | app/page.tsx:21-44 | right after login the landing page forwards to the same page the login did |
| AuthFlow.HomeRedirectAccepted | app/page.tsx:36-38 | the landing page's target is admitted by the guard without a further redirect |
| AuthFlow.LogoutEndsSession | app/dashboard/layout.tsx:57-61 | after logout neither the landing page nor the guard admits the user |
| AuthFlow.LoginThenSidebar | components/dashboard/app-sidebar.tsx:243 | after login the sidebar's first item is the page the login went to, and the header reads the capitalised role followed by " Dashboard" |

## Left out

- Database access is left out: query text, `.order`, `.limit`, `.eq`/`.neq`/`.gte` filters and `Promise.all`. Each query is an input: an error, or the rows in the order the query returns them. A query without an error always yields rows, so `data || []` is the rows.
- The hard-coded users (looked up by e-mail) are inputs: `None` when the lookup fails.
- Exceptions that only a malformed row could raise are left out, together with the 500 "Internal Server Error" they lead to. An example is a `null` `client_name` reaching `.includes`. Rows have the field types of the records.
- Dates: `due_date` is given as an optional millisecond timestamp; `None` stands for a text that does not parse, which never compares `>=`. Today's local midnight is a parameter. Time zones and date parsing are left out.
- Numbers are unbounded integers. The fixed "change" figures 12.5, -2.1, 0 and 0 are kept in tenths (125, -21, 0, 0). Floating-point lead values are not modelled.
- `JSON.stringify`/`JSON.parse` cover `null` and flat objects of string members. Other JSON (numbers, booleans, arrays, nested objects, non-string members, bare strings) is treated as text that does not parse. For a stored `user` that is valid JSON of another kind, the source's behaviour is not followed: a bare string, for example, would let the guard in with an undefined role.
- Json.Parse rejects any `\u` escape in the surrogate range, paired or not. `JSON.parse` accepts an escaped surrogate pair as one character.
- Property lookups inherited from `Object.prototype` are not modelled. An example is a role named `toString` in `roleCredentials` or `roleRoutes`.
- AppSidebar.UpperAscii: `toUpperCase` is modelled for ASCII letters only; other characters are kept as they are.
- The one-second `setTimeout` delays in the login form, the intermediate `isLoading = true` renders, React's scheduling of state updates and effects, and the interleaving of two dismissals in flight are left out. Each handler runs to completion on its own.
- `router.push` is the navigation a member returns. Navigation itself and what the next page renders are left out.
- LoginPage.LoginForm.Submit requires the selected role to be empty or one of the four. The page only offers these four, and any other role makes the source read a property of `undefined`.
- EmployeePage.Page.HandleDismiss takes whether the dismiss request rejects as an input. A response with an error status resolves normally and does not restore the list, as in the source.
- Console logging, icons, animations, markup and styling are left out. The same goes for the landing page's role cards, which always lead to `/login`.
- The role dashboards (creative, manager, social, finance, executive pages) and the seed script are left out. They render literal or fetched data and hold no logic of their own.
