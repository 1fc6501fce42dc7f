# Team task dashboard client: a Dafny model

This project models the browser client of a team task-management dashboard
(`task_management_frontend/src`), a React app that talks to a REST backend. It
covers the parts that decide behaviour:

- the HTTP adapter `apiRequest`: base URL, URL and query construction, headers,
  tolerant body parsing, and mapping a non-OK response to an error message;
- the resource clients for tasks, teams, auth, notifications and analytics;
- the session hook `useAuth`: the token, the profile, the persisted key
  `tm_jwt`, and login, logout and refresh;
- the route guard;
- the pagination component;
- the five pages that hold list, board and analytics state.

Modelling conventions:

- One Dafny module stands for one source file.
- `JsValues` models the JavaScript value semantics the code relies on:
  truthiness, `||`, `String(v)`, `trim`, and objects and `URLSearchParams` as
  ordered key–value lists.
- `fetch` is an abstract `Response`.
- `JSON.parse` and `JSON.stringify` are passed in as function parameters.
- Every awaited call in a page or in the session hook becomes a parameter
  `Outcome<T> = Ok(value) | Fail(message)`, holding what the call resolved to
  or the message of the error it threw.

The pages and the session hook are classes whose fields are the component's
state variables. Each handler is a method that says what the new state is and
which requests it issued, in order. The properties are proved as lemmas about
pure functions:

- the list-load rule (`ListView.AfterLoad`);
- the session transitions (`Session.LoginOf`, `RefreshOf`, `LogoutOf`);
- the board's optimistic move and rollback (`MoveStatus`, `RestoreTask`);
- bucketing by status (`Bucket`).

Two behaviours of the code are worth stating plainly:

- **Sign-in keeps the token when the profile fetch fails.** `login` in
  `useAuth.js` stores the token before calling `getMe`; if that call fails,
  only `error` is set and the token stays
  (`Session.LoginKeepsTokenOnProfileFailure`). Only the effect-driven
  refresh drops it, when it fails too
  (`Session.ProfileFailureThenRefreshSignsOut`).
- **No status-specific handling.** `apiRequest` treats every non-2xx status
  alike. Only `refreshMe` clears the session, on any failure of the profile
  request.

## Model

| member | source | states |
|---|---|---|
| Wrappers.ErrorText | task_management_frontend/src/pages/BoardsPage.js:56 | The shown error is the thrown message when it is non-empty, and the page's own fallback text otherwise |
| JsValues.Trim | task_management_frontend/src/api/client.js:11 | `trim()` yields "" exactly for whitespace-only input, and is never longer than its input |
| JsValues.TrimEnds | task_management_frontend/src/api/client.js:11 | a trimmed non-empty string neither starts nor ends with a whitespace character |
| JsValues.Put | task_management_frontend/src/api/client.js:22 | `searchParams.set`: the key is present with the new value; every other key keeps its value; unique keys stay unique; a new key is appended and an existing key keeps its position |
| Client.BaseUrl | task_management_frontend/src/api/client.js:9-12 | The trimmed REACT_APP_API_BASE_URL when it is set and not blank, otherwise http://localhost:3001; never empty |
| Client.StripTrailingSlashes | task_management_frontend/src/api/client.js:15 | Removes exactly the run of trailing '/' characters: a prefix of the input that does not end in '/' |
| Client.NormalizePath | task_management_frontend/src/api/client.js:16 | A path that starts with '/' is unchanged; any other path gets one '/' prepended |
| Client.QueryParams | task_management_frontend/src/api/client.js:19-24 | The search parameters have unique keys, and each one comes from a query key |
| Client.BuildUrl | task_management_frontend/src/api/client.js:14-26 | The loop over the query entries builds the URL that `UrlOf` specifies: the joined base and path, then every surviving entry set in order |
| Client.QueryParamsLookup | task_management_frontend/src/api/client.js:19-24 | A query key is in the URL exactly when its value is not undefined, null or "", and then its value is `String(v)` |
| Client.UrlLocationJoin | task_management_frontend/src/api/client.js:15-18 | The location is the stripped base followed by the normalised path, so exactly one '/' sits at the seam |
| Client.ParseJsonSafe | task_management_frontend/src/api/client.js:28-36 | An empty body gives null, JSON gives its value, and any other text gives `{detail: text}`; it never fails |
| Client.HeaderSet | task_management_frontend/src/api/client.js:43-47 | Accept is always `application/json`; Authorization is `Bearer <token>` exactly when the token is truthy; Content-Type is JSON exactly when there is a body; no other header |
| Client.BuildHeaders | task_management_frontend/src/api/client.js:43-47 | Setting the headers step by step gives the header set `Headers` specifies |
| Client.WireBody | task_management_frontend/src/api/client.js:52 | A body is sent exactly when the request has one, and what is sent is then `JSON.stringify(body)` |
| Client.ApiRequest | task_management_frontend/src/api/client.js:39-67 | The fetch call is built from the request; a 2xx response resolves to the parsed body; any other response rejects with the chosen message, the status and the parsed body |
| Client.ErrorMessageChoice | task_management_frontend/src/api/client.js:55-59 | The error message is `detail` when truthy, else `message` when truthy, else `Request failed (<status>)` |
| Client.RawTextBecomesMessage | task_management_frontend/src/api/client.js:28-36 | A non-JSON error body becomes the error message verbatim |
| Client.EmptyBodyMessage | task_management_frontend/src/api/client.js:55-59 | An empty error body gives `Request failed (<status>)` |
| Client.EmptySuccessIsNull | task_management_frontend/src/api/client.js:66 | A 2xx response with an empty body resolves to null |
| Client.InvalidCredentialsMessage | task_management_frontend/src/api/client.js:55-59 | A 401 with `{"detail":"Invalid credentials"}` surfaces exactly that text |
| Client.PageQuery | task_management_frontend/src/api/client.js:70-76 | Exactly the keys limit and offset, holding the given values |
| TasksApi.ListQueryEntries | task_management_frontend/src/api/tasks.js:10-14 | The spread filters come first; limit and offset override same-named filters; every other filter keeps its entry; null filters mean no filters |
| TasksApi.ListTasksCall | task_management_frontend/src/api/tasks.js:4-16 | GET /tasks with no body, its search parameters built from `{...filters, limit, offset}` |
| TasksApi.ListTasksUrl | task_management_frontend/src/api/tasks.js:4-16 | The search parameters hold limit and offset as decimals, and every other filter exactly when it is not undefined, null or "" |
| TasksApi.NoFiltersOnlyWindow | task_management_frontend/src/api/tasks.js:11 | With null or missing filters, the URL carries exactly limit and offset |
| TasksApi.NullFilterOmitted | task_management_frontend/src/api/tasks.js:4-16 | A filter set to null, undefined or "" never appears in the URL |
| TasksApi.CreateTaskCall | task_management_frontend/src/api/tasks.js:19-27 | POST /tasks with the serialised payload and a JSON Content-Type |
| TasksApi.GetTaskCall | task_management_frontend/src/api/tasks.js:30-37 | GET /tasks/{id} with no body and no Content-Type |
| TasksApi.UpdateTaskCall | task_management_frontend/src/api/tasks.js:40-48 | PATCH /tasks/{id} with the serialised patch as body and a JSON Content-Type |
| TasksApi.ListCommentsCall | task_management_frontend/src/api/tasks.js:51-58 | GET /tasks/{id}/comments with no body |
| TasksApi.AddCommentCall | task_management_frontend/src/api/tasks.js:61-69 | POST /tasks/{id}/comments whose body is exactly the serialised `{body}` |
| TeamsApi.ListTeamsCall | task_management_frontend/src/api/teams.js:4-12 | GET /teams with no body, its search parameters built from `{limit, offset}` |
| TeamsApi.ListTeamsParams | task_management_frontend/src/api/teams.js:4-12 | The search parameters are exactly limit and offset, as decimals |
| TeamsApi.CreateTeamCall | task_management_frontend/src/api/teams.js:15-23 | POST /teams with exactly `{name}` |
| TeamsApi.GetTeamCall | task_management_frontend/src/api/teams.js:26-33 | GET /teams/{id} with no body and no Content-Type |
| TeamsApi.AddTeamMemberRole | task_management_frontend/src/api/teams.js:36-44 | POST /teams/{id}/members with the user id; a falsy role is sent as "member", any other role as given |
| AuthApi.RegisterRoles | task_management_frontend/src/api/auth.js:4-11 | Missing, null or empty roles are sent as null; a non-empty list is sent as given |
| AuthApi.SignInRequestsCarryNoToken | task_management_frontend/src/api/auth.js:4-21 | Neither register nor login sends an Authorization header |
| AuthApi.LoginCall | task_management_frontend/src/api/auth.js:14-21 | POST /auth/login with exactly `{email, password}` |
| AuthApi.GetMeCall | task_management_frontend/src/api/auth.js:24-31 | GET /auth/me with no body; Authorization is sent exactly when the token is truthy |
| NotificationsApi.FlagSurvives | task_management_frontend/src/api/notifications.js:11 | `unreadOnly \|\| false` is never dropped; it reads "false" when the flag is falsy |
| NotificationsApi.QueryShape | task_management_frontend/src/api/notifications.js:10-14 | The query has exactly the keys unread_only, limit and offset; the flag defaults to false |
| NotificationsApi.UnreadOnlyAlwaysSent | task_management_frontend/src/api/notifications.js:4-16 | unread_only is always in the URL: "false" for a falsy flag, otherwise the flag's string |
| NotificationsApi.WindowForwarded | task_management_frontend/src/api/notifications.js:4-16 | limit and offset reach the URL unchanged |
| NotificationsApi.ListNotificationsCall | task_management_frontend/src/api/notifications.js:4-16 | GET /notifications with the token's headers and no body, its search parameters built from the query object |
| AnalyticsApi.TeamAnalyticsCall | task_management_frontend/src/api/analytics.js:4-11 | The team rollup is a plain GET on /analytics/teams/{id}: the token's headers, no body, no Content-Type, no query |
| AnalyticsApi.ProjectAnalyticsCall | task_management_frontend/src/api/analytics.js:14-21 | The project rollup is a plain GET on /analytics/projects/{id}: the token's headers, no body, no Content-Type, no query |
| Pagination.SummaryOf | task_management_frontend/src/components/Pagination.js:22-27 | "0 results" exactly when total is 0; otherwise the range starts at offset+1 and ends at min(offset+limit, total) |
| Pagination.Render | task_management_frontend/src/components/Pagination.js:6-27 | Nothing without meta; otherwise Prev is enabled iff offset > 0, Next iff offset+limit < total, with the range label |
| Pagination.PrevOffset | task_management_frontend/src/pages/TasksPage.js:316 | Prev requests `max(0, offset - limit)`, which is never negative |
| Pagination.NextIffLabelShort | task_management_frontend/src/components/Pagination.js:9-27 | Next is enabled exactly when the label's upper end is below the total |
| Pagination.PrevIffLabelNotFirst | task_management_frontend/src/components/Pagination.js:8-27 | Prev is enabled exactly when the label does not start at item 1 |
| Pagination.NextContinuesRange | task_management_frontend/src/pages/TasksPage.js:317 | The page that Next loads starts right after the last item shown |
| Pagination.PrevUndoesNext | task_management_frontend/src/pages/TasksPage.js:316-317 | Prev after Next returns to the same offset; Prev always moves back, except at offset 0 |
| ListView.AfterLoad | task_management_frontend/src/pages/TasksPage.js:47-69 | A successful load replaces the page, moves to the requested offset and clears the error; a failed one keeps page and offset and records the message or the fallback |
| ListView.SuccessAfterFailureRecovers | task_management_frontend/src/pages/TeamsPage.js:26-42 | A success after a failure gives the same state as the success alone |
| ListView.FailuresKeepPage | task_management_frontend/src/pages/NotificationsPage.js:21-38 | Any run of failed loads leaves the page and offset shown before the run, with the last failure's message |
| BoardsPage.StatusKey | task_management_frontend/src/pages/BoardsPage.js:32 | A task's column is its status, or "open" when the status is missing; never empty |
| BoardsPage.GroupByStatus | task_management_frontend/src/pages/BoardsPage.js:25-37 | The loop builds the three default columns plus one per status that occurs, each holding exactly that column's tasks in list order |
| BoardsPage.BucketMembership | task_management_frontend/src/pages/BoardsPage.js:31-35 | A task is in a column exactly when it is in the list and its status key is that column |
| BoardsPage.EachTaskInOneBucket | task_management_frontend/src/pages/BoardsPage.js:31-35 | Each task is in its own column and in no other |
| BoardsPage.BucketAppend | task_management_frontend/src/pages/BoardsPage.js:31-35 | Grouping a concatenation concatenates the groups, so each column keeps list order |
| BoardsPage.StatusKeysHaveTasks | task_management_frontend/src/pages/BoardsPage.js:32-34 | A status is a column key exactly when its column is non-empty |
| BoardsPage.FindTask | task_management_frontend/src/pages/BoardsPage.js:101 | A found task is the first task in the list with the id; not found means no task has the id |
| BoardsPage.MoveStatus | task_management_frontend/src/pages/BoardsPage.js:106-108 | Every task with the dragged id takes the new status; all others are unchanged; length and ids are kept |
| BoardsPage.RestoreTask | task_management_frontend/src/pages/BoardsPage.js:118 | Every task with the dragged id is replaced by the snapshot; all others are unchanged |
| BoardsPage.RollbackRestoresSnapshot | task_management_frontend/src/pages/BoardsPage.js:101-119 | With unique ids, rolling back the optimistic move gives back exactly the list before the drag |
| BoardsPage.OptimisticMoveShowsInDestination | task_management_frontend/src/pages/BoardsPage.js:104-108 | After the optimistic move, the dragged task is in the destination column and in no other |
| BoardsPage.LoadRequestUrl | task_management_frontend/src/pages/BoardsPage.js:47-52 | The board's load URL has exactly project_id, limit=200 and offset=0 |
| BoardsPage.CreatePayloadFields | task_management_frontend/src/pages/BoardsPage.js:75-81 | A quick-add task is created in the project with the trimmed title, status open, priority medium and no assignees |
| BoardsPage.Board.Load | task_management_frontend/src/pages/BoardsPage.js:39-59 | Without a project id, the list is cleared and no request is sent; otherwise success replaces the list and failure keeps it, with the message or "Failed to load tasks" |
| BoardsPage.Board.OnCreateTask | task_management_frontend/src/pages/BoardsPage.js:66-90 | Ignored without a project id or a title. The created task is put first and the title is cleared; on failure the list and title stay, with an error |
| BoardsPage.Board.BeginDrag | task_management_frontend/src/pages/BoardsPage.js:92-108 | Ignored drops change nothing; otherwise the list becomes the optimistic move and the snapshot and update request are returned |
| BoardsPage.Board.SettleDrag | task_management_frontend/src/pages/BoardsPage.js:110-120 | An accepted update keeps the list; a refused one restores the snapshot in the list as it is then, with "Failed to move task" as fallback |
| BoardsPage.Board.OnDragEnd | task_management_frontend/src/pages/BoardsPage.js:92-121 | An accepted drag moves the task and sends only the new status. A refused one restores the snapshot into the moved list and shows the error; with unique ids that is exactly the old list |
| TasksPage.NullIfEmpty | task_management_frontend/src/pages/TasksPage.js:39-42 | An empty input is null; any other input is itself |
| TasksPage.FiltersEntries | task_management_frontend/src/pages/TasksPage.js:37-45 | The filters object has exactly project_id, q, status and priority, each holding its input or null |
| TasksPage.FilterInUrl | task_management_frontend/src/pages/TasksPage.js:56-61 | Each filter reaches the URL exactly when its input is non-empty, and then verbatim; limit and offset are always there |
| TasksPage.StatusMatches | task_management_frontend/src/pages/TasksPage.test.js:96-99 | The test's mock keeps exactly the tasks with the wanted status |
| TasksPage.AnyStatusShowsAll | task_management_frontend/src/pages/TasksPage.test.js:108-116 | With status "Any", the table gets all three tasks |
| TasksPage.InProgressShowsOnlyThatTask | task_management_frontend/src/pages/TasksPage.test.js:118-126 | After choosing in_progress and applying, only "Task In Progress" remains in the table |
| TasksPage.InProgressFilterInUrl | task_management_frontend/src/pages/TasksPage.js:39-42 | Choosing in_progress puts status=in_progress in the request URL |
| TasksPage.DescriptionPatch | task_management_frontend/src/pages/TasksPage.js:410-414 | "Update description" sends the description, or null when it is empty |
| TasksPage.CommentsOrEmpty | task_management_frontend/src/pages/TasksPage.js:77 | A null comment list is shown as empty |
| TasksPage.Tasks.Load | task_management_frontend/src/pages/TasksPage.js:47-69 | Without a project id, the page and selection are cleared and no request is sent; otherwise the filtered request is sent and the list follows `AfterLoad` |
| TasksPage.Tasks.Receive | task_management_frontend/src/pages/TasksPage.js:55-68 | A resolved list becomes the page at the requested offset with the error cleared; a rejection keeps page and offset and shows the message; loading ends either way |
| TasksPage.Tasks.Prev | task_management_frontend/src/pages/TasksPage.js:316 | With a project, loads at `PrevOffset(offset, limit)` following AfterLoad, keeps the selection and ends loading; without one, clears the list and the selection and changes nothing else |
| TasksPage.Tasks.Next | task_management_frontend/src/pages/TasksPage.js:317 | With a project, loads at `offset + limit` following AfterLoad, keeps the selection and ends loading; without one, clears the list and the selection and changes nothing else |
| TasksPage.Tasks.SetPageSize | task_management_frontend/src/pages/TasksPage.js:231-234 | The new limit and offset 0; nothing else changes and no request is sent |
| TasksPage.Tasks.LoadComments | task_management_frontend/src/pages/TasksPage.js:71-81 | Selects the task, clears the comment box, and shows the fetched comments, or none with an error |
| TasksPage.Tasks.OnCreate | task_management_frontend/src/pages/TasksPage.js:88-105 | Ignored without a project id or a title. Success clears the title and reloads from offset 0; failure keeps the list and title, with an error |
| TasksPage.Tasks.AfterCreate | task_management_frontend/src/pages/TasksPage.js:93-104 | Once `createTask` settles: success clears the title and reloads from offset 0; failure keeps title and list, with "Failed to create task"; loading ends either way |
| TasksPage.Tasks.OnUpdateSelected | task_management_frontend/src/pages/TasksPage.js:107-122 | Ignored without a selection. Success shows the returned task (a null body closes the panel) and reloads at the current offset (without a project, the reload clears the list and selection and leaves loading as it was); failure keeps everything, with an error |
| TasksPage.Tasks.OnAddComment | task_management_frontend/src/pages/TasksPage.js:124-140 | Ignored without a selection or a comment. Success clears the box and shows the refetched comments; a failure of either call keeps the comments, with an error |
| TasksPage.Tasks.EditDescription | task_management_frontend/src/pages/TasksPage.js:399-401 | Typing edits only the selected task's description locally |
| TasksPage.Tasks.CloseDetail | task_management_frontend/src/pages/TasksPage.js:349 | Closing clears the selection and nothing else |
| TeamsPage.Teams.constructor | task_management_frontend/src/pages/TeamsPage.js:13-24 | Initial state: limit 20, offset 0, no page, role "member" |
| TeamsPage.Teams.Load | task_management_frontend/src/pages/TeamsPage.js:26-42 | Sends listTeams with the limit and the requested offset; the list follows `AfterLoad`; the member panel is untouched |
| TeamsPage.Teams.Prev | task_management_frontend/src/pages/TeamsPage.js:200 | Loads at `PrevOffset(offset, limit)` following AfterLoad, and loading ends |
| TeamsPage.Teams.Next | task_management_frontend/src/pages/TeamsPage.js:201 | Loads at `offset + limit` following AfterLoad, and loading ends |
| TeamsPage.Teams.SetPageSize | task_management_frontend/src/pages/TeamsPage.js:150-153 | New limit and offset 0; the limit effect reloads from 0 only when the limit changed, and loading then ends; an unchanged limit leaves page, error and loading alone |
| TeamsPage.Teams.LoadTeamDetail | task_management_frontend/src/pages/TeamsPage.js:44-52 | Success shows the returned team (a null body closes the panel); failure keeps the panel, with an error |
| TeamsPage.Teams.OnCreate | task_management_frontend/src/pages/TeamsPage.js:59-74 | Ignored for a blank name. Success clears the name and reloads from 0; failure keeps list and name, with an error |
| TeamsPage.Teams.OnAddMember | task_management_frontend/src/pages/TeamsPage.js:76-94 | Ignored without an open team or a user id. Success resets the form (role "member") and reloads the team, showing what the reload returns (a null body closes the panel); failure keeps the panel, with an error |
| TeamsPage.Teams.Close | task_management_frontend/src/pages/TeamsPage.js:225 | Closing clears the open team and nothing else |
| NotificationsPage.Feed.Load | task_management_frontend/src/pages/NotificationsPage.js:21-38 | Sends listNotifications with the flag, the limit and the requested offset; the list follows `AfterLoad` |
| NotificationsPage.Feed.Prev | task_management_frontend/src/pages/NotificationsPage.js:141 | Loads at `PrevOffset(offset, limit)` following AfterLoad, and loading ends |
| NotificationsPage.Feed.Next | task_management_frontend/src/pages/NotificationsPage.js:142 | Loads at `offset + limit` following AfterLoad, and loading ends |
| NotificationsPage.Feed.SetUnreadOnly | task_management_frontend/src/pages/NotificationsPage.js:70-73 | New flag and offset 0; the effect reloads from 0 with the flag only when it changed, and loading then ends; an unchanged flag leaves page, error and loading alone |
| NotificationsPage.Feed.SetPageSize | task_management_frontend/src/pages/NotificationsPage.js:86-89 | New limit and offset 0; the effect reloads from 0 only when the limit changed, and loading then ends; an unchanged limit leaves page, error and loading alone |
| NotificationsPage.FlagAlwaysInUrl | task_management_frontend/src/pages/NotificationsPage.js:25-30 | The checkbox always reaches the URL as unread_only=true or unread_only=false |
| AnalyticsPage.MaxProject | task_management_frontend/src/pages/AnalyticsPage.js:80-87 | 0 without project data; otherwise the largest of the four counts: at least each count, and equal to one of them |
| AnalyticsPage.BarPercent | task_management_frontend/src/pages/AnalyticsPage.js:6 | Takes the zero branch exactly when max ≤ 0; otherwise the result is the unevaluated pair (value, max) |
| AnalyticsPage.ProjectBars | task_management_frontend/src/pages/AnalyticsPage.js:183-190 | A project draws four bars |
| AnalyticsPage.EmptyProjectBarsZero | task_management_frontend/src/pages/AnalyticsPage.js:80-87 | A project with no positive count draws four 0% bars |
| AnalyticsPage.ProjectBarsScaled | task_management_frontend/src/pages/AnalyticsPage.js:183-190 | Once a count is positive, every bar is scaled against the same positive maximum, which no count exceeds |
| AnalyticsPage.Analytics.LoadTeam | task_management_frontend/src/pages/AnalyticsPage.js:52-64 | Ignored without a team id; success shows the rollup; failure keeps the previous one, with an error |
| AnalyticsPage.Analytics.LoadProject | task_management_frontend/src/pages/AnalyticsPage.js:66-78 | Ignored without a project id; success shows the rollup; failure keeps the previous one, with an error |
| Session.Removed | task_management_frontend/src/hooks/useAuth.js:74-78 | Removing the key drops only tm_jwt; unavailable storage is left untouched |
| Session.Written | task_management_frontend/src/hooks/useAuth.js:54-58 | Writing the key sets only tm_jwt; unavailable storage is left untouched |
| Session.Storage.GetItem | task_management_frontend/src/hooks/useAuth.js:9-15 | The stored string, or null when it is missing or storage throws |
| Session.Storage.SetToken | task_management_frontend/src/hooks/useAuth.js:54-58 | The storage becomes `Written` of the old storage |
| Session.Storage.RemoveToken | task_management_frontend/src/hooks/useAuth.js:74-78 | The storage becomes `Removed` of the old storage |
| Session.InitialState | task_management_frontend/src/hooks/useAuth.js:9-19 | The token starts as the stored one, or null; loading is true exactly when the session is authenticated; no user and no error |
| Session.RefreshOf | task_management_frontend/src/hooks/useAuth.js:21-41 | No token: nothing changes. Success stores the profile. Failure clears the token and user, removes the key and records the error |
| Session.LoginOf | task_management_frontend/src/hooks/useAuth.js:47-68 | Sign-in failure records the error and changes nothing else; a null response is a TypeError; otherwise the token is set and stored, then the profile or its error is recorded |
| Session.LoginResultOf | task_management_frontend/src/hooks/useAuth.js:61-64 | `{ok: true}` exactly when the sign-in response is usable and the profile fetch succeeded |
| Session.LogoutOf | task_management_frontend/src/hooks/useAuth.js:70-79 | Token, user and error are cleared and the key is removed; loading is untouched |
| Session.AuthSession.constructor | task_management_frontend/src/hooks/useAuth.js:9-19 | Mounting reads the stored token and starts in `InitialState` |
| Session.AuthSession.RefreshMe | task_management_frontend/src/hooks/useAuth.js:21-41 | The new state is `RefreshOf` the old one; getMe is sent only when there is a token |
| Session.AuthSession.Login | task_management_frontend/src/hooks/useAuth.js:47-68 | The new state is `LoginOf` the old one; the result is `LoginResultOf`; login is sent, then getMe only with a usable response |
| Session.AuthSession.Logout | task_management_frontend/src/hooks/useAuth.js:70-79 | The new state is `LogoutOf` the old one |
| Session.AuthSession.IsAuthenticatedNow | task_management_frontend/src/hooks/useAuth.js:87 | The hook's `isAuthenticated` is `IsAuthenticated` of the current state, the predicate the session lemmas are about: the token is truthy |
| Session.LogoutIdempotent | task_management_frontend/src/hooks/useAuth.js:70-79 | Logging out twice is the same as logging out once |
| Session.AuthenticatedIgnoresProfile | task_management_frontend/src/hooks/useAuth.js:87 | Being signed in depends on the token alone |
| Session.LoginKeepsTokenOnProfileFailure | task_management_frontend/src/hooks/useAuth.js:52-64 | A failed profile fetch after sign-in leaves the new token in place, while login reports failure |
| Session.ProfileFailureThenRefreshSignsOut | task_management_frontend/src/hooks/useAuth.js:43-45 | The refresh that follows the token change signs out when the profile fails again, and the key is removed |
| Session.ProfileBackedPreserved | task_management_frontend/src/hooks/useAuth.js:21-79 | A profile is held only while a token is: refresh, logout, failed sign-in and sign-in that yields a token all keep this |
| Session.InitialIsProfileBacked | task_management_frontend/src/hooks/useAuth.js:9-17 | The initial state holds no profile without a token |
| Session.TokenSurvivesReload | task_management_frontend/src/hooks/useAuth.js:9-15 | After a sign-in with a string token, a reload reads the same token back; after logout, it finds none |
| ProtectedRoute.Guard | task_management_frontend/src/components/ProtectedRoute.js:10-24 | Placeholder exactly while loading; otherwise a redirect to /login exactly when unauthenticated; otherwise the nested routes |
| ProtectedRoute.NoStoredTokenLandsOnLogin | task_management_frontend/src/components/ProtectedRoute.js:20-22 | With no stored token, the app goes straight to the sign-in screen |
| ProtectedRoute.StoredTokenWaitsForProfile | task_management_frontend/src/components/ProtectedRoute.js:10-18 | A stored token shows the placeholder first |
| ProtectedRoute.StartupRefreshDecides | task_management_frontend/src/components/ProtectedRoute.js:10-24 | After the startup refresh, a valid token shows the routes and a rejected one redirects to /login |

The functions below build values or requests and carry no contract of their
own. Each is stated by the rows named after it:

- `TasksApi.ListTasks` (tasks.js:4-16): ListTasksCall, ListTasksUrl, NoFiltersOnlyWindow, NullFilterOmitted; `TasksApi.CreateTask` (tasks.js:19-27): CreateTaskCall; `TasksApi.GetTask` (tasks.js:30-37): GetTaskCall; `TasksApi.UpdateTask` (tasks.js:40-48): UpdateTaskCall; `TasksApi.ListComments` (tasks.js:51-58): ListCommentsCall; `TasksApi.AddComment` (tasks.js:61-69): AddCommentCall.
- `TeamsApi.ListTeams` (teams.js:4-12): ListTeamsCall, ListTeamsParams; `TeamsApi.CreateTeam` (teams.js:15-23): CreateTeamCall; `TeamsApi.GetTeam` (teams.js:26-33): GetTeamCall; `TeamsApi.AddTeamMember` (teams.js:36-44): AddTeamMemberRole.
- `AuthApi.Register` and `AuthApi.RolesField` (auth.js:4-11): RegisterRoles, SignInRequestsCarryNoToken; `AuthApi.Login` (auth.js:14-21): LoginCall, SignInRequestsCarryNoToken; `AuthApi.GetMe` (auth.js:24-31): GetMeCall.
- `NotificationsApi.ListNotifications` (notifications.js:4-16): QueryShape, FlagSurvives, UnreadOnlyAlwaysSent, WindowForwarded, ListNotificationsCall.
- `AnalyticsApi.GetTeamAnalytics` (analytics.js:4-11): TeamAnalyticsCall; `AnalyticsApi.GetProjectAnalytics` (analytics.js:14-21): ProjectAnalyticsCall.
- `Client.UrlOf` (client.js:14-26): BuildUrl, UrlLocationJoin, QueryParamsLookup; `Client.Headers` (client.js:43-47): HeaderSet, BuildHeaders; `Client.ErrorMessage` and `Client.StatusMessage` (client.js:55-59): ErrorMessageChoice, EmptyBodyMessage, RawTextBecomesMessage, InvalidCredentialsMessage; `Client.Dispatch` (client.js:39-53): ApiRequest and every `…Call` row.
- `Pagination.CanPrev`, `Pagination.CanNext` and `Pagination.LabelText` (Pagination.js:6-27): SummaryOf, Render, NextIffLabelShort, PrevIffLabelNotFirst; `Pagination.NextOffset` (TasksPage.js:317): NextContinuesRange, PrevUndoesNext.
- `ProtectedRoute.GuardSession` (ProtectedRoute.js:10-24): Guard, NoStoredTokenLandsOnLogin, StoredTokenWaitsForProfile, StartupRefreshDecides; `Session.IsAuthenticated` (useAuth.js:87): AuthSession.IsAuthenticatedNow, AuthenticatedIgnoresProfile.
- `TasksPage.FiltersOf` (TasksPage.js:37-45): FiltersEntries, FilterInUrl.
- `BoardsPage.Bucket` (BoardsPage.js:31-35): GroupByStatus, BucketMembership, EachTaskInOneBucket, BucketAppend, StatusKeysHaveTasks; `BoardsPage.DropIgnored` (BoardsPage.js:93-102): Board.BeginDrag, Board.OnDragEnd; `BoardsPage.LoadRequest` (BoardsPage.js:47-52): LoadRequestUrl; `BoardsPage.CreatePayload` (BoardsPage.js:75-81): CreatePayloadFields; `BoardsPage.MoveRequest` (BoardsPage.js:110-115): Board.BeginDrag, Board.OnDragEnd.

## Left out

- Networking, timing and concurrency:
  - `fetch`, `res.text()` and the network are not modelled. A call is a request value plus the `Response` or `Outcome` the caller supplies.
  - Each handler runs as one atomic step; interleaved responses and stale overwrites are not modelled. `BoardsPage.Board.BeginDrag` and `SettleDrag` expose the one await point of a drag.
  - React effect scheduling is reduced to the handler that triggers each effect.
- URL and JSON encoding:
  - URL percent-encoding and `new URL` validation are not modelled. A URL is its location string plus the ordered search parameters.
  - `JSON.parse` and `JSON.stringify` are parameters.
  - Numbers are integers only.
- Filters: a `filters` value that is not an object (spread of a string or array) is not modelled.
- BoardsPage.Board.OnCreateTask: an empty 2xx body from `createTask` (null) is not modelled; the source would put `null` first in the board's list (BoardsPage.js:83) and the next render would then fail reading `t.status` (BoardsPage.js:32). The model's list holds only tasks, so the created result is always a task.
- List bodies: a list response is a `{items, meta}` page. A 2xx list body that is null or lacks `items` (`page.items || []`) is not modelled.
- TasksApi.ListQuery and Client.QueryParams: keep the entries in insertion order. JavaScript's object spread and `Object.entries` list integer-like keys first, so the URL's parameter order can differ; no contract depends on that order.
- AnalyticsPage.BarPercent: does not evaluate `Math.round((value / max) * 100)`. It uses floating point, which the model leaves out; a positive maximum gives the unevaluated pair `Rounded(value, max)`.
- BoardsPage.GroupByStatus: a status equal to an inherited property name of a plain object, such as "toString", is not modelled (the source's `!map[key]` test would see a prototype member).
- The page-size selects offer only 10, 20 and 50; the model accepts any natural number.
- TasksPage.Tasks.EditDescription: requires a selected task, because the textarea is only rendered while one is selected.
- `useAuth` and errors: the session records an error message, not the `Error` object with its `status` and `data`.
- Reading `access_token` of a null sign-in response is the TypeError `UnreadableLoginData`. An absent `access_token` is stored as the string "undefined", as `setItem` does.
- Not part of this model:
  - the route table and layout (`App.js`, `AppLayout`, `DashboardHomePage`);
  - the login and register pages;
  - `AuthContext`;
  - JSX rendering and styles;
  - the drag-and-drop library.
