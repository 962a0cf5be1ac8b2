# Verified model of the project-management web client

This project models, in Dafny, the logic under the user interface of a Next.js
client for a project and task manager. It covers three parts and proves
properties of each.

- **Session and credential synchronisation.**
  - The `auth-token` cookie: how it is written and how it is read back. The browser's cookie jar is an ordered list of `name=value` pairs (`CookieJar`).
  - The route gate of the edge middleware.
  - The persisted auth store, whose actions mirror the token into the cookie.
  - The hydration and redirect guard of the home shell.
  - The request interceptor that adds a bearer header, and the response interceptor's error mapping.
  - The register-then-login fallback and the auth error messages.
- **Filtered, paginated, incrementally loaded lists of projects and tasks.**
  - Filter normalisation and query keys.
  - Query-parameter building and the next-page rule.
  - Page flattening, the load-more trigger and the view precedence.
  - The debounced search box, as a timer over discrete ticks.
  - The infinite-query engine, as a class with stated assumptions.
  - The task screen's delete, submit and auto-select handlers.
- **Form validators.** The login, register and task-create schemas, with the library's rules for required fields, non-fatal checks and refinements.

Code that changes state in place is written as classes whose methods say
exactly what the new state is:
- `AuthToken.Document`
- `SessionStore.AuthStore`
- `HomeShell.Shell`
- `ApiClient.RequestConfig`
- `InfiniteList.InfiniteQuery`
- `Debounce.Debouncer`
- `ProjectsOverview.ProjectsScreen`
- `TasksOverview.TasksScreen`

Everything else is functions and lemmas. An async handler is split at its
`await` into a `Start…` and a `Finish…` method. The awaited outcome is a
parameter of `Finish…`.

Values outside the model are parameters:
- the email check, date parsing and `toISOString`;
- `window.confirm`'s answer;
- whether the code runs in a browser, and whether the page is served over https;
- the server's responses.

## Model

| member | source | states |
|---|---|---|
| Text.Trim | src/shared/utils/auth-token.ts:31 | `trim` leaves no whitespace at either end, returns an already trimmed string unchanged, yields "" exactly for blank strings and introduces no characters |
| Text.JoinSplit | src/shared/utils/auth-token.ts:31 | splitting on `;` loses nothing: joining the pieces gives back the cookie string |
| Text.SplitJoin | src/shared/utils/auth-token.ts:31 | splitting a `;`-join of `;`-free pieces gives back exactly those pieces |
| CookieJar.Header | src/shared/utils/auth-token.ts:31 | the `document.cookie` string is the `; `-separated `name=value` entries of the jar, in jar order |
| CookieJar.ParseWrite | src/shared/utils/auth-token.ts:15 | a cookie assignment is read as a name and value (trimmed, split at the first `=`) and an expiry flag; whatever it stores is a valid cookie |
| CookieJar.LookupStore | src/shared/utils/auth-token.ts:15 | after storing a value under a name, reading that name yields the value and every other name reads as before |
| CookieJar.LookupRemove | src/shared/utils/auth-token.ts:23 | after an expiring assignment the name is gone and every other name reads as before |
| CookieJar.WriteWellFormed | src/shared/utils/auth-token.ts:15 | any cookie assignment keeps the jar well formed (valid cookies, names distinct) |
| AuthToken.SetCookieText | src/shared/utils/auth-token.ts:1-15 | the login cookie is exactly `auth-token=<t>; Path=/; Max-Age=604800; SameSite=Lax`, with `; Secure` appended exactly on https |
| AuthToken.ClearCookieText | src/shared/utils/auth-token.ts:18-23 | the logout cookie is exactly `auth-token=; Path=/; Max-Age=0; SameSite=Lax` |
| AuthToken.SetCookieFields | src/shared/utils/auth-token.ts:13-15 | the browser reads the login cookie as `auth-token` set to the trimmed token, not expiring |
| AuthToken.ClearCookieFields | src/shared/utils/auth-token.ts:23 | the browser reads the logout cookie as an expiring write of `auth-token` |
| AuthToken.EntryMatches | src/shared/utils/auth-token.ts:34-35 | an entry starts with `auth-token=` exactly when its name is `auth-token`, so look-alike names never match; the text after the prefix is the value |
| AuthToken.LookalikeNames | src/shared/utils/auth-token.ts:33-37 | `xauth-token=` and `auth-tokens=` entries are passed over; the first `auth-token=` entry decides even when empty |
| AuthToken.FindEntries | src/shared/utils/auth-token.ts:33-39 | scanning the trimmed entries finds the first `auth-token=` entry and returns its value, or nothing when it is empty or absent |
| AuthToken.ReadHeader | src/shared/utils/auth-token.ts:31-39 | split, trim and scan of the cookie string return exactly the non-empty `auth-token` value the jar holds |
| AuthToken.ScanEntries | src/shared/utils/auth-token.ts:33-39 | the loop with early return computes the first-match result over the entries |
| AuthToken.SetThenRead | src/shared/utils/auth-token.ts:15 | after writing the login cookie the reader returns the trimmed token (nothing for a blank one) and every other cookie is untouched |
| AuthToken.SetThenReadExact | src/shared/utils/auth-token.ts:15 | for a non-empty, trimmed token without `;` the round trip returns the token itself |
| AuthToken.ClearThenRead | src/shared/utils/auth-token.ts:23 | after the logout cookie the reader returns nothing and other cookies are untouched |
| AuthToken.ClearTwice | src/shared/utils/auth-token.ts:23 | clearing twice leaves the same jar as clearing once |
| AuthToken.Document.SetAuthTokenCookie | src/shared/utils/auth-token.ts:8-16 | an empty token or a non-browser context leaves the jar alone; otherwise the jar becomes the result of the login cookie write |
| AuthToken.Document.ClearAuthTokenCookie | src/shared/utils/auth-token.ts:18-24 | outside a browser nothing changes; otherwise the logout cookie is written and the reader then returns nothing |
| AuthToken.Document.GetAuthTokenFromCookie | src/shared/utils/auth-token.ts:26-40 | nothing outside a browser; otherwise the non-empty `auth-token` value of the jar |
| Middleware.RequestToken | app/middleware.ts:11-13 | the token is the `auth-token` cookie when present, even if empty, and the `accessToken` cookie only when `auth-token` is absent |
| Middleware.IsProtectedRoute | app/middleware.ts:5-19 | `/` or any path starting with the text `/dashboard` or `/app` |
| Middleware.Gate | app/middleware.ts:15-29 | redirect to `/` exactly for an auth route with a truthy token, to `/login` exactly for a protected route without one, otherwise pass |
| Middleware.AuthNotProtected | app/middleware.ts:4-19 | no path is both an auth route and a protected route, so the rule order never matters |
| Middleware.EmptyAuthTokenShadows | app/middleware.ts:11-27 | an empty `auth-token` hides any `accessToken` and `/` redirects to `/login` |
| Middleware.AccessTokenFallback | app/middleware.ts:11-29 | with only an `accessToken` cookie, `/` passes and `/login` redirects to `/` |
| Middleware.NoRedirectLoop | app/middleware.ts:21-29 | under the same cookies the target of a redirect is always let through |
| Middleware.Handle | app/middleware.ts:32-34 | paths outside the matcher pass untouched; matched paths get the gate decision |
| Middleware.MatchedProtection | app/middleware.ts:16-34 | on matched paths the prefix test agrees with a path-segment test |
| Middleware.PrefixOnlyPaths | app/middleware.ts:16-34 | `/application` and `/dashboardx` count as protected but never reach the gate |
| SessionStore.AuthStore.constructor | src/features/auth/store/auth-store.ts:23-26 | the store starts with no token and no user |
| SessionStore.AuthStore.SetAuth | src/features/auth/store/auth-store.ts:34-46 | stores exactly the given token and user; a truthy token writes the login cookie, an empty one writes the logout cookie; the cookie reader then mirrors the trimmed token |
| SessionStore.AuthStore.ClearAuth | src/features/auth/store/auth-store.ts:47-51 | both fields become empty, the logout cookie is written, the reader returns nothing, and clearing again leaves the jar as it is |
| HomeShell.View | src/features/home/components/home-shell.tsx:46-60 | the page renders exactly when hydrated and either the store token or the cookie token is truthy; otherwise nothing |
| HomeShell.RedirectIffBlank | src/features/home/components/home-shell.tsx:32-54 | no redirect before hydration; after it, the effect redirects exactly when the render shows nothing |
| HomeShell.Profile | src/features/home/components/home-shell.tsx:56 | the fetched profile user takes precedence over the store user |
| HomeShell.DisplayName | src/features/home/components/home-shell.tsx:57 | the profile name, else "Welcome back!" |
| HomeShell.DisplayEmail | src/features/home/components/home-shell.tsx:58 | the profile email, else "" |
| HomeShell.AvatarInitial | src/features/home/components/home-shell.tsx:79 | the first character of the name, "" for an empty name, "U" without a profile |
| HomeShell.HeaderLines | src/features/home/components/home-shell.tsx:83-86 | "Loading..." and "" while the profile loads, else the display name and email |
| HomeShell.Shell.constructor | src/features/home/components/home-shell.tsx:17-20 | hydration starts as the store reports it (false when unknown) and the projects tab is active |
| HomeShell.Shell.FinishHydration | src/features/home/components/home-shell.tsx:24-30 | the finish signal sets the hydrated flag, and nothing clears it |
| HomeShell.Shell.SelectTab | src/features/home/components/home-shell.tsx:64 | selecting a tab makes it active |
| HomeShell.Shell.RunRedirectEffect | src/features/home/components/home-shell.tsx:32-44 | the effect appends one `/login` replacement exactly when the redirect rule holds |
| HomeShell.Shell.Render | src/features/home/components/home-shell.tsx:46-60 | the rendered screen is the view of the current hydration flag, store token and cookie token |
| HomeShell.GatesDisagree | src/features/home/components/home-shell.tsx:37-42 | with only an `accessToken` cookie and an empty store the middleware lets `/` through while the shell redirects to `/login` |
| ApiClient.Authorized | src/shared/services/api-client.ts:19-28 | without a truthy token the headers are untouched; with one, an existing Authorization header is kept, otherwise `Bearer <token>` is added, and every other header survives |
| ApiClient.AuthorizedTwice | src/shared/services/api-client.ts:21-28 | applying the header rule twice gives the same headers as once |
| ApiClient.InterceptRequest | src/shared/services/api-client.ts:14-32 | outside a browser the config is returned unchanged; inside, its headers follow the rule for the cookie token, and the same config is returned |
| ApiClient.RejectError | src/shared/services/api-client.ts:34-47 | an error with a response is rejected as its status, data and headers; any other error is rejected unchanged |
| AuthService.HandleAuthError | src/features/auth/services/auth-service.ts:43-52 | the server message of an Axios error when present (even empty), else "Unable to complete request. Please try again." |
| AuthService.FallbackUnlessServerSays | src/features/auth/services/auth-service.ts:44-51 | the message differs from the fallback only when an Axios error carried one |
| AuthService.Settle | src/features/auth/services/auth-service.ts:13-24 | a call that responds returns the body unchanged; one that throws fails with the handled message |
| AuthService.RegisterRequest | src/features/auth/services/auth-service.ts:26-35 | register posts name, email and password to `/api/auth/register` |
| AuthService.RegisterDropsConfirmation | src/features/auth/services/auth-service.ts:30-35 | the request does not depend on `confirmPassword` |
| AuthService.RejectionAsWritten | src/features/auth/services/auth-service.ts:43-51 | a flattened rejection is not recognised as an Axios error; an error without a response carries no message |
| AuthService.InvalidCredentials | src/features/auth/services/auth-service.ts:44-48 | a 401 with message "Invalid credentials" is reported as the fallback as written, and verbatim as intended |
| AuthService.ServerMessageShown | src/features/auth/services/auth-service.ts:44-48 | with the intended classification a server message is shown verbatim and only its absence falls back |
| RegisterMutation.MutationFn | src/features/auth/queries/use-register-mutation.ts:19-44 | register is always called first; a truthy register token skips login and is returned with register's user and refresh token; otherwise login is called with the submitted email and password and its token, refresh token and user are used; register's message is kept; any failure is the handled message |
| RegisterMutation.OnSuccess | src/features/auth/queries/use-register-mutation.ts:45-50 | the store receives the result's token and user; in a browser the jar gains the `auth-token` set string (the clear string for an empty token), and reading the cookie back gives the trimmed token |
| RegisterMutation.Mutate | src/features/auth/queries/use-register-mutation.ts:15-51 | on failure the store and the cookie jar are untouched; on success the store holds the result's token and user, the jar is written as `setAuth` writes it, and the cookie reads back the trimmed token |
| ProjectTypes.StatusNameRoundTrip | src/features/projects/types/project-types.ts:1 | every project status has a wire name that reads back as itself |
| TaskTypes.StatusNameRoundTrip | src/features/tasks/types/task-types.ts:1-7 | every task status has a wire name that reads back as itself |
| TaskTypes.PriorityNameRoundTrip | src/features/tasks/types/task-types.ts:9 | every priority has a wire name that reads back as itself |
| Paging.Chosen | src/features/projects/services/project-service.ts:16 | a status filter is sent only when present and not "all" |
| Paging.NormalizedName | src/features/projects/queries/use-projects-query.ts:21 | the name is trimmed; absent, empty or blank becomes absent, and a present one is non-empty and trimmed |
| Paging.NormalizedNameStable | src/features/projects/queries/use-projects-query.ts:21 | normalising twice, or normalising an already trimmed name, changes nothing |
| Paging.NextPageParam | src/features/projects/queries/use-projects-query.ts:36-42 | no next page exactly when the current page is the last or beyond; otherwise the next page, never past the total |
| Paging.FlattenAppend | src/features/projects/components/projects-overview.tsx:121-124 | loading one more page appends exactly its items |
| Paging.FlattenContents | src/features/projects/components/projects-overview.tsx:121-124 | the items are those of the pages, no more and no fewer |
| Paging.Items | src/features/tasks/components/tasks-overview.tsx:217-220 | no data gives no items; otherwise the page-ordered concatenation |
| Paging.View | src/features/projects/components/projects-overview.tsx:187-231 | skeleton exactly while initially loading, then the error card, then the empty state, then the list (with a loading-more skeleton while the next page loads) |
| Paging.SentinelOnlyInList | src/features/projects/components/projects-overview.tsx:134-153 | a next page is requested only from the list view, when the sentinel intersects, a next page exists and none is in flight |
| ProjectService.FetchProjectsRequest | src/features/projects/services/project-service.ts:8-23 | GET `/api/projects`; page defaults to 1 and perPage to 10 and both are always sent; name is sent exactly when truthy; status exactly when present and not "all"; nothing else |
| ProjectService.QueryRoundTrip | src/features/projects/services/project-service.ts:11-19 | the query parameters determine the effective arguments, so no argument is lost |
| ProjectService.SameRequest | src/features/projects/services/project-service.ts:11-19 | two calls send the same request exactly when their effective arguments agree |
| ProjectService.DefaultRequest | src/tests/unit/features/projects/services/project-service.test.ts:29-40 | no arguments send only page 1 and perPage 10 |
| ProjectService.PassThroughRequest | src/tests/unit/features/projects/services/project-service.test.ts:42-60 | given values are passed through verbatim |
| ProjectService.AllStatusOmitted | src/tests/unit/features/projects/services/project-service.test.ts:62-75 | status "all" is never sent |
| TaskService.FetchTasksRequest | src/features/tasks/services/task-service.ts:9-34 | GET `/api/projects/tasks/user`; page and perPage default to 1 and 10 and are always sent; name exactly when truthy; status and priority each exactly when present and not "all" |
| TaskService.QueryRoundTrip | src/features/tasks/services/task-service.ts:12-29 | the query parameters determine the effective arguments |
| TaskService.SameRequest | src/features/tasks/services/task-service.ts:12-29 | two calls send the same request exactly when their effective arguments agree |
| TaskService.DefaultRequest | src/tests/unit/features/tasks/services/task-service.test.ts:29-43 | no arguments send only page 1 and perPage 10 |
| TaskService.PassThroughRequest | src/tests/unit/features/tasks/services/task-service.test.ts:45-68 | given values are passed through verbatim |
| TaskService.AllFiltersOmitted | src/tests/unit/features/tasks/services/task-service.test.ts:70-87 | status "all" and priority "all" are never sent |
| TaskService.CreateTaskRequest | src/features/tasks/services/task-service.ts:36-46 | posts the payload unchanged to a URL from which the project id reads back |
| TaskService.CreateUrlRoundTrip | src/features/tasks/services/task-service.ts:41 | the project id is recovered from the create URL |
| TaskService.CreateTaskUrlInjective | src/features/tasks/services/task-service.ts:41 | distinct projects get distinct create URLs |
| TaskService.DeleteTaskUrl | src/features/tasks/services/task-service.ts:49-50 | `/api/projects/tasks/` followed by exactly the task id |
| TaskService.DeleteTaskUrlInjective | src/features/tasks/services/task-service.ts:50 | distinct tasks get distinct delete URLs |
| ProjectsQuery.NormalizeFilters | src/features/projects/queries/use-projects-query.ts:19-26 | name normalised, status "active" only when not given (an explicit "all" is kept), perPage 10 when not given |
| ProjectsQuery.NormalizeIdempotent | src/features/projects/queries/use-projects-query.ts:19-26 | normalised filters normalise to themselves |
| ProjectsQuery.SameKeyAfterTrim | src/features/projects/queries/use-projects-query.ts:21-29 | a name and its trimmed form share a key, and a blank name shares the key of no name |
| ProjectsQuery.PageQuery | src/features/projects/queries/use-projects-query.ts:31-35 | each page request sends the filters plus that page number |
| ProjectsQuery.KeysFetchDistinctPages | src/features/projects/queries/use-projects-query.ts:29-35 | two (key, page) pairs send the same request exactly when they are equal |
| ProjectsQuery.DefaultFirstPage | src/features/projects/queries/use-projects-query.ts:22-30 | the first request of a default list asks for active projects, page 1, 10 per page |
| TasksQuery.NormalizeFilters | src/features/tasks/queries/use-tasks-query.ts:21-28 | name normalised, status "todo" only when not given, priority "all" and perPage 10 when not given |
| TasksQuery.NormalizeIdempotent | src/features/tasks/queries/use-tasks-query.ts:21-28 | normalised filters normalise to themselves |
| TasksQuery.SameKeyAfterTrim | src/features/tasks/queries/use-tasks-query.ts:23-32 | a name and its trimmed form share a key, and a blank name shares the key of no name |
| TasksQuery.PageQuery | src/features/tasks/queries/use-tasks-query.ts:34-38 | each page request sends the filters plus that page number |
| TasksQuery.KeysFetchDistinctPages | src/features/tasks/queries/use-tasks-query.ts:32-38 | two (key, page) pairs send the same request exactly when they are equal |
| TasksQuery.DefaultFirstPage | src/features/tasks/queries/use-tasks-query.ts:24-33 | the first request of a default list asks for todo tasks, page 1, 10 per page |
| QueryKeys.Invalidated | src/features/tasks/mutations/use-create-task-mutation.ts:35-37 | invalidating a root marks exactly the keys under that root |
| QueryKeys.TasksInvalidation | src/features/tasks/mutations/use-delete-task-mutation.ts:12-13 | invalidating "tasks" reaches every task list whatever its filters, and nothing else |
| InfiniteList.Pending | src/features/projects/queries/use-projects-query.ts:30-42 | the page to fetch next is 1 with no pages, otherwise the next-page rule on the last page |
| InfiniteList.ChainedAppend | src/features/projects/queries/use-projects-query.ts:30-42 | accepting the pending page keeps each page request chained to its predecessor |
| InfiniteList.ConsecutivePages | src/features/projects/queries/use-projects-query.ts:30-42 | when the server echoes the page asked for, the pages loaded are 1, 2, 3, ... and never more than the total |
| InfiniteList.InfiniteQuery.OnIntersect | src/features/projects/components/projects-overview.tsx:134-140 | a page is requested exactly when the sentinel intersects, a next page exists and none is in flight |
| InfiniteList.InfiniteQuery.Receive | src/features/projects/queries/use-projects-query.ts:31-42 | the answer for the page in flight under the current key appends its items; any other answer changes nothing |
| InfiniteList.InfiniteQuery.Fail | src/features/projects/components/projects-overview.tsx:193-207 | a failed fetch for the page in flight ends the fetch in the error state |
| InfiniteList.InfiniteQuery.Restart | src/features/projects/queries/use-projects-query.ts:29-30 | a new key starts over from page 1 with no items |
| Debounce.AfterInput | src/features/projects/components/projects-overview.tsx:29-38 | a new value restarts the 400-tick timer and keeps showing the old debounced value; the same value changes nothing |
| Debounce.AfterTick | src/features/projects/components/projects-overview.tsx:32-35 | the timer counts down and on expiry the debounced value becomes the current one |
| Debounce.Countdown | src/features/projects/components/projects-overview.tsx:32-35 | k ticks into a timer leave the debounced value unchanged until the timer expires, and then it is the current value |
| Debounce.Settles | src/features/projects/components/projects-overview.tsx:29-38 | after a change the old debounced value stays for 399 ticks and the new one appears at tick 400 |
| Debounce.CancelledNeverShown | src/features/tasks/components/tasks-overview.tsx:71-80 | a value replaced before its timer expires is never shown |
| Debounce.Debouncer.Input | src/features/tasks/components/tasks-overview.tsx:74-77 | typing updates the hook state as the input rule says |
| Debounce.Debouncer.Tick | src/features/tasks/components/tasks-overview.tsx:74-77 | a tick updates the hook state as the tick rule says |
| ProjectsOverview.TeamBadges | src/features/projects/components/projects-overview.tsx:88-95 | the first five member names in order, plus "+N more" with N the remainder exactly when there are more than five |
| ProjectsOverview.BadgesAccountForTeam | src/features/projects/components/projects-overview.tsx:88-95 | shown names plus the "more" count are the team size |
| ProjectsOverview.InitialKey | src/features/projects/components/projects-overview.tsx:103-119 | the screen starts on active projects with no name filter |
| InfiniteList.ScreenView | src/features/projects/components/projects-overview.tsx:155-232 | the skeleton exactly while loading or fetching with no items; otherwise the error card on error, the empty card with no items, and the list with its loading-more skeleton while the next page is fetched |
| ProjectsOverview.ProjectsScreen.Render | src/features/projects/components/projects-overview.tsx:155-232 | the screen renders `ScreenView` of its query |
| ProjectsOverview.FirstLoadShowsSkeleton | src/features/projects/components/projects-overview.tsx:155-192 | while the first page loads the skeleton is shown |
| ProjectsOverview.ProjectsScreen.constructor | src/features/projects/components/projects-overview.tsx:103-119 | status "active", empty search, query keyed on the initial filters with no pages |
| ProjectsOverview.ProjectsScreen.Sync | src/features/projects/components/projects-overview.tsx:116-119 | an unchanged key leaves the pages, the fetch in flight and the error flag alone; a changed key restarts from page 1 with no error |
| ProjectsOverview.ProjectsScreen.TypeSearch | src/features/projects/components/projects-overview.tsx:104-105 | typing feeds the debouncer, and the query key still follows the debounced text |
| ProjectsOverview.ProjectsScreen.Tick | src/features/projects/components/projects-overview.tsx:105-119 | a tick advances the debouncer; when the key it derives is unchanged the pages, the fetch in flight and the error flag stay, otherwise the query restarts from page 1 |
| ProjectsOverview.ProjectsScreen.SetStatus | src/features/projects/components/projects-overview.tsx:103-119 | picking a status stores it; the pages stay when the key is unchanged, otherwise the query restarts from page 1 |
| ProjectsOverview.ProjectsScreen.Retry | src/features/projects/components/projects-overview.tsx:198-206 | retry refetches from page 1 with the error cleared |
| ProjectsOverview.ProjectsScreen.OnSentinel | src/features/projects/components/projects-overview.tsx:134-140 | the sentinel requests the pending page only under the load-more condition |
| TasksOverview.ErrorMessage | src/features/tasks/components/tasks-overview.tsx:269-274 | an Error contributes its message, anything else the fallback |
| TasksOverview.EmptyMessageHidden | src/features/tasks/components/tasks-overview.tsx:596-600 | an Error with an empty message shows no banner while a non-Error shows the fallback |
| TasksOverview.DueLabelOf | src/features/tasks/components/tasks-overview.tsx:149-155 | "Overdue by N days" exactly for an overdue task, with N its overdue days |
| TasksOverview.CreateEnabled | src/features/tasks/components/tasks-overview.tsx:238-253 | `isCreateDisabled`: create is enabled exactly when nothing is pending, the options have loaded and there is one; then auto-select names a project whenever the first option has an id |
| TasksOverview.DeletingCard | src/features/tasks/components/tasks-overview.tsx:641-643 | `isDeleting`: a card is busy only when it is the marked task and the delete is pending, and the marked task is busy while pending |
| TasksOverview.OneCardDeleting | src/features/tasks/components/tasks-overview.tsx:641-643 | at most one card shows as deleting |
| TasksOverview.AutoSelect | src/features/tasks/components/tasks-overview.tsx:238-248 | with options and no project chosen, the first option is chosen; otherwise the choice stays |
| TasksOverview.AutoSelectSettles | src/features/tasks/components/tasks-overview.tsx:238-248 | running the effect again changes nothing, and a non-empty first option leaves a project chosen |
| TasksOverview.InitialKey | src/features/tasks/components/tasks-overview.tsx:182-204 | the screen starts with status and priority "all" and no name, so neither filter is sent |
| TasksOverview.TasksScreen.constructor | src/features/tasks/components/tasks-overview.tsx:182-236 | status and priority "all", empty search, dialog closed, no errors, no deletion, default form, no pages |
| TasksOverview.TasksScreen.Sync | src/features/tasks/components/tasks-overview.tsx:200-204 | an unchanged key leaves the pages, the fetch in flight and the error flag alone; a changed key restarts from page 1 with no error |
| TasksOverview.TasksScreen.TypeSearch | src/features/tasks/components/tasks-overview.tsx:184-185 | typing feeds the debouncer |
| TasksOverview.TasksScreen.Tick | src/features/tasks/components/tasks-overview.tsx:185-204 | a tick advances the debouncer; when the key it derives is unchanged the pages, the fetch in flight and the error flag stay, otherwise the query restarts from page 1 |
| TasksOverview.TasksScreen.SetStatus | src/features/tasks/components/tasks-overview.tsx:181-204 | picking a status stores it; the pages stay when the key is unchanged, otherwise the query restarts from page 1 |
| TasksOverview.TasksScreen.SetPriority | src/features/tasks/components/tasks-overview.tsx:181-204 | picking a priority stores it; the pages stay when the key is unchanged, otherwise the query restarts from page 1 |
| TasksOverview.TasksScreen.Refetch | src/features/tasks/components/tasks-overview.tsx:615-617 | retry refetches from page 1 with the error cleared |
| TasksOverview.TasksScreen.OnSentinel | src/features/tasks/components/tasks-overview.tsx:311-316 | the sentinel requests the pending page only under the load-more condition |
| TasksOverview.TasksScreen.AutoSelectProject | src/features/tasks/components/tasks-overview.tsx:238-248 | the form's project becomes the auto-selected one and nothing else in the form changes |
| TasksOverview.TasksScreen.StartDelete | src/features/tasks/components/tasks-overview.tsx:255-265 | a declined confirmation changes nothing and sends nothing; a confirmed one clears the delete error and marks the task as being deleted |
| TasksOverview.TasksScreen.FinishDelete | src/features/tasks/components/tasks-overview.tsx:267-277 | the mark is cleared either way; a failure sets the error message and leaves the query exactly as it was; success refetches the list from page 1 with no error |
| TasksOverview.TasksScreen.StartSubmit | src/features/tasks/components/tasks-overview.tsx:281 | submitting clears the form error |
| TasksOverview.TasksScreen.FinishSubmit | src/features/tasks/components/tasks-overview.tsx:282-300 | success resets the form to its defaults, closes the dialog and refetches from page 1 with no error; failure keeps the form and dialog, sets the error message and leaves the query exactly as it was |
| TasksOverview.TasksScreen.SetDialogOpen | src/features/tasks/components/tasks-overview.tsx:186 | the dialog flag follows the request |
| TasksOverview.TasksScreen.Render | src/features/tasks/components/tasks-overview.tsx:602-655 | the screen renders `ScreenView` of its query, the same precedence as the projects screen |
| Validation.RequiredString | src/features/tasks/schemas/task-create-schema.ts:19-20 | a missing field gives the "required" issue and aborts the refinement; a present one gives none |
| Validation.MinLength | src/features/auth/schemas/login-schema.ts:7-9 | missing gives the required issue (fatal); shorter than n gives the length issue (not fatal); otherwise none |
| Validation.EmailField | src/features/auth/schemas/login-schema.ts:4-6 | missing gives the required issue (fatal); a string failing the email check gives the invalid-email issue; otherwise none |
| LoginSchema.ParseLogin | src/features/auth/schemas/login-schema.ts:3-10 | accepted exactly for a valid email and a password of at least 6; each of the four messages appears exactly in its case; issues concern only email and password |
| LoginSchema.PasswordBoundary | src/features/auth/schemas/login-schema.ts:7-9 | a 6-character password is accepted and a 5-character one rejected |
| RegisterSchema.ParseRegister | src/features/auth/schemas/register-schema.ts:3-21 | accepted exactly when every field is present, long enough, the email valid and the passwords equal; the issues are the field issues in order, then the mismatch |
| RegisterSchema.NameIssues | src/features/auth/schemas/register-schema.ts:5-7 | "Name is required" exactly when missing; the length message exactly when shorter than 2 |
| RegisterSchema.EmailIssues | src/features/auth/schemas/register-schema.ts:8-10 | "Email is required" exactly when missing; "Please enter a valid email" exactly when the check fails |
| RegisterSchema.PasswordIssues | src/features/auth/schemas/register-schema.ts:11-13 | "Password is required" exactly when missing; the length message exactly when shorter than 8 |
| RegisterSchema.ConfirmIssues | src/features/auth/schemas/register-schema.ts:14-21 | the confirm issues exactly in their cases; "Passwords do not match" on confirmPassword exactly when all fields are present and the passwords differ |
| RegisterSchema.MissingFieldSkipsRefinement | src/features/auth/schemas/register-schema.ts:11-21 | a missing password suppresses the mismatch check |
| RegisterSchema.ShortAndMismatched | src/features/auth/schemas/register-schema.ts:11-21 | short passwords that also differ report both length issues and then the mismatch |
| TaskCreateSchema.FormStatus | src/features/tasks/schemas/task-create-schema.ts:5-25 | status defaults to "todo" and accepts only todo, in_progress and done, a narrower set than the task status type |
| TaskCreateSchema.FormPriority | src/features/tasks/schemas/task-create-schema.ts:6-30 | priority defaults to "medium" and accepts the four priorities |
| TaskCreateSchema.ParseTaskCreate | src/features/tasks/schemas/task-create-schema.ts:8-39 | accepted exactly when every field is present, lengths hold, the enums are valid and the start is not after the end; the value carries the defaults; the issues are the field issues then the order issue |
| TaskCreateSchema.OrderIssues | src/features/tasks/schemas/task-create-schema.ts:32-39 | "End date must be after start date" on endDate exactly when the refinement is reached and the dates are out of order or unparsable |
| TaskCreateSchema.EnumIssues | src/features/tasks/schemas/task-create-schema.ts:21-30 | "Invalid status" and "Invalid priority" exactly for values outside their sets, and they abort the date check |
| TaskCreateSchema.LengthIssues | src/features/tasks/schemas/task-create-schema.ts:10-18 | the project, name and description messages exactly in their cases |
| TaskCreateSchema.EqualDatesAccepted | src/features/tasks/schemas/task-create-schema.ts:32-34 | equal start and end dates are accepted |
| TaskCreateSchema.DefaultFormRejected | src/features/tasks/schemas/task-create-schema.ts:8-39 | the blank default form is rejected with the project, name, description and date issues |
| CreateTaskMutation.CreateTaskCall | src/features/tasks/mutations/use-create-task-mutation.ts:17-34 | without a user id it fails with "You must be logged in to create a task." before any request; an invalid date fails; otherwise it posts to the project's URL with the fields copied, ISO dates and the user as assignee |
| CreateTaskMutation.AcceptedFormIsSent | src/features/tasks/mutations/use-create-task-mutation.ts:14-33 | an accepted form by a logged-in user is sent to its project with that user as assignee and an allowed status |

## Left out

- TanStack Query internals are stated as assumptions of `InfiniteList.InfiniteQuery`, not as properties of this code:
  - a new key, a refetch or an invalidation starts over from page 1;
  - an answer for a key or page no longer in flight is discarded;
  - `isLoading` means fetching with no pages.
- Caching, `staleTime`, retries and request de-duplication of the query library are not modelled.
- InfiniteList.InfiniteQuery.Restart: a refetch drops the loaded pages and starts again from page 1. The library instead refetches every loaded page in turn, so the model does not capture the list staying visible during a refetch.
- zustand persistence (JSON in localStorage, hydration timing) is left out. Hydration is an input flag plus a finish signal.
- The browser's cookie handling is abstracted:
  - cookie names compare exactly, and entries keep insertion order;
  - expiry other than `Max-Age=0`, `Path`, `SameSite` and `Secure` enforcement are not modelled;
  - name and value trimming uses the JavaScript whitespace set, where browsers trim only spaces and tabs.
- The middleware reads the same abstract jar through `CookieJar.Lookup`. The URL object and `NextResponse` are reduced to a redirect target or "pass".
- `axios.isAxiosError` is reduced to the `AuthService.RawError` shape. Axios headers are a plain string map, with no case-insensitive lookup.
- Network transport, `baseURL` and the application config are not modelled.
- Dates are opaque:
  - `new Date(...).getTime()` is a partial function from strings to integers;
  - `toISOString` is a partial function from strings to strings (its absence is the "Invalid time value" failure);
  - date formatting for display is not modelled.
- Zod's email regular expression is a predicate parameter.
- Inputs that are present but not strings are not modelled.
- String lengths count characters. JavaScript counts UTF-16 code units, so the two disagree on astral characters.
- Markup, styling, skeleton counts and the login and register form components are not modelled. Their only logic, error message or fallback, is the same as `TasksOverview.ErrorMessage`.
- IntersectionObserver geometry and real time are left out. Visibility is an event, and time is a tick of one millisecond.
- `router.replace` is recorded as a list of replaced paths. `window.confirm` is an input.
- The other hooks are reduced to their observable effects:
  - the login mutation stores the response token and user, the same step as `RegisterMutation.OnSuccess`;
  - the delete mutation invalidates the "tasks" key (`QueryKeys.TasksInvalidation`);
  - the profile query is enabled when `accessToken ?? cookieToken` is truthy; an empty stored token shadows the cookie;
  - the project-options query asks for 100 projects of every status.
- Project options and their loading flag are inputs, as in `TasksOverview.IsCreateDisabled`.
- Interleavings of async continuations are left out; the model is sequential.
- AuthService.LoginRequest and AuthService.MeRequest: these only name the endpoint and carry the payload, so they have no contract of their own. `AuthService.Settle` states what the calls return.

## Findings

| source | as written | input that shows it | evidently intended | confidence | as-written member | corrected member |
|---|---|---|---|---|---|---|
| src/shared/services/api-client.ts:37-43 | The response interceptor replaces an error that has a response by a plain `{status, data, headers}` object. `handleAuthError` (src/features/auth/services/auth-service.ts:44-48) reads the server message only from an Axios error's `response.data.message`, so every failed login or registration reports "Unable to complete request. Please try again." | A 401 response whose body is `{message: "Invalid credentials"}` | The server's message is shown verbatim when it has one, and the fallback only otherwise | medium, not executed; depends on `axios.isAxiosError` rejecting plain objects | AuthService.RejectionAsWritten, AuthService.ServerMessageLost, AuthService.InvalidCredentials | AuthService.RejectionIntended, AuthService.ServerMessageShown |
