# Team management console — client core in Dafny

This project models the client side of a React admin console for users,
teams, roles and permissions. All real business logic lives behind a
remote HTTP API. What the client itself decides is modelled here, in five
parts.

- **Session** (`auth_context.dfy`). The `AuthProvider` holds an in-memory
  token and a `loading` flag, mirrored into the browser's `token` storage
  slot (`browser.dfy`). The login payload's `token` field may be absent,
  `null` or a string; storage writes the first two as the texts
  "undefined" and "null". It has a mount step, `login`, `register`, `logout`
  and `isAuthenticated`. The class's methods are proved against pure
  transition functions (`AfterMount`, `AfterLogin`, `AfterLogout`). The
  session properties are lemmas about those functions: idempotent logout,
  truthy-only adoption on mount, reload behaviour.
- **API client** (`api.dfy`).
  - `Endpoint` is the table of operations, each a (verb, path, body)
    triple. A path is built from its segments by `Path`, which puts a
    `/` before each one, as the source's literals and template strings
    do.
  - `RequestInterceptor` mutates a request configuration in place to
    attach `Authorization: Bearer <token>`.
  - `ApiClient.Send` puts the request on the wire and returns the reply
    unchanged. The client records every request it sends in `sent`, so
    page contracts can say exactly which calls a handler makes.
  - `Decode` is a reading of those paths by segment, splitting on `/` as
    a router on the server does. It is not part of this repository. It
    exists as the partner of `Endpoint`: the round trip holds whenever no
    interpolated parameter contains a `/`, and fails otherwise. It is not
    a URL parser: it does not stop the path at `?` or `#`, and it does not
    percent-decode.
  - The `*AsWritten` lemmas state each call's verb, path and exact body
    literally.
- **Form checks** (`validation.dfy`, `auth_pages.dfy`).
  - The e-mail test `\S+@\S+\.\S+` is specified the way a regular
    expression test means it: some substring matches the whole pattern.
  - It is proved equivalent to a scan for an anchoring `@` and `.`.
  - The login and signup pages run the ordered checks. The first failure
    sets its message and nothing is sent.
- **Management pages** (`role_management.dfy`, `user_management.dfy`,
  `dashboard_home.dfy`).
  - After each change a page replaces its list with the server's.
  - The role page re-selects the role in its dialog by `_id`, using
    first-match `find` (`records.dfy`).
  - Each failure has its own fallback.
  - The user table and the home page derive values from a user record.
- **Routes** (`app_routes.dfy`): which guard and page a path shows, and
  the redirects.

The network is an input. Each call's outcome is a `Reply` parameter:
`Ok(data)`, or `Fail(message)` carrying `err.response?.data?.message`
when the server sent one. `window.confirm` is a boolean parameter.
`alert` is a returned `Option<string>`.

## Model

| member | source | states |
|---|---|---|
| JsValues.ErrorText | src/pages/RoleManagement.jsx:37 | the server's message when it is a non-empty string, otherwise the fixed fallback; never empty when the fallback is not |
| JsValues.DataOr | src/pages/UserManagement.jsx:34-37 | a failed call yields the given default, a successful one its data |
| Browser.StoredText | src/context/AuthContext.jsx:21 | a string written to storage is kept as is; an absent value becomes the text "undefined" and `null` the text "null", both non-empty |
| Browser.CredentialStore.GetItem | src/context/AuthContext.jsx:12 | reading the slot returns what it holds |
| Browser.CredentialStore.SetItem | src/context/AuthContext.jsx:21 | writing sets the slot to the value |
| Browser.CredentialStore.RemoveItem | src/context/AuthContext.jsx:32 | removal empties the slot |
| Records.Find | src/pages/RoleManagement.jsx:68 | no match exactly when no element has the key; otherwise the element at the first index whose key matches |
| Records.FindRoleIsFirstRow | src/pages/RoleManagement.jsx:68-69 | the role `find` returns is in the list and carries the id, and it is the first such row; no result means no role has the id |
| Api.Endpoint | src/services/api.js:25-95 | every request config, before the interceptor, carries the JSON content type, and has a body exactly when it is a POST |
| Api.DecodeEndpoint | src/services/api.js:25-95 | each operation's request is read back as exactly that operation when its path parameters contain no '/' |
| Api.AuthRequestsAsWritten | src/services/api.js:26-35 | register posts exactly name, e-mail and password to /auth/register; login posts exactly e-mail and password to /auth/login |
| Api.UserReadsAsWritten | src/services/api.js:38-47 | the current user and the user list are bodiless GETs of /users/me and /users |
| Api.TeamRequestsAsWritten | src/services/api.js:50-59 | the team list is a bodiless GET of /teams; team creation posts exactly the name there |
| Api.RoleRequestsAsWritten | src/services/api.js:62-71 | the role list is a bodiless GET of /roles; role creation posts exactly the name there |
| Api.CatalogueReadAsWritten | src/services/api.js:74-77 | the permission catalogue is a bodiless GET of /roles/permissions |
| Api.PermissionRequestsAsWritten | src/services/api.js:80-89 | adding posts exactly the key to `/roles/<roleId>/permissions`; removal is a bodiless DELETE of `/roles/<roleId>/permissions/<permissionKey>`; identifiers spliced in verbatim |
| Api.AuditLogsAsWritten | src/services/api.js:92-95 | the audit trail is a bodiless GET of /audit-logs |
| Api.UserWritesAsWritten | src/pages/UserManagement.jsx:50-91 | user creation posts exactly the form's three fields to /users; deletion is a bodiless DELETE of `/users/<userId>` |
| Api.AssignmentsAsWritten | src/pages/UserManagement.jsx:62-81 | role assignment posts exactly the role id and start time to `/users/<userId>/role`; team assignment posts exactly the team id to `/users/<userId>/team` |
| Api.RemovePermissionPathsCollide | src/services/api.js:86-89 | without encoding, two different removals put the same request on the wire |
| Api.WithBearer | src/services/api.js:14-17 | the Authorization header is `Bearer <token>` when the stored token is truthy; otherwise the headers are unchanged; no other header changes |
| Api.Outgoing | src/services/api.js:12-19 | the request config after the interceptor has the default headers with the bearer rule applied for the slot's value |
| Api.BearerIffToken | src/services/api.js:12-19 | every request config after the interceptor carries Authorization exactly when the stored token is truthy, with that token, and keeps the content type; only the headers differ from the operation's request |
| Api.RequestInterceptor | src/services/api.js:13-19 | returns the same configuration object, whose headers are the old ones with the bearer rule applied |
| Api.OnRequestError | src/services/api.js:20-22 | the rejection carries the very error received |
| Api.ApiClient.Send | src/services/api.js:26-29 | returns the reply unchanged and appends the intercepted request to the wire log |
| AuthContext.AfterMount | src/context/AuthContext.jsx:11-17 | loading ends and storage is untouched; the stored token is adopted when truthy; the session is then authenticated exactly when the slot's token is truthy or it already was |
| AuthContext.AfterLogin | src/context/AuthContext.jsx:19-24 | the token cell takes the payload's token field as is, and the slot receives its text as storage writes it; the session is authenticated exactly when that field is a non-empty string; the slot is truthy unless the token is the empty string |
| AuthContext.AfterLogout | src/context/AuthContext.jsx:31-34 | the slot is emptied, the token reset to null, and the session is not authenticated |
| AuthContext.InitialIsLoggedOut | src/context/AuthContext.jsx:7-8 | a new provider has no token, is loading, and is not authenticated whatever is stored |
| AuthContext.MountAdoptsOnlyTruthy | src/context/AuthContext.jsx:11-17 | after mount the session is authenticated exactly when the slot holds a non-empty token, and then holds that token; loading is over |
| AuthContext.LogoutIdempotent | src/context/AuthContext.jsx:31-34 | logging out twice equals logging out once; afterwards the slot is empty and the session is not authenticated |
| AuthContext.LoginSurvivesReload | src/context/AuthContext.jsx:11-24 | after a login with a non-empty token, a freshly mounted provider over the same slot holds the same token |
| AuthContext.MissingTokenAuthenticatesAfterReload | src/context/AuthContext.jsx:19-24 | a payload whose token is absent or null leaves the session logged out, but the slot holds "undefined" or "null", so a reload comes back authenticated |
| AuthContext.EmptyTokenIsLoggedOut | src/context/AuthContext.jsx:36-38 | an empty token is stored but counts as logged out, before and after a reload |
| AuthContext.AuthProvider.constructor | src/context/AuthContext.jsx:7-8 | token null, loading true |
| AuthContext.AuthProvider.IsAuthenticated | src/context/AuthContext.jsx:36-38 | true exactly when the session's token is truthy |
| AuthContext.AuthProvider.Mount | src/context/AuthContext.jsx:11-17 | the new session is the mount transition of the old one |
| AuthContext.AuthProvider.Login | src/context/AuthContext.jsx:19-24 | sends the login request and returns the payload unchanged; on success the session becomes the login transition `AfterLogin` of the old one for the payload; on failure nothing changes |
| AuthContext.AuthProvider.Register | src/context/AuthContext.jsx:26-29 | sends the register request, returns the payload unchanged, and leaves token and slot untouched |
| AuthContext.AuthProvider.Logout | src/context/AuthContext.jsx:31-34 | the slot is removed and the token set to null |
| AuthContext.LoginThenRequestCarriesBearer | src/services/api.js:14-17 | after logging in with token t, the next request carries `Bearer t` |
| AuthContext.LogoutTwiceIsLogoutOnce | src/context/AuthContext.jsx:31-34 | one and two logouts from the same start leave the same state, with no token and an empty slot |
| AuthContext.FailedLoginKeepsSession | src/context/AuthContext.jsx:20-22 | a failed login leaves an existing session exactly as it was |
| Validation.MatchIffAnchors | src/pages/Login.jsx:24 | some substring fully matches `\S+@\S+\.\S+` exactly when some '@' and '.' anchor a match |
| Validation.EmailLooksValid | src/pages/Login.jsx:24 | the scan's answer is the regular-expression test's answer |
| Validation.LoginError | src/pages/Login.jsx:19-27 | an empty field reports "Please fill in all fields"; otherwise a failing e-mail test reports the address message; otherwise no error |
| Validation.SignupError | src/pages/Signup.jsx:23-41 | each message is reported exactly when its check is the first to fail, in the order fields, e-mail, length of at least 6, confirmation; no error exactly when all hold |
| Validation.OrdinaryAddressPasses | src/pages/Signup.jsx:28 | "user@example.com" passes the e-mail test |
| Validation.NoDotAfterAtFails | src/pages/Login.jsx:24 | "a@b" fails the e-mail test |
| Validation.UnanchoredMatchPasses | src/pages/Login.jsx:24 | the test is unanchored: "x a@b.c y" passes |
| Validation.SpaceBeforeAtFails | src/pages/Login.jsx:24 | "a @b.c" fails, since no non-space character precedes '@' |
| Validation.EmptyFieldWinsOverFormat | src/pages/Login.jsx:19-27 | an empty field is reported whatever the address is |
| Validation.ShortMismatchReportsLength | src/pages/Signup.jsx:33-41 | a short password that differs from its confirmation reports the length error |
| Validation.SixCharactersPass | src/pages/Signup.jsx:33-36 | a confirmed password of exactly six characters passes |
| AuthPages.LoginPage.constructor | src/pages/Login.jsx:7-10 | empty fields and error, not loading |
| AuthPages.LoginPage.HandleSubmit | src/pages/Login.jsx:14-39 | a failed check sets its message and sends nothing; otherwise one login request; success navigates to /dashboard and the session becomes `AfterLogin` of the old session and the payload (logged in only for a non-empty token); failure shows the server message or the fallback; loading ends false |
| AuthPages.SignupPage.constructor | src/pages/Signup.jsx:7-13 | empty fields and messages, not loading |
| AuthPages.SignupPage.HandleSubmit | src/pages/Signup.jsx:17-56 | a failed check sets its message and sends nothing; otherwise one register request; success sets the success text and schedules /login; failure shows the server message or the fallback; the session never changes |
| AuthPages.MalformedAddressSendsNothing | src/pages/Login.jsx:24-27 | a sign-in with "a@b" reports the address message and sends no request |
| AuthPages.SignupKeepsSession | src/pages/Signup.jsx:45-50 | a successful sign-up leaves a signed-in session as it was |
| RoleManagement.SelectionAfterRemove | src/pages/RoleManagement.jsx:84-87 | a selection of another role, or none, is kept; a changed selection is a row of the refreshed list with the edited role's id, or nothing |
| RoleManagement.RemoveSyncsOnlyMatching | src/pages/RoleManagement.jsx:83-87 | the dialog's role changes only when it is the role edited, and then becomes that role's row of the refreshed list, or nothing when it is gone |
| RoleManagement.AddSyncsFromRefreshedList | src/pages/RoleManagement.jsx:65-69 | after an add the dialog shows the selected role's refreshed row, or nothing when no row has its id |
| RoleManagement.RoleManagementPage.constructor | src/pages/RoleManagement.jsx:7-21 | empty lists, loading, no selection, no dialogs open, empty form |
| RoleManagement.RoleManagementPage.FetchData | src/pages/RoleManagement.jsx:27-41 | requests roles and permissions; both lists are stored only when both calls succeed; a failure sets the message or the fallback; loading ends false |
| RoleManagement.RoleManagementPage.HandleCreateRole | src/pages/RoleManagement.jsx:43-53 | success clears the name, closes the dialog and reloads, with the lists, error and loading flag of that reload; failure alerts and changes no field |
| RoleManagement.RoleManagementPage.OpenPermissionModal | src/pages/RoleManagement.jsx:152-155 | the row's role becomes the selection and the dialog opens; nothing else changes |
| RoleManagement.RoleManagementPage.HandleAddPermission | src/pages/RoleManagement.jsx:55-73 | an empty key alerts and sends nothing; no selection alerts with the fallback and sends nothing; after a successful add the key resets and the refreshed list replaces the roles, the selection re-found by id; a failure alerts; the other fields never change |
| RoleManagement.RoleManagementPage.HandleRemovePermission | src/pages/RoleManagement.jsx:75-91 | a declined prompt sends nothing and changes nothing; after a successful removal the refreshed list replaces the roles and the selection is synced only when it is that role; a failure alerts; the other fields never change |
| RoleManagement.RemoveOnOtherRoleKeepsDialog | src/pages/RoleManagement.jsx:83-87 | a removal on another role refreshes the list but leaves the dialog's role as it was |
| RoleManagement.AddShowsNewPermission | src/pages/RoleManagement.jsx:62-69 | after an add the dialog shows the role with the new permission and the key is cleared |
| UserManagement.LoadRequestsOnlyRead | src/pages/UserManagement.jsx:33-38 | a load sends four bodiless GETs, each with the bearer rule applied for the slot's value |
| UserManagement.CurrentOr | src/pages/UserManagement.jsx:37 | a failed current-user call yields null, a successful one the user |
| UserManagement.RoleSelectValue | src/pages/UserManagement.jsx:158 | the first role's `_id` when the role is populated, otherwise the empty value |
| UserManagement.TeamSelectValue | src/pages/UserManagement.jsx:173 | the populated team's `_id` or the bare id; empty exactly when there is no team |
| UserManagement.TeamSelectIgnoresPopulation | src/pages/UserManagement.jsx:173 | a populated team and its bare id select the same option |
| UserManagement.DeleteDisabled | src/pages/UserManagement.jsx:188 | disabled only when the current user is known |
| UserManagement.OnlyOwnRowDisabled | src/pages/UserManagement.jsx:188 | a row is disabled exactly when it has the current user's id; with no current user none is |
| UserManagement.UserManagementPage.constructor | src/pages/UserManagement.jsx:8-23 | empty lists, loading, no current user, empty form |
| UserManagement.UserManagementPage.FetchData | src/pages/UserManagement.jsx:29-48 | clears the error, sends the four requests, and stores each result or its own fallback; loading ends false |
| UserManagement.UserManagementPage.HandleCreateUser | src/pages/UserManagement.jsx:50-60 | posts the form; success closes the dialog, empties the form and reloads, leaving every list, the current user, error and loading as that reload sets them; failure alerts and changes no field |
| UserManagement.UserManagementPage.CancelCreate | src/pages/UserManagement.jsx:240-243 | closes the dialog and empties the form; lists, current user, error and loading are unchanged |
| UserManagement.UserManagementPage.HandleAssignRole | src/pages/UserManagement.jsx:62-72 | posts the role with its start time; success reloads, leaving every list, the current user, error and loading as that reload sets them; failure alerts and changes no field |
| UserManagement.UserManagementPage.HandleAssignTeam | src/pages/UserManagement.jsx:74-81 | posts the team; success reloads, leaving every list, the current user, error and loading as that reload sets them; failure alerts and changes no field |
| UserManagement.UserManagementPage.HandleDeleteUser | src/pages/UserManagement.jsx:83-91 | a declined prompt sends nothing and changes no field; otherwise deletes, then reloads as above, or alerts and changes no field |
| UserManagement.AllCallsFailingStillLoads | src/pages/UserManagement.jsx:29-48 | with every call failing the page loads with empty lists, no current user and no error |
| UserManagement.DeclinedDeleteSendsNothing | src/pages/UserManagement.jsx:83-84 | declining the prompt sends no request |
| DashboardHome.TeamOf | src/pages/DashboardHome.jsx:22 | only a bare team id finds a team, and a found team is listed and has that id |
| DashboardHome.BareIdShowsListedTeam | src/pages/DashboardHome.jsx:21-23 | for a bare team id the page shows the first listed team with that id, and none exactly when no team has it |
| DashboardHome.PopulatedTeamIsNeverShown | src/pages/DashboardHome.jsx:19-23 | a populated team never equals a team id, so the home page shows no team while the user table selects it |
| DashboardHome.RoleLabel | src/pages/DashboardHome.jsx:68-72 | "No Role Assigned" without a first role; a populated role's name; empty for a bare id |
| DashboardHome.BadgeAgreesWithRoleSelect | src/pages/DashboardHome.jsx:68-72 | whenever the user table selects a role, the badge shows that role's name |
| DashboardHome.DashboardHomePage.constructor | src/pages/DashboardHome.jsx:6-9 | no user or team, loading, no error |
| DashboardHome.DashboardHomePage.Load | src/pages/DashboardHome.jsx:12-34 | loads the user; requests teams only when the user has one; a team failure is swallowed; a user failure sets the message or fallback; loading ends false |
| DashboardHome.NoTeamMeansNoTeamRequest | src/pages/DashboardHome.jsx:19 | a user without a team causes exactly one request and no team |
| DashboardHome.TeamFailureIsSwallowed | src/pages/DashboardHome.jsx:24-27 | a failed team list leaves no team and no error, and the profile shows |
| AppRoutes.Resolve | src/App.jsx:19-36 | every redirect goes to /dashboard replacing history; a shown screen is public-only exactly for sign-in and sign-up, and protected exactly when inside the dashboard layout |
| AppRoutes.PathOfResolvesToPage | src/App.jsx:19-34 | each page's path shows that page: sign-in and sign-up under the public-only guard, the rest under the protected guard inside the dashboard layout, the index being the home page |
| AppRoutes.ShownPageHasOnePath | src/App.jsx:19-36 | a path that shows a page is that page's path, up to trailing slashes |
| AppRoutes.LayoutNeverShownAlone | src/App.jsx:21-34 | the dashboard layout always wraps a child page, exactly for protected screens |
| AppRoutes.RedirectLandsOnHome | src/App.jsx:35-36 | every redirect replaces history and goes to a path that shows the home page |
| AppRoutes.TrailingSlashIgnored | src/App.jsx:19-36 | a trailing slash does not change what a path shows |
| AppRoutes.RootAndUnknownRedirect | src/App.jsx:35-36 | "/" and an unknown path redirect to /dashboard |

## Left out

- Transport: axios, the base URL and HTTP itself. Each call's outcome is a parameter. Requests are modelled as the request config after the interceptor; the headers axios itself adds or drops on the wire (`Accept`, `Content-Type` on bodiless requests) are not modelled.
- AuthPages.LoginPage.HandleSubmit: the login payload is always an object. A `null` payload, whose `data.token` would throw into the page's `catch` and show the login fallback, is not modelled.
- AuthPages: the browser's own check on `type="email"` inputs, which can stop a submission before the handler runs, is not modelled; the handlers are modelled as called with whatever the fields hold.
- Record identifiers (`_id`) are taken to be non-empty strings, as the server issues them.
- Records carry only the fields the client reads.
- React scheduling: each handler runs as one sequential step to completion. Not modelled:
  - the intermediate `loading = true` render;
  - late responses after navigation;
  - the un-awaited `fetchData()` after a create, which here completes before the handler returns.
- RoleManagement.RoleManagementPage.FetchData: the two calls run in parallel (`Promise.all`). When both fail, the model reports the roles call's message; the browser reports whichever rejection settles first.
- UserManagement.UserManagementPage.FetchData: the outer `catch` with "Failed to load data" is not modelled. Every call has its own fallback, so that branch cannot run.
- AuthPages.SignupPage.HandleSubmit: the 2000 ms delay before navigating to /login is not modelled. The navigation is recorded as scheduled.
- UserManagement.UserManagementPage.HandleAssignRole: `new Date()` is the `validFrom` parameter, a string as sent.
- DashboardHome.DashboardHomePage.Load: the `/users/me` payload is always a user record. A null payload, whose property access would throw into the error branch, is not modelled.
- Validation.EmailLooksValid: characters are Unicode scalar values, not UTF-16 code units. The `\s` set is JavaScript's. Password length is counted in scalar values.
- AppRoutes: route matching is exact apart from trailing slashes. Not modelled:
  - the router's case-insensitivity;
  - percent-decoding;
  - base names.
- AppRoutes: the route guards `PublicRoute` and `ProtectedRoute` are not part of this model. Each route records only which guard wraps it.
- UI state with no effect beyond rendering is not modelled:
  - opening and closing dialogs other than those listed;
  - input `onChange` setters, which are field assignments;
  - the unused `showEditModal` and `selectedUser` states;
  - markup and styling.
- `useAuth`'s "must be used within an AuthProvider" check: React context wiring.
- `console.log` in the dashboard's swallowed team failure: output only.
- The team management, audit log, dashboard layout and sidebar pages: they only fetch and render. The sidebar's logout is `AuthProvider.Logout` followed by navigation.
