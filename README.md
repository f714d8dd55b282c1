# Lernify front end: session, request authoriser, form checks, tasks and routes

A Dafny model of the logic inside the Lernify study-planner browser client (an Angular application). The model covers:

- **Session** (`session.dfy`): the authentication service. It keeps the bearer token under `auth_token` in the browser's key-value store and a `loggedIn` flag. The module holds the expiry test with its two-minute safety window, the validity check that `isLoggedIn()` performs, and the state changes of `storeToken`, `clearLocalAuth`, `login`, `logout`, `deleteAccount` and the constructor.
- **Interceptor** (`interceptor.dfy`): the hook that adds `Authorization: Bearer <token>` to a copy of each request whose URL starts with `http://localhost:8080`.
- **Validators** (`validators.dfy`): the username, password and email patterns as hand-written predicates over characters. Next to them, the JavaScript regular-expression semantics are written out as separate predicates (lookaheads, split points), and lemmas prove the two agree.
- **Register** (`register.dfy`): the registration form. It checks the fields in order, stops at the first failure, and maps the error status of the backend call to a message.
- **AccountSettings** (`account_settings.dfy`): the settings page. `saveAccount` collects every failing check and builds the update payload. The module also covers `toggleTheme` and the branches of `ngOnInit`.
- **Tasks** (`tasks.dfy`): the mock task list. It assigns ids as max + 1, appends in place and starts from three seeded tasks.
- **Dashboard** (`dashboard.dfy`): the login gate, the filter that keeps today's tasks, and the sum of their learning time.
- **Routes** (`routes.dfy`): the ordered route table, resolved by taking the first entry that matches.

The environment enters as parameters:

- **JWT decoder:** a function from token to `Session.Decoded`. The outcome is `Undecodable` when the library throws or reading `exp` throws (a payload of JSON `null`). It is `NoNumericExp` when `exp` converts to NaN: an absent claim, a non-numeric string or an object. Otherwise it is `Exp(seconds)`, the number `exp` converts to. Numbers, numeric strings, `null` (0) and booleans (0 or 1) all fall under `Exp`.
- **Clock:** `now` in milliseconds.
- **Today's date:** a `YYYY-MM-DD` string.
- **Server calls:** each one is a supplied `Response<T>`, either `Ok(body)` or `Failed(status)`.
- **`localStorage`:** the `Session.Storage` object, holding a `map<string, string>`.
- **Router navigation:** a target string appended to a component's `navigation` list.

Places where the code departs from the behaviour its authors evidently intended, with the model following the code:

- **`logout()`:** it clears the local session only inside the success tap, and only if someone subscribes. The evident intent is that logging out always clears the session, whatever the server answers. No caller subscribes (`dashboard.ts:88`, `account-settings.component.ts:95`, and `account-settings.component.ts:120` inside `deleteAccount`). `Session.AuthService.Logout` therefore takes `Option<Response<()>>`, where `None` means never subscribed. As a result, the automatic logout after an account update leaves the session untouched.
- **Backend test in the interceptor:** it is a plain string prefix test, not an origin comparison. `http://localhost:8080evil` receives the token, and a relative URL such as `/test` never does.
- **Interceptor test:** the test "should add Authorization header if token exists" (`auth-token-interceptor.spec.ts:33-47`) sends `/test`. By the code, that request is forwarded unchanged. The test's expectation (`auth-token-interceptor.spec.ts:42-46`) asks only that the forwarded request has some `headers` object, which the unchanged request also has.
- **`storeToken`:** it sets `loggedIn` to true without checking expiry. The intended invariant "`loggedIn` equals token present and unexpired" therefore does not hold after a login that returns an expired token (`Session.LoginFlagCanDisagree`).
- **Tokens whose `exp` converts to NaN:** an expired or undecodable token is meant to log the user out. A token whose `exp` converts to NaN (absent, a non-numeric string, an object) makes the comparison in the expiry test false, so it never expires (`Session.MissingExpNeverExpires`).
- **Interceptor and expiry:** the interceptor attaches expired tokens too (`Interceptor.ExpiredTokenIsStillAttached`).
- **Two password rules:** registration and account settings use different rules. Every registration password passes the settings rule, but not the reverse (`Validators.RegisterPasswordPassesSettings`, `Validators.SettingsPasswordNotAlwaysRegisterPassword`).
- **`tokenGetter`:** the JWT module's `tokenGetter` in `app.config.ts:10` reads the key `token`, not `auth_token`. It is not part of this model.

## Model

| member | source | states |
|---|---|---|
| `Session.IsTokenExpired` | src/app/auth/auth.service.ts:44-54 | an undecodable token is expired; a token whose `exp` converts to NaN is not (the comparison is false); otherwise a token is unexpired iff its expiry (`exp`·1000) minus `now` exceeds the 120000 ms safety window |
| `Session.MissingExpNeverExpires` | src/app/auth/auth.service.ts:44-59 | a stored, non-empty token whose `exp` converts to NaN (absent, a non-numeric string, an object) makes the session valid at every time (the check fails open) |
| `Session.UndecodableIsExpired` | src/app/auth/auth.service.ts:51-53 | a token the decoder rejects is expired at every time (fail closed) |
| `Session.ExpiryIsMonotone` | src/app/auth/auth.service.ts:47-50 | a token expired at `now` is expired at every later time |
| `Session.HasValidToken` | src/app/auth/auth.service.ts:56-59 | definition of `hasValidToken()`: a stored, non-empty token that is not expired at `now`; unfolded by `Session.ValidTokenMeaning` |
| `Session.ValidTokenMeaning` | src/app/auth/auth.service.ts:56-59 | the stored token is valid iff `auth_token` is present, non-empty and decodes, and either its `exp` converts to NaN (absent, a non-numeric string, an object) or `now` is before expiry minus two minutes |
| `Session.ValidTokenIgnoresOtherKeys` | src/app/auth/auth.service.ts:56-59 | writing any key other than `auth_token` (e.g. `theme`) does not change validity |
| `Session.AuthService.constructor` | src/app/auth/auth.service.ts:31-36 | the initial `loggedIn` value equals the validity of the stored token at construction time |
| `Session.AuthService.GetToken` | src/app/auth/auth.service.ts:40-42 | returns the value under `auth_token`, absent iff the key is absent |
| `Session.AuthService.IsLoggedIn` | src/app/auth/auth.service.ts:71-74 | true iff the stored token is present, non-empty and unexpired, re-read from storage, independent of the flag |
| `Session.AuthService.StoreToken` | src/app/auth/auth.service.ts:61-64 | the store afterwards is the old store with only `auth_token` set to the token, and the flag is true |
| `Session.AuthService.ClearLocalAuth` | src/app/auth/auth.service.ts:66-69 | removes only `auth_token` (every other key keeps its value) and sets the flag false |
| `Session.AuthService.Login` | src/app/auth/auth.service.ts:78-87 | success stores exactly the response token and sets the flag; an error removes any token and clears the flag |
| `Session.AuthService.Logout` | src/app/auth/auth.service.ts:97-101 | clears token and flag only on a successful server answer; on an error, or when never subscribed, store and flag are unchanged |
| `Session.AuthService.DeleteAccount` | src/app/auth/auth.service.ts:115-119 | clears token and flag only on success; on error both are unchanged |
| `Session.LoginFlagCanDisagree` | src/app/auth/auth.service.ts:61-74 | storing an already expired token and then calling `isLoggedIn()`: the store holds the token and the flag is true, while `isLoggedIn()` answers false |
| `Interceptor.Intercept` | src/app/auth/auth-token.interceptor.ts:16-40 | when a truthy token is stored and the URL starts with `http://localhost:8080`, a copy with the same verb, URL and body, and the same headers plus `Authorization: Bearer <token>`; otherwise the very same request |
| `Interceptor.Authorises` | src/app/auth/auth-token.interceptor.ts:16-28 | definition of the header condition: a stored non-empty token and a URL that starts with `http://localhost:8080` |
| `Interceptor.HeaderIffAuthorised` | src/app/auth/auth-token.interceptor.ts:28-34 | for a request without an `Authorization` header, the forwarded one has it iff the token is truthy and the prefix matches |
| `Interceptor.NoTokenForwardsRequestUnchanged` | src/app/auth/auth-token-interceptor.spec.ts:49-58 | with no stored token the request handed on is the original |
| `Interceptor.RelativeUrlIsNeverAuthorised` | src/app/auth/auth-token.interceptor.ts:23-28 | a URL starting with `/` is forwarded unchanged whatever token is stored |
| `Interceptor.LookalikeHostIsAuthorised` | src/app/auth/auth-token.interceptor.ts:20-23 | `http://localhost:8080evil` receives `Bearer <token>`, since the test is a string prefix |
| `Interceptor.ExpiredTokenIsStillAttached` | src/app/auth/auth-token.interceptor.ts:17-34 | the header is attached even when the stored token is expired |
| `Validators.FailureMessagesDiffer` | src/app/auth/register/register.ts:33-48 | the three validation messages are pairwise distinct, so a message identifies its check |
| `Validators.ValidUsername` | src/app/auth/register/register.ts:29 | definition of the username rule: 3 to 20 ASCII letters or digits (the same pattern is at account-settings.component.ts:58) |
| `Validators.ValidRegisterPassword` | src/app/auth/register/register.ts:30 | definition of the registration password rule; proved equal to the pattern by `Validators.RegisterPasswordMatchesRegex` |
| `Validators.ValidSettingsPassword` | src/app/dashboard/settings/account-settings.component.ts:59-60 | definition of the settings password rule; proved equal to the pattern by `Validators.SettingsPasswordMatchesRegex` |
| `Validators.ValidEmail` | src/app/auth/register/register.ts:31 | definition of the email rule (no white space, one `@` after a non-empty local part, a domain with an inner dot); proved equal to the pattern by `Validators.EmailMatchesRegex` |
| `Validators.RegisterPasswordMatchesRegex` | src/app/auth/register/register.ts:30 | the registration password predicate (≥ 8 chars from `[A-Za-z0-9@$!%*?&]`, with a lower, an upper, a digit and a special) holds iff the lookahead pattern matches |
| `Validators.SettingsPasswordMatchesRegex` | src/app/dashboard/settings/account-settings.component.ts:59-60 | the settings password predicate (≥ 8 chars, no line terminator, a lower, an upper, a digit and one of the wider specials) holds iff the lookahead pattern matches |
| `Validators.EmailRegexIsValid` | src/app/auth/register/register.ts:31 | every match of `^[^\s@]+@[^\s@]+\.[^\s@]+$` has no white space, exactly one `@`, a non-empty local part and a domain with an inner dot |
| `Validators.ValidEmailMatchesRegex` | src/app/auth/register/register.ts:31 | conversely, every such string splits into the three runs the pattern needs |
| `Validators.EmailMatchesRegex` | src/app/auth/register/register.ts:31 | the email predicate holds iff the pattern matches |
| `Validators.LookaheadAgrees` | src/app/auth/register/register.ts:30 | on input free of line terminators, `(?=.*X)` at the start holds iff some character is in class X |
| `Validators.RegisterPasswordPassesSettings` | src/app/dashboard/settings/account-settings.component.ts:59-60 | every password registration accepts is accepted by the settings rule |
| `Validators.SettingsPasswordNotAlwaysRegisterPassword` | src/app/auth/register/register.ts:30 | `Abcdefg1#` passes the settings rule but not the registration rule |
| `Validators.UsernameSamples` | src/app/auth/register/register.ts:29 | `ab` fails and `validUser1` passes the username check |
| `Validators.PasswordSamples` | src/app/auth/register/register.ts:30 | `Weak1!` fails and `Strong1!` passes the registration password check |
| `Validators.EmailSamples` | src/app/auth/register/register.ts:31 | `not-an-email` fails and `a@b.co` passes the email check |
| `Register.FirstFailure` | src/app/auth/register/register.ts:33-48 | the reported check is username if it fails, else password if it fails, else email if it fails; none iff all three pass |
| `Register.ErrorMessageFor` | src/app/auth/register/register.ts:59-63 | status 409 gives the "already exists" message, every other status the generic failure message |
| `Register.RegisterComponent.constructor` | src/app/auth/register/register.ts:16-20 | all fields start empty, with no request sent |
| `Register.RegisterComponent.Register` | src/app/auth/register/register.ts:24-66 | both messages are reset; the first failing check's message is set and nothing is sent; only when all pass is exactly one request with the three fields sent, then success sets the success message and navigates to `/login`, an error sets the status message |
| `AccountSettings.SettingsFailures` | src/app/dashboard/settings/account-settings.component.ts:63-77 | every failing check is listed, at most three, in the order username, password, email; password is listed iff it is non-empty and fails the rule |
| `AccountSettings.EmptyPasswordIsNotChecked` | src/app/dashboard/settings/account-settings.component.ts:69 | an empty password, which the rule itself rejects, is never reported |
| `AccountSettings.Messages` | src/app/dashboard/settings/account-settings.component.ts:63-77 | one message per failed check, in the same order |
| `AccountSettings.CollectFailures` | src/app/dashboard/settings/account-settings.component.ts:63-77 | the pushes of the validation block produce exactly the messages of the failing checks, in order |
| `AccountSettings.UpdatePayload` | src/app/dashboard/settings/account-settings.component.ts:83-87 | the payload carries username and email, and a password iff the field is non-empty |
| `AccountSettings.Toggled` | src/app/dashboard/settings/account-settings.component.ts:106-108 | flips the flag; the stored theme becomes `dark` when the new flag is true and `light` otherwise; every other key is unchanged |
| `AccountSettings.ToggleTwice` | src/app/dashboard/settings/account-settings.component.ts:106-108 | two toggles restore the flag and leave the theme recorded; if it was already recorded, the whole state is restored |
| `AccountSettings.AccountSettingsComponent.constructor` | src/app/dashboard/settings/account-settings.component.ts:15-21 | fields start at their declared initial values; the theme and the token share the one browser store |
| `AccountSettings.AccountSettingsComponent.NgOnInit` | src/app/dashboard/settings/account-settings.component.ts:25-50 | dark mode iff the stored theme is `dark`; without a truthy token it navigates to `/login` and fetches nothing; otherwise one fetch: success loads user and email (`''` when absent), 401 clears the session and navigates to `/login`, any other error sets the single fetch-failed message |
| `AccountSettings.AccountSettingsComponent.SaveAccount` | src/app/dashboard/settings/account-settings.component.ts:53-103 | messages reset; with failures, exactly their messages and no request; otherwise one update request with the payload, then success clears the password, sets the success message and leaves the session as it was (logout is never subscribed), an error leaves exactly the one update-failed message |
| `AccountSettings.AccountSettingsComponent.ToggleTheme` | src/app/dashboard/settings/account-settings.component.ts:106-110 | flag and store move to `Toggled` of their old values; nothing else changes |
| `Tasks.MaxId` | src/app/dashboard/tasks/tasks.component.ts:40 | on a non-empty list, an id (missing counted as 0) of some task that no task's id exceeds |
| `Tasks.NextId` | src/app/dashboard/tasks/tasks.component.ts:40 | strictly greater than every existing id; 1 for an empty list; otherwise exactly one more than some existing id |
| `Tasks.Created` | src/app/dashboard/tasks/tasks.component.ts:42 | the new task has the form's title, learning time and date, and the next id |
| `Tasks.CreateKeepsIdsUnique` | src/app/dashboard/tasks/tasks.component.ts:40-43 | appending the created task to a list with unique ids keeps ids unique |
| `Tasks.SeedTasks` | src/app/dashboard/tasks/tasks.component.ts:29-33 | three tasks with ids 1, 2, 3, hence unique |
| `Tasks.TasksComponent.constructor` | src/app/dashboard/tasks/tasks.component.ts:22-23 | empty list and blank form |
| `Tasks.TasksComponent.NgOnInit` | src/app/dashboard/tasks/tasks.component.ts:27-34 | the list becomes the seed tasks |
| `Tasks.TasksComponent.CreateTask` | src/app/dashboard/tasks/tasks.component.ts:36-47 | with an empty title or date nothing changes; otherwise exactly one task is appended after the unchanged old list and the form is reset; unique ids stay unique |
| `Dashboard.TodaysTasks` | src/app/dashboard/dashboard-home/dashboard.ts:72 | a task is kept iff it is in the input and dated today, with every occurrence kept (multiset counts); empty iff no task is dated today |
| `Dashboard.TodaysTasksOfConcat` | src/app/dashboard/dashboard-home/dashboard.ts:72 | filtering distributes over concatenation, so the original order is kept |
| `Dashboard.ReduceLearningTime` | src/app/dashboard/dashboard-home/dashboard.ts:75-78 | definition of the `reduce` left fold over the learning times; related to the plain sum by `Dashboard.ReduceIsSum` |
| `Dashboard.ReduceIsSum` | src/app/dashboard/dashboard-home/dashboard.ts:75-78 | the `reduce` left fold from `acc` equals `acc` plus the total learning time |
| `Dashboard.TodaysTotalIsBounded` | src/app/dashboard/dashboard-home/dashboard.ts:72-78 | with no negative learning time, today's total lies between 0 and the total over all tasks |
| `Dashboard.NoTaskTodayMeansZero` | src/app/dashboard/dashboard-home/dashboard.ts:75-78 | when no task is dated today the total is 0 |
| `Dashboard.DashboardComponent.constructor` | src/app/dashboard/dashboard-home/dashboard.ts:30-33 | no user, no tasks, total 0 |
| `Dashboard.DashboardComponent.LoadTodaysTasks` | src/app/dashboard/dashboard-home/dashboard.ts:66-82 | one task fetch; on success the kept tasks are today's and the total is their learning-time sum; on error both are unchanged |
| `Dashboard.DashboardComponent.NgOnInit` | src/app/dashboard/dashboard-home/dashboard.ts:44-61 | logged out: navigates to `/login` and fetches nothing; logged in: fetches the user, and the tasks only after that succeeds |
| `Dashboard.DashboardComponent.Logout` | src/app/dashboard/dashboard-home/dashboard.ts:87-90 | navigates to `/login` while the session stays unchanged (the logout observable is never subscribed); user, tasks, total and fetches are unchanged |
| `Routes.FirstMatch` | src/app/app.routes.ts:8-15 | the index returned matches and no earlier entry does; none only when no entry matches |
| `Routes.Resolve` | src/app/app.routes.ts:9-14 | `login` and `register` show their pages unguarded; `dashboard` and `account-settings` show theirs behind the guard; every other URL, the empty one included, redirects to `/login` |
| `Routes.PathsDiffer` | src/app/app.routes.ts:8-15 | the table's paths are pairwise distinct |
| `Routes.CatchAllIsLast` | src/app/app.routes.ts:14 | the wildcard is the last and only wildcard entry, so every URL finds an entry |
| `Routes.EntryResolvesToItself` | src/app/app.routes.ts:8-15 | each entry before the catch-all is the first match for its own path |
| `Routes.Navigate` | src/app/app.routes.ts:9-14 | a navigation is blocked iff it targets `dashboard` or `account-settings` and the guard refuses; every other navigation is activated; unknown URLs end on the login page; known URLs end on their own page |

## Left out

- **HTTP and reactive plumbing:** requests, observables and subscription timing are out, and `setTimeout` delays are dropped. Each server call is a supplied response. Each navigation is recorded without its delay.
- **Later emissions of `loggedIn`:** `Dashboard.DashboardComponent.NgOnInit` handles only the value the subject replays on subscription. Later emissions re-run the callback in the source; the model does not.
- **JWT decoding:** it is a foreign library, modelled as an arbitrary function from token to `Session.Decoded`. The number `exp` converts to is modelled as an integer, though JavaScript numbers may be fractional or infinite.
- **Task ids and learning times:** `Tasks.Task` holds them as unbounded integers. In JavaScript they are double-precision numbers. `Tasks.NextId` and `Tasks.CreateKeepsIdsUnique` hold only for ids well below 2^53, beyond which `Math.max(...) + 1` stops increasing. `Dashboard.ReduceLearningTime` does not model the rounding of fractional learning times.
- **Clock and calendar:** `Date.now()` and `toISOString()` are inputs. The display-only `todayDate` field of the dashboard, computed with `toLocaleDateString()`, is not modelled.
- **Browser effects:** `document.body.classList`, `confirm()`, console logging, and the router itself (beyond the recorded target and the route table) are left out.
- **Thin service wrappers:** `AuthService.register`, `getUserFromBackend` and `updateUser` are thin HTTP wrappers with no local state effect. They appear only as recorded requests of the components.
- **Other component methods:** the component methods `deleteAccount` and `goToDashboard` of the settings page are not modelled. They only sequence service calls and navigation.
- **Code with no logic to model:** the subject page, file and subject services, login, header and layout components, `app.ts` (which clears all storage at start-up) and `app.config.ts` are left out. They only wire services to the page.
- **`AuthGuard`:** its file is not part of this model. `Routes.Navigate` takes its answer as a boolean. Angular's route matching is modelled only for this table: one-segment paths, no children, and one absolute redirect.
- **Strings:** they are sequences of Unicode characters. JavaScript counts UTF-16 code units, so a settings password containing characters outside the Basic Multilingual Plane has a different length there.
- **`Interceptor.Intercept`:** headers are a map from name to value. Angular's case-insensitive header names are not modelled.
- **`AccountSettings.AccountSettingsComponent.SaveAccount`:** when no user has been fetched, the source throws a TypeError after resetting the messages. The model stops at the same point and does not model the exception.
