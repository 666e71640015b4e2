# Employee management client: session, employee list and route guard

This project models the logic of a browser client for employee records. The client keeps its
state in two Redux slices:

- **auth**: the session, with user, token, authenticated flag, loading flag and last error. The
  token is also persisted in `localStorage` under `'token'`.
- **employee**: the cached employee list, the record being edited, a loading flag, the last error
  and a search query.

Both slices talk to a JSON REST data service. The model covers:

- the decisions inside the `loginUser` and `refreshToken` thunks, and every reducer case of the two slices;
- the name search of the dashboard;
- the render decision of the private-route guard;
- the two helpers in `authHelpers.ts`.

The model is written as follows:

- A thunk is a pure function. Its inputs are the decoded responses (`None` when a response is not
  ok), the clock readings, the freshly minted token, and whether each write was accepted. It
  returns a `ThunkRun`: the settled `Ok(payload)` or `Err(message)`, and the list of requests
  it sent.
- The two slices are classes: `AuthSlice.AuthStore` and `EmployeeSlice.EmployeeStore`. Each
  reducer case is a method that assigns the draft fields in place. Its postcondition gives the
  whole new state in terms of the old one, and so says what does not change. `AuthStore` also
  writes through to a `Storage.LocalStorage` object.
- `AuthStore.Valid()` is preserved by every method. It states three things:
  - the persisted `'token'` entry always equals the state's token;
  - an authenticated session always holds a token;
  - a non-empty token always means an authenticated session.
- A `Dispatch…` method runs one thunk the way the toolkit does: `pending`, then the thunk body,
  then `fulfilled` with the payload or `rejected` with the thrown message. The whole run is one
  atomic step.
- `find`, `findIndex` and `filter` are `Sequences.FirstIndex` and `Sequences.Filter`.
  - The contract of `FirstIndex` states the first-match property.
  - The contract of `Filter` states only a length bound, and that every kept element satisfies
    the predicate.
  - The subsequence and occurrence-count facts are the lemmas `FilterIsSubsequence` and
    `FilterCounts`. `RemoveById` and `FilteredEmployees` invoke them and restate them in their own
    contracts.

Where a reader might expect otherwise, the model follows the code:

- The session state has no expiry field. `expiresAt` only travels in the thunk payloads.
- A rejected login leaves `isAuthenticated`, `token` and `user` as they were. A previously
  authenticated session stays authenticated after a failed login.
- Refreshing an expired record is not guaranteed to produce a token different from the old one,
  because the token comes from `Math.random`. The model takes the minted token as a parameter and
  claims no such difference.
  - The minted token can even be empty (`Math.random()` returning 0 gives `""`).
  - `LoginStartsLiveSession` and `RenewedTokenIsLive` therefore require a non-empty token that
    no record already carries.
- Deleting removes every record with the given id, not exactly one.
- An update locates the record to replace by the id of the server's response body, not by the
  id that was sent.
- The guard does not block protected content before its refresh has run. Its first render uses
  the current state, and the effect that dispatches `refreshToken` runs after that render.
  - At start-up `isAuthenticated` comes from the persisted token alone. So a stale persisted
    token shows protected content for one render before the refresh rejects and redirects.
  - `PrivateRoute.Mount` records this render sequence. Each entry is the guard's decision after
    a change of state.
  - When the first render is the login redirect, navigating away unmounts the guard. The
    refresh dispatched by that commit's effect still runs, but the guard renders nothing more.
- `refreshToken` reads the clock twice: once for the expiry test and once for the new expiry.
  The model takes the two readings as separate parameters, `now` and `mintNow`.
  - A renewal moves the expiry later only when `now <= mintNow`. `RenewalExtendsExpiry` proves
    the later expiry under that condition.
- The update thunk throws "Failed to update employee". The fallback of `updateEmployee.rejected`
  is a different text, "Error Editing Employee!", and is used only when the action has no message.

## Model

| member | source | states |
|---|---|---|
| Sequences.FirstIndex | src/redux/slices/authSlice.ts:27-29 | `find`/`findIndex`: -1 exactly when no element satisfies the predicate, otherwise the first position that does |
| Sequences.Filter | src/redux/slices/employeeSlice.ts:133 | `filter`: the result is no longer than the input and every element of it satisfies the predicate |
| Text.OrElse | src/redux/slices/authSlice.ts:111 | the or-fallback idiom on a message: the message when truthy, the fallback otherwise, so it is never empty when the fallback is not |
| Text.Lower | src/pages/DashBoard.tsx:29-30 | `toLowerCase` keeps the length and lowers each character |
| Text.IncludesIffOccurs | src/pages/DashBoard.tsx:30 | `includes` holds exactly when the needle occurs at some position of the haystack |
| AuthHelpers.HandleApiError | src/utils/authHelpers.ts:9-14 | the server's message when truthy, else the error's message when truthy, else "An error occurred"; an empty message falls through; the result is never empty |
| AuthHelpers.SetAuthToken | src/utils/authHelpers.ts:17-23 | a truthy token is stored under 'token'; null or "" removes 'token'; no other key changes |
| AuthSlice.LoginUser | src/redux/slices/authSlice.ts:20-46 | succeeds iff the users were fetched, some user has both email and password equal to the credentials, and the save is accepted; the first such user is returned with the minted token and expiry now + 1,200,000; the record {token, userId, expiresAt} is posted exactly when a user matched; otherwise "Failed to fetch users", "Invalid email or password" or "Failed to save token"; every error message is non-empty |
| AuthSlice.RefreshToken | src/redux/slices/authSlice.ts:49-80 | a null or empty token fails with "Login Required" before any request; an unfetched table fails with "Failed to fetch tokens"; no record with the token fails with "Session expired. Please log in again."; on the first matching record, a strictly expired one is patched under its id with the minted token and expiry mintNow + 1,200,000 (or fails with "Failed to refresh token"); a live one returns the current token and the record's expiry with no write |
| AuthSlice.RefreshIsIdempotentWhileLive | src/redux/slices/authSlice.ts:63-78 | a refresh that found a live record returns the token it was given, and repeating it with that token before the expiry gives the same result and again writes nothing |
| AuthSlice.LoginStartsLiveSession | src/redux/slices/authSlice.ts:33-44 | once the data service has stored the posted record, a refresh with the new token before its expiry returns that token and expiry and writes nothing |
| AuthSlice.RenewalExtendsExpiry | src/redux/slices/authSlice.ts:63-75 | when the first matching record has expired and the second clock reading is not earlier than the first, a successful renewal sends the patch for that record and returns an expiry later than the old one |
| AuthSlice.RenewedTokenIsLive | src/redux/slices/authSlice.ts:63-75 | a renewal returns the minted token and mintNow + 1,200,000; once the patch is applied, a refresh with the new token before the new expiry keeps it and writes nothing |
| AuthSlice.InitialState | src/redux/slices/authSlice.ts:11-17 | the token is the persisted value; authenticated iff that value is a non-empty string; no user, not loading, no error |
| AuthSlice.AuthStore.constructor | src/redux/slices/authSlice.ts:11-17 | the store starts in the initial state built from the persisted 'token' and satisfies the invariant |
| AuthSlice.AuthStore.Logout | src/redux/slices/authSlice.ts:86-91 | clears user, token and the authenticated flag and removes the persisted token; loading and error unchanged |
| AuthSlice.AuthStore.ClearAuthError | src/redux/slices/authSlice.ts:92-94 | only the error becomes null |
| AuthSlice.AuthStore.Pending | src/redux/slices/authSlice.ts:98-101 | both pending cases set loading and clear the error, nothing else |
| AuthSlice.AuthStore.LoginFulfilled | src/redux/slices/authSlice.ts:102-108 | user and token from the payload, authenticated, not loading, token persisted; error unchanged |
| AuthSlice.AuthStore.LoginRejected | src/redux/slices/authSlice.ts:109-112 | only loading (false) and error (the message or "Login failed") change; token, user, flag and storage kept |
| AuthSlice.AuthStore.RefreshFulfilled | src/redux/slices/authSlice.ts:117-122 | authenticated with the payload's token, persisted; user untouched |
| AuthSlice.AuthStore.RefreshRejected | src/redux/slices/authSlice.ts:123-129 | not authenticated, token null, persisted token removed, error the message or "Session expired. Please log in again."; user kept |
| AuthSlice.AuthStore.DispatchLogin | src/redux/slices/authSlice.ts:98-112 | a login run: on success the session holds the matched user and the minted token, which is persisted, and the error is null; on failure only loading and the thrown message change |
| AuthSlice.AuthStore.CompleteRefresh | src/redux/slices/authSlice.ts:117-129 | the refresh thunk reads the state's token; its outcome is applied by the fulfilled or rejected case |
| AuthSlice.AuthStore.DispatchRefresh | src/redux/slices/authSlice.ts:113-129 | a refresh run: on success authenticated with the returned token, persisted, error null; on failure the session and persisted token are cleared and the thrown message recorded |
| AuthSlice.AuthStore.LogoutThenRefresh | src/redux/slices/authSlice.ts:53-54 | a refresh right after logout fails with "Login Required", sends no request, and leaves the session cleared |
| EmployeeSlice.FetchEmployees | src/redux/slices/employeeSlice.ts:32-36 | one GET; the decoded list when ok, else "Failed to fetch employees" |
| EmployeeSlice.AddEmployee | src/redux/slices/employeeSlice.ts:39-50 | one POST of the data; the server's record when ok, else "Failed to add employee" |
| EmployeeSlice.UpdateEmployee | src/redux/slices/employeeSlice.ts:53-64 | one PUT of the data under the id; the server's record when ok, else "Failed to update employee" |
| EmployeeSlice.DeleteEmployee | src/redux/slices/employeeSlice.ts:67-76 | one DELETE under the id; succeeds iff the response is ok, and then the payload is the id passed in; else "Failed to delete employee" |
| EmployeeSlice.ReplaceFirstById | src/redux/slices/employeeSlice.ts:124-127 | same length; exactly the first record with the payload's id is replaced at its index, every other position unchanged; no match leaves the list unchanged |
| EmployeeSlice.RemoveById | src/redux/slices/employeeSlice.ts:133 | a subsequence of the list in which no record has the id, keeping every occurrence of every other record; an absent id leaves the list unchanged |
| EmployeeSlice.EmployeeStore.constructor | src/redux/slices/employeeSlice.ts:23-29 | empty list, nothing selected, not loading, no error, empty query |
| EmployeeSlice.EmployeeStore.SetSearchQuery | src/redux/slices/employeeSlice.ts:82-84 | only the search query changes |
| EmployeeSlice.EmployeeStore.SetSelectedEmployee | src/redux/slices/employeeSlice.ts:85-87 | only the selected employee changes |
| EmployeeSlice.EmployeeStore.ClearEmployeeError | src/redux/slices/employeeSlice.ts:88-90 | only the error becomes null |
| EmployeeSlice.EmployeeStore.Pending | src/redux/slices/employeeSlice.ts:94-97 | the fetch, add and update pending cases set loading and clear the error, nothing else |
| EmployeeSlice.EmployeeStore.FetchRejected | src/redux/slices/employeeSlice.ts:102-105 | loading false, error the message or "Failed to fetch employees"; list and selection kept |
| EmployeeSlice.EmployeeStore.AddRejected | src/redux/slices/employeeSlice.ts:114-117 | loading false, error the message or "Failed to add employee"; list and selection kept |
| EmployeeSlice.EmployeeStore.UpdateRejected | src/redux/slices/employeeSlice.ts:128-131 | loading false, error the message or "Error Editing Employee!"; list and selection kept |
| EmployeeSlice.EmployeeStore.FetchFulfilled | src/redux/slices/employeeSlice.ts:98-101 | the list is replaced wholesale by the payload; loading false |
| EmployeeSlice.EmployeeStore.AddFulfilled | src/redux/slices/employeeSlice.ts:110-113 | the payload is appended: length grows by one, the earlier elements are unchanged, the last is the payload |
| EmployeeSlice.EmployeeStore.UpdateFulfilled | src/redux/slices/employeeSlice.ts:121-127 | the list becomes ReplaceFirstById of the old list; the selection becomes null in every case; error unchanged |
| EmployeeSlice.EmployeeStore.DeleteFulfilled | src/redux/slices/employeeSlice.ts:132-134 | the list becomes RemoveById of the old list; loading and error untouched |
| EmployeeSlice.EmployeeStore.DispatchFetch | src/redux/slices/employeeSlice.ts:94-105 | a fetch run: the server's list with no error, or the old list with "Failed to fetch employees" |
| EmployeeSlice.EmployeeStore.DispatchAdd | src/redux/slices/employeeSlice.ts:106-117 | an add run: exactly the server's record appended, or the old list with "Failed to add employee" |
| EmployeeSlice.EmployeeStore.DispatchUpdate | src/redux/slices/employeeSlice.ts:117-131 | an update run: replacement located by the server record's id and selection cleared, or "Failed to update employee" with list and selection kept |
| EmployeeSlice.EmployeeStore.DispatchDelete | src/redux/slices/employeeSlice.ts:67-76 | a delete run: matching records removed when ok; a failed delete changes nothing |
| DashBoard.FilteredEmployees | src/pages/DashBoard.tsx:27-31 | computed from the page's own search term, not the slice's query, without changing the list; a subsequence of the list in the original order; an employee is kept iff lower(firstName + " " + lastName) includes lower(searchTerm), with all its occurrences |
| DashBoard.EmptySearchKeepsAll | src/pages/DashBoard.tsx:27-31 | an empty search term keeps the whole list |
| DashBoard.SearchIgnoresCase | src/pages/DashBoard.tsx:29-30 | two search terms with the same lowercasing give the same result |
| DashBoard.SearchByLoweredTerm | src/pages/DashBoard.tsx:30 | searching for a term and for its lowercase gives the same result |
| DashBoard.MatchMeansOccurrence | src/pages/DashBoard.tsx:28-30 | a match is exactly a position of the lowered full name at which the lowered term occurs |
| PrivateRoute.Gate | src/layouts/PrivateRoute.tsx:18-26 | spinner iff loading; protected content iff not loading and authenticated; redirect to "/login" with replace iff not loading and not authenticated |
| PrivateRoute.Mount | src/layouts/PrivateRoute.tsx:11-26 | on every mount the refresh runs with the state's token and no local expiry check, and the store and storage end exactly as after `DispatchRefresh`; a first render that redirects is the only one; otherwise the renders are the current-state decision, the spinner, then protected content iff the refresh was fulfilled and the login redirect iff it was rejected |

## Left out

- HTTP and JSON decoding are not modelled.
  - Each response is an input: its decoded body, or `None` when the response is not ok.
  - A transport failure or a JSON parse error makes the thunk reject with a message from the
    browser or the parser. The thunk functions do not model that path. The reducer cases take any
    message, so the reducers cover it.
- The data service itself is not modelled. `AuthSlice.AfterPost` and `AuthSlice.AfterPatch`
  state the effect the lemmas assume: POST appends a record, and PATCH merges the fields into
  every record with that id.
- `Math.random().toString(36).substring(2)` is not modelled. The minted token is a parameter,
  because it is floating-point randomness.
- `Date.now()` is not modelled. Each reading is an integer parameter.
- Async interleaving of overlapping thunks (last-resolved-wins) is not modelled, since it is
  concurrency.
  - Each reducer case is an atomic step and may be applied in any order.
  - A `Dispatch…` method runs one thunk to completion without interleaving.
- Aborting a thunk, and the toolkit's own serialisation of errors, are not modelled.
  `rejected` receives the thrown message as `action.error.message`.
- JSX and rendering are not modelled. This covers the spinner markup, the dashboard's own loading
  and error views, `window.confirm`, `navigate`, the header, the footer and the route wiring.
  `PrivateRoute.Screen` only names what is rendered.
- The add/edit form, its field bounds and its number parsing are not modelled. They are form
  glue, and no reducer enforces them. For the same reason the model has no invariant on employee
  fields and no id uniqueness.
- The store configuration, the build configuration, and the typed `useAppDispatch` /
  `useAppSelector` hooks are not modelled, since they are library wiring only.
- JavaScript numbers (ages, salaries, expiry instants) are modelled as unbounded integers.
  Fractional values and precision are left out.
- `AuthSlice.User` keeps only id, email and password. The rest of the `users` record (`any` in
  the source) is carried unchanged by the code and is left out.
- `Text.Lower`: lowers only the ASCII letters A–Z. JavaScript's `toLowerCase` also lowers
  non-ASCII letters, and is not expanded here to full Unicode case mapping.
- `AuthHelpers.HandleApiError`: the model's error is always present, and its messages are strings or absent.
  - `handleApiError(null)` throws a TypeError in the source, because it reads `.response` of null.
  - A truthy message that is not a string is returned unchanged by the source.
  - The model has neither path.
- Storage quota errors from `setItem` and the browser's `storage` events are not modelled.
