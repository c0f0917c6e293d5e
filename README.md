# auth-board client state, modelled in Dafny

auth-board is a React/Redux single-page client for a user directory behind a login. This
project models its client-side core and proves properties about it:

- **The users store** (`UsersSlice`, class `UsersStore`). It holds a normalised collection: a
  map from id to user record plus the ordered list of ids on display. It also holds the page
  counters (`page`, `total`, `per_page`), two busy flags, the last error and the "selected
  user" slot. Each asynchronous operation (load a page, load one user, add, edit, remove) is
  three transitions: pending, fulfilled and rejected. Each transition is one method. The
  gateway's answer is the argument of the fulfilled or rejected transition. Each method's
  `modifies` clause names the fields it writes, one by one, so every other field provably
  keeps its value. The store invariant `Valid()` says the keys of the map are exactly the ids
  listed.
- **The session store** (`AuthSlice`, class `Session`). It covers the signed-in user, the
  token and its expiry, held in memory and in the browser's string-keyed store
  (`localStorage`, a `map<string, string>` field) under `auth_user`, `auth_token` and
  `auth_expiry`. The model covers restoring at start-up, the login flow with its five-minute
  expiry, the failure message, and logout.
- **The expiry gate** (`ProtectedRoute`). It is a three-way decision over the token, the
  expiry and the clock: redirect, log out and redirect, or render. The component exists in the
  source but no route uses it.
- **The users page calculations** (`UsersPage`):
  - the page count;
  - the five-button pagination window, with the loop that builds it;
  - the displayed list, which joins ids to records;
  - the case-insensitive search;
  - the previous/next buttons;
  - the busy row while a removal is under way.
- **The user form** (`UserFormPage`):
  - the validation rules and their messages;
  - the initial values taken from the selected record;
  - the create-or-edit routing of a submission.
- **The response interceptor** of the HTTP client (`Api`). It classifies each failure into the
  message the user is shown.

Two supporting modules give the JavaScript semantics that the core relies on:

- `JsValues` covers truthiness of strings and numbers, `a || b`, `String(n)`, the string to
  number conversion inside `<`, `parseInt(s, 10)` and JavaScript white space.
- `Json` covers `JSON.stringify({ email })` and `JSON.parse` of the stored user entry.

The clock (`Date.now()`, in milliseconds) is an integer parameter. The gateway's responses are
arguments. The browser's store is a field.

## Model

| member | source | states |
|---|---|---|
| UsersSlice.NormalizeKeys | src/store/usersSlice.js:62-65 | the map built by the page-load reduce has exactly the page's ids as keys |
| UsersSlice.NormalizeLastWins | src/store/usersSlice.js:62-65 | under each key sits the last record of the page with that id (a later duplicate overwrites) |
| UsersSlice.Without | src/store/usersSlice.js:129 | the filtered ids hold exactly the old ids other than the removed one, are no longer, and equal the old list when the id was absent |
| UsersSlice.WithoutAppend | src/store/usersSlice.js:129 | filtering distributes over concatenation, so the ids that stay keep their relative order |
| UsersSlice.UsersStore.constructor | src/store/usersSlice.js:34-47 | the initial state: empty map and list, page 1, total 0, six per page, not busy, no error, nothing selected; the store invariant holds |
| UsersSlice.UsersStore.SetPage | src/store/usersSlice.js:49-51 | only `page` changes, to the payload |
| UsersSlice.UsersStore.LoadUsersPending | src/store/usersSlice.js:55-58 | the list is loading and the error is cleared; nothing else changes |
| UsersSlice.UsersStore.LoadUsersFulfilled | src/store/usersSlice.js:59-70 | the map is rebuilt from the page alone (nothing of the old page is left), the ids are the page's ids in response order, the counters are copied from the response, and the store invariant holds |
| UsersSlice.UsersStore.LoadUsersRejected | src/store/usersSlice.js:71-74 | the list stops loading and the error is the message or "Failed to load users."; map, ids and counters are untouched |
| UsersSlice.UsersStore.LoadUserPending | src/store/usersSlice.js:76-80 | the selection is cleared, the action is busy and the error is cleared |
| UsersSlice.UsersStore.LoadUserFulfilled | src/store/usersSlice.js:81-84 | the selection becomes the loaded record and the action is no longer busy; map and ids are untouched |
| UsersSlice.UsersStore.LoadUserRejected | src/store/usersSlice.js:85-88 | the action is no longer busy and the error is the message or "Failed to load user."; the selection stays cleared |
| UsersSlice.UsersStore.AddUserPending | src/store/usersSlice.js:90-93 | the action is busy and the error is cleared |
| UsersSlice.UsersStore.AddUserFulfilled | src/store/usersSlice.js:94-99 | the new id is put in front of the old ids, the record is stored under its id, `total` is untouched, and the store invariant is kept |
| UsersSlice.UsersStore.AddUserRejected | src/store/usersSlice.js:100-103 | the action is no longer busy and the error is the message or "Failed to add user." |
| UsersSlice.UsersStore.EditUserPending | src/store/usersSlice.js:105-108 | the action is busy and the error is cleared |
| UsersSlice.UsersStore.EditUserFulfilled | src/store/usersSlice.js:109-116 | a held record gets the response fields merged over it; an id that is not held changes nothing and creates no entry; ids are untouched and the invariant is kept |
| UsersSlice.UsersStore.EditUserRejected | src/store/usersSlice.js:117-120 | the action is no longer busy and the error is the message or "Failed to edit user." |
| UsersSlice.UsersStore.RemoveUserPending | src/store/usersSlice.js:122-125 | the action is busy and the error is cleared |
| UsersSlice.UsersStore.RemoveUserFulfilled | src/store/usersSlice.js:126-130 | the key is deleted, every listed copy of the id is dropped with the rest in order, and the invariant is kept |
| UsersSlice.UsersStore.RemoveUserRejected | src/store/usersSlice.js:131-134 | the action is no longer busy and the error is the message or "Failed to remove user." |
| JsValues.DigitsRoundTrip | src/store/authSlice.js:7 | the decimal digits written for a number read back as that number |
| JsValues.NatToDigits | src/store/authSlice.js:7 | the decimal form of a number is a non-empty run of digits without a leading zero |
| JsValues.TrimStart | src/store/authSlice.js:24 | leading JavaScript white space is dropped and what is left does not start with white space |
| JsValues.TrimEnd | src/store/authSlice.js:24 | trailing JavaScript white space is dropped and what is left does not end with white space |
| JsValues.ToNumberOfString | src/store/authSlice.js:24 | a number written as a string and compared with `<` is read back as the same number |
| JsValues.DigitPrefix | src/components/ProtectedRoute.js:10 | `parseInt` reads the longest run of digits at the front, and that run is all digits |
| JsValues.AllDigitsPrefix | src/components/ProtectedRoute.js:10 | on a string made only of digits, the digit run `parseInt` reads is the whole string |
| JsValues.ParseIntOfString | src/components/ProtectedRoute.js:10 | `parseInt(String(n), 10)` is `n` for every integer `n` |
| Json.HexDigit | src/store/authSlice.js:6 | the hex digit written for a value reads back as that value |
| Json.UnescapeEscapeChar | src/store/authSlice.js:6 | one character escaped as `JSON.stringify` writes it decodes back to that character, whatever follows |
| Json.UnescapeEscape | src/store/authSlice.js:6 | decoding a JSON string body undoes the escaping of any string |
| Json.ParseStringify | src/store/authSlice.js:20 | parsing the stored `{ email }` entry gives back the email that was written |
| AuthSlice.LoginErrorMessage | src/store/authSlice.js:54 | a failed login reports the server's `error` when it is non-empty, otherwise "Login failed. Please check your credentials."; never an empty message |
| AuthSlice.ClearedKeepsOtherKeys | src/store/authSlice.js:13-17 | clearing removes the three session entries and leaves every other entry as it was |
| AuthSlice.RestoreAfterLogin | src/store/authSlice.js:19-29 | after a login at time t, restoring at any time before t + 300000 gives back the user `{ email }` and the token the login returned; from t + 300000 on it gives nulls |
| AuthSlice.RestoreIdempotent | src/store/authSlice.js:19-29 | restoring from the entries a restore leaves behind gives the same pair again |
| AuthSlice.Session.constructor | src/store/authSlice.js:62-69 | the start-up state is the restored user and token, with no expiry, not loading and no error; the store holds what the restore left |
| AuthSlice.Session.SetAuthData | src/store/authSlice.js:5-11 | the user `{ email }`, the expiry and the token are written over the old entries |
| AuthSlice.Session.ClearAuthData | src/store/authSlice.js:13-17 | exactly the three session entries are removed |
| AuthSlice.Session.GetAuthData | src/store/authSlice.js:19-29 | returns the stored user and token only when the token and expiry are non-empty and now < expiry; otherwise returns nulls and clears the entries |
| AuthSlice.Session.LoginSucceeded | src/store/authSlice.js:45-52 | the expiry is now + 300000, all three entries are written, and the payload is `{ user: { email }, token, expiry }` |
| AuthSlice.Session.LoginPending | src/store/authSlice.js:85-88 | loading is set and the error cleared |
| AuthSlice.Session.LoginFulfilled | src/store/authSlice.js:89-95 | loading ends; user, token and expiry are copied from the payload |
| AuthSlice.Session.LoginRejected | src/store/authSlice.js:96-101 | loading ends, the error is the message, and every session entry is cleared |
| AuthSlice.Session.LoginUser | src/store/authSlice.js:31-60 | a login that gets a token ends signed in, with a five-minute expiry, persisted and no error; a refused login keeps user, token and expiry, clears the entries and records the failure message |
| AuthSlice.Session.Logout | src/store/authSlice.js:76-81 | user and token become null and the entries are cleared, while expiry, loading and error are untouched; logging out a logged-out session changes nothing |
| ProtectedRoute.Decide | src/components/ProtectedRoute.js:9-21 | redirects exactly when there is no token; logs out only when an expiry is known and now is past it; renders only when no expiry is known or now has not passed it |
| ProtectedRoute.RenderUntilExpiry | src/components/ProtectedRoute.js:16-21 | with a token and an expiry, the gate renders up to and including the instant of expiry and logs out after it |
| ProtectedRoute.RenderWithoutExpiry | src/components/ProtectedRoute.js:9-21 | with a token but no usable expiry (missing, unparseable or zero, in the state and in storage), the gate renders |
| ProtectedRoute.GateAfterReload | src/components/ProtectedRoute.js:9-21 | after a reload (a token but no expiry in the state), the gate reads the expiry the login stored and logs out exactly when now is past it |
| ProtectedRoute.ExpiryInstantDisagreement | src/components/ProtectedRoute.js:16 | at the exact instant of expiry, restoring already yields nulls while the gate still renders |
| ProtectedRoute.Guard | src/components/ProtectedRoute.js:5-22 | the component's decision is `Decide` on the session, and only the logout branch changes the session, by logging out |
| UsersPage.CeilDiv | src/pages/UsersPage.js:24 | the result is the ceiling of the rational quotient, for either sign of the divisor |
| UsersPage.TotalPages | src/pages/UsersPage.js:22-25 | one page when `per_page` is missing, null, NaN or 0; otherwise, for a positive `per_page`, the least count of pages that holds `total` records |
| UsersPage.Range | src/pages/UsersPage.js:75-77 | the consecutive integers from `lo` to `hi`, empty when `lo > hi` |
| UsersPage.PageWindow | src/pages/UsersPage.js:69-79 | the buttons are a consecutive run from max(1, page - 2), at most five long, all within 1..totalPages, empty when there are no pages, include the current page whenever it is a valid page, and end at min(totalPages, start + 4) whenever the start is a page |
| UsersPage.PageNumbers | src/pages/UsersPage.js:69-79 | the loop that pushes the buttons produces exactly `PageWindow` |
| UsersPage.UserList | src/pages/UsersPage.js:54-57 | the displayed list is never longer than the ids, holds only stored records, and is the records of the ids in order when every id is stored |
| UsersPage.DisplayedListIsComplete | src/pages/UsersPage.js:54-57 | in a store that keeps its invariant, no id is dropped from the displayed list |
| UsersPage.Lower | src/pages/UsersPage.js:60 | lowercasing keeps the length, turns each capital A-Z into its lowercase letter, keeps every other character, and leaves no capital behind |
| UsersPage.FilterBy | src/pages/UsersPage.js:59-67 | keeps exactly the records that match, and everything when the query is empty |
| UsersPage.FilterByAppend | src/pages/UsersPage.js:59-67 | filtering distributes over concatenation, so the kept records stay in list order |
| UsersPage.FilteredUsers | src/pages/UsersPage.js:59-67 | an empty search keeps the whole list; otherwise exactly the records whose lowercased email, first name or last name contains the lowercased query |
| UsersPage.LowerIdempotent | src/pages/UsersPage.js:60 | lowercasing twice is lowercasing once |
| UsersPage.SearchIgnoresQueryCase | src/pages/UsersPage.js:59-67 | searching for a query and for its lowercase form gives the same list |
| UsersPage.PrevTarget | src/pages/UsersPage.js:205-207 | "previous" is enabled exactly when page > 1 and then asks for page - 1 |
| UsersPage.NextTarget | src/pages/UsersPage.js:226-228 | "next" is enabled exactly when page < totalPages and then asks for page + 1, never past the last page |
| UsersPage.ActionTracker.constructor | src/pages/UsersPage.js:21 | no row is remembered at first |
| UsersPage.BusyRowIsUnique | src/pages/UsersPage.js:183 | at most one row shows busy, and none while no row is remembered or no action runs |
| UsersPage.ActionTracker.BeginRemove | src/pages/UsersPage.js:30-32 | the row is remembered and the removal starts: the action is busy, the error is cleared, and a row shows busy exactly when it is the chosen one |
| UsersPage.ActionTracker.SettleRemove | src/pages/UsersPage.js:32-33 | the removal settles as its outcome says, then the row is forgotten and no row shows busy |
| UsersPage.ActionTracker.HandleRemove | src/pages/UsersPage.js:30-40 | remember the row, remove, forget the row: afterwards nothing is busy, the store's map, ids and error are as the outcome says (no error after a success), and no other store field changes |
| UserFormPage.NameMessagesNameTheirField | src/pages/UserFormPage.js:15-21 | each name-rule message begins with the label of the field it is about ("First name" or "Last name") |
| UserFormPage.NamePatternMeansNameChars | src/pages/UserFormPage.js:17 | the name pattern accepts exactly the strings made of ASCII letters and white space |
| UserFormPage.NameViolations | src/pages/UserFormPage.js:14-21 | a name breaks "required" exactly when empty, "max" exactly when longer than 50, and the pattern exactly when some character is not a letter or white space |
| UserFormPage.Validate | src/pages/UserFormPage.js:10-25 | email and avatar are required, and their format tests apply only to non-empty values; the name errors reported are exactly those of the first name plus those of the last name, each naming its own field; the form is valid exactly when every field passes every rule |
| UserFormPage.MessagesTellViolationsApart | src/pages/UserFormPage.js:12-24 | no two broken rules share a message, so each message shown names one rule of one field |
| UserFormPage.FormInitialValues | src/pages/UserFormPage.js:47-64 | with a selected record, each field is the record's value or ""; without one, all four are "" |
| UserFormPage.InitialValuesOfSaved | src/pages/UserFormPage.js:58-64 | a record saved from the form, with whatever fields the server adds, fills the form with the same values again |
| UserFormPage.SubmitIntent | src/pages/UserFormPage.js:68-72 | with a route id the submission is an edit of that id; without one it is an add; the payload is the form values either way |
| UserFormPage.HandleSubmit | src/pages/UserFormPage.js:66-79 | dispatches the edit or the add, goes to /users only on success, always stops submitting; the store's map and ids change as that transition says, the error is cleared on success and is the failure message otherwise, and no other store field changes |
| Api.ServerDetail | src/utils/api.js:34 | the detail is `data.error` when non-empty, else `data.message` when non-empty, else the generic text; never empty |
| Api.ErrorToast | src/utils/api.js:22-44 | a cancelled request shows nothing; 401, 404, other statuses, no response and setup failure each show their own message |
| Api.Intercept | src/utils/api.js:17-48 | the settled request is passed on unchanged (a success resolves, a failure is rejected again with the same error); only failures show a message |
| Api.FixedMessagesAreNotApiErrors | src/utils/api.js:28-44 | none of the fixed messages starts the way a server-error message does |
| Api.ToastDeterminesKind | src/utils/api.js:22-44 | two failures that show the same message are of the same class |

## Left out

- Rendering: JSX markup, styling and layout, and the presentation-only components and pages
  (loader, not-found page, user card and row, login page, theme toggle).
- Routing glue: the router configuration and the store setup. Also `RestrictedRoute` in
  `src/App.js`, the guard of both the public and the private routes. It looks only at
  whether `user` is set: it sends a signed-in user away from the public pages, and a
  signed-out user away from the private ones. It never looks at the expiry. The expiry gate
  is modelled on its own, because no route in `src/App.js` or `src/utils/Route.js` uses it.
- HTTP: the axios calls, time-outs, the API-key header and parameters. Each gateway answer is
  an argument of the transition it drives. Console logging is left out.
- Notifications: the interceptor's notification is returned as a value (`Api.Intercept`).
  The login thunk's failure notification is dropped. That notification shows the same text
  the rejected login stores in `error` (`AuthSlice.LoginErrorMessage`).
- Asynchrony: promises, thunks and overlapping requests. Each thunk is a sequence of
  transitions on one store. The source has no stale-response guard, so a late page response
  overwrites a newer one. The model adds no guard.
- The page's load-on-page-change effect, and the form's load-on-mount effect. The form's call
  to `clearSelectedUser`, and its `loading` field, are not part of the users store shown,
  so they are not modelled. The `window.confirm` prompt before a removal is the caller's
  choice to call `HandleRemove`.
- Yup's `.email()` and `.url()` tests are library internals. They arrive as boolean
  arguments of `Validate`.
- User records are flat maps from field names to strings, and ids are strings. The source
  keys its map by `String(id)` and compares removed ids by `String(id)`. A numeric id and its
  decimal string are therefore the same key in both.
- The page response's `page`, `total` and `per_page` are integers in the store. A response
  missing one of them is not modelled. `UsersPage.TotalPages` does take a possibly missing
  or NaN `per_page`.
- UsersPage.Lower: lowercases ASCII letters only. JavaScript's `toLowerCase` also maps
  non-ASCII letters.
- UserFormPage.NameViolations: the 50-character limit counts characters. JavaScript counts
  UTF-16 code units, so characters outside the Basic Multilingual Plane count twice there.
- JsValues.ToNumber: reads only an optionally signed run of decimal digits, after trimming.
  Fractions, exponents, hex forms and `Infinity` are read as NaN. Every string this program
  stores is an integer written by `String(n)`.
- JsValues.NumberToString: writes every integer in plain decimal. JavaScript numbers lose
  precision above 2^53 and switch to exponent notation from 1e21. Expiry times are far
  below both.
- Json.Parse: recognises `null`, and the exact shape `{"email":"..."}` with any JSON string
  body whose `\u` escapes do not name surrogates. That is more than `JSON.stringify({ email })`
  writes: for example `\/`, `\u0041` and upper-case hex digits are also read. Other stored text
  becomes `Unrecognised`, even where `JSON.parse` would give the same `{ email }`. Examples are
  text with white space around the key or value, extra keys, or an email written with a
  surrogate-pair escape. Text that is not JSON at all makes JavaScript throw at start-up.
- AuthSlice.Session.LoginUser: a login response is either a token or a refusal. A successful
  response without a `token` field is not modelled.
- Api.ServerDetail: the error body always has `error` and `message` slots, each possibly
  absent. A failed response with no body, where JavaScript would throw inside the
  interceptor, is not modelled.
