# Auth handlers and error toasts of a small e-commerce app, in Dafny

This project models the two pieces of logic of the web-development-course shop:

- the backend's authentication (`backend/app.py`): the input filter `sanitize_input`,
  `register`, which inserts a user into the `users` table only when the email is new, and
  `login`, which looks the user up by email and verifies the bcrypt hash; both issue a
  one-hour JWT carrying `user_id` and `username`;
- the frontend's `ExceptionHandler` (`frontend/src/utils/ExceptionHandler.js`), which turns
  an axios error into a toast, or into the session-expiry path (toast, token removal,
  redirect to `/`).

Modules:

- `Sanitizer` (`sanitizer.dfy`): `Sanitize` and its properties: only allowed characters
  survive, order is kept, every allowed character is kept, idempotence, fixed points.
- `Auth` (`auth.dfy`): the `users` table as the class `UserTable` (rows in storage order and
  the next auto-increment id), with `Register` changing the rows in place and `Login` only
  reading them. bcrypt is symbolic: `Hash(p, salt)` is a digest that records its inputs and
  `Check(p, d)` re-derives with `d`'s salt, so `Check(p, Hash(p, s))` holds and no other
  password passes (an ideal hash). A token is the signed payload
  `{user_id, username, exp}` with its key and algorithm (`HS256`, section 3.2 of RFC 7518);
  `exp` is the claim of section 4.1.4 of RFC 7519, in seconds. The time `now`, the salt
  drawn by `bcrypt.gensalt()`, the JWT secret and whether the database connection came up
  are parameters.
- `ExceptionHandler` (`exception_handler.dfy`): the handler as the total function `Handle`
  from the shape of an axios error to the sequence of effects it performs, or to a thrown
  `TypeError`.
- `EndToEnd` (`end_to_end.dfy`): what the axios interceptor and `ExceptionHandler` do with the backend's own replies.

Where the code differs from what one would expect of it, the model follows the code:

- The handler takes `status` and `message` from `error.response.data.error`, not from the
  HTTP status of the response. The backend's error bodies are `{"error": "<text>"}`, a
  string with no `status`, so the backend's 401 "Invalid credentials!" is shown as an error
  toast and never triggers the session-expiry path (`EndToEnd.InvalidCredentialsIsNotSessionExpiry`).
- The message passed on is `message ?? data.error`. Once the destructuring has succeeded,
  `data.error` is not nullish, so neither any default text of the `switch` nor the 430
  fallback to the response object can be reached through `ExceptionHandler`; a record with
  a status and no message is handed to `Toast` as the object itself
  (`ExceptionHandler.DefaultsUnreachable`, `ExceptionHandler.NeverWholeResponse`). The
  defaults are still proved for `handleStatusCodeError` on its own.
- When `data` or `data.error` is missing, the destructuring throws before any toast; the
  model returns `Raised("TypeError")`.
- `login` takes the first row in storage order with the email. Under the table invariant
  (unique emails, kept by `Register`) that is the only such row.

## Model

| member | source | states |
|---|---|---|
| `Sanitizer.Sanitize` | backend/app.py:49-50 | the result contains only word characters, whitespace, `@`, `.` and `-`, and is never longer than the input |
| `Sanitizer.SanitizeIsSubsequence` | backend/app.py:50 | the result is a subsequence of the input: characters keep their original order |
| `Sanitizer.SanitizeCounts` | backend/app.py:50 | every allowed character occurs in the result exactly as often as in the input; a disallowed one never occurs |
| `Sanitizer.SanitizeConcat` | backend/app.py:50 | sanitizing a concatenation is concatenating the sanitized parts: each character is kept or dropped on its own |
| `Sanitizer.SanitizeFixedPoints` | backend/app.py:50 | the input comes back unchanged if and only if it has no disallowed character |
| `Sanitizer.SanitizeKeepsClean` | backend/app.py:50 | an input of allowed characters only is returned unchanged |
| `Sanitizer.SanitizeLength` | backend/app.py:50 | the length is kept if and only if nothing is disallowed |
| `Sanitizer.SanitizeIdempotent` | backend/app.py:50 | sanitizing twice equals sanitizing once |
| `Auth.CheckHash` | backend/app.py:121 | `checkpw(p, hashpw(p, salt))` holds; under the ideal hash no other password passes |
| `Auth.Find` | backend/app.py:68-69 | `SELECT … WHERE email` + `fetchone` finds nothing exactly when no row has the email, else the first row in storage order that has it |
| `Auth.FindUnique` | backend/app.py:117-119 | with unique emails the lookup returns exactly the row with that email |
| `Auth.FindAppended` | backend/app.py:74-82 | after inserting a row with a fresh email, the lookup by that email returns the inserted row |
| `Auth.UserTable.Register` | backend/app.py:55-103 | no connection: 500 and table unchanged; email (sanitized) present: 400 "User already exists!" and table unchanged; otherwise exactly one row appended with the next id, sanitized username and email and `Hash(raw password)`, other rows unchanged, and 201 with that row's id/username/email and an HS256 token signed with the secret whose claims are exactly that user's id and username and `exp = now + 3600`; unique emails and fresh ids preserved |
| `Auth.UserTable.Login` | backend/app.py:108-142 | no connection: 500; otherwise 200 with a token for the row found by the sanitized email iff that row exists and the password checks against its hash, else 401 "Invalid credentials!"; a 200 token's claims are exactly the returned user's id and username with `exp = now + 3600`; with unique emails, success iff some row has the email and a matching hash; the table is not modified |
| `Auth.RegisterThenLogin` | backend/app.py:55-142 | after a 201 registration, logging in with the same raw email and password gets 200 for the same user, with a token claiming the registered user's id and username and `exp` one hour after the login time; logging in with the echoed (sanitized) email gets the same |
| `Auth.RegisterTwice` | backend/app.py:67-72 | a second registration of the same email is refused with 400 and the first user's row stays as inserted |
| `ExceptionHandler.StatusCodeError` | frontend/src/utils/ExceptionHandler.js:11-52 | every branch shows one toast of kind "error", whose text is the supplied message whenever there is one |
| `ExceptionHandler.Handle` | frontend/src/utils/ExceptionHandler.js:55-65 | no response: exactly the toast "No Internet Connection" (error); a thrown TypeError iff `data.error` is missing; the session-expiry effects iff `data.error.status` is 401; any other response: exactly one error toast |
| `ExceptionHandler.DefaultTexts` | frontend/src/utils/ExceptionHandler.js:13-47 | with no message, each listed status shows its fixed text, and 430 shows the response object |
| `ExceptionHandler.UnknownStatus` | frontend/src/utils/ExceptionHandler.js:49-51 | with no message, a status not in the switch (or none) shows "Unknown Error" |
| `ExceptionHandler.AuthPathHasNoErrorToast` | frontend/src/utils/ExceptionHandler.js:4-9 | no toast on the session-expiry path is of kind "error" (the path itself, the toast "Your session has expired" of kind "success", removal of `token` and redirect to `/`, is the definition `AuthErrorEffects`) |
| `ExceptionHandler.MessageShown` | frontend/src/utils/ExceptionHandler.js:56-61 | for a status other than 401, a supplied message is shown verbatim as an error toast |
| `ExceptionHandler.PlainShown` | frontend/src/utils/ExceptionHandler.js:56-61 | a string `data.error` is shown verbatim as an error toast, whatever the HTTP status |
| `ExceptionHandler.DefaultsUnreachable` | frontend/src/utils/ExceptionHandler.js:61 | a record without a message falls back to the record itself, so the switch's default text is not used |
| `ExceptionHandler.NeverWholeResponse` | frontend/src/utils/ExceptionHandler.js:43-44 | no outcome of the handler shows the 430 fallback, the response object |
| `ExceptionHandler.HttpStatusIgnored` | frontend/src/utils/ExceptionHandler.js:55-62 | the outcome is the same for every HTTP status of the response |
| `EndToEnd.Deliver` | frontend/src/utils/ApiCall.js:25-37 | a reply reaches the handler exactly when its status is outside 2xx, and a `{"error": text}` reply outside 2xx becomes exactly one error toast of that text |
| `EndToEnd.BackendErrorsShownVerbatim` | backend/app.py:63-72 | each error reply of register and login (500 at lines 65 and 115, 400 at line 72, 401 at line 142) is shown as an error toast of its own text |
| `EndToEnd.InvalidCredentialsIsNotSessionExpiry` | backend/app.py:142 | the 401 of a failed login is shown as the toast "Invalid credentials!" and does not log the user out |
| `EndToEnd.LoginAsSeen` | frontend/src/utils/ApiCall.js:31-36 | at the interceptor, a 200 login is not handled as an error; every other login reply becomes the handler's error toast with the backend's text |

## Left out

- Flask routing, request JSON parsing (a missing field raises a `KeyError`), CORS and the rate limiter: framework wiring.
- pymysql connection handling: replaced by the `connected` flag; the connection left open on register's 400 path and on login's 200 path (both return before `connection.close()`) is a resource matter not modelled. Only a failure of `get_db_connection` is modelled: an exception from `cursor.execute` or `commit` after connecting escapes the handler as Flask's HTML 500, whose body has no `data.error`, so the frontend handler would take its TypeError path. Table ids come from a counter standing for MySQL's auto-increment.
- `Auth.Find`: emails are matched by exact string equality; MySQL compares them under the column's collation, which by default ignores letter case and, for PAD SPACE collations, trailing spaces, so "Alice@x.com" would find "alice@x.com" in the source but not in the model. The schema is not part of this model.
- `Auth.UserTable.Register`: each handler is modelled as one atomic step. Requests served concurrently can both pass the SELECT before either INSERT and store the same email twice, since no UNIQUE index is part of this model; "unique emails preserved" holds only for requests handled one at a time.
- bcrypt internals and the HS256 MAC: external cryptographic libraries, kept symbolic.
- `Auth.CheckHash`: the ideal hash distinguishes every pair of passwords; bcrypt before version 5.0 only looks at the first 72 bytes of the UTF-8 encoding, and from 5.0 `hashpw` raises `ValueError` for a longer password, so `register` would fail with an unhandled 500; the version is not fixed by the modelled code and neither behaviour is captured.
- `datetime.utcnow()`, `.env` loading and `JWT_SECRET`: time and environment input, taken as the parameters `now` (whole seconds) and `secret`.
- `Sanitizer.Sanitize`: Python's `\w` and `\s` are Unicode-aware; the model classifies by ASCII only and therefore also deletes non-ASCII letters, digits and spaces that Python keeps.
- `ExceptionHandler.Handle`: `data.error` is modelled as missing (undefined or null), a string, or an object whose `status` is a number or missing and whose `message` is a string or missing; a number, boolean or array in `data.error` (destructured without error, `status` undefined, the value itself toasted) and other kinds of `status` or `message` are not modelled.
- The rendering of a toast and whether the redirect unloads the page: browser effects, represented only as the returned effect list.
- Cart, product catalogue and stock adjustment: no handler for them is among the modelled files.
- The React components (Register.jsx, Login.jsx, CartProduct.jsx, HeroSection.jsx) and the axios wrapper in ApiCall.js beyond which replies reach the handler: UI and library code. After `ExceptionHandler` the interceptor rejects with the same error and `ApiCall` rethrows it, so the components' own handlers run as well: Login.jsx:53 adds a second error toast of `error.error` (undefined on an axios error) for every non-2xx login, and Register.jsx:54 adds the alert "An error occurred during registration".
