# Clinic appointment backend: accounts, sessions and bookings

This project models the core of a small Flask backend for a clinic appointment
app (`server.py`). The core is the account and booking state machine behind its
five HTTP handlers:

- `/signup` registers a user and mails a six-digit confirmation code.
- `/confirm_email` marks the user confirmed when email and code match.
- `/login` issues a one-day bearer token to a confirmed user.
- `/protected` is guarded by `token_required` and returns the caller's profile
  without its secret fields.
- `/appointment` mails the doctor and stores a booking.

The model has six modules:

- `Wrappers` holds `Option`.
- `Digits` models Python's `str` on non-negative integers. It proves that
  `str(randint(100000, 999999))` is exactly a six-digit code with no leading
  zero, and the converse.
- `Tokens` models the token service (`AuthService`). A JWT is abstracted to
  the claim it carries. `Signed(email, exp)` stands for a token with a valid
  signature under the server's key; any other query string is `Unsigned(text)`.
  The model trusts any `Signed` value a request carries, and no proved property
  depends on a token having been issued by login. `GenerateToken`,
  `VerifyToken` and the guard `TokenRequired` are pure functions of the token
  and the current time, in whole seconds.
- `Handlers` holds the data model and each handler as a pure function. The
  data model uses the user document's own keys (`firstname`, `lastname`,
  `email`, `password`, `dob`, `role`, `confirmation_code`, `is_confirmed`),
  bookings, mails and responses. Each handler function maps the old
  collections, the parsed request and the oracle outcomes to the new
  collections, the mails delivered and the response. Each function's contract
  states the status-code decisions and what changes and what does not. For
  `Signup`, `ConfirmEmail` and `Appointment` the contract also states that the
  collection invariant `Valid` is preserved and that the evolution relation
  `Evolves` holds. `Login`, `ProtectedGet` and `Protected` return only a
  response; `Sessions.Step` states that a login or protected request leaves the
  collections unchanged, so both facts hold for them too.
- `Store` holds the class `AccountStore`, with a `users` map keyed by email
  and a `bookings` sequence that its methods update in place, and a `Mailer`
  whose sends may fail. Each method runs the source's steps in order. It is
  proved to leave exactly the state, outbox and response that the matching
  `Handlers` function gives for the oracle outcomes it met.
- `Sessions` serves arbitrary sequences of requests. It proves by induction
  that the invariants survive any interleaving, and it proves the
  sign-up-to-profile walk-through.

The model uses three oracles:

- Password hashing is a `Codec`, a pair of arrows `hash(password, salt)` and
  `check(digest, password)`. The model assumes only `Sound`: a digest checks
  against its own password.
- `randint` is a nondeterministic choice in [100000, 999999].
- Sending a mail either delivers it or fails. A failure is the exception
  `send_email` raises: the request ends with 500 and nothing after the send
  runs.

Behaviour of the code worth noting:

- Appointment. A failed doctor mail raises out of the handler, so no booking
  is stored and the reply is 500.
- Signup. The code hashes the password (line 98) before it checks for an
  existing email (line 100). The hash is a pure oracle here, so the order is
  not observable.
- The guard. The code refuses a validly signed token whose email claim is
  empty, as well as a missing or expired token. `Sessions.EmptyEmailTokenRefused`
  shows the consequence: an account registered under the empty email can log in
  but is never let through.

## Model

| member | source | states |
|---|---|---|
| `Digits.DecimalString` | server.py:103 | the decimal rendering is a non-empty digit string whose first digit is zero only for zero |
| `Digits.CodeOfDraw` | server.py:103 | every draw in [100000, 999999] renders as a six-digit code without a leading zero and reads back as the draw |
| `Digits.DrawOfCode` | server.py:103 | every six-digit code without a leading zero is the rendering of exactly one draw in [100000, 999999] |
| `Tokens.VerifyToken` | server.py:62-68 | a token verifies exactly when it carries a valid signature and the current time is before its `exp` claim (rejected once the time has reached `exp`), and it then yields the token's email |
| `Tokens.GenerateToken` | server.py:55-68 | a generated token verifies to its email at every time before issue time plus `exp_days` days, and to nothing from then on |
| `Tokens.TokenRequired` | server.py:71-83 | the guard answers "Token is missing" exactly when the parameter is absent or empty (`Tokens.Absent`, the `if not token` test at lines 74-75), answers "Token is invalid or expired" exactly when verification fails or yields an empty email, and otherwise passes on the verified email as `g.user` |
| `Tokens.GuardOnIssuedToken` | server.py:55-83 | an issued token passes the guard exactly while within the validity window and with a non-empty email; otherwise it is refused as invalid or expired |
| `Handlers.Signup` | server.py:88-125 | missing argument gives 400 with the parser's missing-argument body; an existing email gives 409 "Email already exists" with nothing changed and no mail; mail failure gives 500 with the server-error body and nothing changed; otherwise exactly one unconfirmed user is inserted for that email holding the hash of the password, the input fields and a six-digit code equal to the draw, that same code is mailed to the user, all other users and bookings are kept, and 201 is returned with the sign-up success message; `Valid` is preserved |
| `Handlers.ConfirmEmail` | server.py:128-139 | 200 exactly when a user matches both email and code, and then that user is confirmed, the key set is kept and no other user changes; otherwise 400 with nothing changed, with the missing-argument body when the form is absent and the bad-code message when it does not match; bookings never change and no mail is sent |
| `Handlers.Login` | server.py:142-155 | 401 with one message when the email is unknown or the password check fails; 403 when the password checks but the user is unconfirmed; 200 only for a confirmed user, with a token that verifies to the stored email for one day |
| `Handlers.UserDocument` | server.py:114-123 | a stored user document has exactly the eight keys the signup handler writes |
| `Handlers.ProtectedGet` | server.py:159-166 | 200 exactly when a user has the guard's email, and then the document holds exactly the non-secret keys with their stored values and none of `_id`, `password`, `confirmation_code`; otherwise 404 "User not found" |
| `Handlers.Protected` | server.py:157-166 | 401 with the guard's message exactly when the guard refuses; otherwise the reply is the profile lookup for the email the guard passed on as `g.user`: 200 with that user's non-secret fields when the user exists, 404 when it does not |
| `Handlers.Appointment` | server.py:169-201 | 201 exactly when all arguments are present and the doctor mail went out, and then exactly one booking equal to the five inputs is appended to the unchanged earlier bookings and the doctor is mailed that booking; otherwise nothing changes, no mail is sent, and the reply is 400 with the missing-argument body or 500 with the server-error body; users never change |
| `Handlers.ConfirmEmailIdempotent` | server.py:134-137 | confirming with a matching email and code a second time returns 200 again and leaves the collections as the first call left them |
| `Handlers.SignupThenLogin` | server.py:98-151 | after a successful signup, logging in with the chosen password is refused with 403 "Email not confirmed" |
| `Store.Mailer.Send` | server.py:38-48 | a send either appends the mail to the outbox or fails and leaves the outbox unchanged |
| `Store.AccountStore.constructor` | server.py:21-28 | the store opens the existing collections, whatever well-formed users and bookings they already hold, and keeps them as they are |
| `Store.AccountStore.Signup` | server.py:88-125 | the in-place handler leaves the collections, the outbox and the response that `Handlers.Signup` gives for the salt, draw and mail outcome it met, and keeps the store valid |
| `Store.AccountStore.ConfirmEmail` | server.py:128-139 | the in-place handler leaves the collections and response that `Handlers.ConfirmEmail` gives, and keeps the store valid |
| `Store.AccountStore.Login` | server.py:142-155 | the handler changes nothing and answers what `Handlers.Login` gives |
| `Store.AccountStore.Protected` | server.py:157-166 | the guarded handler changes nothing and answers what `Handlers.Protected` gives |
| `Store.AccountStore.Get` | server.py:159-166 | popping `_id`, `password` and `confirmation_code` from the user document answers what `Handlers.ProtectedGet` gives |
| `Store.AccountStore.Appointment` | server.py:169-201 | the in-place handler leaves the collections, the outbox and the response that `Handlers.Appointment` gives for the mail outcome it met, and keeps the store valid |
| `Sessions.Step` | server.py:100-201 | every handler keeps users under their own email with valid codes, removes and replaces no user, never unconfirms, only appends bookings; login and protected change nothing; no profile body carries a secret key |
| `Sessions.RunEvolves` | server.py:100-136 | across any sequence of requests the invariant holds, no user record is removed or replaced, `is_confirmed` never goes from true to false, and earlier bookings are kept |
| `Sessions.RegisteredEmailStaysTaken` | server.py:100-101 | after any sequence of requests, a signup for an already registered email is refused with 409, sends nothing and changes nothing |
| `Sessions.EmptyEmailTokenRefused` | server.py:74-83 | a confirmed account under the empty email is issued a token by login that the guard refuses as invalid |
| `Sessions.Walkthrough` | server.py:88-166 | signup returns 201 and mails the code; a wrong code returns 400 and the user stays unconfirmed; the mailed code returns 200 and confirms; login returns 200 with a token; the protected profile returns 200 with the first name and no password |

## Left out

- SMTP transport and MIME construction (`EmailService.send_email`). This is network I/O, so a send is a call that either delivers or fails.
- HTML mail bodies. They are string templating; a mail carries only the confirmation code or the booking it reports.
- MongoDB client wiring. The collections are an in-memory map and sequence. The driver-assigned `_id` is not modelled; it is never returned.
- Database failures. The server does not catch them, and only a mail failure is modelled as ending a request with 500.
- Flask, flask_restful, CORS and route registration. The argument parser is modelled only as a form that is absent or complete. An absent form short-circuits to 400; the per-field help message and `type=str` coercion are not modelled.
- HS256 signing and JWT decoding. A token is its `(email, exp)` claim; `Signed` stands for a valid signature under the server's key and is trusted whatever its origin. A malformed or wrongly signed string is `Unsigned`. The library's own claim checks other than `exp` are not modelled.
- Time below one second. The clock is a whole-second parameter, which matches the integer `exp` claim.
- The password hashing library, a foreign call. The model assumes only that a digest checks against its own password. The library's salt format and version-dependent hash methods are not modelled.
- The process environment. The secret key and mail credentials are not modelled. The doctor's address, which the code reads from the environment on each appointment request, is a configuration constant of the store.
- The race between the email lookup and the insert under concurrent signups. Requests are handled one at a time.
- Store.AccountStore.constructor: the collections it opens are required to be well formed (each user stored under its own email, with a six-digit code). Documents that other programs may have written to the same database in another shape are not modelled.
