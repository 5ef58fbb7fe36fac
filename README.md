# VeXeKhach backend core in Dafny

A model of the sequential logic of a bus-ticket booking backend:

- **Input validators** (`validators.dfy`, module `Validators`): the password
  check runs five rules (at least 8 characters, an ASCII upper-case letter, a
  lower-case letter, a digit, a character from `!@#$%^&*(),.?":{}|<>`) and
  reports the first rule that fails. The username check tests the length
  (3 to 20) and then the pattern "letter, then letters, digits or `_`".
  Both are total and return a `Verdict(ok, message)`.
- **User lifecycle** (`users.dfy`, module `Users`): a class `UserDirectory`
  over a `map<Id, UserRecord>` with the three handlers `Register`,
  `VerifyEmail` and `Login`. An account goes from unregistered to
  *pending verification* (registration) to *verified* (verification). Login
  succeeds only for a verified account. The invariant `DirectoryInvariant`
  says that emails, usernames and pending tokens are unique and that each
  record's token fields agree with its state. Every handler keeps it.
- **Seats and buses** (`transport.dfy`, module `Transport`): seat generation
  for a bus, with seat numbers `A01`, `A02`, …, `A10`, … built by a loop. The
  module also has the guard of bus creation and the filter the bus listing
  builds (route id, day window, paging). In `app/main.py:17` only the user
  router is mounted, so these handlers are not reachable in the application
  as shipped. Moreover, `app/schemas.py` defines none of the route, bus and
  seat schemas (`RouteCreate`, `RouteResponse`, `BusCreate`, `BusResponse`,
  `SeatResponse`) that `app/routes/route_routes.py` names in its handler
  signatures, so that module cannot even be imported as shipped.
- `common.dfy` (module `Common`): `Option`, `Result`, `HttpError(status,
  detail)` and the time unit (milliseconds).

The hasher, the password verifier, the session-token issuer and the mail
sender belong to modules that are not part of this model. Each handler
receives them as function parameters, and nothing is assumed about what
they compute. The clock, the random verification token, the identity the
store assigns to a new document, and the store's duplicate-key rejection are
parameters too.

Details of the handlers that the model keeps:
- Username validation reports two different messages, one for the length
  and one for the pattern.
- The verification email is awaited in line. Its boolean outcome is
  discarded, so it cannot change the response.
- A record without a password hash makes login fail with status 500 and the
  detail "User data error: missing password!".

## Model

| member | source | states |
|---|---|---|
| Validators.Search | app/validators.py:17-26 | a regular-expression search for a character class succeeds iff some character of the string is in the class |
| Validators.ValidatePassword | app/validators.py:4-29 | accepted iff all five rules hold; when rejected, the message is that of rule i exactly when rule i is the first broken one in the order length, upper, lower, digit, special; a password shorter than 8 always gets the length message |
| Validators.FullMatchUsername | app/validators.py:42 | the pattern matches the whole string iff it is non-empty, starts with an ASCII letter, and the rest are letters, digits or `_` |
| Validators.PythonMatchUsername | app/validators.py:42 | `re.match` succeeds iff some prefix of the string is a letter followed by letters, digits or `_` and ends where Python's `$` holds: at the end of the string or just before a final newline |
| Validators.ValidateUsernameAsWritten | app/validators.py:31-45 | the check as written: a length outside 3..20 gives the length message before the pattern is looked at; accepted iff the length is in range and `re.match` succeeds; a name of valid length that fails `re.match` gets the pattern message; an accepted name gets "Username hợp lệ" |
| Validators.ValidateUsername | app/validators.py:31-45 | a length outside 3..20 gives the length message; a name of valid length is accepted iff it starts with a letter and the rest are letters, digits or `_`, and otherwise gets the pattern message |
| Validators.TrailingNewlineAccepted | app/validators.py:42-45 | `"abc\n"` is accepted by the check as written and rejected by the full-match check |
| Validators.AsWrittenDiffersOnlyOnTrailingNewline | app/validators.py:39-45 | the two username checks disagree exactly on names of valid length that are a valid name plus one final newline, and there the check as written accepts |
| Users.PendingRecord | app/routes/user_routes.py:43-56 | the inserted record is pending, unverified, has `created_at = now`, no verification time, the hash of the password, and a token that is usable exactly until now + 24 h (strictly before) and for no other token |
| Users.MarkVerified | app/routes/user_routes.py:107-118 | the verified record keeps username, email, hash and creation time, records the verification time, and holds no token that can ever be consumed again |
| Users.LoginChecks | app/routes/user_routes.py:159-180 | on the found record: missing hash gives 500, wrong password gives the 400 "Incorrect email or password!", a correct password on an unverified account gives 403; success iff hash present, password correct and account verified, with token type "bearer", a token for the record's id with a 60-minute lifetime, and the record's profile (id, username, email, creation time, verification time, verified flag) |
| Users.InsertPendingKeepsInvariant | app/routes/user_routes.py:30-59 | inserting a pending record whose email, username and token are new keeps emails, usernames and tokens unique and every record consistent with its state |
| Users.MarkVerifiedKeepsInvariant | app/routes/user_routes.py:80-118 | verifying the record that holds a consumable token keeps the invariant, and afterwards no record holds that token |
| Users.UserDirectory.Register | app/routes/user_routes.py:16-74 | username errors before password errors (400, the validator's message); a found email match before a username match; when the email and the username match different records either error may come; a store duplicate-key rejection gives 400 "Email or username already exists!"; every failure leaves the directory unchanged; success adds exactly the pending record under the new id and returns an unverified profile; the mail outcome does not affect anything |
| Users.UserDirectory.VerifyEmail | app/routes/user_routes.py:76-118 | succeeds iff some record holds the token with an expiry strictly after now; failure is the single 400 and changes nothing; success replaces only that record by its verified form; afterwards the token is held by no record, so a second call fails |
| Users.UserDirectory.Login | app/routes/user_routes.py:152-181 | an unknown email gives the same 400 as a wrong password, and so does an email whose every record rejects the password, so the two failures cannot be told apart; otherwise the result is that of the login checks on the record with that email; a success implies a verified record; the directory is only read |
| Users.SampleInputAccepted | app/validators.py:14-45 | the sample registration input `alice` / `Abcd123!` passes both validators |
| Users.LifecycleScenario | app/routes/user_routes.py:16-181 | from an empty directory, for any input both validators accept: registration returns the unverified profile, login before verification gets 403, verification a minute later greets the user, login then returns a bearer token for the new id with a verified profile, and reusing the token fails |
| Users.VerifyThenLogin | app/routes/user_routes.py:76-181 | on a directory holding one pending account: verification with its token succeeds, the following login succeeds with a bearer token, and a second verification with the same token fails |
| Transport.DecimalRoundTrip | app/routes/route_routes.py:148 | reading back the decimal text of n gives n |
| Transport.LeadingZeroIgnored | app/routes/route_routes.py:148 | the zero padding does not change the number a digit string denotes |
| Transport.SeatNumber | app/routes/route_routes.py:148 | seat i's number is "A" followed by digits that denote i, at least two of them: three characters in all below 100, and from 10 on the plain decimal of i with no leading zero (A100, not A0100) |
| Transport.SeatNumbersDistinct | app/routes/route_routes.py:146-148 | different seat indices give different seat numbers |
| Transport.SeatPlan | app/routes/route_routes.py:145-154 | exactly `capacity` seats for a positive capacity and none otherwise; seat k numbered for k + 1, each for the given bus, available, at the route's price and created at the one given time; all numbers distinct |
| Transport.BuildSeats | app/routes/route_routes.py:145-154 | the loop produces exactly the seat plan |
| Transport.SeatsOf | app/routes/route_routes.py:135 | the seats of a bus all carry its id, and the list is empty iff no seat of the collection belongs to the bus |
| Transport.SeatsOfAppend | app/routes/route_routes.py:155-156 | the seats of a bus in a collection extended by a batch are its old seats followed by those of the batch |
| Transport.SeatsOfOwn | app/routes/route_routes.py:156 | a batch whose seats all belong to the bus is listed back whole, in order |
| Transport.BatchListedBack | app/routes/route_routes.py:155-156 | after a batch of seats is appended for a bus that had none, listing the bus's seats gives back exactly that batch |
| Transport.TransportStore.CreateBus | app/routes/route_routes.py:33-51 | a missing route is reported as 400 "Invalid route ID format" (the 404 is swallowed by the catch-all) and inserts nothing; otherwise exactly the new bus is added with its creation time |
| Transport.TransportStore.CreateBusSeats | app/routes/route_routes.py:121-163 | a missing bus gives 400 "Invalid bus ID format" (the 404 is swallowed); existing seats give 400 "Seats already created for this bus"; a missing route gives 404; a capacity of 0 or less gives 500 (empty batch); otherwise exactly the seat plan is appended and the first 100 of it are returned; failures change nothing, routes and buses never change |
| Transport.StartOfDay | app/routes/route_routes.py:93 | midnight of the day holding t: a multiple of a day, at most t, less than a day before it |
| Transport.BusQueryFor | app/routes/route_routes.py:78-95 | skip defaults to 0 and limit to 10; the query exists iff skip ≥ 0 and 1 ≤ limit ≤ 100, otherwise 422; a route filter exactly when a non-empty route id is given; a departure window exactly when a date is given |
| Transport.DayFilterIsSameDay | app/routes/route_routes.py:91-95 | a bus passes the date filter iff it departs, in UTC, on the calendar day written in the date, no later than 23:59:59.000 of it |
| Transport.SameDayWindow | app/routes/route_routes.py:93-95 | the closed interval from midnight to 23:59:59 of a day holds exactly the instants of that day whose time of day is at most 23:59:59 |
| Transport.OffsetDateKeepsWrittenDay | app/routes/route_routes.py:91-95 | for a date written with a positive offset early in its day, the instant falls on the previous UTC day while the filter keeps the day as written, so the window starts after that instant |

## Findings

| source | as written | input that shows it | evidently intended | confidence | as-written member | corrected member |
|---|---|---|---|---|---|---|
| app/validators.py:42 | `re.match` with a pattern ending in `$` also matches before one final newline, so a username ending in `"\n"` passes | `"abc\n"` (length 4): accepted with "Username hợp lệ" | only letters, digits and `_`, as the docstring at app/validators.py:34-37 says | medium; not executed | Validators.ValidateUsernameAsWritten, shown by Validators.TrailingNewlineAccepted | Validators.ValidateUsername (used by registration) |

## Left out

- Validators.ValidatePassword: the digit rule is ASCII `0-9`; Python's `\d` on text also accepts other Unicode decimal digits, so a password whose only digit is, say, an Arabic-Indic digit is rejected here and accepted by the original.
- Users.UserDirectory.Register: uses the full-match username check (see Findings), so a name with one trailing newline is rejected here and accepted by the original.
- Users.UserDirectory.Register: requires that the new identity is not in use and that no record holds the new verification token. The store assigns fresh identities, and a collision of 32 random bytes is not modelled.
- Transport.TransportStore.CreateBus: requires that the new bus identity is not in use, since the store assigns fresh identities.
- Users.UserDirectory.VerifyEmail: the lookup and the verification time use one instant `now`; the original reads the clock twice (lines 82 and 107).
- Users.UserDirectory.Login: a stored `is_email_verified` that is missing is modelled as `false`, and a `hashed_password` key that is present but null is not modelled.
- Transport.TransportStore.CreateBusSeats: every seat gets the same creation time, while the original reads the clock once per seat. The identities the store gives the new seats, which lines 159-162 copy into each response item, are not modelled. The listing is assumed to come back in insertion order, which the store does not promise.
- Transport.BusQueryFor: only the filter is built. Applying skip and limit and the order of the listing are store behaviour and are not modelled.
- Transport.BusQueryFor: the 422 response's detail, a list of validation errors, is reduced to one status and text.
- Transport.BusQueryFor: a date-time is given as its wall-clock reading and offset; parsing the query text and calendar arithmetic on year, month and day are not modelled.
- Email delivery (SMTP, MIME, environment settings): left out. Its only trace is the sender passed to `Register`, whose result is discarded; it never raises.
- Password hashing, password verification and the signed session token (issue and validate, expiry, forgery): the auth module is not part of this model.
- The race between the duplicate pre-check and the insert is represented only by the `insertRejected` flag of `Register`.
- ObjectId parsing: ids are abstract keys. A malformed id and a missing one give the same 400 in both guards. A malformed `route_id` stored on a bus, which the route lookup of seat generation (app/routes/route_routes.py:140) would turn into an uncaught 500, cannot arise here.
- `create_route`, `get_routes` (case-insensitive regex filters), `get_bus_detail`, `get_bus_seats`: plain reads and inserts with no logic beyond the store's; not modelled.
- The route price is an integer here; the original copies whatever number the route holds.
- HTML page bodies of the verification handler: success is modelled as the username and email the page shows, failure as status 400 with the page's message.
- Email address syntax (`EmailStr`), connection setup, CORS and router wiring: library behaviour and plumbing.
