# Loan-intake portal: a verified model of its decision core

Finverge is a loan-intake portal. Borrowers register, log in and submit loan
applications. Each submission gets an interest rate, an amortised monthly
instalment (EMI) and an advisory eligibility preview, and an
`application_created` event is logged. Administrators list and read
applications, change their status (`Pending`, `Approved`, `Rejected`) and
append notes; each change appends one event. A browser-only demo
(`frontend/app.js`) repeats the calculator and keeps its own users and
applications in `localStorage`.

This project models that core in Dafny, one module per source component:

| module | file | models |
|---|---|---|
| `Common` | common.dfy | JavaScript truthiness, ASCII `toLowerCase`, `trim`, `split`/`join`, and the SQL `WHERE`/`ORDER BY … DESC`/`LIMIT` used by the queries |
| `Finance` | finance.dfy | `calcInterestRate` and `monthlyPayment` (backend/src/utils/finance.js), over exact reals |
| `Eligibility` | eligibility.dfy | `buildEligibility` (backend/src/routes/loans.js) |
| `Schema` | schema.dfy | the `users`, `loan_applications` and `loan_events` rows (backend/src/migrations.js) |
| `Validators` | validators.dfy | the zod schemas as field rules, and `parseOrThrow` |
| `Transformers` | transformers.dfy | `parsePreviewReasons` and `mapLoan` |
| `Access` | access.dfy | `extractToken`, `attachUser`, `requireAuth`, `requireAdmin`, `/me` |
| `Errors` | errors.dfy | `errorHandler` and `notFound` |
| `Config` | config.dfy | `parseCorsOrigins` and the environment defaults |
| `Cors` | cors.dfy | the origin partition and `corsOptionsDelegate` (backend/src/app.js) |
| `Store` | store.dfy | the three tables as a `Database` class with the auth and loan route handlers, and `seedAdmin` |
| `Admin` | admin.dfy | `GET /api/admin/overview` |
| `Frontend` | frontend.dfy | the demo's `DemoStore` (register, login, apply, status, notes, prompt dispatch), its eligibility heuristic, `escapeHtml` and CSV quoting |

Modelling choices:

- The tables are sequences in insertion order, so the row with id `k` is at
  index `k - 1`.
- `ORDER BY created_at DESC` is a sort: the result is sorted newest first and
  is a permutation of the matching rows. Ties are left in no particular order.
- Foreign code is passed in as function-valued parameters:
  - `JSON.parse` and `JSON.stringify`;
  - bcrypt's hash and compare;
  - `jwt.verify` (a token's user id, or nothing when verification throws);
  - zod's e-mail format check.
- Timestamps, ISO strings and `Date.now()` ids are parameters too.
- The handlers return `Result` values. `Err` carries the status and message
  that the route throws and `errorHandler` sends.
- The loan handlers return the raw `AppRow` (or the joined row). The HTTP body
  the routes send is that row passed through `Transformers.MapLoan`
  (`backend/src/routes/loans.js:74-198`), which is modelled and proved on its
  own.
- The route handlers change the store, so they are methods of the `Database`
  class. Each states its whole new state. Every handler keeps an invariant:
  - ids are dense;
  - emails are unique and lower-case;
  - every application's owner exists and its financial terms agree with
    `buildEligibility`;
  - every event names an existing application.

Where the code and its documentation differ, the model follows the code:

- An empty `collateral` or `notes` is not turned into "absent" by zod. The
  first branch of the union, `z.string().max(N)`, already accepts `""`. The
  route's `|| null` then stores `NULL`, so the stored row is the same.
  `phone` and `employment` have a minimum length, so there `""` does become
  absent.

## Model

| member | source | states |
|---|---|---|
| Finance.CalcInterestRate | backend/src/utils/finance.js:1-6 | the rate is always one of 0.125, 0.145, 0.155, 0.165 |
| Finance.RateTable | backend/src/utils/finance.js:2-5 | business loans get 15.5% at every tenure; other loans get 12.5% up to 12 months, 14.5% up to 24 months and 16.5% beyond |
| Finance.RateMonotoneInTenure | backend/src/utils/finance.js:1-6 | a longer tenure never gives a lower rate for the same purpose |
| Finance.MonthlyPayment | backend/src/utils/finance.js:8-15 | tenure ≤ 0 gives 0; at a zero rate, `months` payments add up to the principal; a zero principal gives 0 |
| Finance.AmortisationRepaysLoan | backend/src/utils/finance.js:8-15 | paying the instalment every month for the whole tenure, with interest added monthly, leaves a balance of exactly 0 |
| Finance.PaymentBounds | backend/src/utils/finance.js:12-14 | for a non-negative principal, the instalment is at least principal/months and at most that plus one month's interest on the whole principal |
| Finance.BalanceClosedForm | backend/src/utils/finance.js:12-14 | the closed form of the balance after k payments, behind the amortisation formula |
| Finance.Ceil | backend/src/routes/loans.js:22 | `Math.ceil`: the least integer not below x |
| Finance.RateExamples | backend/tests/finance.test.js:6-11 | the four rates the test expects |
| Finance.PaymentExamples | backend/tests/finance.test.js:13-25 | (0,0,12) gives 0, (12000,0,12) gives 1000 and (100000,0.12,0) gives 0 |
| Finance.AmortisedExample | backend/tests/finance.test.js:18-21 | `monthlyPayment(500000, 0.12, 12)` lies strictly between 44000 and 45000 |
| Eligibility.FailedChecks | backend/src/routes/loans.js:13-31 | each check is in the list exactly when its condition holds (unemployed, income ≤ 0, EMI > 40% of income, amount > multiple × income); checks come in that order, at most four, and the amount check names the purpose's multiple |
| Eligibility.BuildEligibility | backend/src/routes/loans.js:10-33 | the rate is `calcInterestRate`; the EMI is the ceiling of `monthlyPayment`; the reasons are the messages of the failed checks; the result is eligible exactly when there are no reasons |
| Eligibility.ReasonsMatchChecks | backend/src/routes/loans.js:13-31 | each fixed message appears among the reasons exactly when its check fails |
| Eligibility.ReasonsDistinct | backend/src/routes/loans.js:13-31 | no reason appears twice |
| Eligibility.MessagesMember | backend/src/routes/loans.js:15-30 | a message is among the reasons exactly when its check failed (messages identify their checks) |
| Eligibility.UnemployedNeverEligible | backend/src/routes/loans.js:13-16 | an unemployed applicant is never eligible, and that reason comes first |
| Eligibility.EligibleExample | backend/src/routes/loans.js:10-33 | 100000 over 12 months on an income of 80000 (personal loan, employed): eligible at 12.5% with an EMI of at most 9376 |
| Schema.ParseStatus | backend/src/utils/validators.js:33 | a status text is accepted exactly when it is `Pending`, `Approved` or `Rejected`, and names the status it parses to |
| Schema.StatusNameRoundTrip | backend/src/migrations.js:30 | every stored status parses back to itself |
| Schema.UserById | backend/src/middleware/auth.js:54-56 | a user is found by id exactly when the id is between 1 and the number of users, and it is that row |
| Schema.UserByIdSelectsId | backend/src/middleware/auth.js:54-56 | with ids that follow insertion order, a row is found exactly when some row has the id, and the row found has that id |
| Validators.IntField | backend/src/utils/validators.js:23-25 | an accepted number is a finite integer within the bounds, and every such number is accepted |
| Validators.StringField | backend/src/utils/validators.js:26-27 | an accepted value is a string whose length is within the bounds, and every such string is accepted |
| Validators.OptionalString | backend/src/utils/validators.js:34 | absent is accepted as absent; a string up to the maximum length is accepted as itself |
| Validators.OptionalOrBlank | backend/src/utils/validators.js:6-12 | absent stays absent; a string within the bounds is kept; `""` becomes absent only when the minimum length is above 0 |
| Validators.ParseLoanApplication | backend/src/utils/validators.js:22-30 | success gives data meeting every loan constraint (integer amount ≥ 10000, tenure in [1,120], income > 0, employment and purpose 2–80 characters, collateral ≤ 200, notes ≤ 500) that re-encodes to the body; failure lists at least one issue |
| Validators.LoanRoundTrip | backend/src/utils/validators.js:22-30 | every valid application body parses to exactly its data |
| Validators.AmountBelowMinimumRejected | backend/tests/validators.test.js:42-55 | an amount below 10000 is refused, with an issue for `amount` |
| Validators.AccountTypeField | backend/src/utils/validators.js:14 | `accountType` is absent, `user` or `admin`; both role names are accepted |
| Validators.EmailField | backend/src/utils/validators.js:5 | an accepted e-mail is a string that passes the format check, and every such string is accepted |
| Validators.ParseRegister | backend/src/utils/validators.js:3-15 | success gives a valid registration (name 2–120, password 8–128, optional phone 7–20 and employment 2–80, `""` counted as absent) taken from the body; failure lists an issue |
| Validators.RegisterRoundTrip | backend/src/utils/validators.js:3-15 | every valid registration body parses to exactly its data |
| Validators.NonEmptyString | backend/src/utils/validators.js:19 | a value is accepted exactly when it is a non-empty string |
| Validators.ParseLogin | backend/src/utils/validators.js:17-20 | a login body is accepted exactly when it has a well-formed e-mail and a non-empty password, and the data is those two strings |
| Validators.StatusField | backend/src/utils/validators.js:33 | the accepted value is the text of a status, and every status text is accepted |
| Validators.ParseStatusUpdate | backend/src/utils/validators.js:32-35 | success gives a recognised status and optional notes of at most 500 characters taken from the body; every such body succeeds |
| Validators.UnknownStatusRejected | backend/src/utils/validators.js:33 | a status text other than the three is refused |
| Validators.ParseAdminNote | backend/src/utils/validators.js:37-39 | a note is accepted exactly when it is a string of 2–500 characters |
| Validators.ParseOrThrow | backend/src/utils/validators.js:41-50 | success returns the parsed data unchanged; failure throws status 400 with a non-empty message |
| Validators.ValidatorExamples | backend/tests/validators.test.js:10-40 | the four cases of the validator tests: a valid registration with `accountType` admin, a refused one, a loan whose amount 100000 is kept, and a refused amount of -1 |
| Transformers.ParsePreviewReasons | backend/src/utils/transformers.js:1-9 | falsy text, malformed JSON and non-array JSON give `[]`; an array gives its items |
| Transformers.ReasonsRoundTrip | backend/src/utils/transformers.js:4-5 | reading back the stored `JSON.stringify(reasons)` gives the reasons, for any parse/stringify pair under which the text of an array of strings is non-empty and parses back to that array |
| Transformers.MapLoan | backend/src/utils/transformers.js:11-34 | `null` maps to `null`; every column is copied; `eligiblePreview` is true exactly when the stored flag is non-zero; reasons are parsed; name and e-mail prefer the joined column and fall back to the camel-case field |
| Transformers.PreviewSurvivesStorage | backend/src/routes/loans.js:65-66 | the preview stored at creation reads back through `mapLoan` as the same verdict and reasons |
| Access.BearerToken | backend/src/middleware/auth.js:13-19 | a header is accepted exactly when the trimmed text splits on single spaces into two parts with a case-insensitive `bearer` first; the token is then the second part, non-empty and without spaces |
| Access.ExtractToken | backend/src/middleware/auth.js:8-21 | a non-empty cookie wins over any header; otherwise the bearer header decides; with neither the result is null; a token is never empty |
| Access.BearerHeaderAccepted | backend/src/middleware/auth.js:15-17 | `<bearer in any case> <token>` gives back the token |
| Access.Authenticate | backend/src/middleware/auth.js:45-63 | there is a user exactly when there is a token, verification succeeds and the user row exists; the user is that row without its password hash |
| Access.Request.AttachUser | backend/src/middleware/auth.js:45-63 | `req.user` becomes the authenticated user, or null on any failure |
| Access.RequireAuth | backend/src/middleware/auth.js:65-70 | the request proceeds exactly when there is a user; otherwise 401 "Authentication required" |
| Access.RequireAdmin | backend/src/middleware/auth.js:72-77 | the request proceeds exactly when the user is an administrator; otherwise 403 "Administrator access required" |
| Access.Me | backend/src/routes/auth.js:71-76 | `/me` always answers 200, with the user or with `null` when unauthenticated |
| Access.MeWithoutSession | backend/src/routes/auth.js:72-74 | with no cookie and no header, `/me` returns `{user: null}` |
| Access.AdminPassesAuth | backend/src/middleware/auth.js:65-77 | whoever passes `requireAdmin` also passes `requireAuth` |
| Errors.ErrorHandler | backend/src/middleware/error.js:5-17 | the status is the error's status, or 500 when it is unset; the message is the error's message, or "Something went wrong" when it is empty; `details` is included exactly when it is truthy |
| Errors.NotFound | backend/src/middleware/error.js:1-3 | always 404 "Not found" with no details |
| Errors.RaisedErrorsPassThrough | backend/src/middleware/error.js:5-17 | an error thrown by a route with a status and a message reaches the client unchanged |
| Config.Setting | backend/src/config.js:43-44 | a setting takes its environment value when that value is non-empty, else the fallback |
| Config.Defaults | backend/src/config.js:39-44 | with an empty environment: `development`, the development JWT secret and `2h` |
| Config.ParseCorsOrigins | backend/src/config.js:17-37 | unset gives the six defaults, plus `null` outside production; a set value is split on `,`, trimmed and filtered, so no entry is empty |
| Config.PluralTakesPrecedence | backend/src/config.js:18 | when `CORS_ORIGINS` is set, `CORS_ORIGIN` has no effect |
| Config.OriginsRoundTrip | backend/src/config.js:33-36 | a comma-joined list of trimmed, comma-free, non-empty origins parses back to the same list |
| Config.DefaultsOutsideProduction | backend/src/config.js:19-31 | with neither variable set there are 6 origins in production and 7 elsewhere, and `null` is among them exactly outside production |
| Config.DropEmpty | backend/src/config.js:36 | keeps exactly the non-empty entries, each as often as it occurs; a list without empty entries is unchanged |
| Cors.ExactOrigins | backend/src/app.js:20-22 | an origin is exact exactly when it is configured, non-empty, not `*`, not `null` and does not end in `:*` |
| Cors.WildcardOrigins | backend/src/app.js:23-25 | the prefixes are exactly the `:*` entries with the `*` removed, so the colon is kept |
| Cors.Decide | backend/src/app.js:42-61 | with no Origin header: any, then `null`, then no origin, never an error; `null` is reflected when configured; any other origin is reflected exactly when `*` is configured, it is exact, or it starts with a wildcard prefix, otherwise "Not allowed by CORS"; every success allows credentials |
| Cors.ReflectedOriginsAreConfigured | backend/src/app.js:56-58 | a reflected origin is `*`-allowed, configured verbatim, or extends a configured `:*` prefix |
| Cors.NullOriginNeedsConfig | backend/src/app.js:53-58 | the `null` origin is allowed only when `null` or `*` is configured |
| Store.FindEmail | backend/src/routes/auth.js:13 | the lookup finds a row with that e-mail, or none exists |
| Store.DuplicateIgnoresCase | backend/src/routes/auth.js:13-18 | with lower-case stored e-mails, an e-mail equal to a stored one up to case is found as a duplicate |
| Store.NewUser | backend/src/routes/auth.js:19-29 | a registered user has role `user` whatever `accountType` says, a lower-cased e-mail, employment `unspecified` when it is missing, phone null when it is missing, and the hash of the password |
| Store.SeededUsers | backend/src/migrations.js:64-84 | no seed when the e-mail or password is unset or the lower-cased e-mail exists; otherwise exactly one admin user is appended |
| Store.SeedIdempotent | backend/src/migrations.js:69-82 | seeding twice leaves the same users as seeding once |
| Store.NewApplication | backend/src/routes/loans.js:49-67 | a new application is `Pending` with null notes, carries the validated fields (an empty collateral or note stored as null), and its rate, EMI, flag and reasons are those of `buildEligibility` |
| Store.CombinedNotes | backend/src/routes/loans.js:184-186 | `old + "\n" + ts + " — " + note` when there are old notes, else `ts + " — " + note` |
| Store.NotesGrowByOneLine | backend/src/routes/loans.js:184-186 | the lines of the new notes are the old lines followed by the stamped entry |
| Store.WithOwner | backend/src/routes/loans.js:97-99 | the joined record carries the application and its owner's name and e-mail |
| Store.AdminListing | backend/src/routes/loans.js:83-104 | the admin list is sorted newest first, is a permutation of the applications matching the status and search filters with an existing owner, and each entry is joined with its owner |
| Store.OwnerListing | backend/src/routes/loans.js:106-110 | a borrower's list is sorted newest first and is a permutation of exactly that borrower's applications |
| Store.UsersGrow | backend/src/migrations.js:5-15 | adding a user with the next id and a new lower-case e-mail keeps e-mails unique |
| Store.AppsGrow | backend/src/migrations.js:16-35 | adding an application with the next id, an existing owner and consistent terms keeps the table well formed |
| Store.AppsReviewed | backend/src/routes/loans.js:155-163 | replacing an application by one with the same terms keeps the table well formed |
| Store.EventsGrow | backend/src/migrations.js:36-46 | appending an event for an existing application keeps the log well formed |
| Store.Database.constructor | backend/src/migrations.js:4-46 | the store starts with three empty tables |
| Store.Database.Register | backend/src/routes/auth.js:9-37 | invalid body: 400; lower-cased e-mail already present: 409 and no change; otherwise exactly one user (`NewUser`) is appended and returned without its hash |
| Store.Database.Login | backend/src/routes/auth.js:39-64 | invalid body: 400; unknown e-mail and wrong password both give 401 "Invalid credentials"; success returns the stored user without the hash |
| Store.Database.SeedAdmin | backend/src/migrations.js:64-84 | the users become `SeededUsers` of the old users; the other tables are unchanged |
| Store.Database.CreateApplication | backend/src/routes/loans.js:35-78 | unauthenticated: 401; invalid body: 400, no change; otherwise exactly one application (`NewApplication`) and one `application_created` event by the actor, "Loan application submitted" |
| Store.Database.ListApplications | backend/src/routes/loans.js:80-114 | unauthenticated: 401; an administrator gets the admin listing, anyone else only their own applications |
| Store.Database.GetApplication | backend/src/routes/loans.js:116-143 | unauthenticated: 401; a missing application gives 404 before any ownership check; a non-admin non-owner gets 403; otherwise the joined application and its events, newest first |
| Store.Database.UpdateStatus | backend/src/routes/loans.js:145-172 | 401, 403, 400, then 404; the status is set; notes are replaced only when non-empty notes are sent; exactly one `status_update` event "Status changed to X"; no application's terms change |
| Store.Database.AppendNote | backend/src/routes/loans.js:174-202 | 401, 403, 400, then 404; the notes become `CombinedNotes`; exactly one `admin_note` event carrying the note; no application's terms change |
| Admin.CountStatus | backend/src/routes/admin.js:16-18 | the count is the number of positions whose application has status `s` (what `WHERE status = ?` selects), and never exceeds the number of applications |
| Admin.CountsAddUp | backend/src/routes/admin.js:13-18 | pending + approved + rejected = total applications |
| Admin.ComputeTotals | backend/src/routes/admin.js:13-19 | the totals are the numbers of users and applications and the three status counts, which add up to the total |
| Admin.WithActor | backend/src/routes/admin.js:28-31 | an event keeps its columns and gets its actor's name exactly when the actor still exists |
| Admin.RecentApplications | backend/src/routes/admin.js:20-26 | at most 5, newest first, the head of the joined admin listing |
| Admin.RecentEvents | backend/src/routes/admin.js:27-34 | min(10, all) events, newest first, including those whose actor no longer exists |
| Admin.GetOverview | backend/src/routes/admin.js:8-43 | 401 without a user, 403 for a non-admin; otherwise the totals and both recent lists, as a function of the tables (it changes nothing) |
| Admin.RecentAreNewest | backend/src/routes/admin.js:24-25 | no application left out of the recent list is newer than one shown |
| Admin.FewApplicationsAllShown | backend/src/routes/admin.js:20-26 | with at most five joined applications, all of them are shown |
| Frontend.ClientEligibility | frontend/app.js:121-125 | each of the three client messages is present exactly when its check fails, in the order unemployed, EMI > 40%, amount > multiple; no message twice; eligible exactly when there are none |
| Frontend.FindLogin | frontend/app.js:91 | the first user with that e-mail and password, or none has both |
| Frontend.FindApp | frontend/app.js:280 | the first application with that id, or none has it |
| Frontend.LoginSession | frontend/app.js:77-97 | the demo administrator's credentials are checked first; otherwise the first matching user gets a `user` session, or there is none |
| Frontend.NewDemoUser | frontend/app.js:54-68 | the stored user has a trimmed name and phone, a trimmed lower-cased e-mail and the id `'u' + now` |
| Frontend.NewDemoApp | frontend/app.js:116-142 | the saved application has the session's identity, the rate and rounded-up EMI, the client preview, status `Pending` and empty admin notes |
| Frontend.AppendedNotes | frontend/app.js:293 | `old + "\n" + note` when there are old notes, else `note`, with no timestamp |
| Frontend.NoteAddsOneLine | frontend/app.js:293 | the lines of the notes are the old lines followed by the note |
| Frontend.DemoStore.constructor | frontend/app.js:24-32 | the store starts with the sample user, no applications and no session |
| Frontend.DemoStore.HandleRegister | frontend/app.js:54-74 | a missing name, e-mail or password, or a duplicate e-mail, changes nothing; otherwise exactly one user is appended and logged in; e-mails stay distinct |
| Frontend.DemoStore.HandleLogin | frontend/app.js:77-97 | the session becomes `LoginSession`, or stays as it was with "Invalid credentials." |
| Frontend.DemoStore.HandleApply | frontend/app.js:100-150 | no user session, a zero amount, tenure or income, or an amount below 10000 saves nothing; otherwise exactly one `NewDemoApp` is appended |
| Frontend.DemoStore.UpdateAppStatus | frontend/app.js:278-287 | an unknown id changes nothing; otherwise only the status of the first matching application changes |
| Frontend.DemoStore.UpdateAppNote | frontend/app.js:289-297 | an unknown id changes nothing; otherwise only the notes of the first matching application change, to `AppendedNotes` |
| Frontend.DemoStore.ViewApp | frontend/app.js:250-273 | an unknown id or an empty answer changes nothing; `approve` or `reject` in any case sets the status; any other answer becomes a note |
| Frontend.RegisteredUserCanLogIn | frontend/app.js:54-97 | right after registering, logging in with the same e-mail text and password gives that user's session (unless they are the demo administrator's credentials) |
| Frontend.Escape | frontend/app.js:376 | the output never contains `<`, `>`, `"` or `'` |
| Frontend.EscapeHtml | frontend/app.js:376 | a missing value gives `""`; otherwise the text is escaped, with no markup character left |
| Frontend.EscapeRoundTrip | frontend/app.js:376 | decoding the five entities gives back the original text |
| Frontend.EscapeKeepsPlainText | frontend/app.js:376 | text without `&<>"'` is left unchanged |
| Frontend.CsvCell | frontend/app.js:335 | a cell starts and ends with `"` |
| Frontend.CellRoundTrip | frontend/app.js:335 | removing the outer quotes and undoubling the inner ones gives back the cell text |
| Frontend.CsvLinesAreRows | frontend/app.js:335 | when no cell holds a newline, the lines of the file are exactly the encoded rows |

## Left out

- Numbers are exact: `int` and `real`. IEEE-754 rounding in `monthlyPayment`
  and `Math.ceil` of a float near an integer are not modelled. `Number()`
  coercion of form fields and `NaN` are not modelled either. The frontend
  takes the amount and income as reals and the tenure (a `<select>`) as an
  integer.
- Finance.MonthlyPayment: requires a non-negative rate. Every caller passes a
  rate from `calcInterestRate`; with a negative rate the formula can divide by
  zero.
- The duplicated `calcInterestRate`/`monthlyPayment` in
  `frontend/app.js:345-358` are the same code, so `Frontend` uses `Finance`.
- Foreign libraries are parameters and are not modelled:
  - JWT signing and verification;
  - bcrypt;
  - `JSON.parse`/`JSON.stringify`. A lemma that needs a round trip requires it only for what is stored: an array of strings.
  - zod's e-mail format check and the wording of its issues.
- `CURRENT_TIMESTAMP` resolution and ordering ties: timestamps are
  parameters, and ties may come in any order.
- Common.ToLower: lower-cases only `A`-`Z`. JavaScript's `toLowerCase` also
  lower-cases non-ASCII letters (`É` to `é`). So for e-mails with such letters
  the model differs from the program in Store.NewUser, Store.SeededUsers,
  Store.Database.Register, Store.Database.Login, Frontend.NewDemoUser and
  Frontend.LoginSession. For example, registering `ÉVE@x.io` and logging in
  as `éve@x.io` succeeds in the program but not in the model. Full Unicode
  case mapping is locale data, which the model leaves out.
- SQL `LIKE` wildcards (`%`, `_` in the search text) and SQLite's case
  folding beyond ASCII: the search is a case-insensitive substring test.
  Lengths count code points, not UTF-16 units.
- Route ids and query parameters are integers and strings. Coercion of a
  non-numeric `:id` is not modelled.
- The `user_phone` column selected by `GET /:id` is not carried. The events
  it returns are whole rows, so they also carry `application_id`, which the
  query does not select.
- Store.Database.CreateApplication: requires the actor's user row to exist.
  `attachUser` has just loaded it, and nothing deletes users.
- Store.Database.Login: a `function` of the store. Deleting `password_hash`
  from the fetched object is modelled by returning the public columns.
- Cookies, `setAuthCookie`, `signToken`, `logout`, rate limiting, helmet,
  morgan, Express wiring, `db.js`, `server.js`, `migrate.js`,
  `runMigrations` and `resolveDbPath` are I/O or framework plumbing.
- `console.log`/`console.error` are left out.
- The demo's DOM and UI are left out: rendering, `alert`/`prompt`,
  `updateQuickPreview`, tab navigation, Blob downloads, `statusPill`,
  `toFixed`/`toLocaleString` formatting and `frontend/config.js`.
  Serialising the store to `localStorage` is also left out; the arrays are
  fields of `DemoStore`.
- Frontend.DemoStore.UpdateAppStatus: `adminNotes || ''` is the identity in
  the model, because stored notes are always strings.
- Frontend.CsvCell: cells are strings; `String(c)` of a number is not
  modelled.
- There is no batch status update and no "Under Review" status in the code,
  so neither is modelled.
