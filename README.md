# Biller, modelled in Dafny

Biller is a single-owner invoicing application. An owner signs in with a PIN or a
fingerprint (WebAuthn). The owner then keeps invoices, clients and templates. An
invoice may recur: a scheduler clones it at a set frequency and numbers each clone
`INV-<year>-<nnn>`. A rendering service turns an invoice into a PDF.

This project models the logic behind these features and proves what it promises:

- **Recurring invoices.** `Dates`, `Recurring` and `Scheduler` model UTC calendar
  arithmetic, the frequency policy, the config normaliser and the backfill pass. The
  pass clones at most 24 due occurrences per source into the invoice store and then
  moves the source's schedule pointer.
- **Invoice numbers.** `InvoiceNumbers` models the per-year sequential generator,
  both as written and corrected (see "Findings").
- **Invoices and totals.** `Invoices` models the schema constraints and the
  `subtotal`/`total` virtuals. `InvoiceStore` models the invoice collection and the
  list and create handlers. `Stats` models the summary endpoint's revenue split and
  its list of recent invoices.
- **Owner authentication.**
  - `Pin` models the PIN rule and hash comparison. `PinLogin` models the PIN sign-in
    handler with its failure counter and lock.
  - `RateLimit` models the fixed-window rate limiter.
  - `Session` and `SessionEdge` model the HS256 session token and its two verifiers.
  - `Middleware` models the route guard.
  - `AuthStates` and `WebAuthn` model the auth record and the fingerprint endpoints.
  - `AuthEnv` and `AuthDebug` model the settings and debug helpers.
- **PDF request body.** `InvoiceGenerator` models the address blocks and path
  cleaning. `InvoiceBuilder` models image sniffing, the MIME-type choice and the
  request body with its ordered custom fields.
- **Client-side stores.** `Slices` models the invoice, client and template reducers as
  classes whose methods update their fields in place.

Money is `real`. Time is a number of milliseconds or a calendar date, passed in. Each
of these is a parameter: cryptography, JSON, base64 and `atob`, the WebAuthn library,
`path.normalize`, UTF-8 decoding and the PDF renderer. `Common` writes out the
JavaScript string built-ins the model relies on: `trim`, `startsWith`, `split`,
`join`, `padStart`, decimal digits and ASCII lower-casing.

## Model

| member | source | states |
|---|---|---|
| AuthDebug.AuthLog | src/lib/auth/debug.ts:1-10 | a log entry is produced iff AUTH_DEBUG is exactly "true"; its line is "[AUTH_DEBUG] " followed by the event, and it carries the details unchanged |
| AuthDebug.AuthErrorPayload | src/lib/auth/debug.ts:12-26 | the `debug` block is present iff debugging is enabled |
| AuthDebug.PayloadFields | src/lib/auth/debug.ts:12-26 | `error` is the error's message when non-empty and the fallback otherwise; `debug.message` equals `error`; `debug.name` is the error's name when non-empty and 'UnknownError' otherwise; `debug.stack` is a prefix of the error's stack whose lines are exactly its first 5 lines (all of them when fewer), and '' when there is no stack |
| AuthDebug.FirstLinesShape | src/lib/auth/debug.ts:23 | the first n lines of a stack are a prefix of it whose lines are exactly the stack's first min(n, count) lines, at most n, and the whole stack when it has no more than n lines |
| AuthEnv.ParseNumberEnvCases | src/lib/auth/env.ts:1-5 | the result differs from the fallback only when the value is present, non-empty and parses to that finite number; a non-empty finitely-parsing value is always returned as parsed |
| AuthEnv.DefaultConfig | src/lib/auth/env.ts:7-17 | with no environment the configuration is empty secrets, rpName "Biller", 5 attempts, 900000 ms lock and 28800 s session lifetime |
| AuthEnv.MissingNames | src/lib/auth/env.ts:19-28 | a required name is listed as missing iff its value is empty |
| AuthEnv.MissingOrdered | src/lib/auth/env.ts:20-28 | only required names are listed, in the fixed order secret, salt, hash, RP ID, origin |
| AuthEnv.MissingEmptyIff | src/lib/auth/env.ts:28-29 | nothing is missing iff every required value is non-empty |
| AuthEnv.AssertAuthEnv | src/lib/auth/env.ts:19-32 | the check fails iff some required value is empty, and then its message is the fixed prefix followed by the missing names joined by ", " |
| AuthEnv.ReadyValues | src/lib/auth/env.ts:19-32 | after a passing check all five required values are non-empty |
| Pin.PinFormatRejectsSpace | src/lib/auth/pin.ts:13-15 | a PIN with leading or trailing white space is never well-formed (so the login route must trim first) |
| Pin.Hex | src/lib/auth/pin.ts:18 | hex encoding doubles the length and uses only lower-case hex digits |
| Pin.HexInjective | src/lib/auth/pin.ts:18 | different byte strings have different hex encodings |
| Pin.HashPin | src/lib/auth/pin.ts:4-19 | the derived hash is 64 lower-case hex characters (a 32-byte key) |
| Pin.VerifyPinIff | src/lib/auth/pin.ts:21-29 | verification succeeds iff hash and salt are configured and the derived hex equals the stored hash; for a well-formed stored hash, iff the derived key is the stored key |
| Pin.MalformedHashRejectsAll | src/lib/auth/pin.ts:24-28 | a stored hash that is not 64 hex digits rejects every PIN |
| RateLimit.CeilSecondsBounds | src/lib/auth/rate-limit.ts:21 | the ceiling of ms/1000 is the least whole number of seconds covering ms |
| RateLimit.StepFacts | src/lib/auth/rate-limit.ts:8-26 | a call is allowed iff the bucket is absent, expired or its incremented count is within the limit; an absent or expired bucket restarts at count 1 with a fresh window; a live bucket is incremented even when the call is refused; a refusal reports as retry-after the window's remaining time in whole seconds rounded up (the least r ≥ 1 with r·1000 ≥ the remaining ms), an allowed call 0 |
| RateLimit.WithinWindow | src/lib/auth/rate-limit.ts:17-25 | within one live window, exactly max(0, min(calls, limit − count)) further calls succeed |
| RateLimit.WindowCap | src/lib/auth/rate-limit.ts:12-25 | from a fresh window, at most maxRequests calls (at least the opening one) succeed before the window ends |
| RateLimit.RateLimiter.Check | src/lib/auth/rate-limit.ts:6-26 | the bucket map changes only at the key, to the stepped bucket, and the verdict is the step's; buckets for other keys are untouched |
| Session.CreateSessionToken | src/lib/auth/session.ts:23-37 | a token starts with the fixed HS256/JWT header part and a '.' |
| Session.VerifyIff | src/lib/auth/session.ts:39-62 | verification succeeds iff the token and secret are non-empty, the token has exactly three '.'-parts, the third equals the HMAC of the first two, the payload parses, sub is "owner", methods is present and exp is later than now; the result is the parsed payload |
| Session.CreateThenVerify | src/lib/auth/session.ts:23-62 | a freshly created token verifies before its lifetime ends and yields the payload with the given methods |
| Session.ExpiredRefused | src/lib/auth/session.ts:29-57 | once its lifetime has passed a created token is refused |
| SessionEdge.Normalize | src/lib/auth/session-edge.ts:16 | normalising keeps the length and leaves no '-' or '_' |
| SessionEdge.PaddedShape | src/lib/auth/session-edge.ts:16-17 | padding appends fewer than four '=' to the normalised text and makes its length a multiple of 4 |
| SessionEdge.Latin1 | src/lib/auth/session-edge.ts:19-20 | one byte per decoded character |
| SessionEdge.DecodeBase64Url | src/lib/auth/session-edge.ts:15-22 | the byte-filling loop yields exactly the bytes of the decoded, padded, normalised text, and nothing when decoding throws |
| SessionEdge.IsEqual | src/lib/auth/session-edge.ts:24-29 | the result is true iff the two byte strings are equal, and for equal lengths every byte is scanned |
| SessionEdge.VerifyEdgeIff | src/lib/auth/session-edge.ts:40-67 | the edge verifier accepts iff token and secret are non-empty, the first three '.'-parts are non-empty, the header decodes to alg HS256, the decoded signature equals the HMAC of "header.payload", the payload decodes and parses with sub "owner" and exp later than now (methods is not checked); it throws only when the signature is not decodable |
| SessionEdge.ExtraPartsIgnored | src/lib/auth/session-edge.ts:42-43 | '.'-parts after the third do not change the verdict |
| Middleware.NoSessionNoEntry | src/middleware.ts:18-42 | without a session a path passes iff the matcher skips it or it is public (a matched public path passes whenever the cookie check does not throw); a guarded non-public path gives 401 under /api/ and otherwise a redirect to /login with next = pathname + search |
| Middleware.SessionEntry | src/middleware.ts:23-41 | with a valid session /login redirects to /dashboard and every other guarded path passes |
| Middleware.RecurringEndpointIsPublic | src/middleware.ts:10-34 | the recurring-process endpoint passes with or without a session, while /api/invoices without one gives 401 |
| Middleware.UndecodableCookieFails | src/middleware.ts:21-46 | a cookie whose signature the edge decoder throws on makes the guard fail on every guarded path |
| AuthStates.AuthState.constructor | src/models/AuthState.js:15-27 | a new owner record has no failed attempts, no lock, no pending challenge and no credentials |
| PinLogin.ClientIp | src/app/api/auth/pin/login/route.ts:8-11 | the client key is never empty, and when the forwarded-for header has a non-blank first entry the key holds no ',' |
| PinLogin.LockStepFacts | src/app/api/auth/pin/login/route.ts:32-62 | while locked, the attempt is refused whatever the PIN, the state is unchanged and Retry-After is the lock's remaining time in whole seconds rounded up (the least r ≥ 1 with r·1000 ≥ the remaining ms); otherwise a wrong PIN increments the count and sets the lock to now + lockMs iff the new count reaches the maximum (else the lock is kept); a correct PIN resets to 0 attempts and no lock; a PIN is accepted iff it is correct and no lock is in force |
| PinLogin.LockStepConsistent | src/app/api/auth/pin/login/route.ts:45-62 | every step keeps the invariant that a lock is only ever set once the count has reached the maximum |
| PinLogin.RelockAfterExpiry | src/app/api/auth/pin/login/route.ts:34-51 | after a lock has expired, the attempt count is not reset, so the very next wrong PIN locks again |
| PinLogin.FailuresBelowLimit | src/app/api/auth/pin/login/route.ts:47-52 | fewer wrong PINs than the maximum from a clean state leave that many attempts and no lock |
| PinLogin.LockAtLimit | src/app/api/auth/pin/login/route.ts:47-52 | the maximum number of consecutive wrong PINs from a clean state locks until now + lockMs |
| PinLogin.PinRouteFacts | src/app/api/auth/pin/login/route.ts:13-70 | the route signs in iff the settings are complete, the rate limit allows the call, the body carries a PIN whose trimmed form is well-formed, no lock is in force and the PIN verifies; sign-in resets the counters and issues a "pin" session; only a wrong PIN touches the counters (+1); every other outcome leaves the record unchanged |
| PinLogin.PinSessionVerifies | src/app/api/auth/pin/login/route.ts:64-65 | the session issued on a PIN sign-in verifies, with methods ["pin"], until it expires |
| PinLogin.PinLoginPost | src/app/api/auth/pin/login/route.ts:13-70 | the handler leaves the owner record and the rate limiter exactly as the route function says; challenge and credentials are untouched; the limiter is touched only at "pin:<ip>" and only once the settings check passed |
| PinLogin.CheckPin | src/app/api/auth/pin/login/route.ts:32-66 | the lock check, PIN check and counter update change only the attempt count and the lock, as the stage function says |
| AuthStates.Without | src/app/api/auth/webauthn/register/verify/route.ts:58-60 | pulling an ID keeps exactly the credentials with a different ID and never lengthens the list |
| AuthStates.WithoutAbsent | src/app/api/auth/webauthn/register/verify/route.ts:58-60 | pulling an ID that is not enrolled changes nothing |
| AuthStates.WithoutOne | src/app/api/auth/webauthn/register/verify/route.ts:58-60 | a single credential survives the pull exactly when its ID differs |
| AuthStates.WithoutAppend | src/app/api/auth/webauthn/register/verify/route.ts:58-60 | the pull keeps the stored order: pulling from two lists joined is pulling from each and joining the results |
| AuthStates.CountWithout | src/app/api/auth/webauthn/register/verify/route.ts:58-60 | after the pull no credential carries the ID |
| AuthStates.EnrollFacts | src/app/api/auth/webauthn/register/verify/route.ts:53-74 | pull-then-push leaves exactly one credential with the new ID, at the end, after the other credentials in their old order; for a new ID it is a plain append |
| AuthStates.FindCredential | src/app/api/auth/webauthn/login/verify/route.ts:40-42 | the search fails iff no credential has the ID, and otherwise yields the first position holding it |
| AuthStates.SetCounter | src/app/api/auth/webauthn/login/verify/route.ts:74-83 | the update lines 76-80 spell out, the filter on the credential ID with the positional `$set` of its counter, keeps the list's length; it is the corrected half of the counter finding, since the call as written sets nothing (see "Findings") |
| AuthStates.SetCounterFacts | src/app/api/auth/webauthn/login/verify/route.ts:74-83 | under the intended update of lines 76-80, only the first credential with the ID changes, and only in its counter; every credential keeps its ID (the corrected half of the counter finding) |
| WebAuthn.Descriptors | src/app/api/auth/webauthn/login/options/route.ts:36-39 | one descriptor per credential, in order, with its ID and transports |
| WebAuthn.RegisterOptionsFacts | src/app/api/auth/webauthn/register/options/route.ts:8-51 | options are issued iff the settings are complete and there is a session; without a session the reply is 401 and nothing changes; on success the challenge slot holds the new challenge expiring in 5 minutes, the options ask for a platform authenticator with required user verification and exclude every enrolled ID in order; the credential list never changes |
| WebAuthn.StoredCredential | src/app/api/auth/webauthn/register/verify/route.ts:39-72 | the stored credential takes ID and public key from `credential` when present (else from the legacy fields), as text or base64url; counter defaults to 0, transports to [], deviceType to "singleDevice", backedUp to false; no label or timestamps are written |
| WebAuthn.RegisterVerifyFacts | src/app/api/auth/webauthn/register/verify/route.ts:8-83 | registration succeeds iff the settings are complete, there is a session and a pending challenge not yet past its expiry (valid at exactly the expiry), the body parses and the verifier reports verified with registration info; then the challenge is cleared and the credential replaces any with the same ID at the end of the list; every other outcome leaves the record unchanged; no session gives 401 |
| WebAuthn.LoginOptionsFacts | src/app/api/auth/webauthn/login/options/route.ts:13-56 | a login challenge is issued iff the settings are complete, the rate limit allows it and at least one credential is enrolled; the slot then holds the new challenge for 5 minutes, the allow-list is every enrolled ID with transports in order and user verification is required; with no credential the reply is 400 and the slot is untouched |
| WebAuthn.AssertStageFacts | src/app/api/auth/webauthn/login/verify/route.ts:40-87 | an unknown ID gives 400 "Credential not recognized" without consulting the verifier; a failed verification gives 401 and changes nothing; a success clears the challenge, sets the matching credential's counter only when the verifier returned one, keeps every other credential and issues a "webauthn" session; sign-in happens iff the ID is known and the verifier says verified; this is the stage with the counter update as intended (see "Findings") |
| WebAuthn.AsWrittenCounterNeverSet | src/app/api/auth/webauthn/login/verify/route.ts:40-87 | with lines 75-82 as written (`WebAuthn.AssertStageAsWritten`) no outcome changes a stored counter; an unknown ID gives 400 and a failed check 401 with nothing changed; sign-in happens iff the ID is known, the assertion is verified and the database does not refuse the misplaced update, which it is asked to make whenever the verifier returns a counter; a new counter that the intended stage stores is lost; a refused update answers 500 after the challenge was cleared |
| WebAuthn.LoginVerifyFacts | src/app/api/auth/webauthn/login/verify/route.ts:14-94 | a sign-in needs complete settings, an allowed rate, a pending unexpired challenge, a non-empty response ID of a known credential, and it clears the challenge; with those gates passed the outcome is the assertion stage's; an expired challenge gives 400; every non-success other than 401 leaves the challenge slot as it was; the last two hold of the stage with the intended counter update (see "Findings") |
| WebAuthn.ListCredentials | src/app/api/auth/webauthn/credentials/route.ts:5-23 | no session gives no listing; otherwise one view per stored credential, in order |
| WebAuthn.ListingDefaults | src/app/api/auth/webauthn/credentials/route.ts:12-20 | each view keeps the ID; a non-empty label is shown as stored, a missing or empty one as "Fingerprint <index+1>"; a non-empty deviceType is shown as stored, an empty one as "singleDevice"; createdAt and lastUsedAt are shown as stored unless missing or empty, then null; backedUp and transports are kept; key and counter have no place in a view |
| WebAuthn.DefaultLabelsDistinct | src/app/api/auth/webauthn/credentials/route.ts:14 | default labels of different positions differ |
| WebAuthn.SessionStatusOf | src/app/api/auth/session/route.ts:5-18 | hasBiometric iff some credential is enrolled, authenticated iff there is a session; methods are [] without a session and the session's methods with one |
| WebAuthn.RegisterOptions | src/app/api/auth/webauthn/register/options/route.ts:8-51 | the handler changes the owner record exactly as the route function says and never touches the PIN counters |
| WebAuthn.RegisterVerify | src/app/api/auth/webauthn/register/verify/route.ts:8-83 | the handler changes the owner record exactly as the route function says and never touches the PIN counters |
| WebAuthn.LoginOptions | src/app/api/auth/webauthn/login/options/route.ts:13-56 | the handler changes the owner record as the route function says, leaves the PIN counters alone and touches the limiter only at "webauthn-options:<ip>" once the settings check passed |
| WebAuthn.LoginVerify | src/app/api/auth/webauthn/login/verify/route.ts:14-94 | the handler changes the owner record as the route function says, leaves the PIN counters alone and touches the limiter only at "webauthn-verify:<ip>" once the settings check passed; the route function performs the intended counter update (see "Findings") |
| WebAuthn.VerifyAssertion | src/app/api/auth/webauthn/login/verify/route.ts:40-87 | the credential lookup, verification and updates change the record as the assertion stage with the intended counter update says and leave the PIN counters alone |
| Dates.DaysInMonth | src/lib/recurring-invoices.ts:37-39 | the last day of a month is between 28 and 31 |
| Dates.DayNumberOrder | src/lib/recurring-invoices.ts:122 | a date in a later month has a larger day number (the `getTime()` order); within one month day numbers differ by the day difference |
| Dates.DayNumberInjective | src/lib/recurring-invoices.ts:122 | different calendar dates have different day numbers |
| Dates.NextDay | src/lib/recurring-invoices.ts:25-29 | the next calendar day is a valid date exactly one day number later |
| Dates.AddDays | src/lib/recurring-invoices.ts:25-29 | adding n days gives a valid date exactly n day numbers later |
| Dates.AddDaysCompose | src/lib/recurring-invoices.ts:25-29 | adding m days and then n days is adding m + n days |
| Dates.AddMonthsClamped | src/lib/recurring-invoices.ts:31-42 | adding at least one month gives a valid, strictly later date |
| Dates.AddOneMonth | src/lib/recurring-invoices.ts:31-42 | one month on lands in the next calendar month (December rolls into January of the next year) with day = min(day, days in that month) |
| Dates.AddOneMonthTwoDigitYear | src/lib/recurring-invoices.ts:36-38 | `Date.UTC` maps years 0-99 to 1900-1999, so one month after 0050-01-31 is 1950-02-28 |
| Dates.MonthlyFromJanuary31 | src/lib/recurring-invoices.ts:31-42 | January 31 steps to the last day of February (29 in 2024, 28 in 2023) and the clamped day then persists (2024-03-29) |
| Dates.MonthlyFromDecember | src/lib/recurring-invoices.ts:31-42 | 2024-12-15 steps to 2025-01-15 |
| Dates.FormatDate | src/lib/recurring-invoices.ts:23 | the formatted date has 10 characters; for years up to 9999 it is YYYY-MM-DD with the date's own fields, and beyond that it starts with '+' |
| Dates.ParseDate | src/lib/recurring-invoices.ts:16-21 | an empty string does not parse, and a parsed date is valid with a four-digit year |
| Dates.ParseDay | src/lib/recurring-invoices.ts:18-19 | a day field parses iff month is 1-12 and day is 1-31; an overflowing day rolls into the next month |
| Dates.ExpandedYearUnparsed | src/lib/recurring-invoices.ts:18-23 | the text of a date beyond year 9999 does not parse back |
| Dates.DayOfMonth | src/lib/recurring-invoices.ts:18-19 | counting dd − 1 days from the first of the month reaches day dd when it exists |
| Dates.ParseFormat | src/lib/recurring-invoices.ts:16-23 | formatting then parsing a date with a four-digit year gives the date back |
| Dates.ParseDayInMonth | src/lib/recurring-invoices.ts:18-19 | an in-range day parses to exactly that date |
| Dates.FormatParse | src/lib/recurring-invoices.ts:16-23 | a well-formed YYYY-MM-DD naming a real date parses, and formats back to the same text |
| Dates.FieldsDetermine | src/lib/recurring-invoices.ts:23 | two YYYY-MM-DD strings with equal fields are equal |
| Recurring.IntervalStep | src/lib/recurring-invoices.ts:51 | the every-N-days step is at least 1, and is intervalDays when that is at least 1 |
| Recurring.DueInDays | src/lib/recurring-invoices.ts:112 | an absent dueInDays means 14 days |
| Recurring.NextRun | src/lib/recurring-invoices.ts:44-56 | the next run is a valid date strictly after the current one; daily adds 1 day, weekly 7, every_n_days the interval step |
| Recurring.NextRunDefaultsToMonthly | src/lib/recurring-invoices.ts:52-54 | any other or missing frequency adds one clamped month, exactly as "monthly" does |
| Recurring.Iterate | src/lib/recurring-invoices.ts:137 | every occurrence of a schedule is a valid date |
| Recurring.IterateStep | src/lib/recurring-invoices.ts:137 | each occurrence is strictly later than the one before |
| Recurring.IterateIncreasing | src/lib/recurring-invoices.ts:122-137 | occurrences k − j steps apart are at least k − j days apart |
| Recurring.IterateDaily | src/lib/recurring-invoices.ts:46-137 | a daily schedule's k-th occurrence is exactly k days after the start |
| Recurring.FirstNextRun | src/lib/recurring-invoices.ts:58-62 | a first run exists iff the invoice date parses, and then it is strictly after that date |
| Recurring.DayDifference | src/lib/recurring-invoices.ts:175-181 | the issue-to-due day difference exists iff both dates parse |
| Recurring.Normalize | src/lib/recurring-invoices.ts:158-205 | the frequency is one of the four, intervalDays ≥ 1, dueInDays ≥ 0, autoGeneratePdf is true unless explicitly false, and nextRunDate is '' when disabled |
| Recurring.NormalizeNextRunDate | src/lib/recurring-invoices.ts:184-193 | when enabled, a valid requested date is kept (reformatted); otherwise the first run after the invoice date is used; nextRunDate is '' iff neither date parses |
| Recurring.NormalizeDueInDays | src/lib/recurring-invoices.ts:177-182 | an explicit non-negative dueInDays is kept; otherwise the due-minus-issue day difference clamped at 0; otherwise 14 |
| Recurring.NormalizeIdempotent | src/lib/recurring-invoices.ts:158-205 | normalising an already normalised configuration changes nothing |
| Scheduler.ClonePayload | src/lib/recurring-invoices.ts:64-99 | a clone copies every field of the source except these: number = the fresh number, date = the run date, dueDate = run date + dueInDays, status "unpaid", amountPaid 0 at both levels, pdfPath '', and recurring = {enabled false, sourceInvoiceId = source id, autoGeneratePdf true} |
| Scheduler.CloneSchemaValid | src/lib/recurring-invoices.ts:96-97 | a clone of a schema-valid source with a non-empty number is schema-valid, so its `save()` succeeds |
| Scheduler.CloneDates | src/lib/recurring-invoices.ts:67-68 | the clone's date reads back as the run date, and its due date, when readable, lies exactly dueInDays later |
| Scheduler.DatesRoundTrip | src/lib/recurring-invoices.ts:16-23 | a formatted date that reads back at all reads back as the same date |
| Scheduler.PdfPathAfter | src/lib/recurring-invoices.ts:124-134 | the saved path changes only when PDFs are not switched off and the renderer reports success; a failure or a throw keeps the clone as saved |
| Scheduler.ScheduleStart | src/lib/recurring-invoices.ts:114-118 | a pass starts from the stored nextRunDate, else from the first run after the invoice date; it is skipped iff both are unreadable |
| Scheduler.PassUnique | src/lib/recurring-invoices.ts:122 | the loop's exit condition fixes the number of clones of a pass uniquely |
| Scheduler.PassChronological | src/lib/recurring-invoices.ts:122-137 | the run dates of one pass are strictly increasing |
| Scheduler.PassDaily | src/lib/recurring-invoices.ts:122 | a daily schedule makes min(24, days from the pointer through today) clones, and none when the pointer is in the future |
| Scheduler.SecondPass | src/lib/recurring-invoices.ts:140-145 | after a pass the stored pointer reads back as the first unprocessed occurrence, and unless the cap stopped the pass a second pass the same day makes no clone |
| Scheduler.CloneOne | src/lib/recurring-invoices.ts:64-134 | one clone is appended to the store under the next id, numbered from this year's series, with the payload and renderer outcome above |
| Scheduler.ClonesOfAppend | src/lib/recurring-invoices.ts:122-138 | appending the clone of the next occurrence extends the series of clones |
| Scheduler.RescheduleEffect | src/lib/recurring-invoices.ts:140-145 | setting the pointer and lastRunAt on the source after its clones yields the effect of one pass |
| Scheduler.CloneNext | src/lib/recurring-invoices.ts:123-137 | one loop turn adds one clone and keeps the loop invariant one step further |
| Scheduler.Backfill | src/lib/recurring-invoices.ts:120-138 | the loop appends one clone per due occurrence, in date order, with consecutive ids, at most 24, stopping at the cap or at the first occurrence after today, and returns that occurrence |
| Scheduler.ProcessSource | src/lib/recurring-invoices.ts:110-146 | a source with no readable start gains nothing; otherwise the store gains exactly the clones of one pass, the source's pointer becomes the first unprocessed occurrence and lastRunAt changes iff a clone was made; every other document is untouched |
| Scheduler.Sources | src/lib/recurring-invoices.ts:105-108 | exactly the non-template documents with recurring enabled are scanned |
| Scheduler.ClonesAreChildren | src/lib/recurring-invoices.ts:89-93 | every clone is a disabled child pointing back to its source |
| Scheduler.CloneIsChild | src/lib/recurring-invoices.ts:89-93 | a clone's recurring block is the child block of its source |
| Scheduler.KeptAfterPass | src/lib/recurring-invoices.ts:110-146 | after one more source's pass, non-source documents are still unchanged, sources differ only in their schedule fields and every appended document is a child |
| Scheduler.ProcessAll | src/lib/recurring-invoices.ts:101-147 | the run goes through one store per source found, in the order found, each source taking exactly its own pass: its due occurrences from its start (at most 24) cloned with ids following the clones of the sources before it, its pointer moved to the first occurrence not taken, and lastRunAt set to now iff a clone was made; a source with no readable start is skipped; overall the store stays valid, templates and disabled documents are unchanged, sources change only in their schedule fields, only children are appended, at most 24 per source |
| Scheduler.TakeTurn | src/lib/recurring-invoices.ts:110-146 | one turn of the run's loop extends the record of the run by the current source's pass and keeps the store valid and every promise about the documents found |
| Scheduler.PassesStep | src/lib/recurring-invoices.ts:110-146 | a source's pass after the passes recorded so far extends the record of the run by that pass, with its clones numbered after all earlier ones |
| Scheduler.TurnKept | src/lib/recurring-invoices.ts:110-146 | a pass recorded for an earlier source stays recorded as the run goes on |
| Scheduler.StepOfPass | src/lib/recurring-invoices.ts:110-146 | what one source's pass does (nothing when its start cannot be read; otherwise one pass of clones and the pointer and lastRunAt update) is that source's turn in the run |
| Scheduler.PassesLength | src/lib/recurring-invoices.ts:110-145 | after k turns the documents found are still in place, with their ids, and exactly the clones of those k turns, the sum of their counts, follow them |
| InvoiceNumbers.YearPrefix | src/lib/invoice-number.ts:4-5 | the prefix is "INV-", the year, and a closing '-' |
| InvoiceNumbers.DigitSuffixLength | src/lib/invoice-number.ts:15 | the longest run of digits at the end of a number |
| InvoiceNumbers.TrailingNumber | src/lib/invoice-number.ts:15-16 | a trailing number is found only for a non-empty digit run right after a '-', and it is the run's decimal value |
| InvoiceNumbers.TrailingNumberAfterDash | src/lib/invoice-number.ts:15-16 | a '-'-terminated prefix followed by digits yields exactly those digits' value |
| InvoiceNumbers.NoTrailingNumber | src/lib/invoice-number.ts:15-16 | a number not ending in a digit yields no trailing number |
| InvoiceNumbers.NextFromSelected | src/lib/invoice-number.ts:13-19 | the next number always starts with the year prefix |
| InvoiceNumbers.StrLessTotal | src/lib/invoice-number.ts:10 | the store's descending sort is a total string order |
| InvoiceNumbers.StrLessTransitive | src/lib/invoice-number.ts:10 | the string order is transitive |
| InvoiceNumbers.StrLessPrefix | src/lib/invoice-number.ts:8-10 | a shared prefix does not change the string order |
| InvoiceNumbers.GreatestWithPrefix | src/lib/invoice-number.ts:7-11 | the selected number has the year prefix and is greatest among such numbers by string order; nothing is selected iff no number has the prefix |
| InvoiceNumbers.NextInvoiceNumberAsWritten | src/lib/invoice-number.ts:3-20 | the generator as written always returns a number with the year prefix |
| InvoiceNumbers.AsWrittenRepeatsAfter999 | src/lib/invoice-number.ts:7-19 | with INV-Y-999 and INV-Y-1000 stored, the generator as written returns INV-Y-1000 again |
| InvoiceNumbers.AsWrittenRestartsAfterNonNumeric | src/lib/invoice-number.ts:7-16 | with INV-Y-001 and INV-Y-x stored, the generator as written returns INV-Y-001 again |
| InvoiceNumbers.MaxSuffix | src/lib/invoice-number.ts:13-16 | the largest trailing number among this year's numbers, 0 when there is none |
| InvoiceNumbers.NextInvoiceNumber | src/lib/invoice-number.ts:3-20 | the corrected generator always returns a number with the year prefix |
| InvoiceNumbers.NextInvoiceNumberContinues | src/lib/invoice-number.ts:13-19 | the corrected generator continues from the largest trailing number of the year, by the source's increment-and-pad rule |
| InvoiceNumbers.NextInvoiceNumberFresh | src/lib/invoice-number.ts:3-20 | the corrected generator never returns a number already stored |
| InvoiceNumbers.PaddedSuffix | src/lib/invoice-number.ts:15-19 | a padded suffix reads back as the same number, so padding never truncates |
| InvoiceNumbers.NextInvoiceNumberFirst | src/lib/invoice-number.ts:13-19 | with no number of this year the result is INV-Y-001 |
| InvoiceNumbers.NextAfter999 | src/lib/invoice-number.ts:16-19 | after INV-Y-999 comes INV-Y-1000 |
| InvoiceNumbers.ThreeDigitsOrder | src/lib/invoice-number.ts:10 | for three-digit suffixes string order is numeric order |
| InvoiceNumbers.AsWrittenAgreesWhileThreeDigits | src/lib/invoice-number.ts:7-19 | while every suffix of the year is exactly three digits, the generator as written and the corrected one agree |
| Invoices.ItemsValidAt | src/models/Invoice.js:40-45 | every item of a schema-valid invoice has a name and non-negative quantity and unit cost |
| Invoices.SubtotalAppend | src/models/Invoice.js:95-99 | one more item adds quantity × unit cost to the subtotal |
| Invoices.SubtotalNonNegative | src/models/Invoice.js:43-99 | with non-negative quantities and unit costs the subtotal is non-negative |
| Invoices.TotalPlain | src/models/Invoice.js:102-123 | with the discount and shipping flags off and tax 0 the total is the subtotal |
| Invoices.TotalFormula | src/models/Invoice.js:102-123 | in '%' mode the total is (subtotal − discount) × (1 + tax/100) + shipping, otherwise subtotal − discount + tax + shipping, where discount and shipping count only when their flag is on |
| Invoices.TotalMonotoneInItems | src/models/Invoice.js:95-123 | adding an item to a schema-valid invoice never lowers its total |
| InvoiceStore.NumbersOf | src/models/Invoice.js:31 | the stored numbers, one per document, in order |
| InvoiceStore.AppendKeepsValid | src/models/Invoice.js:31 | appending a schema-valid document with a new number and the next id keeps numbers and ids unique |
| InvoiceStore.Store.constructor | src/models/Invoice.js:3-92 | a new collection is empty and valid |
| InvoiceStore.Store.Save | src/models/Invoice.js:3-92 | `save()` rejects a schema-invalid document, then a duplicate number (unique index); otherwise it appends the document with the next id and the creation time; a failed save changes nothing |
| InvoiceStore.Store.SetPdfPath | src/lib/recurring-invoices.ts:128-129 | only the document with the id gets the new pdfPath |
| InvoiceStore.Store.SetSchedule | src/lib/recurring-invoices.ts:140-145 | only the document with the id gets the new nextRunDate and lastRunAt |
| InvoiceStore.Store.ListNewestFirst | src/app/api/invoices/route.ts:7-15 | GET lists every stored invoice exactly once, newest createdAt first |
| InvoiceStore.InsertNewestFirst | src/app/api/invoices/route.ts:10 | inserting into a newest-first list keeps it newest-first and adds exactly the new element |
| InvoiceStore.SortNewestFirst | src/app/api/invoices/route.ts:10 | the sort yields a newest-first permutation of its input |
| InvoiceStore.MergeCompany | src/app/api/invoices/route.ts:51-54 | without a sent company the configured company is used |
| InvoiceStore.MergeCompanyFields | src/app/api/invoices/route.ts:51-54 | each sent company field overrides the configured default, every other field keeps the default |
| InvoiceStore.MergeAccount | src/app/api/invoices/route.ts:62-68 | without sent bank details the defaults are used |
| InvoiceStore.MergeAccountFields | src/app/api/invoices/route.ts:62-68 | a sent bank field is kept; an unsent one takes the default only when every sent value is empty, and is '' otherwise |
| InvoiceStore.ResolveNumber | src/app/api/invoices/route.ts:24-46 | a non-blank sent number is kept verbatim; a missing or blank one is replaced by the next generated number, which is not yet stored |
| InvoiceStore.PrepareDefaults | src/app/api/invoices/route.ts:49-60 | status is the sent one when non-empty and "unpaid" otherwise; items, customer, financial, date and recurring block are taken from the body unchanged |
| InvoiceStore.GeneratedNumberIsNew | src/app/api/invoices/route.ts:24-46 | a generated number never collides with a stored one |
| InvoiceStore.CreateInvoice | src/app/api/invoices/route.ts:18-82 | a number already stored gives 400 and inserts nothing; a schema-invalid document gives 500 and inserts nothing; otherwise the prepared document is appended and returned with 201 |
| Stats.FlatTotalVersusTotal | src/app/api/invoices/stats/summary/route.ts:23-30 | the route's flat total ignores the discount and shipping flags, so it differs from the model's total by exactly the flagged-off amounts, and agrees with it (outside '%' mode) when both flags are on |
| Stats.TallySplits | src/app/api/invoices/stats/summary/route.ts:22-41 | every total is split exactly: revenue + partial + unpaid is the sum of the totals, revenue is the paid invoices' totals, partial is what was paid on partial invoices |
| Stats.TallyRevenue | src/app/api/invoices/stats/summary/route.ts:19-41 | the accumulation loop ends with the sums of crediting every invoice in order |
| Stats.NonTemplates | src/app/api/invoices/stats/summary/route.ts:12-16 | exactly the non-template invoices are counted and summed |
| Stats.CountsPartition | src/app/api/invoices/stats/summary/route.ts:12-13 | invoices plus templates is the size of the store |
| Stats.ProjectDefaults | src/app/api/invoices/stats/summary/route.ts:52-84 | a recent entry's currency and status are never empty, defaulting to "USD" and "unpaid" and otherwise kept; its total is its subtotal plus tax and shipping minus discounts |
| Stats.Newest | src/app/api/invoices/stats/summary/route.ts:44-46 | the recent list holds min(10, number of invoices) non-template invoices, newest first, all of them when there are at most 10 |
| Stats.NewestLeaveOutOlder | src/app/api/invoices/stats/summary/route.ts:44-46 | no invoice left out of the recent list is newer than one shown |
| Stats.SortedPrefix | src/app/api/invoices/stats/summary/route.ts:45-46 | the first n of a newest-first permutation are newest-first, drawn from the input, and no left-out element is newer |
| Stats.RecentFacts | src/app/api/invoices/stats/summary/route.ts:44-85 | at most 10 recent entries, newest createdAt first, each the projection of a stored non-template invoice |
| Stats.Summarize | src/app/api/invoices/stats/summary/route.ts:7-97 | recurring processing runs first, with exactly the effect of a scheduler run (every source found takes its own pass, in order); then invoices and templates are counted from the processed store, totalRevenue = paid totals + partial payments, revenue + unpaid = the sum of the totals, and the recent list is the projection of the newest ten |
| InvoiceGenerator.NonEmptyParts | src/services/invoiceGenerator.js:16 | the filter keeps only non-empty parts, each taken from the input |
| InvoiceGenerator.NonEmptyPartsKeeps | src/services/invoiceGenerator.js:16 | a list with no empty part passes the filter unchanged |
| InvoiceGenerator.Segments | src/services/invoiceGenerator.js:16 | the path's segments are non-empty and hold no separator |
| InvoiceGenerator.FirstDuplicate | src/services/invoiceGenerator.js:19-36 | the search finds the first later segment that equals the first one and starts a copy of at least the first two segments, and finds nothing iff there is none |
| InvoiceGenerator.CleanPath | src/services/invoiceGenerator.js:9-39 | the nested loops return the empty input unchanged, and otherwise "/" + the segments from the first duplicate on, or the normalised path when there is none |
| InvoiceGenerator.CountMatches | src/services/invoiceGenerator.js:22-29 | the inner loop counts how many leading segments the copy at i repeats, stopping at the first difference |
| InvoiceGenerator.RootedSegments | src/services/invoiceGenerator.js:16-32 | a path built as "/" + segments splits back into those segments |
| InvoiceGenerator.CleanPathSuffix | src/services/invoiceGenerator.js:13-38 | the cleaned path's segments are a suffix of the normalised path's segments, and when anything was dropped the kept part starts with a copy of the first two segments |
| InvoiceGenerator.NoRepeatUnchanged | src/services/invoiceGenerator.js:19-38 | a path whose first segment never recurs is returned normalised and otherwise unchanged |
| InvoiceGenerator.Location | src/services/invoiceGenerator.js:180-183 | the location line is empty iff both city and country are empty |
| InvoiceGenerator.LinesConcat | src/services/invoiceGenerator.js:166-197 | joining two blocks of non-empty single lines gives such a block |
| InvoiceGenerator.InfoLines | src/services/invoiceGenerator.js:165-198 | no emitted line is empty |
| InvoiceGenerator.InfoEmptyIff | src/services/invoiceGenerator.js:165-238 | the block is '' iff every field is empty |
| InvoiceGenerator.InfoLinesRecoverable | src/services/invoiceGenerator.js:165-238 | for single-line fields, splitting a non-empty block at '\n' gives back exactly the emitted lines; with no field set the block is ''; a set name is the first line |
| InvoiceGenerator.InfoLinesSingle | src/services/invoiceGenerator.js:165-198 | single-line fields give single-line entries |
| InvoiceGenerator.FormatInfo | src/services/invoiceGenerator.js:165-198 | the push sequence yields the non-empty fields in order name, second line, address, location, Phone, Email, VAT ID, joined by '\n' |
| InvoiceGenerator.FormatCompanyInfo | src/services/invoiceGenerator.js:165-198 | the company block has the tagline as its second line |
| InvoiceGenerator.FormatCustomerInfo | src/services/invoiceGenerator.js:205-238 | the customer block has the company as its second line |
| InvoiceBuilder.DetectBySignature | src/services/invoiceBuilder.js:150-167 | PNG, JPEG, GIF and WebP are reported exactly when the buffer starts with that format's magic bytes; SVG exactly when no magic matches, the buffer is not empty and its decoded head trims to a `<svg` start; the text decoder matters only in that last case |
| InvoiceBuilder.Extname | src/services/invoiceBuilder.js:199 | the extension `path.extname` returns is empty or a single leading '.' followed by no other '.' and no '/' |
| InvoiceBuilder.ExtensionTableAgrees | src/services/invoiceBuilder.js:172-208 | a file named `<stem>.<ext>` for a format's usual extension gets from the extension table the same MIME type the signature table gives that format |
| InvoiceBuilder.ExtensionCaseIgnored | src/services/invoiceBuilder.js:198-207 | the extension is lower-cased before lookup, so `photo.JPG` and `photo.jpg` get the same type |
| InvoiceBuilder.MimeTypeFacts | src/services/invoiceBuilder.js:136-193 | the detected type always starts with `image/`; for a buffer `isValidImage` accepts the URL plays no part; an image content-type wins, otherwise recognised bytes decide, and only a buffer that is not a valid image falls back to the extension |
| InvoiceBuilder.MimeTypesAreImages | src/services/invoiceBuilder.js:179-207 | every entry of both MIME tables, and the PNG fallback, is an `image/` type |
| InvoiceBuilder.HtmlIgnoresLeadingSpace | src/services/invoiceBuilder.js:85-90 | white space before `<!DOCTYPE`, `<html` or `<?xml` does not change whether a response counts as HTML |
| InvoiceBuilder.NormalizeImageUrlFacts | src/services/invoiceBuilder.js:121-131 | an absolute URL is kept; a root-relative one is appended to the origin, any other relative one to the origin plus '/'; the result is absolute and normalising it again changes nothing |
| InvoiceBuilder.OrNull | src/services/invoiceBuilder.js:284-285 | `s \|\| null` is null exactly for the empty string |
| InvoiceBuilder.PayloadItems | src/services/invoiceBuilder.js:288-293 | one payload item per input item, in order, each mapped field by field |
| InvoiceBuilder.AccountRowsFacts | src/services/invoiceBuilder.js:313-362 | exactly the account details whose trimmed value is non-blank get a row, in the fixed order Bank Name, Account Holder, Account Number, IBAN, SWIFT/BIC, Branch Address, showing the trimmed value with its padding; the branch name never affects the rows |
| InvoiceBuilder.CustomFieldsLayout | src/services/invoiceBuilder.js:313-384 | `custom_fields` is absent exactly when there are no account details, no caller fields and no purchase order; otherwise it is the account rows, then the caller's fields in order, then the purchase order as the last row when set |
| InvoiceBuilder.PayloadDefaults | src/services/invoiceBuilder.js:263-311 | currency defaults to USD and is never empty; the tax mode defaults to '%'; the discount and shipping flags are on unless given as `false`; absent amounts are 0; notes are null exactly when empty; the logo is present exactly when a non-empty one was obtained; `ship_to` exactly when given; items keep name, quantity and unit cost |
| InvoiceBuilder.AccountRowsPushed | src/services/invoiceBuilder.js:319-361 | the six conditional pushes, done in source order, produce exactly the account rows |
| InvoiceBuilder.PushAccountRows | src/services/invoiceBuilder.js:314-362 | the rows pushed for the account details are the account rows |
| InvoiceBuilder.PushExtraFields | src/services/invoiceBuilder.js:364-384 | after the account rows, the caller's fields and the purchase order are pushed as the custom-field layout prescribes, and the list is created only when something goes into it |
| InvoiceBuilder.PushCustomFields | src/services/invoiceBuilder.js:313-384 | the `custom_fields` key built step by step is the one the layout describes |
| InvoiceBuilder.BuildInvoiceData | src/services/invoiceBuilder.js:263-392 | the request body is the payload whose defaults and custom fields the lemmas above describe |
| Slices.FindFirst | src/store/slices/invoiceSlice.ts:188 | `findIndex` finds nothing exactly when no element has the id; otherwise the position it returns holds the id and no earlier one does |
| Slices.ReplaceFirstFacts | src/store/slices/invoiceSlice.ts:187-191 | replacing by id keeps the length, changes only the first element with the payload's id (nothing when there is none), and doing it again changes nothing more |
| Slices.RemoveId | src/store/slices/invoiceSlice.ts:198 | filtering by id keeps only elements of the list whose id differs, and keeps every one of those |
| Slices.RemoveIdAppend | src/store/slices/invoiceSlice.ts:198 | filtering a concatenation filters each part, so the survivors keep their order |
| Slices.RemoveIdAbsent | src/store/slices/clientSlice.ts:89 | when no element has the id, deleting it leaves the list unchanged |
| Slices.RemoveIdTwice | src/store/slices/templateSlice.ts:79 | deleting the same id twice is the same as deleting it once |
| Slices.CreateThenDelete | src/store/slices/clientSlice.ts:79-90 | creating a record with a fresh id (it goes first) and then deleting that id gives back the list as it was |
| Slices.ErrorText | src/store/slices/invoiceSlice.ts:175 | the error shown is the request's message when it is non-empty, else exactly the fixed fallback, so it is never empty for a non-empty fallback |
| Slices.SetPdfPathFacts | src/store/slices/invoiceSlice.ts:205-208 | setting the PDF path changes only the first invoice with the id, and only its `pdfPath`; every id and all other content stay |
| Slices.InvoiceSlice.constructor | src/store/slices/invoiceSlice.ts:96-102 | the store starts with no invoices, no current invoice, not loading, no error, no stats |
| Slices.InvoiceSlice.SetCurrentInvoice | src/store/slices/invoiceSlice.ts:155-157 | the current invoice becomes the given one; nothing else changes |
| Slices.InvoiceSlice.ClearError | src/store/slices/invoiceSlice.ts:158-160 | the error is cleared; nothing else changes |
| Slices.InvoiceSlice.FetchInvoicesPending | src/store/slices/invoiceSlice.ts:165-168 | loading starts and the error is cleared; the lists stay |
| Slices.InvoiceSlice.FetchInvoicesFulfilled | src/store/slices/invoiceSlice.ts:169-172 | the fetched list replaces the old one and loading stops |
| Slices.InvoiceSlice.FetchInvoicesRejected | src/store/slices/invoiceSlice.ts:173-176 | loading stops and the error is the message or "Failed to fetch invoices"; the list stays |
| Slices.InvoiceSlice.FetchInvoiceFulfilled | src/store/slices/invoiceSlice.ts:178-180 | the fetched invoice becomes the current one |
| Slices.InvoiceSlice.CreateInvoiceFulfilled | src/store/slices/invoiceSlice.ts:182-185 | the new invoice is put first in the list and becomes the current one |
| Slices.InvoiceSlice.UpdateInvoiceFulfilled | src/store/slices/invoiceSlice.ts:187-195 | the first listed invoice with the payload's id is replaced, and the current invoice is replaced when its id equals the payload's |
| Slices.InvoiceSlice.DeleteInvoiceFulfilled | src/store/slices/invoiceSlice.ts:197-202 | every invoice with the id leaves the list, and a current invoice with that id is cleared |
| Slices.InvoiceSlice.GeneratePdfFulfilled | src/store/slices/invoiceSlice.ts:204-212 | the PDF path is set on the first listed invoice with the id and on the current invoice when its id matches |
| Slices.InvoiceSlice.FetchStatsFulfilled | src/store/slices/invoiceSlice.ts:214-216 | the fetched statistics replace the old ones; nothing else changes |
| Slices.InvoiceSlice.UpdateInvoiceStatusFulfilled | src/store/slices/invoiceSlice.ts:217-222 | a settled status update changes no state |
| Slices.DeleteInvoiceFacts | src/store/slices/invoiceSlice.ts:197-202 | after a delete no listed invoice has the id, and a current invoice survives exactly when its id differs |
| Slices.UpdateWithoutIdSetsCurrent | src/store/slices/invoiceSlice.ts:192-194 | a payload without an id installs itself as current when the current invoice is absent or unsaved, since both ids are undefined |
| Slices.ClientSlice.constructor | src/store/slices/clientSlice.ts:23-27 | no clients, not loading, no error |
| Slices.ClientSlice.ClearError | src/store/slices/clientSlice.ts:61-63 | the error is cleared; the clients stay |
| Slices.ClientSlice.FetchClientsPending | src/store/slices/clientSlice.ts:67-70 | loading starts and the error is cleared |
| Slices.ClientSlice.FetchClientsFulfilled | src/store/slices/clientSlice.ts:71-74 | the fetched list replaces the old one and loading stops |
| Slices.ClientSlice.FetchClientsRejected | src/store/slices/clientSlice.ts:75-78 | loading stops and the error is the message or "Failed to fetch clients" |
| Slices.ClientSlice.CreateClientFulfilled | src/store/slices/clientSlice.ts:79-81 | the new client is put first |
| Slices.ClientSlice.UpdateClientFulfilled | src/store/slices/clientSlice.ts:82-87 | the first client with the payload's id is replaced |
| Slices.ClientSlice.DeleteClientFulfilled | src/store/slices/clientSlice.ts:88-90 | every client with the id leaves the list |
| Slices.TemplateSlice.constructor | src/store/slices/templateSlice.ts:24-28 | no templates, not loading, no error |
| Slices.TemplateSlice.ClearError | src/store/slices/templateSlice.ts:57-59 | the error is cleared; the templates stay |
| Slices.TemplateSlice.FetchTemplatesPending | src/store/slices/templateSlice.ts:63-66 | loading starts and the error is cleared |
| Slices.TemplateSlice.FetchTemplatesFulfilled | src/store/slices/templateSlice.ts:67-70 | the fetched list replaces the old one and loading stops |
| Slices.TemplateSlice.FetchTemplatesRejected | src/store/slices/templateSlice.ts:71-74 | loading stops and the error is the message or "Failed to fetch templates" |
| Slices.TemplateSlice.CreateTemplateFulfilled | src/store/slices/templateSlice.ts:75-77 | the new template is put first |
| Slices.TemplateSlice.DeleteTemplateFulfilled | src/store/slices/templateSlice.ts:78-80 | every template with the id leaves the list |
| Slices.TemplateSlice.CreateInvoiceFromTemplateSettled | src/store/slices/templateSlice.ts:45-81 | the slice has no case for creating an invoice from a template, so settling that request changes nothing |

## Left out

- HTTP and Next.js plumbing are left out: response objects, request parsing, and the cookie setters of src/lib/auth/session.ts. Each handler is a function or method from the state, the input and the clock to the new state and a status.
- Persistence (mongoose queries, `connectDB`, the upsert of the auth record) is an in-memory sequence or record inside a class.
- Mongoose strict mode is not modelled. src/models/Invoice.js declares no `recurring` path, so in the source the `recurring` block that `POST /api/invoices` and `PUT /api/invoices/[id]` send is dropped before it is stored. The model stores it, and the recurring pass then finds its sources. What the source's query `{'recurring.enabled': true}` matches on a path the schema lacks depends on the Mongoose version's `strictQuery` default, which the repository does not fix: either no document, or every non-template document with an empty recurring block.
- The cryptographic and encoding primitives are parameters with no interpretation. These are PBKDF2, HMAC-SHA256, `randomBytes`, `timingSafeEqual`, `atob`, base64url, JSON, and the `@simplewebauthn/server` generate and verify calls. Where a round trip is needed, it is a precondition on those parameters.
- `Number(...)` on environment strings is a parameter. Fractional and exponent forms are not modelled beyond "parses to a finite number".
- JavaScript doubles are not modelled. Money is `real`. The rounding to cents in the summary endpoint and all `toFixed` display are left abstract.
- Each handler reads the clock once, as one `now`; where the source calls `Date.now()` several times, the model uses that same value.
- The local-time year used for numbering is an input.
- `new URL(baseUrl).origin` is an input to `InvoiceBuilder.NormalizeImageUrl`.
- The network and the filesystem are not modelled:
  - `getLogoUrl`, `fetchLogoFromUrl`, `readLogoFromFile` and `logFetchError`;
  - `extractImageUrlFromHtml`, whose regular expressions serve only the network fallback;
  - `generatePDF` and `generateEInvoice`;
  - src/lib/invoice-pdf.ts.
  The logo a request carries, and the outcome of rendering a PDF, are inputs.
- The single-flight `processingPromise` of the recurring pass is left out. The model runs one pass to completion; async interleavings are not modelled.
- InvoiceGenerator.CleanPath: paths are POSIX paths, with '/' as `path.sep`; `path.normalize` is a parameter, and Windows separators and drive letters are not modelled.
- Recurring.Normalize: the recurring input is typed, with integer numbers. Its caller converts the JSON values: `dueInDays` holds `Number(x)` when that is finite, so `null` and '' arrive as 0, and `intervalDays` is absent when the submitted value is falsy. Fractional numbers are not modelled. A non-numeric `intervalDays`, for which `Math.max(1, NaN)` is `NaN`, is not modelled either. `lastRunAt || null` and `sourceInvoiceId || null` also turn 0 and '' into null; the model keeps such values as given.
- `toLowerCase` is ASCII only (`Common.ToLowerAscii`). The model has no Unicode case mapping and no normalisation.
- Dates use the ISO date-only forms `YYYY`, `YYYY-MM` and `YYYY-MM-DD`. A day beyond the end of the month rolls over, as `Date.UTC` does. Expanded six-digit years and the engine's legacy fallback formats are not modelled: such strings count as unparseable.
- The invoice slice's records are opaque apart from `_id` and `pdfPath`; the client and template records are opaque apart from `_id`. The HTTP thunks are left out; their results are the reducers' arguments.
- The credential rename and delete routes (PATCH and DELETE on the credentials endpoint) are not modelled.
- These thin CRUD wrappers are not modelled:
  - the clients and templates API routes;
  - the next-number route, which repeats the generator of src/lib/invoice-number.ts;
  - the recurring-process route.
- The UI is not modelled: pages, components and their local display helpers.
- Configuration constants and client plumbing are not modelled: the store setup and the API client.
- SessionEdge.IsEqual: "no early exit" is stated through a ghost count of the bytes it examines. Timing itself is not modelled.
- Number choice: the recurring pass and `POST /api/invoices` number new invoices with the corrected generator `InvoiceNumbers.NextInvoiceNumber`, not the one as written (see "Findings"). In the source, once INV-Y-1000 is stored every auto-numbered `POST /api/invoices` of that year is answered 400, and a recurring clone's `save()` fails on the unique index of `invoice.number`.
- InvoiceStore.ResolveNumber: "the generated number is not yet stored" holds of the corrected generator; the route as written can generate a stored number (Number choice above).
- InvoiceStore.GeneratedNumberIsNew: true of the corrected generator only; as written a stored number is generated again after INV-Y-999 (Number choice above).
- InvoiceStore.CreateInvoice: in the model a generated number never reaches the 400 branch; in the source every auto-numbered request after INV-Y-999 does (Number choice above).
- Scheduler.CloneOne: clones are numbered by the corrected generator; in the source a clone can get a stored number, and its `save()` then fails (Number choice above).
- WebAuthn.AssertStage / AuthStates.SetCounter: the sign-in stage performs the counter update that lines 76-80 of login/verify/route.ts describe, not the call as written, which sets no counter (see "Findings"; the call as written is `WebAuthn.AssertStageAsWritten`).
- AuthStates.SetCounterFacts: states the intended counter update; as written login/verify/route.ts:75-82 changes no counter.
- WebAuthn.AssertStageFacts: on a verified assertion it promises the stored counter update and a "webauthn" session; as written the counter is never set, and when the database refuses the misplaced update the answer is 500 without a session after the challenge was cleared (`WebAuthn.AsWrittenCounterNeverSet`).
- WebAuthn.LoginVerifyFacts: its outcome after the gates is that of the intended stage, so a verified login signs in and "a non-success other than 401 leaves the slot" holds; as written a refused counter update gives 500 after the challenge was cleared.
- WebAuthn.LoginVerify: the handler delegates to the stage with the intended counter update, not the call as written at login/verify/route.ts:75-82.
- WebAuthn.VerifyAssertion: writes the new counter into the stored credential, which the call as written at login/verify/route.ts:75-82 does not do.

## Findings

| source | as written | input that shows it | evidently intended | confidence | as-written member | corrected member |
|---|---|---|---|---|---|---|
| src/lib/invoice-number.ts:7-19 | the "highest" number of the year is picked by descending string order and its trailing digits are incremented | stored INV-Y-999 and INV-Y-1000: "INV-Y-999" sorts above "INV-Y-1000", so INV-Y-1000 is generated again and the unique index refuses it | continue from the numerically largest suffix, so a generated number is never already stored | not executed | InvoiceNumbers.AsWrittenRepeatsAfter999 | InvoiceNumbers.NextInvoiceNumberFresh |
| src/lib/invoice-number.ts:7-16 | a selected number without trailing digits restarts the suffix at 001 | stored INV-Y-001 and INV-Y-x: "INV-Y-x" sorts highest, has no digits, and INV-Y-001 is generated again | skip numbers without a numeric suffix and continue from the largest numeric one | not executed | InvoiceNumbers.AsWrittenRestartsAfterNonNumeric | InvoiceNumbers.NextInvoiceNumberFresh |
| src/app/api/auth/webauthn/login/verify/route.ts:74-83 | the counter update goes to the loaded document's `updateOne(update, options)` with the filter as the update and the positional `$set` as options, so no counter is set; a refused update throws into the catch after the challenge was cleared | any verified assertion: the verifier always returns a numeric `newCounter`, which is never stored, and the database most likely refuses `$set` of `webAuthnCredentials.credentialID` through the array, giving 500 with no session | store the new counter on the credential with that ID, as the static `AuthState.updateOne(filter, update)` form does, then sign in | not executed | WebAuthn.AsWrittenCounterNeverSet | WebAuthn.AssertStageFacts |
