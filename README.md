# Skill-Hire: a Dafny model of the marketplace's request handlers, route gating and page logic

Skill-Hire is a Next.js marketplace where clients book laborers, pay through Razorpay or
Stripe, and follow a job's progress. This project models the parts of it that make
decisions, and proves properties of that model:

- **The four API route handlers** that write to the store:
  - `POST /api/payments/create-order` records a pending Razorpay payment.
  - `POST /api/payments/verify` checks the Razorpay signature and settles the payment.
  - `POST /api/payments/process` records a Stripe card payment and settles it if it succeeded.
  - `POST /api/tracking/update` records the laborer's position and any status change.

  The tables (bookings by id; payments, notifications and tracking rows in insertion
  order) are the fields of one class, `Api.Backend`. It has one method per handler.
  Each method runs the handler's guards with early returns and then its writes one
  after another. Each is proved to have exactly the effect that a pure function of the
  route's module specifies (`VerifyRoute.VerifyEffect` and its siblings). The
  properties are lemmas about those functions:
  - the guard order (401, 400, 404, 403);
  - no write on any error path;
  - exactly which rows change;
  - which store errors are looked at;
  - that no route deletes a row or reopens a completed payment (`PaymentLifecycle`).
- **Route gating** (`middleware.ts`): the protected and auth path tests, the three-way
  decision, and the `config.matcher` that decides where the middleware runs at all.
- **Page logic**:
  - the job search filter and reset (`JobSearch`);
  - the skill list editor, which the profile and post-job pages share line for line
    (`Skills`; app/jobs/post/page.tsx:40-49 is the same code as
    app/profile/page.tsx:28-37);
  - the post-job form (`JobPost`);
  - the dashboard's earnings, counters and badge, colour and button mappings (`Dashboard`);
  - the chat contact search and message sending (`Chat`).
- **Row shapes and status enumerations** (`Database`). `Js` models the JavaScript
  built-ins the code relies on: truthiness, `trim`, `includes`, `toLowerCase`,
  `replace` with a one-character pattern, `Math.round` and `toFixed(2)`. `Seqs` models
  `Array.prototype.filter`.

Inputs that the handlers get from outside are parameters:
- whether there is a session and whose it is;
- the JSON body, or the exception `request.json()` throws;
- the gateway's answer, or its exception;
- the HMAC-SHA256 hex digest, as an uninterpreted function `hmacHex(secret, message)`
  (RFC 2104);
- which store calls return an error, as a `Faults` record. A failed call has no effect.

Where the code and the intended design differ, the model follows the code:
- **Verify with no matching payment row.** `/api/payments/verify` only looks at the
  payment update's error. When no payment row matches the booking and order id, the
  update changes nothing, yet the booking still moves to `in_progress` and the laborer
  is notified (`VerifyRoute.VerifyWithoutMatchingRowStillSettles`).
- **Verify is not idempotent.** Replaying a verified request appends a second
  notification (`VerifyRoute.VerifyReplayNotifiesTwice`).
- **The tracking route trusts the status.** It writes any status string it is given
  into the booking (`TrackingRoute.StatusOutsideEnumerationWritten`). For that reason
  `Booking.status` is a string, and `Database.ParseBookingStatus` reads it back into
  the enumeration.
- **"/chatroom" is never gated.** It passes `isProtectedRoute`, because that is a
  prefix test. But `config.matcher` never runs the middleware on it
  (`Middleware.ChatroomProtectedButUngated`).

## Model

| member | source | states |
|---|---|---|
| Database.ParseBookingStatus | types/database.ts:31 | a stored booking status parses iff it is one of the five declared names, to the status of that name |
| Database.BookingStatusRoundTrip | types/database.ts:31 | every booking status's name parses back to it, so the five names are distinct |
| Database.ParsePaymentStatus | types/database.ts:50 | a stored payment status parses iff it is pending, completed, failed or refunded |
| Database.PaymentStatusRoundTrip | types/database.ts:50 | every payment status's name parses back to it |
| Database.ParseRole | types/database.ts:6 | a role parses iff it is "client" or "laborer" |
| Database.RoleRoundTrip | types/database.ts:6 | every role's name parses back to it |
| Store.LookupBooking | app/api/payments/verify/route.ts:26-34 | the booking is found iff the read does not fail and a row has that id, and it is that row |
| Store.InsertPayment | app/api/payments/create-order/route.ts:61-67 | an insert appends exactly the row unless it fails, and touches no other table |
| Store.SetBookingStatus | app/api/payments/verify/route.ts:67 | the booking update changes only the status of the row with that id, and nothing on failure |
| Store.AddNotification | app/api/payments/verify/route.ts:70-76 | a notification insert appends exactly the row unless it fails |
| Store.SettleRows | app/api/payments/verify/route.ts:51-59 | rows of the booking whose transaction id is the order id get the payment id and status completed; all other rows are unchanged; none added or removed |
| Store.PaymentNotification | app/api/payments/verify/route.ts:70-76 | the payment notification goes to the booking's laborer, has type "payment" and is unread |
| Js.Trim | app/profile/page.tsx:29 | `trim` leaves no whitespace at either end, is empty iff the input is all whitespace, and removes exactly the leading whitespace and a trailing run of whitespace |
| Js.Includes | app/jobs/search/page.tsx:81-84 | `includes` holds iff the pattern occurs at some position |
| Js.ToLowerCase | app/jobs/search/page.tsx:81-83 | lower-casing keeps the length and maps upper-case ASCII letters only |
| Js.ToLowerCaseIdempotent | app/jobs/search/page.tsx:81-83 | lower-casing twice is lower-casing once |
| Js.ReplaceFirst | app/api/tracking/update/route.ts:62 | `replace("_", " ")` changes only the first "_" and returns the input when there is none |
| Js.MinorUnits | app/api/payments/create-order/route.ts:48 | the amount in paise or cents is within half a unit of amount × 100 |
| Js.ToFixed2 | app/api/payments/verify/route.ts:74 | the formatted amount ends in a point followed by exactly two decimal digits |
| Js.FormatAmount | app/api/payments/verify/route.ts:74 | an absent amount is shown as "NaN"; a present one as a point followed by exactly two decimal digits |
| Seqs.Filter | app/jobs/search/page.tsx:78-87 | `filter` (also at app/chat/page.tsx:117, app/profile/page.tsx:36 and the dashboard counters) keeps, in order, exactly the elements that pass, each as often as it occurs |
| VerifyRoute.VerifyEffect | app/api/payments/verify/route.ts:5-87 | the answer is a failure or "verified"; no gateway is called; a failure writes nothing; tracking is never touched |
| VerifyRoute.SignatureValid | app/api/payments/verify/route.ts:41-48 | the definition of an accepted signature: equal to the hex HMAC-SHA256, under the key secret, of the order id and payment id joined by a bar; its consequences are stated by VerifySignatureGate and TamperedSignatureRejected |
| VerifyRoute.SignedMessageDeterminesPair | app/api/payments/verify/route.ts:41-44 | with order ids free of the bar character, the signed message determines the order id and the payment id |
| VerifyRoute.VerifyGuards | app/api/payments/verify/route.ts:14-38 | 401 without a session, 400 without booking, payment, order id or signature, 404 for an unknown booking, 403 for anyone but its client; no error answer writes anything |
| VerifyRoute.VerifyAmountOptional | app/api/payments/verify/route.ts:21-23 | the amount is not a required field |
| VerifyRoute.VerifySignatureGate | app/api/payments/verify/route.ts:41-64 | once the guards pass, success iff the signature equals the HMAC of the order id and payment id joined by a bar and the payment update succeeds; a bad signature is a 400 and a failed payment update a 500 "Error updating payment record", both with payments, bookings and notifications unchanged |
| VerifyRoute.VerifySettlement | app/api/payments/verify/route.ts:51-76 | on success the matching payment rows are settled and no others change, the booking is in_progress unless its update failed, and one unread "payment" notification for the laborer is appended unless its insert failed |
| VerifyRoute.VerifyWithoutMatchingRowStillSettles | app/api/payments/verify/route.ts:51-67 | with no matching payment row, verification still succeeds and moves the booking to in_progress |
| VerifyRoute.VerifyReplayNotifiesTwice | app/api/payments/verify/route.ts:51-81 | replaying a successful request succeeds again and adds a second notification |
| CreateOrderRoute.CreateOrderEffect | app/api/payments/create-order/route.ts:11-82 | the answer is a failure or the created order; a failure writes nothing; a created order is the gateway's, after a gateway call |
| CreateOrderRoute.OrderOptions | app/api/payments/create-order/route.ts:47-56 | the order is in INR with receipt "booking_" + id, auto-capture 1, notes of booking and payer, and the rounded amount in paise |
| CreateOrderRoute.CreateOrderGuards | app/api/payments/create-order/route.ts:19-44 | 401, then 400 for a missing booking id or an absent or zero amount, then 404, then 403, all before any gateway call and without writes |
| CreateOrderRoute.CreateOrderCallsGateway | app/api/payments/create-order/route.ts:38-58 | the gateway is called iff every guard passed, and with the order options |
| CreateOrderRoute.CreateOrderRecordsPendingPayment | app/api/payments/create-order/route.ts:61-76 | after the order, exactly one pending "razorpay" row with the order id and requested amount is appended; a failed insert leaves the answer unchanged |
| CreateOrderRoute.CreateOrderGatewayFailure | app/api/payments/create-order/route.ts:58-80 | a throwing gateway leaves every table as it was, and once the guards have passed the answer is a 500 with the thrown message (or "Order creation failed") |
| CreateOrderRoute.CreateOrderOnlyAppendsPayments | app/api/payments/create-order/route.ts:11-82 | the route never touches bookings, notifications or tracking, and adds at most one payment row |
| ProcessRoute.ProcessEffect | app/api/payments/process/route.ts:10-91 | the answer is a failure or the intent's id and status, after a gateway call; a failure writes nothing; tracking is never touched |
| ProcessRoute.IntentOptions | app/api/payments/process/route.ts:46-52 | the intent is in USD, for the given card, confirmed at once, for the rounded amount in cents |
| ProcessRoute.IntentPaymentStatus | app/api/payments/process/route.ts:60 | the recorded status is completed iff the intent succeeded, otherwise pending |
| ProcessRoute.ProcessGuards | app/api/payments/process/route.ts:19-43 | 401, then 400 unless card, booking id and non-zero amount are given, then 404, then 403; no gateway call and no write on any of them |
| ProcessRoute.ProcessSettlesIffSucceeded | app/api/payments/process/route.ts:55-85 | one "card" row with the intent id is appended, completed iff the intent succeeded; iff it succeeded, the booking's status alone becomes in_progress (the bookings table is otherwise unchanged, no key added) and one laborer notification is appended; an insert failure does not change the answer, which echoes the intent id and status |
| TrackingRoute.TrackingEffect | app/api/tracking/update/route.ts:4-76 | the answer is a failure or "location updated"; no gateway is called; for a body of the declared JSON types a failure writes nothing; payments are never touched |
| TrackingRoute.ChangesStatus | app/api/tracking/update/route.ts:45-54 | the booking status is rewritten iff the status the tracking row records differs from the booking's |
| TrackingRoute.ReportedStatus | app/api/tracking/update/route.ts:45 | the tracking row records the supplied status if truthy, else the booking's |
| TrackingRoute.StatusNotification | app/api/tracking/update/route.ts:58-64 | the status notification goes to the booking's client, has type "status_update" and is unread |
| TrackingRoute.TrackingGuards | app/api/tracking/update/route.ts:13-37 | 401, then 400 for a falsy booking id or absent coordinate, then 404, then 403 for anyone but the laborer; no error writes |
| TrackingRoute.OnlyLaborerUpdatesTracking | app/api/tracking/update/route.ts:35-37 | only the booking's laborer ever gets a success |
| TrackingRoute.ZeroCoordinatesAccepted | app/api/tracking/update/route.ts:20-22 | coordinates of zero pass the field check |
| TrackingRoute.TrackingUpdate | app/api/tracking/update/route.ts:40-65 | one tracking row with the caller and reported status is appended; iff a truthy, different status was sent, the booking's status alone is replaced (the bookings table is otherwise unchanged, no key added) and one client notification is appended; payments untouched |
| TrackingRoute.TrackingWriteFailure | app/api/tracking/update/route.ts:40-51 | a failed tracking write changes no table, and once the guards have passed the answer is a 500 "Error updating tracking" |
| TrackingRoute.StatusOutsideEnumerationWritten | app/api/tracking/update/route.ts:54-55 | a status outside the booking enumeration is written to the booking |
| TrackingRoute.StatusTextReplacesFirstUnderscore | app/api/tracking/update/route.ts:62 | "in_progress" reads "in progress" and "on_the_way" reads "on the_way" |
| Api.Backend.CreateOrder | app/api/payments/create-order/route.ts:11-82 | the handler's response, gateway call and new tables are those of `CreateOrderEffect` on the old tables |
| Api.Backend.Verify | app/api/payments/verify/route.ts:5-87 | the handler's response and new tables are those of `VerifyEffect` on the old tables |
| Api.Backend.Process | app/api/payments/process/route.ts:10-91 | the handler's response, gateway call and new tables are those of `ProcessEffect` on the old tables |
| Api.Backend.UpdateTracking | app/api/tracking/update/route.ts:4-76 | the handler's response and new tables are those of `TrackingEffect` on the old tables |
| PaymentLifecycle.CreateOrderKeepsHistory | app/api/payments/create-order/route.ts:61-67 | create-order keeps every payment, notification and tracking row |
| PaymentLifecycle.VerifyKeepsHistory | app/api/payments/verify/route.ts:51-76 | verify keeps each payment's booking, amount and method, never reopens a completed payment, and only appends notifications |
| PaymentLifecycle.ProcessKeepsHistory | app/api/payments/process/route.ts:55-79 | process only appends payment and notification rows |
| PaymentLifecycle.TrackingKeepsHistory | app/api/tracking/update/route.ts:40-65 | tracking only appends tracking and notification rows |
| PaymentLifecycle.CreateThenVerify | app/api/payments/verify/route.ts:51-76 | create-order followed by a correctly signed verify leaves the new row completed with the payment id, the booking in_progress and one laborer notification |
| PaymentLifecycle.TamperedSignatureRejected | app/api/payments/verify/route.ts:46-48 | a signature other than the HMAC is a 400 with the tables unchanged |
| Middleware.Decide | middleware.ts:43-54 | redirect to login (from the path) iff no session on a protected path; to the dashboard iff a session on an auth page; otherwise pass through |
| Middleware.IsProtectedRoute | middleware.ts:58-62 | a path is protected iff it starts with /dashboard, /profile, /jobs/post, /payments or /chat, and no protected path starts with /auth |
| Middleware.IsAuthRoute | middleware.ts:65-67 | every auth route is "/auth" itself or lies under "/auth/" |
| Middleware.Matched | middleware.ts:69-78 | every path the matcher runs the middleware on is protected or lies under /auth |
| Middleware.Gate | middleware.ts:43-54 | outside the matcher the request passes, so any redirect is the middleware's own; a visitor with a session on an auth route is always sent to the dashboard |
| Middleware.AuthRoutesMatched | middleware.ts:65-76 | every auth route is inside the matcher |
| Middleware.ProtectedAndAuthDisjoint | middleware.ts:58-67 | no path is both protected and an auth page |
| Middleware.SessionOnProtectedPassesThrough | middleware.ts:43-52 | a visitor with a session passes through on a protected path |
| Middleware.NoSessionOnAuthPassesThrough | middleware.ts:43-52 | a visitor without a session passes through on an auth page |
| Middleware.RedirectTargetPassesThrough | middleware.ts:43-52 | every redirect target lets the same visitor through, so there is no redirect loop |
| Middleware.MatchedDirectoriesGuarded | middleware.ts:69-78 | without a session, each protected matcher directory and every path below it is redirected to login |
| Middleware.ChatroomProtectedButUngated | middleware.ts:58-78 | "/chatroom" is protected by the prefix test but not matched, so it is never redirected |
| JobSearch.FilterJobs | app/jobs/search/page.tsx:78-87 | the jobs listed from any job list are an order-preserving subsequence of it, exactly those passing the keyword, location and type tests, each as often as it occurs |
| JobSearch.FilteredJobs | app/jobs/search/page.tsx:78-87 | the listed jobs are an order-preserving subsequence of the sample jobs, exactly those passing the keyword, location and type tests |
| JobSearch.MatchesKeyword | app/jobs/search/page.tsx:80-83 | an empty term matches every job; a non-empty term matches iff its lower case occurs in the lower-cased title, description or a skill |
| JobSearch.Matches | app/jobs/search/page.tsx:79-86 | a job passes iff it passes the keyword test, the location occurs in its location (an empty one always does), and the type is empty or equal to its type |
| JobSearch.KeywordIgnoresCase | app/jobs/search/page.tsx:81-83 | the keyword test gives the same answer for a term and its lower case |
| JobSearch.SalaryRangeIgnored | app/jobs/search/page.tsx:76-87 | for any job list, the salary range never changes the jobs listed |
| JobSearch.ResetListsAllJobs | app/jobs/search/page.tsx:163-168 | after a reset every job of any list is listed, in order |
| JobSearch.EmptyLocationAndTypeAreWildcards | app/jobs/search/page.tsx:84-85 | an empty location and type leave only the keyword test |
| JobSearch.AllTypesOptionListsNothing | app/jobs/search/page.tsx:85 | choosing "All Types" lists no job |
| JobSearch.FilterJobsIntended | app/jobs/search/page.tsx:118 | the corrected list is an order-preserving subsequence of the jobs passing the test with "all" as a wildcard |
| JobSearch.AllTypesIntendedIsWildcard | app/jobs/search/page.tsx:118 | with the correction "All Types" lists what no type selection lists, and every other choice is unchanged |
| Skills.AddSkill | app/profile/page.tsx:28-33 | the list grows by the trimmed input iff it is not blank and not listed, keeping the old entries as a prefix; the input is cleared iff a skill was added; otherwise nothing changes |
| Skills.RemoveSkill | app/profile/page.tsx:35-37 | every occurrence of the skill goes and the rest stay in order, each as often as before |
| Skills.ProfileSkillsDistinct | app/profile/page.tsx:20-25 | the initial profile skills have no duplicates |
| Skills.AddSkillKeepsDistinct | app/profile/page.tsx:29-30 | adding keeps the list free of duplicates |
| Skills.RemoveSkillKeepsDistinct | app/profile/page.tsx:35-37 | removing keeps the list free of duplicates |
| Skills.AddSkillIdempotent | app/profile/page.tsx:29-31 | pressing add twice is pressing it once |
| Skills.RemoveAbsentSkill | app/profile/page.tsx:36 | removing an unlisted skill changes nothing |
| Skills.AddThenRemoveRestores | app/profile/page.tsx:28-37 | adding a new skill and then removing it restores the list |
| JobPost.InitialPostJob | app/jobs/post/page.tsx:18-29 | the form starts with exactly the seven fields, all empty, and no skills |
| JobPost.SetField | app/jobs/post/page.tsx:31-38 | a change sets the named field and leaves every other field as it was |
| JobPost.SetFieldKeepsFields | app/jobs/post/page.tsx:31-38 | setting one of the seven fields keeps exactly the seven fields |
| JobPost.SetFieldOverwrites | app/jobs/post/page.tsx:33 | the last write to a field wins |
| JobPost.SetFieldsCommute | app/jobs/post/page.tsx:33 | writes to different fields commute |
| Dashboard.CountWithStatus | app/dashboard/page.tsx:77-79 | a counter never exceeds the number of bookings |
| Dashboard.TotalEarnings | app/dashboard/page.tsx:73-75 | the earnings are never negative while no payment amount is |
| Dashboard.CountWithStatusAppend | app/dashboard/page.tsx:77-79 | a counter is 0 for no bookings, and a new booking adds one to the counter of its own status and nothing to any other |
| Dashboard.DistinctCountsBounded | app/dashboard/page.tsx:77-79 | the counters of three different statuses add up to at most the number of bookings |
| Dashboard.SumAmountsAppend | app/dashboard/page.tsx:75 | the sum over a concatenation is the sum of the sums |
| Dashboard.TotalEarningsAppend | app/dashboard/page.tsx:73-75 | a new payment adds its amount to the earnings iff it is completed |
| Dashboard.NoCompletedNoEarnings | app/dashboard/page.tsx:73-75 | without completed payments the earnings are zero |
| Dashboard.EarningsAreGreenRows | app/dashboard/page.tsx:297-303 | the earnings are the sum over exactly the rows shown in green |
| Dashboard.BookingCounters | app/dashboard/page.tsx:77-79 | pending + active + completed is at most the number of bookings |
| Dashboard.UncountedStatusChangesNoCounter | app/dashboard/page.tsx:77-79 | a booking of any other status (accepted, cancelled, ...) changes no counter |
| Dashboard.Badge | app/dashboard/page.tsx:189-197 | completed, in_progress and pending each get their own variant, and every other status is destructive |
| Dashboard.CountedBadgesDistinct | app/dashboard/page.tsx:189-197 | the three counted statuses have distinct badges |
| Dashboard.StatusLabel | app/dashboard/page.tsx:199 | the label has the status's length, shows the first underscore as a space and keeps every other character |
| Dashboard.StatusLabels | app/dashboard/page.tsx:199 | in_progress is shown as "in progress" and the other four statuses unchanged |
| Dashboard.PaymentColour | app/dashboard/page.tsx:297-303 | green iff completed, amber iff pending, red otherwise |
| Dashboard.ActionButtons | app/dashboard/page.tsx:231-243 | exactly: Details then Edit (client) or Accept for pending; Details then Track (client) or Update for in_progress; Details then Review for completed and a client; Details alone otherwise |
| Dashboard.MissingProfileActsAsLaborer | app/dashboard/page.tsx:236-241 | without a profile the buttons are a laborer's |
| Chat.FilterContacts | app/chat/page.tsx:117 | the contacts listed from any contact list are an order-preserving subsequence of it, exactly those whose name contains the term ignoring case, each as often as it occurs |
| Chat.FilteredContacts | app/chat/page.tsx:117 | the page lists, in order, exactly its own contacts whose name contains the term ignoring case |
| Chat.EmptySearchKeepsAllContacts | app/chat/page.tsx:117 | an empty search lists every contact in order |
| Chat.SearchIgnoresCase | app/chat/page.tsx:117 | a term and its lower case list the same contacts |
| Chat.SendMessage | app/chat/page.tsx:127-141 | a blank input changes nothing; otherwise the untrimmed input is appended as message number n + 1 from "me", earlier messages unchanged, and the input cleared |
| Chat.Step | app/chat/page.tsx:127-141 | typing only replaces the input; a send keeps the earlier messages and adds at most one |
| Chat.SeedNumbered | app/chat/page.tsx:64-107 | the seed messages are numbered 1 to 7 |
| Chat.SendKeepsNumbering | app/chat/page.tsx:132 | sending keeps the messages numbered 1..n |
| Chat.RunKeepsNumbering | app/chat/page.tsx:127-141 | after any typing and sending, messages stay numbered 1..n and no two share an id |
| Chat.Run | app/chat/page.tsx:127-141 | after any typing and sending, earlier messages are never removed or changed and each action adds at most one message |

## Left out

- JSX, layout, animation and the Google Maps and geolocation components are presentation or browser I/O, so they are not modelled.
- Supabase calls are modelled as reads and writes of in-memory tables. The session is an input, and a store error is a `Faults` flag whose call then has no effect. The dashboard's data fetch, realtime subscriptions and cookie handling are not modelled.
- The Razorpay and Stripe SDKs are not modelled. Their answers or exceptions are inputs. Instantiating a client without keys, and the Stripe intent's `return_url`, are not modelled.
- HMAC-SHA256 and hex encoding are an uninterpreted function parameter. A missing `RAZORPAY_KEY_SECRET`, which makes `createHmac` throw, is not modelled.
- Amounts are exact reals, not IEEE doubles. `Math.round`, `Number(...)`, the dashboard's sum and `toFixed(2)` are stated on reals. Values of 10^21 and above, for which `toFixed` switches to exponent notation, are not modelled.
- Js.ToFixed2: the contract states only the shape of the text (a point and two decimal digits), not which digits.
- JSON `null` and an absent field are both `None`. They differ in two places that are not distinguished here. A `null` coordinate passes the tracking route's `=== undefined` test. In the verify route's notification text, `Number(null).toFixed(2)` is "0.00" while `Number(undefined).toFixed(2)` is "NaN"; `Js.FormatAmount` gives "NaN" for both.
- `String.prototype.toLowerCase` is modelled for ASCII letters only. Other letters are left as they are, with no Unicode case mapping.
- Timestamps (`created_at`, `updated_at`, the chat's formatted time) and generated row ids are not modelled. The chat's time is a parameter.
- The tracking `upsert` carries no id and no conflict target, so each call inserts a new row. It is modelled as an append.
- Concurrent requests are not modelled. Each request runs to completion before the next.
- The simulated `setTimeout` submits of the profile and post-job pages are not modelled.
- `app/api/payments/config/route.ts` (an environment read behind a 401 guard) and `types/supabase.ts` (a generated copy of the row shapes) are not part of this model.
- The `redirectedFrom` query parameter is the pathname as it is; URL encoding is not modelled.
- Of the booking row, only the id, title, status and the client and laborer ids are kept: its description, location, hours, rate and total are only displayed. Of the payment, notification and tracking rows, only the columns the modelled code writes are kept. Dates, times and row ids are left out.
- TrackingRoute.TrackingEffect: request fields are assumed to have their declared JSON types (the status a string, the coordinates numbers). A truthy non-string status, such as `5` or `true`, makes `status.replace` throw after the tracking row and the booking update are written, so the route answers 500 with those writes done; the contract "a failure writes nothing" does not cover that body.

## Findings

| source | as written | input that shows it | evidently intended | confidence | as-written member | corrected member |
|---|---|---|---|---|---|---|
| app/jobs/search/page.tsx:85 | the type test passes only an empty type or an exact match, so the "All Types" option (value "all", line 118) matches no job | choose "All Types" with any other filters | "all" is a wildcard like the empty type | high; not executed | JobSearch.AllTypesOptionListsNothing | JobSearch.AllTypesIntendedIsWildcard |
