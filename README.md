# Peer-to-peer rental marketplace: a Dafny model of its core

The system lets people list items, rent them and return them. Damage is
checked with before/after photos, and lenders are paid out. This project
models its core in Dafny:

- **The two API endpoints.**
  - `/api/payout` settles one rental by invoking the payout agent once. It checks first that no completed payment exists.
  - `/api/verify-damage` stores two photos in the `damage-reports` bucket, runs the verification agent and inserts a `damage_reports` row.
- **The agents.**
  - The orchestrator loops over pending rentals: match, price, trust check, verification.
  - The matching agent picks the available item whose owner has the best credibility.
  - The payout agent settles pending payments.
  - The trust agent computes a weighted credibility score and checks a renter/lender pair, failing open.
  - The pricing agent has a demand-tier price and a per-rental price.
  - The engagement agent sends return and pickup reminders.
- **The pages.**
  - The dashboard: rental lists, the damage form, the payout panel and the hand-off of the latest damage note.
  - The profile: bookings, listings, displayed costs, the return modal and earnings.
  - The search page's query builder.
  - The marketplace's filter.

The hosted database is the class `Tables.Db`. Its fields are the tables
and the storage bucket. Each row is a datatype. Queries are functions over
table contents, and writes reassign the fields.

Everything outside the code is a parameter:

- the agent processes (their output chunks and exit code);
- `JSON.parse`;
- store failures;
- uuids and the clock;
- the presence of a database client.

Imperative code is modelled as methods with loop invariants. Each such
method is proved equal to a specification function, and the properties are
proved about those functions.

Layout:

- `common.dfy`: JavaScript/Python values and truthiness, filters, counts and sums.
- `text.dfy`: ASCII lower-casing, substring, trimming.
- `tables.dfy`: the rows and `Db`.
- `ordering.dfy`: `ORDER BY` and `LIMIT`.
- `agent_process.dfy`: output accumulation of a spawned agent.
- One file per core source file.

## Model

| member | source | states |
|---|---|---|
| AgentProcess.Accumulate | pages/api/payout.js:42-46 | the text built by `+=` over the output chunks is the chunks joined in arrival order |
| AgentProcess.ConcatAppend | pages/api/verify-damage.js:76-80 | the accumulated text does not depend on how the output was split into chunks |
| PayoutApi.SingleCompleted | pages/api/payout.js:24-29 | `.single()` on the completed payments of the rental: data only when exactly one row matches; zero or several rows give PGRST116; a transport error is passed through |
| PayoutApi.Settle | pages/api/payout.js:11-74 | 405 iff not POST; 400 iff a field is falsy (0 counts as missing); 409 iff a completed payment was found; a lookup error other than PGRST116 gives 500 "Database query failed: …" without running the agent; the agent runs iff the lookup is clear, and then with exactly `{rental_id, user_id, amount}`; a non-zero exit gives 500 with the stderr text; unparsable output gives 500 with the parse message; 200 with the payment id iff the parsed status is `completed`, and otherwise 500 naming the status |
| PayoutApi.HandlePayout | pages/api/payout.js:11-74 | the handler, with its accumulation of agent output, returns exactly the outcome `Settle` specifies against the `payments` table; it writes nothing |
| PayoutApi.AlreadyPaidSkipsAgent | pages/api/payout.js:31-33 | a rental with its one completed payment is answered 409 and the agent is not run |
| PayoutApi.SecondPayoutConflicts | pages/api/payout.js:24-39 | once a successful payout is recorded as completed, repeating the request gives 409 without running the agent again |
| PayoutApi.DuplicateCompletedPaymentsReachAgent | pages/api/payout.js:24-36 | with two or more completed payments for a rental, `.single()` reports PGRST116 and the agent runs again |
| PayoutApi.LookupFailureStops | pages/api/payout.js:34-36 | a lookup error other than PGRST116 gives 500 "Database query failed: …" and the agent is not run |
| VerifyDamageApi.First | pages/api/verify-damage.js:54-56 | `Array.isArray(v) ? v[0] : v`: the value itself, the first element, or undefined for an empty array or an absent field |
| VerifyDamageApi.ObjectPath | pages/api/verify-damage.js:23 | every object path lies under the rental's folder `rentalId/` |
| VerifyDamageApi.Store | pages/api/verify-damage.js:21-39 | an upload with `upsert: false` only adds a new object under the rental's folder and never overwrites one; a missing file, a store error or an existing path each fail with their own message and leave the bucket unchanged; otherwise it succeeds and returns the public URL of the new path |
| VerifyDamageApi.UploadFile | pages/api/verify-damage.js:21-39 | the upload helper changes the bucket exactly as `Store` specifies |
| VerifyDamageApi.ReportRow | pages/api/verify-damage.js:98-110 | the inserted row carries the rental and reporter ids, the description or "Damage report", both URLs, `verified_by_agent` true and status `pending`; undefined agent values are dropped |
| VerifyDamageApi.AgentStage | pages/api/verify-damage.js:69-124 | the agent is spawned on the two URLs; a non-zero exit gives 500 with the exit code; unparsable output gives 500 with the parse message; an insert error gives 500 "Database insert failed: …" and no row; a clean run with a successful insert gives 200; a row is appended iff the response is 200, and it is `ReportRow` of the request fields, the two URLs and the agent's score and heatmap |
| VerifyDamageApi.RunAgentAndInsert | pages/api/verify-damage.js:69-119 | the agent run and insert change `damage_reports` exactly as `AgentStage` specifies |
| VerifyDamageApi.Pipeline | pages/api/verify-damage.js:63-124 | existing objects are preserved and new ones lie under the rental's folder; the steps happen in the order before-upload, after-upload, agent, insert, each at most once; any upload failure gives 500 with its message, no agent run and no row, and leaves the bucket as the uploads left it (a stored before image stays); when both uploads succeed the response and table are those of the agent stage on the two public URLs, so a clean run with a successful insert gives 200; the response is 200 iff the table grew, and then by exactly `ReportRow` on those URLs and the agent's answer |
| VerifyDamageApi.Uploads | pages/api/verify-damage.js:63-67 | the before image is uploaded first; if that fails the after image is not attempted, the bucket is unchanged and the message is that upload's; if only the after upload fails, the before image stays in the bucket and the message is the after upload's; both succeed iff both files are there, the store reports no error and the two paths are distinct and new, and then the bucket gains exactly the two images and the URLs are their public URLs; existing objects are kept and the agent is not involved |
| VerifyDamageApi.StoreBefore | pages/api/verify-damage.js:65 | the before upload succeeds iff the file is there, the store reports no error and the path is new |
| VerifyDamageApi.StoreAfter | pages/api/verify-damage.js:66 | after a stored before image, the after upload succeeds iff both uploads can |
| VerifyDamageApi.BothStoredFacts | pages/api/verify-damage.js:63-67 | two successful uploads store both images as distinct new objects, at the paths whose public URLs they return |
| VerifyDamageApi.UploadBoth | pages/api/verify-damage.js:63-67 | the two upload calls change the bucket exactly as `Uploads` specifies |
| VerifyDamageApi.VerifyDamage | pages/api/verify-damage.js:41-126 | 405 iff not POST; a form parse error gives 500 "Form parsing failed: …" with nothing touched; 400 iff a required form entry is missing; 400 and 405 touch nothing; a complete form runs the pipeline on the first values of its entries; every new object lies under the request's rental folder |
| VerifyDamageApi.HandleVerifyDamage | pages/api/verify-damage.js:41-126 | the handler changes the bucket and the table exactly as `VerifyDamage` specifies |
| Orchestrator.FetchRentals | agents/orchestrator/orchestrator.py:66-69 | exactly the rows with the status, in table order |
| Orchestrator.VerificationRow | agents/orchestrator/orchestrator.py:139-146 | `.update` sets rental id, reporter (the renter), status `pending` and `verified_by_agent`; every other key of the verifier's result is kept |
| Orchestrator.Step | agents/orchestrator/orchestrator.py:103-151 | no match changes nothing; rows with other ids stay; a matched row gets the item, becomes `active` (or `flagged` when trust fails) and gets a truthy price as total cost, every other field unchanged; a report is stored iff both images exist and trust passed |
| Orchestrator.ProcessAll | agents/orchestrator/orchestrator.py:96-151 | the loop keeps the row count, only appends reports (at most one per fetched rental), and every appended report is a pending agent-verified row |
| Orchestrator.ProcessAllAppend | agents/orchestrator/orchestrator.py:103 | processing two runs of rows is processing the first, then the second |
| Orchestrator.ProcessAllLeavesOthers | agents/orchestrator/orchestrator.py:103-151 | a rental whose id was not fetched is left unchanged |
| Orchestrator.NoVerifiedNoReports | agents/orchestrator/orchestrator.py:132-148 | if no fetched rental passes matching and trust with both images, no report is stored |
| Orchestrator.NoMatchNoChange | agents/orchestrator/orchestrator.py:108-114 | if nothing matches, no table changes |
| Orchestrator.UpdateRentalItem | agents/orchestrator/orchestrator.py:71-76 | every row with the rental id gets the item and status `active` |
| Tables.AssignItem | agents/orchestrator/orchestrator.py:71-76 | each row with the rental id gets the item and status `active` and nothing else changes; other rows are unchanged |
| Orchestrator.UpdateRentalPrice | agents/orchestrator/orchestrator.py:78-80 | every row with the rental id gets the total cost |
| Orchestrator.SetTotalCost | agents/orchestrator/orchestrator.py:78-80 | each row with the rental id gets the total cost and nothing else; other rows are unchanged |
| Orchestrator.MarkRentalFlagged | agents/orchestrator/orchestrator.py:86-88 | every row with the rental id becomes `flagged` |
| Orchestrator.MarkFlagged | agents/orchestrator/orchestrator.py:86-88 | each row with the rental id becomes `flagged` and nothing else changes; other rows are unchanged |
| Orchestrator.StoreVerification | agents/orchestrator/orchestrator.py:82-84 | the row is appended to `damage_reports` |
| Orchestrator.ProcessRental | agents/orchestrator/orchestrator.py:104-151 | the loop body changes the tables exactly as `Step` specifies |
| Orchestrator.Orchestrate | agents/orchestrator/orchestrator.py:96-151 | the loop over the rentals fetched as pending leaves the tables as `ProcessAll` specifies |
| MatchingAgent.Category | agents/matching_agent/matching_agent.py:66 | the rental's item type, or "General" when it is missing or empty |
| MatchingAgent.FetchAvailableItems | agents/matching_agent/matching_agent.py:22-31 | exactly the available items of the category, in table order |
| MatchingAgent.OwnerCredibility | agents/matching_agent/matching_agent.py:33-41 | 0 for a missing owner id, the stored score for an owner with a row, and failure (`.single()` raises) for an owner without one |
| MatchingAgent.FirstMaxIndex | agents/matching_agent/matching_agent.py:43-49 | the position of the first maximal score, which is what a stable descending sort puts first |
| MatchingAgent.FirstMaxUnique | agents/matching_agent/matching_agent.py:48-49 | only one position is the first maximal one |
| MatchingAgent.SelectBest | agents/matching_agent/matching_agent.py:43-49 | the loop finds the first position of the maximal owner score |
| MatchingAgent.Best | agents/matching_agent/matching_agent.py:43-49 | an item is chosen iff there are candidates and every owner score can be read; it has a maximal score and comes first among those |
| MatchingAgent.Match | agents/matching_agent/matching_agent.py:55-93 | without a client: the mock item and no writes; no match: no writes; a match: the rental is assigned and activated, and the item is marked unavailable |
| MatchingAgent.MarkUnavailable | agents/matching_agent/matching_agent.py:81-83 | each row of the item becomes unavailable and nothing else changes; other rows are unchanged |
| MatchingAgent.MatchedIsBest | agents/matching_agent/matching_agent.py:68-86 | a matched item was available, of the rental's category, and no candidate's owner scores higher |
| MatchingAgent.MatchRentals | agents/matching_agent/matching_agent.py:55-93 | the agent changes the two tables exactly as `Match` specifies |
| PayoutAgent.FetchPendingPayments | agents/payout_agent/payout_agent.py:31-34 | exactly the pending payments, in table order |
| PayoutAgent.UpdatePaymentStatus | agents/payout_agent/payout_agent.py:36-38 | every row with the payment id gets the status |
| PayoutAgent.ProcessPayment | agents/payout_agent/payout_agent.py:41-62 | the gateway's answer is returned; the status becomes `completed` or `failed` accordingly |
| PayoutAgent.RunCompletesPending | agents/payout_agent/payout_agent.py:83-97 | after a run every pending payment is completed; a row changes only when it shares its id with a pending payment |
| PayoutAgent.SecondRunFindsNothing | agents/payout_agent/payout_agent.py:83-97 | a second run finds no pending payment |
| PayoutAgent.RunPayoutAgent | agents/payout_agent/payout_agent.py:83-97 | the count is the number of pending payments; the table becomes `AfterRun` of the old table |
| TrustAgent.UserRatings | agents/trust_agent/trust_agent.py:46-49 | exactly the ratings the user received |
| TrustAgent.UserDamageReports | agents/trust_agent/trust_agent.py:51-54 | exactly the reports the user filed |
| TrustAgent.RatesBounded | agents/trust_agent/trust_agent.py:66-73 | the timely-return rate and the damage factor lie in [0, 1] |
| TrustAgent.AvgRatingBounded | agents/trust_agent/trust_agent.py:64 | with ratings in [0, 5] the mean rating lies in [0, 5] |
| TrustAgent.CredibilityBounded | agents/trust_agent/trust_agent.py:56-77 | with ratings in [0, 5] the weighted score 0.5·avg/5 + 0.3·timely + 0.2·damage lies in [0, 1] |
| TrustAgent.NoHistoryScoresHalf | agents/trust_agent/trust_agent.py:64-75 | a user with no ratings, rentals or reports scores 0.5 |
| TrustAgent.CredibilityScore | agents/trust_agent/trust_agent.py:56-77 | the weighted score; its range is stated by `CredibilityBounded` and its no-history value by `NoHistoryScoresHalf` |
| TrustAgent.StoredScore | agents/trust_agent/trust_agent.py:108-117 | the user's stored score, or 0.5 when there is no row |
| TrustAgent.EvaluateTrust | agents/trust_agent/trust_agent.py:95-137 | without a client a fixed pass with 0.85; after an exception a pass with 0.5; otherwise the mean of the two stored scores, which passes iff it is at least 0.3 |
| TrustAgent.TrustFailsOpen | agents/trust_agent/trust_agent.py:95-137 | a refusal happens only when both lookups succeeded, and then one of the two users has a stored score below 0.3 |
| TrustAgent.SetScore | agents/trust_agent/trust_agent.py:79-89 | the user's row, if any, gets the score; every other row is unchanged |
| TrustAgent.UpdateUserCredibility | agents/trust_agent/trust_agent.py:79-89 | without a client nothing is written; the score is returned either way |
| TrustAgent.RunTrustAgent | agents/trust_agent/trust_agent.py:158-176 | a missing user id gives the error and no write; otherwise the user's score is computed from their rentals, ratings and reports and written back |
| PricingAgent.Demand | agents/pricing_agent/pricing_agent.py:57-62 | the demand score is the number of rentals that started within the last 90 days |
| PricingAgent.DemandPriceBounds | agents/pricing_agent/pricing_agent.py:51-70 | the demand-tier price stays within ±10% of a non-negative base price |
| PricingAgent.DemandPriceMonotone | agents/pricing_agent/pricing_agent.py:64-70 | over non-empty histories, higher demand never gives a lower price |
| PricingAgent.EmptyHistoryKeepsBase | agents/pricing_agent/pricing_agent.py:54-68 | no history keeps the base price, while a history of old rentals only lowers it by 10% |
| PricingAgent.RentalPrice | agents/pricing_agent/pricing_agent.py:81-127 | 150 without a client, after a query error, for an unknown rental, a rental without an item, an unknown item, or a null price or date; otherwise exactly the daily price times the days from start to end |
| PricingAgent.PriceOfFound | agents/pricing_agent/pricing_agent.py:97-123 | a rental whose item and dates are all found is priced at the daily price times its days |
| PricingAgent.LongerRentalCostsMore | agents/pricing_agent/pricing_agent.py:110-123 | of two rentals of the same item with a non-negative price, the shorter one is never priced higher |
| PricingAgent.DemandPrice | agents/pricing_agent/pricing_agent.py:51-70 | the base price for an empty history; +10% for five or more recent rentals; −10% for a non-empty history with at most one; the base price for two to four |
| PricingAgent.SameDayRentalIsFree | agents/pricing_agent/pricing_agent.py:110-123 | a rental ending on its start day is priced 0 |
| PricingAgent.RentalHistory | agents/pricing_agent/pricing_agent.py:46-49 | exactly the rentals of the item |
| PricingAgent.RunPricingAsWritten | agents/pricing_agent/pricing_agent.py:149-168 | past the two error answers the run never adjusts a price |
| PricingAgent.RunAsWrittenCrashes | agents/pricing_agent/pricing_agent.py:164-165 | for an existing item the run as written fails |
| PricingAgent.TierPrice | agents/pricing_agent/pricing_agent.py:51-70 | a known base price gets its demand-tier price |
| PricingAgent.RunPricing | agents/pricing_agent/pricing_agent.py:149-168 | the error answers leave the items alone; an adjusted price is written to the item's rows; an existing priced item gets its demand-tier price |
| PricingAgent.RunPricingUpdatesItem | agents/pricing_agent/pricing_agent.py:160-168 | after a run every row of the item carries the new price, which is within 10% of the old one |
| PricingAgent.UpdatePrice | agents/pricing_agent/pricing_agent.py:72-75 | every row of the item gets the price |
| PricingAgent.RunPricingAgent | agents/pricing_agent/pricing_agent.py:149-168 | the run changes `items` exactly as `RunPricing` specifies |
| EngagementAgent.DaysAhead | agents/engagement_agent/engagement_agent.py:84 | `days_ahead` defaults to 1 |
| EngagementAgent.FetchUpcomingRentals | agents/engagement_agent/engagement_agent.py:30-35 | exactly the active rentals ending on or before the target day, in table order |
| EngagementAgent.FetchUserContact | agents/engagement_agent/engagement_agent.py:37-40 | the user's row, or nothing for a missing id or row |
| EngagementAgent.Message | agents/engagement_agent/engagement_agent.py:42-56 | the reminder is exactly "Hello <name>, your rental (" then the rental id then ") is due <kind> soon.", so it contains the rental id |
| EngagementAgent.MessageTellsKindsApart | agents/engagement_agent/engagement_agent.py:42-56 | the `return_due` and `pickup_due` reminders for the same rental and contact differ |
| EngagementAgent.ForRental | agents/engagement_agent/engagement_agent.py:88-99 | at most two reminders per rental, one per contact found: `return_due` to the renter and `pickup_due` to the lender |
| EngagementAgent.Reminders | agents/engagement_agent/engagement_agent.py:77-101 | at most two reminders per due rental, each to a user who has a row |
| EngagementAgent.NoContactsNoReminders | agents/engagement_agent/engagement_agent.py:88-99 | with no contacts found nothing is sent |
| EngagementAgent.AllContactsTwoEach | agents/engagement_agent/engagement_agent.py:88-99 | with every contact found exactly two reminders per rental are sent |
| EngagementAgent.SendReminder | agents/engagement_agent/engagement_agent.py:42-56 | sending always succeeds, with the reminder text |
| EngagementAgent.RemindParties | agents/engagement_agent/engagement_agent.py:89-99 | the loop body sends exactly `ForRental` |
| EngagementAgent.RunEngagementAgent | agents/engagement_agent/engagement_agent.py:77-101 | the reminders sent are `Reminders` of the due rentals, and the count is their number |
| Dashboard.WithStatus | pages/dashboard.jsx:290-292 | exactly the rentals with one of the given statuses, in table order: pending; active; completed or cancelled; and, for the damage form's choices (line 91), active or completed |
| Dashboard.PartitionsDisjoint | pages/dashboard.jsx:290-292 | no rental is in two lists; other statuses are in none |
| Dashboard.RentalsToPay | pages/dashboard.jsx:171 | exactly the completed rentals the user lent, in order |
| Dashboard.PayoutRequest | pages/dashboard.jsx:146-153 | the request posts the rental id, the current user and the rental's total cost |
| Dashboard.PayoutRequestComplete | pages/dashboard.jsx:149-153 | the endpoint rejects the panel's request as incomplete iff an id is empty or the total cost is null or 0 |
| Dashboard.Or | pages/dashboard.jsx:159 | JavaScript `\|\|`: the first operand if truthy, else the second |
| Dashboard.FeedbackOf | pages/dashboard.jsx:144-165 | a thrown exception records its message; a 2xx response records `data.message`; any other response records a truthy error |
| Dashboard.FeedbackFromEndpoint | pages/dashboard.jsx:156-162 | against the endpoint, a 200 shows the success text and a 409 shows the already-processed text |
| Dashboard.PayoutsPanel.StartPayout | pages/dashboard.jsx:141-143 | only the rental's key changes: loading, error cleared, success cleared; its button becomes disabled |
| Dashboard.PayoutsPanel.FinishPayout | pages/dashboard.jsx:162-167 | only the rental's key changes: loading ends, and error or success is set from the reply |
| Dashboard.HandleUpload | pages/dashboard.jsx:55-59 | rejected iff an image, the rental or the user is missing; otherwise the posted form carries every field the endpoint requires |
| Dashboard.EnabledSubmitRejectedOnlyWithoutUser | pages/dashboard.jsx:125 | an enabled Submit button is rejected only for a missing user |
| Dashboard.TakeLatestReport | pages/dashboard.jsx:258-265 | a non-empty stored report that parses is shown and removed; a non-empty one that does not parse throws and stays; otherwise storage is unchanged |
| Dashboard.ReportShownOnce | pages/dashboard.jsx:258-265 | a stored report is shown at most once |
| Dashboard.UnparsableReportThrowsEveryMount | pages/dashboard.jsx:258-265 | a stored value that does not parse is never removed, so every later mount throws on it again |
| Dashboard.SessionStore.ShowLatestReport | pages/dashboard.jsx:258-265 | session storage, the report shown and whether `JSON.parse` threw are exactly as `TakeLatestReport` specifies |
| Profile.Bookings | pages/profile.jsx:57-75 | exactly the user's rentals as renter that are pending, active or returned, newest first |
| Profile.Listings | pages/profile.jsx:92-106 | exactly the user's available items, each as often as in the table, newest first |
| Profile.ReturnOfferedUntilReturned | pages/profile.jsx:361 | a booking offers the Return button iff it is not yet returned |
| Profile.DisplayedCost | pages/profile.jsx:354-356 | `actual_total_cost \|\| total_cost \|\| 0` once returned, `total_cost \|\| 0` before |
| Profile.ActualCostShownOnlyOnceReturned | pages/profile.jsx:354-356 | a recorded actual cost is ignored before the return and shown after it |
| Profile.CeilDiv | pages/profile.jsx:706 | `Math.ceil(a / d)` for a positive divisor: the least q with a ≤ d·q |
| Profile.PeriodAsWritten | pages/profile.jsx:706 | as written: one more than the number of days elapsed since the start, rounded up |
| Profile.Period | pages/profile.jsx:706 | corrected: the number of calendar days from the start day through today, both included |
| Profile.PeriodAsWrittenOvercounts | pages/profile.jsx:706 | the period as written is one day too many except at exactly midnight |
| Profile.SameDayReturnShowsTwoDays | pages/profile.jsx:706 | one hour into the start day, the formula as written shows 2 days instead of 1 |
| Profile.FinalCost | pages/profile.jsx:713-715 | corrected: 0 without a selected booking or a price, otherwise the corrected period times the daily price |
| Profile.FinalCostAsWritten | pages/profile.jsx:713-715 | as written: 0 without a selected booking or a price, otherwise the period as written times the daily price |
| Profile.FinalCostBounds | pages/profile.jsx:713-715 | corrected: the final cost is at least one day's price, non-negative, and 0 iff the price is missing or 0 |
| Profile.FinalCostAsWrittenChargesExtraDay | pages/profile.jsx:714 | off midnight, the displayed final cost as written charges one extra day |
| Profile.DamageStatus | pages/profile.jsx:146 | "Significant damage detected" iff the score is above 0.5, else "Minor damage detected" |
| Profile.ReturnModal.Open | pages/profile.jsx:182-188 | the modal shows the booking, with image, preview and message reset |
| Profile.ReturnModal.Close | pages/profile.jsx:191-197 | the modal hides, with the booking, image, preview and message reset |
| Profile.ReturnModal.ChooseImage | pages/profile.jsx:163-173 | a chosen file and its preview are kept; no file changes nothing |
| Profile.ReturnModal.RemoveImage | pages/profile.jsx:176-179 | image and preview are cleared |
| Profile.ReturnModal.HandleReturnItem | pages/profile.jsx:121-160 | without a booking or image only the error message is set; otherwise the damage note is stored under the dashboard's key, or a failure message is shown when the booking has no joined item |
| Profile.ReturnNoteReachesDashboard | pages/profile.jsx:140-147 | the stored note is what the dashboard shows on its next mount |
| Profile.EarningsAppend | pages/profile.jsx:577 | earnings add up over any split of the listings |
| Profile.EarningsBounds | pages/profile.jsx:577 | with non-negative prices the earnings are at least any one listing's price |
| Profile.Earnings | pages/profile.jsx:577 | with non-negative prices the total earnings are non-negative |
| Search.CategoryIcon | pages/search.jsx:49-65 | the mapped icon for a listed category, the default 📦 for any other |
| Search.NamedCategoriesHaveOwnIcon | pages/search.jsx:50-63 | the eleven named categories have distinct icons, none of them the default |
| Search.AvailableOnly | pages/search.jsx:102 | exactly the available items |
| Search.TextFilter | pages/search.jsx:105-107 | for a query that is not all white space (as `trim` counts it, Unicode spaces included), the rows whose title, description or category contains it, ignoring case; a blank query keeps all |
| Search.CategoryFilter | pages/search.jsx:110-112 | the rows of the category, unless it is "All Categories" or empty |
| Search.MinFilter | pages/search.jsx:115-117 | for a minimum above 0, the rows priced at least that, and no unpriced row |
| Search.MaxFilter | pages/search.jsx:118-120 | for a maximum below 1000, the rows priced at most that, and no unpriced row |
| Search.CandidatesMember | pages/search.jsx:89-125 | a row passes the query iff it is in the table and meets every active condition |
| Search.Matches | pages/search.jsx:102-125 | the query's conditions on one row; `CandidatesMember` states that the candidates are exactly the table rows meeting them |
| Search.NarrowQuery | pages/search.jsx:89-125 | the successive reassignments build exactly the candidate rows; the repeated availability filter changes nothing |
| Search.SearchResultsSound | pages/search.jsx:89-145 | every row shown is an available table row meeting the query, and at most 50 are shown |
| Search.SearchResultsComplete | pages/search.jsx:145 | when at most 50 rows match, all of them are shown |
| Search.SearchResultsOrdered | pages/search.jsx:128-143 | the rows shown are sorted: price up, price down, owner score down, or newest first |
| Search.SortKey | pages/search.jsx:128-143 | the order key for each sort choice; `SearchResultsOrdered` and `NullPricesPlacement` state the order it gives |
| Search.SearchResults | pages/search.jsx:89-145 | the rows shown; `SearchResultsSound`, `SearchResultsComplete` and `SearchResultsOrdered` state what they are |
| Search.NullPricesPlacement | pages/search.jsx:129-134 | an unpriced row comes after every priced row for `price_low` and before them for `price_high` |
| Search.InitialQuery | pages/search.jsx:67-77 | the URL's `q`, or "search_term" without one |
| Search.SearchPage.PerformSearch | pages/search.jsx:85-161 | the results are the query's rows, or empty after an error; the total is the number of rows |
| Search.SearchPage.ClearFilters | pages/search.jsx:173-180 | the defaults are restored, and no new search is triggered, so the old results stay |
| Search.SearchPage.HandleSearch | pages/search.jsx:163-171 | a filters object is set, which triggers a search |
| Marketplace.FilteredItems | pages/marketplace.jsx:86-90 | an item is kept iff the category is "All" or its own and its lower-cased title contains the lower-cased query; the result is an order-preserving subsequence |
| Marketplace.EverythingShownByDefault | pages/marketplace.jsx:86-90 | an empty query with "All" shows every item |
| Marketplace.CategoryRespected | pages/marketplace.jsx:87 | a category other than "All" shows only its own items |
| Marketplace.CatalogueCategories | pages/marketplace.jsx:11-84 | of the page's six listings only the third, the self-drive car, is in "Vehicles" |
| Marketplace.CatalogueVehicles | pages/marketplace.jsx:86-90 | on the page's catalogue, "Vehicles" with an empty search shows the self-drive car and nothing else |
| Marketplace.CatalogueAllShown | pages/marketplace.jsx:203 | on the page's catalogue, the default view reports 6 items |
| Marketplace.ShownCount | pages/marketplace.jsx:203 | the count shown is the length of the filtered list, i.e. the number of matching items |
| Marketplace.RentLabel | pages/marketplace.jsx:275-282 | the button reads "Unavailable" iff it is disabled, i.e. iff the item is unavailable |
| Marketplace.FilledStars | pages/marketplace.jsx:251-256 | `Math.floor(rating)` stars out of 5 |

## Left out

- Process spawning, stdin writing, `formidable` parsing and the store clients are foreign calls. Their results are parameters: output chunks, exit code, parse results and failure flags.
- An exit code of `null` (a process killed by a signal) is not modelled; exit codes are integers.
- `PayoutApi.Settle`: the number formatting in "non-completed status: ${status}" is modelled only for string statuses; other JSON values print as "undefined" or "null".
- The check-then-act race in the payout endpoint is not modelled as concurrency. Its consequence, duplicate completed payments, is covered by `DuplicateCompletedPaymentsReachAgent`.
- `VerifyDamageApi.AgentStage`: the store assigns the `report_id` of the returned row; it is a parameter and is not stored in the model's row.
- The verification agent's image processing (floating-point SSIM, colour distance and edge maps) and its `main.py` wrapper are left out. The agent is an oracle returning a score and a heatmap URL.
- `Orchestrator.Step`: the matcher, pricer, trust check and verifier are oracles. In the running system the matcher, the pricer and the trust check read the database themselves, and the matcher also writes it (the rental row and `items.available`); their own reads and writes are modelled in their modules but not composed into the loop.
- `Orchestrator.State` holds only the rentals and the damage reports, not the items table. The matcher's own writes (the chosen item becomes unavailable, the rental row is assigned) are modelled in `MatchingAgent.Match` but not composed into the loop. So the model does not show that two rentals processed in one pass cannot be given the same item.
- `Orchestrator.ProcessAll`: `orchestrate` catches no exception, so an agent or a database call that raises ends the pass part-way through the loop. The model's agents always return.
- The trust agent's `updated_at` column write beside the new score is not modelled; the clock is not part of the model.
- `VerifyDamageApi.PublicUrl` joins the path without the percent-encoding the storage client applies (`encodeURI`). The paths it builds from the rental id, a UUID and a file extension are modelled as plain text.
- `AgentProcess.Concat`: output chunks are modelled as already-decoded strings. The endpoints call `data.toString()` on each buffer, so a multi-byte character split across two buffers would decode differently; `ConcatAppend`'s independence from how the output is split holds for decoded text only.
- `TrustAgent.StoredScore`: a null renter or lender id is modelled as a lookup that finds no row, so it counts as 0.5. The query actually sent is `.eq("user_id", None)`. What the store answers for that is not part of the source; if it answers with an error, `evaluate_trust` takes its exception branch and passes with 0.5.
- `EngagementAgent.FetchUserContact`: a null user id is modelled as a lookup that finds no row, so that party gets no reminder. The source sends `.eq("user_id", None)` without a `try`; if the store answers with an error, the run ends there.
- A null `credibility_score` is not modelled; scores are reals.
- `round(…, 2)` and `toFixed` are not modelled; prices and scores are exact reals.
- The pricing agent's `updated_at` column write is not modelled.
- `PayoutAgent.RunPayoutAgent`: `task_input` is not read by the source and is kept only as a parameter; the gateway always answers success, as in the source.
- `Dashboard.TakeLatestReport`: a throwing `JSON.parse` is modelled as the `threw` outcome. That it also skips the rest of the mount effect (the realtime subscription) is not modelled.
- Realtime subscriptions, `setTimeout` delays and redirects are left out.
- `Math.random` for the damage score is a parameter.
- The wall clock is a parameter ("today" as a day number, "now" in milliseconds).
- Dates are day numbers read as midnight UTC; time zones and date-string parsing are not modelled.
- Case folding (`toLowerCase`, `ilike`) is modelled for ASCII letters only. `%` and `_` in a search query are not treated as wildcards, and a query whose commas or parentheses break the `.or(...)` filter string is not modelled.
- `Search.SortKey`: ordering by the dotted column `users.credibility_score` is modelled as ordering by the owner's score with owners without a row first. How the hosted query service resolves that column name is not modelled.
- Rows with equal sort keys come out in an order the database does not fix; the model fixes one.
- `Search.CategoryIcon`: property names inherited by a JavaScript object (such as `toString`) are not modelled.
- `formatPrice` and other number formatting are left out.
- Authentication, the user-profile fetch on the profile page, sign-out and the page markup are left out.
- `pages/api/agents/[agent].js` is not part of this model.

## Findings

| source | as written | input that shows it | evidently intended | confidence | as-written member | corrected member |
|---|---|---|---|---|---|---|
| agents/pricing_agent/pricing_agent.py:51-168 | a second `calculate_price(rental_id)` at line 81 replaces the demand-tier `calculate_price(item, rentals)` of line 51, so the two-argument call at line 165 raises `TypeError` | any existing item id, e.g. `run_pricing_agent({"item_id": "i1"})` with item `i1` in the table | the demand-tier price of line 51 is computed and written to the item | not executed | PricingAgent.RunAsWrittenCrashes | PricingAgent.RunPricingUpdatesItem |
| pages/profile.jsx:706-714 | the actual period is `Math.ceil((now − start) / day) + 1` | a booking starting on day 0 and returned one hour into day 0 shows 2 days and twice the daily price | the number of calendar days from the start day through today, both included (1 day here) | not executed | Profile.SameDayReturnShowsTwoDays | Profile.FinalCostBounds |
