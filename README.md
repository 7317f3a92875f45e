# Milk marketplace business rules in Dafny

This project models the server-side business rules of a local milk
marketplace. Sellers publish milk listings. Customers place one-off daily
orders or subscribe to a run of daily deliveries. A subscription can be
paused day by day, and every pause slides its end by one day. Customers
cancel orders and subscriptions, record payments, and rate sellers and
listings. Rating averages are kept on the rated seller and on the rated
listing.

The model follows the server's modules:

| Dafny module | models |
|---|---|
| `Common` | identifiers, `Option`, the authenticated caller, handler outcomes (400/403/404/500) |
| `Clock` | instants as milliseconds of a JavaScript `Date`, calendar days, hours, weekdays, year and month |
| `Text` | the byte-wise string order the document store sorts by |
| `MilkModel`, `MilkController` | the listing schema, adding, updating and deleting listings, the type summary, listings by type |
| `OrderModel`, `OrderController` | the order schema, the ordering window, daily orders, status updates, cancellation |
| `SubscriptionModel`, `SubscriptionController` | the subscription document (a class), day counts, the pause engine, creation with its orders, cancellation with its cascade |
| `PaymentModel`, `PaymentController` | the ledger sums, recording a payment, the subscription summary, monthly earnings, the pending amount |
| `RatingModel`, `RatingController` | averages and their recomputation, creating, updating and deleting ratings, the unique index |

Documents whose fields the server changes in place are classes:
- `Subscription` holds its schedule fields and its paused days.
- The listing, order, ledger and rating collections hold sequences that their methods reassign.

Listings and ratings carry identifiers. Orders and subscriptions are never
removed, so their identifier is their position. Every request handler
either returns an `Outcome` whose failure carries the handler's status class
and message, or changes the store. Each handler is modelled as a pure
"plan" function, which states the check chain and the result. A method then
performs exactly that change and nothing else.

The clock, the request body and the caller are parameters. The local time
zone is taken as UTC, so the calendar day of an instant is `t / 86400000`.

Some behaviour of the code is made explicit by the lemmas:
- A seller may move an order from any status to any status (`StatusUpdateUnrestricted`).
- A pause creates no order for the day added at the end (`AfterPauseChangesOneOrder`).
- Subscription orders skip the ordering window and the weekday filter.
- An overpaid subscription shows a negative remaining amount (`OverpaidIsNegative`).
- Deleting a seller's only scored rating leaves the deleted average on the seller (`DeletingLastScoreKeepsStaleAverage`).
- `updateRating` does not re-check the rating-type rules.
- `updateMilk` does not re-check that type Other carries a custom name.

## Model

| member | source | states |
|---|---|---|
| Clock.Midnight | milk-platform/server/models/Subscription.js:117-119 | midnight of an instant's day starts that day: it is at most the instant and less than a day before it |
| Clock.Hour | milk-platform/server/models/Order.js:86 | the hour of the day lies in 0..23 and locates the instant within its day |
| Clock.SameDay | milk-platform/server/models/Order.js:81-85 | two instants share a calendar day iff the second lies between the first's midnight and the day's last millisecond |
| Clock.ShiftDays | milk-platform/server/controllers/subscriptionController.js:74-93 | adding k whole days moves the calendar day by k and keeps the hour |
| Clock.ParseWeekday | milk-platform/server/models/Milk.js:56-59 | a parsed weekday has the given English name; an unparsed name is no weekday's name |
| Clock.YearMonth | milk-platform/server/controllers/paymentController.js:252-255 | the month of an instant's calendar day lies in 1..12 |
| Clock.DayOfEra | milk-platform/server/controllers/paymentController.js:252-255 | the day within the 400-year era lies in 0..146096 |
| Clock.DayOfYearBounds | milk-platform/server/controllers/paymentController.js:252-255 | every day of an era falls in one of its 400 years, on day 0 to 365 of that year |
| Clock.CivilMonthMonotone | milk-platform/server/controllers/paymentController.js:252-255 | the calendar (year, month) follows the order of era, year of era and month counted from March |
| Clock.YearMonthMonotone | milk-platform/server/controllers/paymentController.js:252-261 | a later instant never falls in an earlier (year, month), so the month buckets follow the order of time |
| Clock.YearMonthOnLeapDay | milk-platform/server/controllers/paymentController.js:252-255 | the year and month of 2024-02-29 are (2024, 2) |
| Clock.WeekdayOfEpoch | milk-platform/server/controllers/orderController.js:39 | 1970-01-01 is a Thursday and the millisecond before it a Wednesday |
| Clock.WeekdayAfterOneDay | milk-platform/server/controllers/orderController.js:39 | one day later is the next weekday, and seven days later the same weekday |
| Text.StrLessTransitive | milk-platform/server/controllers/milkController.js:33 | the string order used to sort the type summary is transitive |
| Text.StrLessTotal | milk-platform/server/controllers/milkController.js:33 | any two different strings are ordered one way or the other |
| MilkModel.ParseMilkType | milk-platform/server/models/Milk.js:9-16 | a parsed type has the given name; a name outside the six values parses to nothing |
| MilkModel.EffectiveTypeOfOther | milk-platform/server/models/Milk.js:83-85 | the effective type is the custom name exactly for type Other, and otherwise the type's own name, which parses back to the type |
| MilkModel.IndexOfListing | milk-platform/server/controllers/milkController.js:169-170 | a found position holds the identifier and is the first such; not found means no listing has it |
| MilkController.ParseDays | milk-platform/server/models/Milk.js:56-59 | accepted day lists name only weekdays, entry by entry |
| MilkController.NewListing | milk-platform/server/controllers/milkController.js:112-162 | type Other without a custom name is a 400; the listing is stored iff every schema check passes, otherwise the answer is a 500; the stored listing carries the input fields, is available, and has no ratings |
| MilkController.AddMilk | milk-platform/server/controllers/milkController.js:112-162 | stores exactly the new listing under a fresh identifier, or changes nothing |
| MilkController.ApplyMilkPatch | milk-platform/server/controllers/milkController.js:186-190 | accepted iff every supplied field passes its validator; each supplied field takes its new value and all others keep theirs |
| MilkController.PatchKeepsSchema | milk-platform/server/controllers/milkController.js:186-190 | an accepted update of a schema-valid listing is schema-valid |
| MilkController.PatchIdempotent | milk-platform/server/controllers/milkController.js:186-190 | applying the same update twice equals applying it once |
| MilkController.UpdateMilk | milk-platform/server/controllers/milkController.js:167-208 | 404 for a missing listing, 403 for another seller's listing, 500 for a refused value; otherwise only the target listing is replaced |
| MilkController.RemoveListingKeepsOthers | milk-platform/server/controllers/milkController.js:232 | removal keeps exactly the listings with other identifiers |
| MilkController.RemoveListingCount | milk-platform/server/controllers/milkController.js:232 | with unique identifiers, removing a stored listing removes one entry |
| MilkController.DeleteMilk | milk-platform/server/controllers/milkController.js:213-249 | 404 or 403 leave the store unchanged; otherwise exactly the target listing is removed and identifiers stay unique |
| MilkController.KeyLessTransitive | milk-platform/server/controllers/milkController.js:33 | the summary's key order, with the missing custom name first, is transitive |
| MilkController.GetAllMilkTypes | milk-platform/server/controllers/milkController.js:9-35 | the summary is strictly sorted by type; each row counts exactly the available listings of its type and is positive; every type on offer has a row; the counts add up to the number of available listings |
| MilkController.GetSellersByMilkType | milk-platform/server/controllers/milkController.js:58-65 | best rated first; exactly the available listings whose type or custom name is the query, each as often as stored |
| MilkController.SummaryRowFindsListings | milk-platform/server/controllers/milkController.js:9-65 | querying a summary row's name finds every available listing of that type |
| OrderModel.ParseOrderStatus | milk-platform/server/models/Order.js:41-45 | a parsed status has the given name; names outside the four values parse to nothing |
| OrderModel.NewOrder | milk-platform/server/models/Order.js:41-65 | a new order is pending, with no cancellation recorded |
| OrderModel.ValidateOrderTime | milk-platform/server/models/Order.js:76-104 | same-day deliveries are refused outside hours 5..9 with the window message; past days are refused with the past-date message; later days are accepted |
| OrderModel.OrderTimeIgnoresDeliveryTime | milk-platform/server/models/Order.js:81-82 | only the delivery instant's calendar day matters |
| OrderModel.OrderWindowByHour | milk-platform/server/models/Order.js:84-101 | accepted iff the delivery day is later than today, or is today while the hour is 5..9 |
| OrderController.PlanDailyOrder | milk-platform/server/controllers/orderController.js:8-85 | the check chain in order (window, listing found, available, weekday, quantity minimum) with each failure's message; on success a pending daily order carrying the listing's seller and price, total = quantity × price |
| OrderController.AcceptedDailyOrder | milk-platform/server/controllers/orderController.js:13-47 | an accepted order is for a later day or inside today's window, for an available listing delivering on that weekday |
| OrderController.PastDailyOrderRefused | milk-platform/server/controllers/orderController.js:13-19 | an order for a past day is refused with the past-date message, whatever else holds |
| OrderController.CreateDailyOrder | milk-platform/server/controllers/orderController.js:8-85 | appends exactly the planned order, or changes nothing |
| OrderController.StatusUpdate | milk-platform/server/controllers/orderController.js:178-222 | 404 for a missing order, 403 unless the caller is its seller, 500 for a status outside the enumeration; otherwise the order with the new status |
| OrderController.StatusUpdateUnrestricted | milk-platform/server/controllers/orderController.js:192-199 | the owning seller can set any status from any status |
| OrderController.UpdateOrderStatus | milk-platform/server/controllers/orderController.js:178-222 | replaces exactly the target order by the planned one, or changes nothing |
| OrderController.Cancellation | milk-platform/server/controllers/orderController.js:227-281 | only the ordering customer; delivered and cancelled orders are refused with their status in the message; succeeds iff pending or confirmed, recording cancelled, the instant and the reason |
| OrderController.CancelTwiceRefused | milk-platform/server/controllers/orderController.js:248-253 | after a cancellation, a second one is refused with "Cannot cancel order with status: cancelled" |
| OrderController.CancelOrder | milk-platform/server/controllers/orderController.js:227-281 | replaces exactly the target order by the cancelled one, or changes nothing |
| SubscriptionModel.RemainingDays | milk-platform/server/models/Subscription.js:88-98 | 0 once the end has passed; otherwise the time to the end rounded up to whole days |
| SubscriptionModel.CompletedDays | milk-platform/server/models/Subscription.js:101-111 | 0 before the start; otherwise whole elapsed days, capped at totalDays |
| SubscriptionModel.RemainingDaysNonIncreasing | milk-platform/server/models/Subscription.js:88-98 | remaining days never grow as time passes and are 0 from the end on |
| SubscriptionModel.CompletedDaysNonDecreasing | milk-platform/server/models/Subscription.js:101-111 | completed days never shrink as time passes |
| SubscriptionModel.RemainingPlusCompleted | milk-platform/server/models/Subscription.js:88-111 | within the period the two counts add up to totalDays − 1 |
| SubscriptionModel.PauseCheck | milk-platform/server/models/Subscription.js:114-139 | the three checks in order with their messages: the day is tomorrow or later, the instant lies in the period, the day is not paused yet; accepted iff all hold |
| SubscriptionModel.PauseTwiceRejected | milk-platform/server/models/Subscription.js:131-139 | once a day is paused, no request can pause that day again |
| SubscriptionModel.Subscription.constructor | milk-platform/server/controllers/subscriptionController.js:53-69 | a new subscription is active and unpaused, with totalDays = numberOfDays and the end numberOfDays − 1 days after the start |
| SubscriptionModel.Subscription.PauseDate | milk-platform/server/models/Subscription.js:114-154 | validates before any change; an accepted pause records the day, moves the end by one day and adds one to extendedDays and totalDays, keeping totalDays = originalDays + extendedDays and the end = start + totalDays − 1 days |
| SubscriptionController.SubscriptionRequest | milk-platform/server/controllers/subscriptionController.js:21-51 | a start before today is a 400; then 404 for a missing listing, 400 for an unavailable one, 500 below the schema minimums; otherwise the listing |
| SubscriptionController.ScheduleShape | milk-platform/server/controllers/subscriptionController.js:74-93 | one pending subscription order per consecutive day from the start, at the daily quantity and the snapshot price; the last one is on the end date |
| SubscriptionController.ScheduleTotal | milk-platform/server/controllers/subscriptionController.js:50-51 | the generated orders add up to days × quantity × price, the subscription's total amount |
| SubscriptionController.CreateSubscription | milk-platform/server/controllers/subscriptionController.js:9-119 | a refused request stores nothing; an accepted one stores one active subscription with the computed dates and total, followed by exactly its schedule of orders |
| SubscriptionController.FirstOrderOn | milk-platform/server/controllers/subscriptionController.js:261-269 | finds the first order of the subscription on the given day, or none exists |
| SubscriptionController.AfterPauseChangesOneOrder | milk-platform/server/controllers/subscriptionController.js:258-276 | a pause changes at most one order, a pending order of that subscription on the paused day, which becomes cancelled with the pause reason; no order is added |
| SubscriptionController.PauseCancelsScheduledDay | milk-platform/server/controllers/subscriptionController.js:258-276 | on a generated schedule, pausing day k cancels exactly order k |
| SubscriptionController.PauseSubscription | milk-platform/server/controllers/subscriptionController.js:221-308 | the guards in order (date given, found, owner, active), then the pause checks; an accepted pause updates the subscription and that day's order only; a refused one changes nothing |
| SubscriptionController.CascadeFacts | milk-platform/server/controllers/subscriptionController.js:400-411 | exactly the pending future orders of the subscription become cancelled with the reason; none is left pending; a second cascade changes nothing |
| SubscriptionController.CascadeKeepsOthers | milk-platform/server/controllers/subscriptionController.js:400-411 | orders of other subscriptions, past orders and non-pending orders are untouched |
| SubscriptionController.CancelSubscription | milk-platform/server/controllers/subscriptionController.js:370-433 | 404, or 403 for a non-owner; cancelled and completed subscriptions are refused; otherwise the status becomes cancelled and the due orders cascade; schedules are untouched |
| SubscriptionController.AccountOf | milk-platform/server/controllers/subscriptionController.js:142-150 | shown paid plus remaining equals the total amount; completed days never exceed the total days |
| SubscriptionController.AccountDays | milk-platform/server/controllers/subscriptionController.js:339-340 | for a valid subscription within its period, remaining plus completed days is totalDays − 1 |
| PaymentModel.ParsePaymentMethod | milk-platform/server/models/Payment.js:27-31 | accepted exactly for the five method names |
| PaymentModel.SumAppend | milk-platform/server/models/Payment.js:60-117 | appending an entry raises a sum by its amount exactly when it is completed and references the key |
| PaymentModel.SumIgnoresUncounted | milk-platform/server/models/Payment.js:63-66 | pending, failed or refunded entries never contribute, wherever they stand |
| PaymentModel.SumNonNegative | milk-platform/server/models/Payment.js:22-26 | with amounts at least 0, no sum is negative |
| PaymentModel.SumWithoutMatches | milk-platform/server/models/Payment.js:76 | with no matching entry the sum is 0 |
| PaymentModel.RemainingAfterPayment | milk-platform/server/controllers/paymentController.js:212-213 | the remaining amount never exceeds the total; a completed payment for the subscription lowers it by exactly its amount |
| PaymentController.PlanPayment | milk-platform/server/controllers/paymentController.js:21-71 | 400 without a reference; order checks (404, 403) before subscription checks; 500 without a seller or amount, for a negative amount, or for an unknown method; a recorded payment is completed, for the caller, at the current instant, cash by default |
| PaymentController.RecordedPaymentCounts | milk-platform/server/controllers/paymentController.js:61-71 | a recorded payment raises the seller's earnings and the paid totals of its order and subscription by its amount |
| PaymentController.CreatePayment | milk-platform/server/controllers/paymentController.js:8-95 | appends exactly the planned entry, or changes nothing |
| PaymentController.SubscriptionPayments | milk-platform/server/controllers/paymentController.js:186-233 | 404 for a missing subscription; readable iff the caller is its customer, its seller or an admin, otherwise 403; paid plus remaining equals the total |
| PaymentController.OverpaidIsNegative | milk-platform/server/controllers/paymentController.js:213 | an overpaid subscription shows a negative remaining amount |
| PaymentController.SellerPendingAmount | milk-platform/server/controllers/paymentController.js:269-278 | the loop's result is the sum of the remaining amounts of the seller's active subscriptions |
| PaymentController.PendingAfterPayment | milk-platform/server/controllers/paymentController.js:269-278 | a completed payment toward one of the seller's active subscriptions lowers the pending amount by its amount; any other entry leaves it unchanged |
| PaymentController.NothingPendingWhenPaid | milk-platform/server/controllers/paymentController.js:269-278 | with every active subscription of the seller paid in full, nothing is pending |
| PaymentController.MonthBucketsExact | milk-platform/server/controllers/paymentController.js:243-262 | one bucket per month with payments, newest first; each bucket's total and count are exactly that month's completed payments to the seller; the buckets add up to the seller's earnings |
| PaymentController.MonthlyEarningsFacts | milk-platform/server/controllers/paymentController.js:243-266 | at most twelve buckets, newest first, each exact and non-empty; a month with payments is left out only when twelve newer months are shown |
| RatingModel.ParseRatingType | milk-platform/server/models/Rating.js:22-26 | accepted exactly for milk, seller and both |
| RatingModel.RoundToTenth | milk-platform/server/models/Rating.js:79 | the result is a multiple of 0.1 within half a tenth of the input, halves rounded up |
| RatingModel.Aggregate | milk-platform/server/models/Rating.js:61-82 | no result iff there are no scores; the count equals the number of scores |
| RatingModel.AggregateInRange | milk-platform/server/models/Rating.js:27-36 | the stored average of valid scores lies in [1, 5] and within 0.05 of the exact mean |
| RatingModel.SellerScoresInRange | milk-platform/server/models/Rating.js:61-66 | every seller score taken from schema-valid ratings lies in [1, 5] |
| RatingModel.MilkScoresInRange | milk-platform/server/models/Rating.js:89-94 | every milk score taken from schema-valid ratings lies in [1, 5] |
| RatingModel.UpdateSellerRating | milk-platform/server/models/Rating.js:58-83 | stores the seller's rounded average and count, or changes nothing when no seller score is left or no user document has the seller's identifier |
| RatingModel.UpdateMilkRating | milk-platform/server/models/Rating.js:86-111 | stores the listing's rounded average and count, or changes nothing when no milk score is left or the listing is gone |
| RatingModel.AfterSave | milk-platform/server/models/Rating.js:114-121 | recomputes the seller only for a rating with a seller score, and the listing only for one with a milk score and a listing |
| RatingModel.ScoresConcat | milk-platform/server/models/Rating.js:61-66 | the scores of two stretches of ratings are the concatenation of their scores |
| RatingController.StoredScore | milk-platform/server/controllers/ratingController.js:86-87 | a score is stored iff it was given and is not zero, and then unchanged |
| RatingController.CheckRating | milk-platform/server/controllers/ratingController.js:7-113 | under the intended index: the type rules with their messages; then the order exists (404), is the caller's (403), is delivered and is not yet rated (400); then the schema (500); an accepted rating carries the scores its type demands, scores in [1, 5] and a fresh identifier |
| RatingController.CheckRatingAsWritten | milk-platform/server/controllers/ratingController.js:80-112 | as the program runs: CheckRating's answer, except that an insert the declared sparse index refuses is answered with 500 "Error creating rating" |
| RatingController.CheckRatingsDiffer | milk-platform/server/models/Rating.js:54-55 | the program and the intended index answer differently exactly for an otherwise accepted rating without an order from a customer who already holds one |
| RatingController.OrderlessRatingLimitedAsWritten | milk-platform/server/models/Rating.js:55 | as the program runs, a rating without an order is refused once the customer holds one |
| RatingController.CreateKeepsValid | milk-platform/server/models/Rating.js:55 | an accepted rating keeps identifiers unique, scores valid and at most one rating per customer and order |
| RatingController.SecondRatingRefused | milk-platform/server/controllers/ratingController.js:67-77 | once an order is rated, the customer's next rating for it is refused as already rated |
| RatingController.OrderlessRatingsUnlimited | milk-platform/server/models/Rating.js:54 | under the intended index, acceptance of a rating without an order does not depend on earlier ratings |
| RatingController.CreatedRatingCounted | milk-platform/server/controllers/ratingController.js:80-90 | an accepted rating adds exactly its own scores to the seller's and the listing's score lists |
| RatingController.CreateRating | milk-platform/server/controllers/ratingController.js:7-113 | under the intended index: stores exactly the accepted rating and runs the post-save recomputation over the new collection; a refusal changes nothing |
| RatingController.CreateRatingAsWritten | milk-platform/server/controllers/ratingController.js:7-113 | as the program runs: answers CheckRatingAsWritten, stores exactly an accepted rating and runs the post-save recomputation; a refusal, the index's included, changes nothing |
| RatingController.ApplyRatingPatch | milk-platform/server/controllers/ratingController.js:250-261 | every supplied score or review takes its new value; all other fields, including the type, seller, listing and order, keep theirs |
| RatingController.RatingPatchIdempotent | milk-platform/server/controllers/ratingController.js:258-261 | the same update applied twice equals applying it once; an empty update changes nothing |
| RatingController.RatingUpdate | milk-platform/server/controllers/ratingController.js:231-286 | 404 for a missing rating, 403 for another customer's; accepted iff the edited rating passes the schema, otherwise 500 |
| RatingController.UpdateKeepsValid | milk-platform/server/controllers/ratingController.js:258-263 | an accepted update keeps the collection well formed |
| RatingController.UpdateRating | milk-platform/server/controllers/ratingController.js:231-286 | replaces exactly the target rating and runs the post-save recomputation; a refusal changes nothing |
| RatingController.RatingDeletion | milk-platform/server/controllers/ratingController.js:293-308 | succeeds iff the rating exists and is the caller's; 404 or 403 otherwise |
| RatingController.RemoveAtFacts | milk-platform/server/controllers/ratingController.js:313 | removal keeps the other ratings in order, keeps the collection well formed, and the identifier is gone |
| RatingController.DeletedRatingUncounted | milk-platform/server/controllers/ratingController.js:313-321 | deleting removes exactly the rating's own scores from the seller's and the listing's score lists |
| RatingController.DeletingLastScoreKeepsStaleAverage | milk-platform/server/controllers/ratingController.js:316-318 | deleting the seller's only seller score leaves the seller's stored average and count unchanged |
| RatingController.DeleteRating | milk-platform/server/controllers/ratingController.js:291-334 | a refusal changes nothing; otherwise removes exactly the rating, then recomputes the seller if it had a seller score and the listing if it had a milk score and a listing |
| RatingController.SecondOrderlessRatingRefused | milk-platform/server/models/Rating.js:55 | a customer's second rating without an order passes the creation checks and the intended index, yet the program answers it with 500 |
| RatingController.AcceptedRatingAdmitted | milk-platform/server/models/Rating.js:54-55 | every rating the creation check accepts is admitted by the intended index |

## Left out

- Time zones and daylight saving: the server's local calendar is taken as UTC.
- String trimming by the schema (`trim: true`), and JSON `null` as a field value: absent and present are the only cases.
- Listing nutrients, delivery addresses, notes and transaction identifiers: they are stored but no rule reads them.
- Floating point: amounts, quantities and scores are exact reals, and NaN is not modelled.
- Socket notifications: they are an outbound side effect and change no state.
- Atomicity: a creation that fails half-way (a subscription stored but not all of its orders) is not modelled. The store's own errors are modelled only as schema refusals.
- The `remainingAmount` virtual field of a subscription always yields 0 and is never read (milk-platform/server/models/Subscription.js:166-170).
- Read-only listing queries (`getMilkById`, `getMyMilkProducts`, and the customer and seller lists of orders, subscriptions, payments and ratings): their filters and sort orders have no rule to state.
- MilkController.GetSellersByMilkType: the order among listings with equal average ratings is not fixed, since the store does not fix it either.
- MilkController.UpdateMilk: an update body may also carry the seller or rating fields. Only the listing's own fields are modelled as updatable.
- OrderController.StatusUpdate: a request without a status, which the store would save as an unset field, is modelled as a status outside the enumeration.
- PaymentController.SubscriptionPayments: the list of payments returned with the summary is left out; only the summary is modelled.
- PaymentController.PlanPayment: the seller taken from the request is not checked against the order or subscription, as in the source.
- RatingController.CheckRating: follows the intended (customer, order) index, so it accepts a second rating without an order that the program refuses with 500; the program's answer is CheckRatingAsWritten.
- RatingController.CreateRating: follows the intended index; the operation as the program runs it is CreateRatingAsWritten.
- RatingController.OrderlessRatingsUnlimited: holds under the intended index only; as the program runs, OrderlessRatingLimitedAsWritten holds instead.
- The user schema (milk-platform/server/models/User.js) is not part of this model: the seller directory holds only the rating fields of the user documents that exist, given when it is built.

## Findings

| source | as written | input that shows it | evidently intended | confidence | as-written member | corrected member |
|---|---|---|---|---|---|---|
| milk-platform/server/models/Rating.js:55 | the unique (customer, order) index is declared sparse; a sparse compound index still holds every document that has at least one indexed field, and the customer is always present, so ratings with no order are indexed under a missing order and collide | a customer first rates a listing with no order, then a seller with no order: the second insert hits the unique index and is answered with "Error creating rating" | only ratings tied to the same order collide, as the comment on line 54 says | not executed; rests on the document store's documented sparse-index semantics | RatingController.SecondOrderlessRatingRefused | RatingController.AcceptedRatingAdmitted |
