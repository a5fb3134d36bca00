# PassGen payment reconciliation, modelled in Dafny

This project models the paid-subscription core of the PassGen site, and proves properties of that model. The core has three HTTP route handlers and the database schema they share:

- **Checkout** (`app/api/checkout/route.ts`). It authenticates the caller and validates the requested plan and interval. It prices the order from a fixed table with a 5% discount and asks the payment provider (NOWPayments) for an invoice. It records a PENDING payment only once the invoice exists.
- **Webhook** (`app/api/webhooks/nowpayments/route.ts`). This is the provider's instant payment notification. It checks that a signature header and the IPN secret are present. It computes the HMAC-SHA512 of the body's canonical form, that is, the top-level keys sorted. It then dispatches on `payment_status`:
  - "finished" or "confirmed" completes the payment and upserts the owner's subscription with an expiry one month or one year on;
  - "failed" or "expired" marks the payment FAILED;
  - anything else is acknowledged.
- **Entitlements** (`app/api/me/route.ts`). It resolves the caller's current plan: the subscription's plan when the row is "active" and unexpired, otherwise FREE. From that plan it derives the premium flag and five feature flags.
- **Schema** (`db/schema.ts`). It holds the plan, period and payment-status enumerations and the `subscription` and `payment` rows.

## How the model is laid out

- `schema.dfy`: the enumerations and their labels, the rows, and `Tables`, the value of the two tables keyed by primary key.
- `store.dfy`: the three statements the handlers issue (status update, payment insert, subscription upsert). Each is a pure function on `Tables`. `Store.Database` is a class whose two map fields are updated in place by methods. The method contracts tie the new `Snapshot()` to those functions.
- `json.dfy`, `canonical.dfy`: parsed JSON values, property access, and the canonical form the webhook signs. That form is a key sort, a pick of the members in sorted order, and serialisation.
- `calendar.dfy`: JavaScript `Date` arithmetic (`setMonth`, `setFullYear`). A day that overflows its month carries into the next month, so Jan 31 plus one month is Mar 3 (or Mar 2 in a leap year), and Feb 29 plus one year is Mar 1 in a common year.
- `webhook.dfy`, `checkout.dfy`: the two routes that write. Each has a pure function of the old tables and the request, a method against `Store.Database` proved to leave the tables that function gives, and lemmas about the pure function.
- `entitlements.dfy`: the read-only route. It is a pure function of the session, the subscriptions table and the clock, with lemmas about it.

Each handler's outside world is passed in as parameters:
- the session;
- headers and environment variables;
- the parsed body, which is `None` when parsing throws;
- the current instant;
- the invoice provider, as a function from the call to its reply;
- the fresh order id;
- HMAC-SHA512 and `JSON.stringify`, as functions in a `Crypto` value.

Money is integer cents. The discounted amount is 95% of the base price rounded to the nearest cent, with halves rounded up.

The webhook route's own text shows three places where it does not yet do what its authors intend. The model keeps the code as written and adds the intended variant beside it:
- The signature. A mismatch only reaches the log: the `return` at app/api/webhooks/nowpayments/route.ts:37 is commented out, and line 39 says to uncomment it in production.
- The billing period. Line 65 reads `paymentRecord.billingPeriod`. The payment column is `subscriptionPeriod` (db/schema.ts:87), and checkout writes the interval there (app/api/checkout/route.ts:78).
- Redelivery. Line 54 answers 200 "to stop retries", so the route expects the provider to deliver an event more than once. Yet neither status update (lines 58-60, 90-92) checks the payment's current status.

`Webhook.Reconcile` and `Webhook.HandleWebhook` model the route as written. `Webhook.ReconcileVerified` and `Webhook.HandleVerifiedWebhook` model the evidently intended route. The "## Findings" section pairs the two.

## Model

| member | source | states |
|---|---|---|
| Schema.PlanLabelsRoundTrip | db/schema.ts:5 | the plan enum's labels round-trip, and exactly its four labels parse |
| Schema.PeriodLabelsRoundTrip | db/schema.ts:6 | the period enum's labels round-trip, and exactly "MONTH" and "YEAR" parse |
| Json.Keys | app/api/webhooks/nowpayments/route.ts:27 | `Object.keys` lists one key per member, in member order |
| Json.Lookup | app/api/webhooks/nowpayments/route.ts:42 | a defined property value is the value of a member with that key |
| Json.LookupDefinedIffKey | app/api/webhooks/nowpayments/route.ts:28 | `body[key]` is defined exactly when `key` is among `Object.keys(body)` |
| Json.LookupIffMember | app/api/webhooks/nowpayments/route.ts:42 | with distinct keys, `obj[k] == v` exactly when the member `(k, v)` is present |
| Entitlements.SameCallerBothRoutes | app/api/me/route.ts:12-16 | checkout and the profile route refuse exactly the same sessions, an empty id counting as none, and a payment checkout records belongs to the user the profile reports |
| Canonical.KeyLessIrreflexive | app/api/webhooks/nowpayments/route.ts:27 | the default string order of `sort()` is irreflexive |
| Canonical.KeyLessTransitive | app/api/webhooks/nowpayments/route.ts:27 | the string order is transitive |
| Canonical.KeyLessTotal | app/api/webhooks/nowpayments/route.ts:27 | any two distinct keys are ordered one way or the other |
| Canonical.KeyLessAsymmetric | app/api/webhooks/nowpayments/route.ts:27 | the string order is asymmetric |
| Canonical.Insert | app/api/webhooks/nowpayments/route.ts:27 | insertion adds exactly the one key |
| Canonical.InsertSorted | app/api/webhooks/nowpayments/route.ts:27 | inserting a new key into a sorted list keeps it sorted |
| Canonical.SortKeys | app/api/webhooks/nowpayments/route.ts:27 | sorting keeps the length and exactly the same keys |
| Canonical.SortKeysSorted | app/api/webhooks/nowpayments/route.ts:27 | sorting distinct keys yields a strictly increasing list |
| Canonical.SortedUnique | app/api/webhooks/nowpayments/route.ts:27 | two sorted lists of the same keys are equal: the sorted order is unique |
| Canonical.Pick | app/api/webhooks/nowpayments/route.ts:27-31 | the picked object has at most one member per key picked |
| Canonical.PickLookup | app/api/webhooks/nowpayments/route.ts:27-30 | the picked object maps each picked key to the body's value, and nothing else |
| Canonical.PickKeys | app/api/webhooks/nowpayments/route.ts:27-30 | picking defined keys yields exactly those keys, in that order |
| Canonical.PickCongruent | app/api/webhooks/nowpayments/route.ts:27-30 | bodies with the same values pick the same object |
| Canonical.CanonicalSameValues | app/api/webhooks/nowpayments/route.ts:27-31 | the canonical form has the body's value under every key |
| Canonical.CanonicalKeysSorted | app/api/webhooks/nowpayments/route.ts:27-31 | the canonical form lists all the body's keys once each, in sorted order |
| Canonical.SameValuesSameCanonical | app/api/webhooks/nowpayments/route.ts:27-31 | objects agreeing on every key have the same canonical form |
| Canonical.CanonicalOrderIndependent | app/api/webhooks/nowpayments/route.ts:27-31 | reordering a body's members does not change its canonical form |
| Canonical.CanonicalIdempotent | app/api/webhooks/nowpayments/route.ts:27-31 | canonicalising a canonical form changes nothing |
| Calendar.DaysInMonth | app/api/webhooks/nowpayments/route.ts:66-68 | months have 28 to 31 days, 28 only for February of a common year |
| Calendar.Roll | app/api/webhooks/nowpayments/route.ts:66-68 | carrying an overflowing day yields a real date, no earlier month, the same time of day, and the same date when the day fits |
| Calendar.MakeDate | app/api/webhooks/nowpayments/route.ts:66-68 | a date built from any month number is no earlier than that month, at the same time of day |
| Calendar.NextMonth | app/api/webhooks/nowpayments/route.ts:68 | the month after is one month index on |
| Calendar.BeforeStrictOrder | app/api/me/route.ts:23 | comparison of instants is a strict order |
| Calendar.LaterMonthIsLater | app/api/me/route.ts:23 | an instant in a later month is later |
| Calendar.AddOneMonthIsLater | app/api/webhooks/nowpayments/route.ts:68 | `setMonth(getMonth() + 1)` always moves strictly later |
| Calendar.AddOneYearIsLater | app/api/webhooks/nowpayments/route.ts:66 | `setFullYear(getFullYear() + 1)` always moves strictly later |
| Calendar.AddOneMonthDate | app/api/webhooks/nowpayments/route.ts:68 | one month on is the same day of the next month, or the surplus days into the month after |
| Calendar.AddOneYearDate | app/api/webhooks/nowpayments/route.ts:66 | one year on is the same month and day, except that Feb 29 becomes Mar 1 in a common year |
| Calendar.JanuaryThirtyFirstPlusOneMonth | app/api/webhooks/nowpayments/route.ts:68 | Jan 31 2025 becomes Mar 3, Jan 31 2024 becomes Mar 2, and Dec 15 2025 becomes Jan 15 2026 |
| Store.FindPayment | app/api/webhooks/nowpayments/route.ts:48-50 | the row found is a stored row; when every row sits under its own id, a row is found exactly when some stored payment's `id` column equals the order id, and the one found has that id; a non-string order id finds none |
| Store.WithPaymentStatus | app/api/webhooks/nowpayments/route.ts:58-60 | the update sets status and `updatedAt` of the one row with that id and changes nothing else |
| Store.WithSubscription | app/api/webhooks/nowpayments/route.ts:72-88 | the upsert leaves the user's row with the given values, whether inserted or updated, and no other row changes |
| Store.WithNewPayment | app/api/checkout/route.ts:74-82 | the insert fails exactly when the id is taken; otherwise the payments gain exactly the new id, mapped to the new row, every existing payment and every subscription stay as they were, and rows stay under their own keys |
| Store.Database.constructor | db/schema.ts:69-93 | a fresh database has both tables empty |
| Store.Database.UpdatePaymentStatus | app/api/webhooks/nowpayments/route.ts:90-92 | the tables after the update are `WithPaymentStatus` of the tables before, and rows stay under their keys |
| Store.Database.UpsertSubscription | app/api/webhooks/nowpayments/route.ts:72-88 | the tables after the upsert are `WithSubscription` of the tables before |
| Store.Database.InsertPayment | app/api/checkout/route.ts:74-82 | the insert succeeds exactly when the id is unused, and then the tables are `WithNewPayment` of the old ones; otherwise nothing changes |
| Webhook.ProcessEvent | app/api/webhooks/nowpayments/route.ts:42-95 | the dispatch against the database leaves exactly the tables `Process` specifies, gives its answer, and keeps rows under their own keys |
| Webhook.HandleWebhook | app/api/webhooks/nowpayments/route.ts:10-95 | the handler as written leaves exactly the tables and answer of `Reconcile`, and keeps rows under their own keys |
| Webhook.HandleVerifiedWebhook | app/api/webhooks/nowpayments/route.ts:33-40 | the handler that rejects a mismatch leaves exactly the tables and answer of `ReconcileVerified`, and keeps rows under their own keys |
| Webhook.MissingSignatureChangesNothing | app/api/webhooks/nowpayments/route.ts:14-16 | with no signature or no secret the answer is 400 and neither table changes |
| Webhook.UnknownOrderAcknowledged | app/api/webhooks/nowpayments/route.ts:52-55 | a success event for an unknown order is answered 200 and changes nothing |
| Webhook.KnownOrderCompleted | app/api/webhooks/nowpayments/route.ts:57-88 | a success event completes exactly that payment and sets the owner's subscription to its plan, "active" and the computed expiry, leaving other users alone |
| Webhook.ExpiryIsAfterNow | app/api/webhooks/nowpayments/route.ts:63-69 | the computed expiry is strictly after the processing time |
| Webhook.FailureMarksFailed | app/api/webhooks/nowpayments/route.ts:89-92 | a failure event marks only that payment FAILED, when it may move, and never touches subscriptions |
| Webhook.OtherStatusIgnored | app/api/webhooks/nowpayments/route.ts:93-95 | any other status is answered 200 and changes nothing |
| Webhook.ReconcileKeepsKeys | app/api/webhooks/nowpayments/route.ts:58-92 | every outcome keeps each row under its own primary key |
| Webhook.SignatureOrderIndependent | app/api/webhooks/nowpayments/route.ts:27-33 | the expected signature does not depend on the order of the body's members |
| Webhook.ReplayResetsWindow | app/api/webhooks/nowpayments/route.ts:58-60 | as written, a redelivered success event is applied again and resets the expiry from the second delivery time |
| Webhook.AsWrittenFailureUndoesCompletion | app/api/webhooks/nowpayments/route.ts:90-92 | as written, a late failure event turns a COMPLETED payment into FAILED |
| Webhook.GuardedSettledPaymentStays | app/api/webhooks/nowpayments/route.ts:58-60 | with the PENDING guard, an event for a payment that has left PENDING changes nothing |
| Webhook.GuardedReplayIsNoOp | app/api/webhooks/nowpayments/route.ts:58-60 | with the PENDING guard, applying an event twice equals applying it once |
| Webhook.AsWrittenIgnoresYearlyPeriod | app/api/webhooks/nowpayments/route.ts:65 | as written, the expiry is one month on for every payment, and that is never one year on |
| Webhook.VerifiedExpiryFollowsPeriod | db/schema.ts:87 | reading `subscriptionPeriod`, YEAR gives one year on and MONTH gives one month on |
| Webhook.AsWrittenAcceptsForgedSignature | app/api/webhooks/nowpayments/route.ts:35-40 | as written, any non-empty wrong signature gives exactly what the genuine one gives |
| Webhook.VerifiedRejectsForgedSignature | app/api/webhooks/nowpayments/route.ts:35-40 | corrected, a wrong signature is answered 400 with nothing changed, and a right one is processed |
| Checkout.ParseCheckout | app/api/checkout/route.ts:8-11 | validation succeeds exactly for an object with a paid plan label and a period label, and returns those values |
| Checkout.ParseCheckoutRoundTrip | app/api/checkout/route.ts:8-11 | a client's encoding of any paid request parses back to it |
| Checkout.DiscountedCents | app/api/checkout/route.ts:35 | the charged amount is 95% of the base rounded to the nearest cent |
| Checkout.DiscountBelowBase | app/api/checkout/route.ts:35 | the discounted amount is below any base above ten cents |
| Checkout.DiscountedTable | app/api/checkout/route.ts:13-17 | the six charged amounts are 5.69, 56.05, 8.54, 84.55, 12.34 and 122.55, each below its base price |
| Checkout.HandleCheckout | app/api/checkout/route.ts:19-90 | the handler leaves exactly the tables and answer of `PlaceOrder`, and keeps rows under their own keys |
| Checkout.UnauthenticatedRejected | app/api/checkout/route.ts:22-24 | without a user id the answer is 401 and nothing is recorded |
| Checkout.InvalidRequestRejected | app/api/checkout/route.ts:27-31 | a body the schema rejects is answered 400 and nothing is recorded |
| Checkout.MissingApiKeyRejected | app/api/checkout/route.ts:44-46 | without an API key the answer is 500 and nothing is recorded |
| Checkout.RecordedOnlyAfterInvoice | app/api/checkout/route.ts:65-84 | the tables change exactly when an invoice was created; a change means the caller was authenticated, the body validated, an API key was set, the order id was fresh, and the provider answered this order's invoice call with an invoice |
| Checkout.InvoiceErrorRejected | app/api/checkout/route.ts:86-88 | an invoice call that throws is answered 500 and nothing is recorded |
| Checkout.InvoiceMatchesRecord | app/api/checkout/route.ts:48-82 | the invoice request and the recorded payment share order id and amount, and the callback is the site's webhook route |
| Checkout.InvoiceOutcomeDecides | app/api/checkout/route.ts:65-84 | a refused invoice gives 502; a created one adds exactly one PENDING payment with the user, plan, interval, amount and invoice id, and returns the invoice's URL and id |
| Entitlements.Me | app/api/me/route.ts:12-16 | the answer is 401 exactly without an authenticated id; otherwise it is that user's profile |
| Entitlements.UnauthenticatedRejected | app/api/me/route.ts:12-14 | without a user id the answer is 401 |
| Entitlements.CurrentPlanRule | app/api/me/route.ts:19-28 | the plan is the stored plan exactly when the row is active and unexpired, otherwise FREE with no expiry |
| Entitlements.LapsedIsFree | app/api/me/route.ts:19-37 | a user with no row or an expired row is FREE with every flag off |
| Entitlements.FlagsFollowPlan | app/api/me/route.ts:28-37 | premium exactly for a paid plan; three flags equal premium; cloud sync for CLOUD and POWER; S3 BYOS for POWER only |
| Entitlements.FlagsMatchTierTable | app/api/me/route.ts:31-37 | a flag is on exactly when the plan's tier reaches the flag's minimum tier |
| Entitlements.FlagsMonotone | app/api/me/route.ts:31-37 | a higher tier grants every flag of a lower one, and strictly more |

## Left out

- HMAC-SHA512 and `JSON.stringify` are unspecified functions. The model does not fix their output bytes, only what they are applied to.
- `JSON.parse` and `req.json()` are not modelled; the body arrives already parsed. Parsed objects have distinct keys, and a parse failure is the 500 answer.
- The session lookup (`auth()`) is not modelled; the session is a parameter.
- Environment variables are parameters.
- The invoice HTTP call is a parameter function from the call to its reply. A thrown call or an unreadable reply becomes the 500 answer.
- `crypto.randomUUID()` is a parameter. A colliding id makes the insert fail, which is the 500 answer.
- The database driver is a map per table. Its other failures would each be a 500 answer, and they are not modelled.
- Transactions are not modelled. The two separate webhook updates are applied one after the other, and a failure between them cannot happen in the model.
- Concurrent deliveries and interleaved requests are not modelled.
- The clock is read twice in the source (`new Date()` at lines 59 and 63). The model uses one instant per request.
- Dates use a single time zone and an unbounded year. The model ignores time zone offsets and the ECMAScript date range limit.
- Key order differs for integer-like keys. `Object.keys` lists those first, and the model lists keys in member order.
- String comparison in `sort()` is on UTF-16 code units. The model compares characters.
- A webhook body that is an array or a primitive is treated as an object with no members.
- A non-string `order_id` matches no payment.
- Floating-point pricing is not modelled. `Number((x * 0.95).toFixed(2))` is modelled as exact rounding to cents. No table entry lands on a half cent, so float error cannot change a result there.
- `amountUsd` is a decimal column; the model holds it as cents.
- Logging (`console.log`, `console.error`) is not modelled.
- `pay_amount_out` is read (line 42) and never used.
- The canonical form keeps a top-level member named `__proto__`. In the source, `acc[key] = body[key]` on a plain `{}` goes through the prototype setter for that key, so the member never reaches `JSON.stringify`. This changes only the signed string.
- The HMAC created at lines 19-20 is never digested or compared.
- The `payment_status` and signature comparisons are at the JavaScript level. The timing of the string comparison is not modelled.
- The column defaults (subscription plan FREE, subscription status "active", payment status PENDING) are the constants `Schema.DefaultPlan`, `Schema.DefaultSubscriptionStatus` and `Schema.DefaultPaymentStatus`. No handler relies on them: the upsert sets plan and status, and the checkout insert sets PENDING explicitly.
- The `user`, `account`, `session` and `verificationToken` tables play no part in the reconciliation flow.

## Findings

| source | as written | input that shows it | evidently intended | confidence | as-written member | corrected member |
|---|---|---|---|---|---|---|
| app/api/webhooks/nowpayments/route.ts:35-40 | a signature mismatch is logged and processing continues | any body with a non-empty `x-nowpayments-sig` that differs from the computed digest, e.g. "finished" for a known order with signature "0" | reject with 400 before any state change | not executed; high | Webhook.AsWrittenAcceptsForgedSignature | Webhook.VerifiedRejectsForgedSignature |
| app/api/webhooks/nowpayments/route.ts:65 | the period is read from `paymentRecord.billingPeriod`, which the payment row (db/schema.ts:87, `subscriptionPeriod`) does not have | a "finished" event for a payment with `subscriptionPeriod` YEAR gets `expiresAt` one month on | one calendar year on for YEAR, one month on for MONTH | not executed; high | Webhook.AsWrittenIgnoresYearlyPeriod | Webhook.VerifiedExpiryFollowsPeriod |
| app/api/webhooks/nowpayments/route.ts:58-60 | the status updates are unconditional | the same "finished" event delivered twice, at two different times, resets the expiry from the second time; a "failed" event after completion turns COMPLETED into FAILED | move a payment only from PENDING (`where status = PENDING`), so a redelivery is a no-op | not executed; medium | Webhook.ReplayResetsWindow | Webhook.GuardedReplayIsNoOp |
