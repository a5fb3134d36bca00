/** The payment provider's webhook (app/api/webhooks/nowpayments/route.ts):
    signature precheck, status dispatch, payment status update, expiry
    computation and subscription upsert.

    `Reconcile` and `HandleWebhook` follow the route as written: a
    signature mismatch is only logged, the expiry reads the period from a
    property the payment row does not have, and the status updates are
    unconditional. `ReconcileVerified` and `HandleVerifiedWebhook` are the
    evidently intended route: a mismatch is rejected, the period is read
    from the row's `subscriptionPeriod`, and only a PENDING payment moves. */
module Webhook {
  import opened Options
  import opened Json
  import opened Http
  import opened Calendar
  import opened Schema
  import opened Store
  import opened Canonical

  /** The primitives the route takes from libraries: HMAC (RFC 2104) over
      SHA-512 (FIPS 180-4) as a hex digest of (key, message), and
      `JSON.stringify` of an object. */
  datatype Crypto = Crypto(hmacSha512Hex: (string, string) -> string, stringify: Members -> string)

  datatype Response = MissingSignature | InvalidSignature | ServerError | RecordNotFound | Accepted {
    /** The HTTP status the route answers with. */
    function Code(): int {
      match this
      case MissingSignature => 400
      case InvalidSignature => 400
      case ServerError => 500
      case RecordNotFound => 200
      case Accepted => 200
    }
  }

  datatype Outcome = Outcome(tables: Tables, response: Response)

  /** The members `Object.keys` sees on the parsed body; an array or a
      primitive is treated as an object with no members. */
  function TopLevelMembers(body: Json): Members {
    if body.JObject? then body.members else []
  }

  /** The signature the route computes: the keyed hash of the serialised
      canonical form of the body (lines 27-33). */
  function ExpectedSignature(secret: string, body: Members, crypto: Crypto): string {
    crypto.hmacSha512Hex(secret, crypto.stringify(Canonicalize(body)))
  }

  /** "finished" or "confirmed", compared with `===`. */
  predicate IsSuccessStatus(v: Option<Json>) {
    v == Some(JString("finished")) || v == Some(JString("confirmed"))
  }

  /** "failed" or "expired", compared with `===`. */
  predicate IsFailureStatus(v: Option<Json>) {
    v == Some(JString("failed")) || v == Some(JString("expired"))
  }

  /** The `order_id` member when it is a string; any other value matches no
      payment id. */
  function OrderIdOf(body: Members): Option<OrderId> {
    match Lookup(body, "order_id")
    case Some(JString(s)) => Some(s)
    case _ => None
  }

  /** Reading a billing period off a payment row by property name: the row
      carries it under `subscriptionPeriod` only; any other name reads
      `undefined`. */
  function PeriodProperty(p: Payment, name: string): Option<Period> {
    if name == "subscriptionPeriod" then Some(p.subscriptionPeriod) else None
  }

  /** The property name the route reads (line 65). */
  const AsWrittenPeriodProperty: string := "billingPeriod"
  /** The column the schema declares (db/schema.ts line 87). */
  const SchemaPeriodProperty: string := "subscriptionPeriod"

  /** How an event is applied: the property the period is read from, and
      whether a status update is guarded by `status = PENDING`. */
  datatype Variant = Variant(periodProperty: string, guarded: bool)

  /** Lines 42-95 as written: `billingPeriod`, unconditional updates. */
  const AsWritten: Variant := Variant(AsWrittenPeriodProperty, false)
  /** The intended reading: the schema column, `where status = PENDING`. */
  const Intended: Variant := Variant(SchemaPeriodProperty, true)

  /** Whether the variant lets a status update touch this row. */
  predicate MayTransition(v: Variant, record: Payment) {
    !v.guarded || record.status == PENDING
  }

  /** Lines 63-69: one calendar year on when the period read is YEAR,
      otherwise one calendar month on. */
  function NextExpiry(now: Instant, period: Option<Period>): Instant {
    if period == Some(YEAR) then AddOneYear(now) else AddOneMonth(now)
  }

  /** Lines 42-95 on a parsed body, applied as the variant says. As
      written, a failure event for an unknown id updates no row (the
      `where` clause matches none). */
  function Process(t: Tables, body: Members, now: Instant, v: Variant): Outcome {
    var paymentStatus := Lookup(body, "payment_status");
    var orderId := OrderIdOf(body);
    if IsSuccessStatus(paymentStatus) then
      match FindPayment(t.payments, orderId)
      case None => Outcome(t, RecordNotFound)
      case Some(record) =>
        if !MayTransition(v, record) then Outcome(t, Accepted)
        else
          var completed := WithPaymentStatus(t, orderId.value, COMPLETED, now);
          var expiresAt := NextExpiry(now, PeriodProperty(record, v.periodProperty));
          Outcome(WithSubscription(completed, record.userId, record.plan, "active", Some(expiresAt), now), Accepted)
    else if IsFailureStatus(paymentStatus) then
      match FindPayment(t.payments, orderId)
      case Some(record) =>
        Outcome(if MayTransition(v, record) then WithPaymentStatus(t, orderId.value, FAILED, now) else t, Accepted)
      case None => Outcome(t, Accepted)
    else
      Outcome(t, Accepted)
  }

  /** The route as written. `rawBody` is the parsed body, None when
      `JSON.parse` throws; a `null` body makes `Object.keys` throw. The
      signature is computed but its comparison has no effect. */
  function Reconcile(t: Tables, sig: Option<string>, ipnSecret: Option<string>,
                     rawBody: Option<Json>, now: Instant): Outcome {
    if IsBlank(sig) || IsBlank(ipnSecret) then Outcome(t, MissingSignature)
    else if rawBody.None? || rawBody.value.JNull? then Outcome(t, ServerError)
    else Process(t, TopLevelMembers(rawBody.value), now, AsWritten)
  }

  /** The route as evidently intended: a mismatching signature is rejected
      with 400 before any state changes, the expiry follows the payment's
      `subscriptionPeriod`, and only a PENDING payment changes status. */
  function ReconcileVerified(t: Tables, sig: Option<string>, ipnSecret: Option<string>,
                             rawBody: Option<Json>, crypto: Crypto, now: Instant): Outcome {
    if IsBlank(sig) || IsBlank(ipnSecret) then Outcome(t, MissingSignature)
    else if rawBody.None? || rawBody.value.JNull? then Outcome(t, ServerError)
    else
      var body := TopLevelMembers(rawBody.value);
      if sig.value != ExpectedSignature(ipnSecret.value, body, crypto) then Outcome(t, InvalidSignature)
      else Process(t, body, now, Intended)
  }

  /** Lines 42-95 against the database. */
  method ProcessEvent(db: Database, body: Members, now: Instant, v: Variant)
    returns (response: Response)
    modifies db
    ensures db.Snapshot() == Process(old(db.Snapshot()), body, now, v).tables
    ensures response == Process(old(db.Snapshot()), body, now, v).response
    ensures old(db.Valid()) ==> db.Valid()
  {
    ghost var t := db.Snapshot();
    var paymentStatus := Lookup(body, "payment_status");
    var orderId := OrderIdOf(body);
    if IsSuccessStatus(paymentStatus) {
      var paymentRecord := FindPayment(db.payments, orderId);
      if paymentRecord.None? {
        return RecordNotFound;
      }
      var record := paymentRecord.value;
      if !MayTransition(v, record) {
        return Accepted;
      }
      db.UpdatePaymentStatus(orderId.value, COMPLETED, now);
      ghost var completed := db.Snapshot();
      var expiresAt := now;
      if PeriodProperty(record, v.periodProperty) == Some(YEAR) {
        expiresAt := SetFullYear(expiresAt, expiresAt.year + 1);
      } else {
        expiresAt := SetMonth(expiresAt, expiresAt.month + 1);
      }
      assert expiresAt == NextExpiry(now, PeriodProperty(record, v.periodProperty));
      db.UpsertSubscription(record.userId, record.plan, "active", Some(expiresAt), now);
      assert Process(t, body, now, v)
          == Outcome(WithSubscription(completed, record.userId, record.plan, "active", Some(expiresAt), now), Accepted);
    } else if IsFailureStatus(paymentStatus) {
      var paymentRecord := FindPayment(db.payments, orderId);
      if paymentRecord.Some? && MayTransition(v, paymentRecord.value) {
        db.UpdatePaymentStatus(orderId.value, FAILED, now);
      }
    }
    response := Accepted;
  }

  /** `POST` as written. */
  method HandleWebhook(db: Database, sig: Option<string>, ipnSecret: Option<string>,
                       rawBody: Option<Json>, crypto: Crypto, now: Instant)
    returns (response: Response)
    modifies db
    ensures db.Snapshot() == Reconcile(old(db.Snapshot()), sig, ipnSecret, rawBody, now).tables
    ensures response == Reconcile(old(db.Snapshot()), sig, ipnSecret, rawBody, now).response
    ensures old(db.Valid()) ==> db.Valid()
  {
    if IsBlank(sig) || IsBlank(ipnSecret) {
      return MissingSignature;
    }
    if rawBody.None? || rawBody.value.JNull? {
      return ServerError;
    }
    var body := TopLevelMembers(rawBody.value);
    var sortedJson := crypto.stringify(Canonicalize(body));
    var calculatedSig := crypto.hmacSha512Hex(ipnSecret.value, sortedJson);
    var signatureMatches := sig.value == calculatedSig;
    // As written, a mismatch only reaches the log; processing continues.
    response := ProcessEvent(db, body, now, AsWritten);
  }

  /** `POST` with the mismatch rejected and the schema's period column read. */
  method HandleVerifiedWebhook(db: Database, sig: Option<string>, ipnSecret: Option<string>,
                               rawBody: Option<Json>, crypto: Crypto, now: Instant)
    returns (response: Response)
    modifies db
    ensures db.Snapshot() == ReconcileVerified(old(db.Snapshot()), sig, ipnSecret, rawBody, crypto, now).tables
    ensures response == ReconcileVerified(old(db.Snapshot()), sig, ipnSecret, rawBody, crypto, now).response
    ensures old(db.Valid()) ==> db.Valid()
  {
    if IsBlank(sig) || IsBlank(ipnSecret) {
      return MissingSignature;
    }
    if rawBody.None? || rawBody.value.JNull? {
      return ServerError;
    }
    var body := TopLevelMembers(rawBody.value);
    var sortedJson := crypto.stringify(Canonicalize(body));
    var calculatedSig := crypto.hmacSha512Hex(ipnSecret.value, sortedJson);
    if sig.value != calculatedSig {
      return InvalidSignature;
    }
    response := ProcessEvent(db, body, now, Intended);
  }

  // ---------------------------------------------------------------------
  // Properties of the reconciler

  /** Without a signature header or without the IPN secret the answer is
      400 and neither table changes, in both variants. */
  lemma MissingSignatureChangesNothing(t: Tables, sig: Option<string>, ipnSecret: Option<string>,
                                       rawBody: Option<Json>, crypto: Crypto, now: Instant)
    requires IsBlank(sig) || IsBlank(ipnSecret)
    ensures Reconcile(t, sig, ipnSecret, rawBody, now) == Outcome(t, MissingSignature)
    ensures ReconcileVerified(t, sig, ipnSecret, rawBody, crypto, now) == Outcome(t, MissingSignature)
    ensures MissingSignature.Code() == 400
  {
  }

  /** A success event for an order with no payment row is acknowledged
      with 200 and changes nothing. */
  lemma UnknownOrderAcknowledged(t: Tables, body: Members, now: Instant, v: Variant)
    requires IsSuccessStatus(Lookup(body, "payment_status"))
    requires OrderIdOf(body).None? || OrderIdOf(body).value !in t.payments
    ensures Process(t, body, now, v) == Outcome(t, RecordNotFound)
    ensures RecordNotFound.Code() == 200
  {
  }

  /** A success event for a known order that may move completes that
      payment and no other, and sets the owner's subscription to the
      payment's plan, "active", and the computed expiry, overwriting any
      earlier row and leaving other users' rows alone. */
  lemma KnownOrderCompleted(t: Tables, body: Members, now: Instant, v: Variant, id: OrderId)
    requires KeysMatch(t)
    requires IsSuccessStatus(Lookup(body, "payment_status"))
    requires OrderIdOf(body) == Some(id) && id in t.payments
    requires MayTransition(v, t.payments[id])
    ensures var o := Process(t, body, now, v);
      var p := t.payments[id];
      && o.response == Accepted
      && o.tables.payments == t.payments[id := p.(status := COMPLETED, updatedAt := now)]
      && o.tables.subscriptions.Keys == t.subscriptions.Keys + {p.userId}
      && o.tables.subscriptions[p.userId]
         == Subscription(p.userId, p.plan, "active", Some(NextExpiry(now, PeriodProperty(p, v.periodProperty))), now)
      && (forall u :: u in t.subscriptions && u != p.userId ==> o.tables.subscriptions[u] == t.subscriptions[u])
  {
    var p := t.payments[id];
    var o := Process(t, body, now, v);
    var completed := WithPaymentStatus(t, id, COMPLETED, now);
    assert completed.payments == t.payments[id := p.(status := COMPLETED, updatedAt := now)];
    assert o.tables == WithSubscription(completed, p.userId, p.plan, "active",
                                        Some(NextExpiry(now, PeriodProperty(p, v.periodProperty))), now);
  }

  /** The expiry is always strictly after the moment of processing. */
  lemma ExpiryIsAfterNow(now: Instant, period: Option<Period>)
    ensures Before(now, NextExpiry(now, period))
  {
    if period == Some(YEAR) {
      AddOneYearIsLater(now);
    } else {
      AddOneMonthIsLater(now);
    }
  }

  /** A failure event marks the payment FAILED when it may move (as
      written: whatever its status was) and never touches the
      subscriptions or any other payment. */
  lemma FailureMarksFailed(t: Tables, body: Members, now: Instant, v: Variant)
    requires IsFailureStatus(Lookup(body, "payment_status"))
    ensures var o := Process(t, body, now, v);
      && o.response == Accepted
      && o.tables.subscriptions == t.subscriptions
      && o.tables.payments.Keys == t.payments.Keys
      && (forall k :: k in t.payments && Some(k) != OrderIdOf(body) ==> o.tables.payments[k] == t.payments[k])
      && (OrderIdOf(body).Some? && OrderIdOf(body).value in t.payments ==>
            var id := OrderIdOf(body).value;
            o.tables.payments[id]
            == if MayTransition(v, t.payments[id]) then t.payments[id].(status := FAILED, updatedAt := now)
               else t.payments[id])
  {
  }

  /** Any other status (and a missing one) is acknowledged and changes nothing. */
  lemma OtherStatusIgnored(t: Tables, body: Members, now: Instant, v: Variant)
    requires !IsSuccessStatus(Lookup(body, "payment_status"))
    requires !IsFailureStatus(Lookup(body, "payment_status"))
    ensures Process(t, body, now, v) == Outcome(t, Accepted)
    ensures Accepted.Code() == 200
  {
  }

  /** Every answer leaves the rows under their own keys. */
  lemma ReconcileKeepsKeys(t: Tables, sig: Option<string>, ipnSecret: Option<string>,
                           rawBody: Option<Json>, crypto: Crypto, now: Instant)
    requires KeysMatch(t)
    ensures KeysMatch(Reconcile(t, sig, ipnSecret, rawBody, now).tables)
    ensures KeysMatch(ReconcileVerified(t, sig, ipnSecret, rawBody, crypto, now).tables)
  {
  }

  /** The expected signature does not depend on the order in which the
      provider lists the body's members. */
  lemma SignatureOrderIndependent(secret: string, a: Members, b: Members, crypto: Crypto)
    requires DistinctKeys(a) && DistinctKeys(b) && multiset(a) == multiset(b)
    ensures ExpectedSignature(secret, a, crypto) == ExpectedSignature(secret, b, crypto)
  {
    CanonicalOrderIndependent(a, b);
  }

  /** As written, a duplicate delivery is applied again: replaying a
      success event leaves the payment COMPLETED and sets the expiry from
      the second delivery's time, not from the first expiry. */
  lemma ReplayResetsWindow(t: Tables, body: Members, now1: Instant, now2: Instant, id: OrderId)
    requires KeysMatch(t)
    requires IsSuccessStatus(Lookup(body, "payment_status"))
    requires OrderIdOf(body) == Some(id) && id in t.payments
    ensures var p := t.payments[id];
      var first := Process(t, body, now1, AsWritten).tables;
      var second := Process(first, body, now2, AsWritten).tables;
      && second.payments[id] == p.(status := COMPLETED, updatedAt := now2)
      && second.subscriptions[p.userId].expiresAt == Some(AddOneMonth(now2))
      && (now1 != now2 ==> second != first)
  {
    var p := t.payments[id];
    var first := Process(t, body, now1, AsWritten).tables;
    KnownOrderCompleted(t, body, now1, AsWritten, id);
    assert KeysMatch(first);
    KnownOrderCompleted(first, body, now2, AsWritten, id);
    var second := Process(first, body, now2, AsWritten).tables;
    assert first.payments[id].updatedAt == now1 && second.payments[id].updatedAt == now2;
  }

  /** As written, a late failure event overwrites a completed payment. */
  lemma AsWrittenFailureUndoesCompletion(t: Tables, body: Members, now: Instant, id: OrderId)
    requires IsFailureStatus(Lookup(body, "payment_status"))
    requires OrderIdOf(body) == Some(id) && id in t.payments && t.payments[id].status == COMPLETED
    ensures Process(t, body, now, AsWritten).tables.payments[id].status == FAILED
  {
    FailureMarksFailed(t, body, now, AsWritten);
  }

  /** Corrected: with the `status = PENDING` guard, no event changes a
      payment that has left PENDING, nor (for a success event) anything
      else. */
  lemma GuardedSettledPaymentStays(t: Tables, body: Members, now: Instant, id: OrderId)
    requires OrderIdOf(body) == Some(id) && id in t.payments && t.payments[id].status != PENDING
    ensures var o := Process(t, body, now, Intended);
      && o.tables == t
      && o.response == Accepted
  {
  }

  /** Corrected: with the guard, applying an event twice is applying it
      once, whatever the two delivery times: a replayed success event
      neither moves the payment again nor shifts the expiry. */
  lemma GuardedReplayIsNoOp(t: Tables, body: Members, now1: Instant, now2: Instant)
    ensures var first := Process(t, body, now1, Intended);
      Process(first.tables, body, now2, Intended) == first
  {
  }

  // ---------------------------------------------------------------------
  // The two discrepancies of the route as written

  /** As written, the period is read from `billingPeriod`, which a payment
      row does not have: a yearly payment gets one month, never one year. */
  lemma AsWrittenIgnoresYearlyPeriod(p: Payment, now: Instant)
    ensures NextExpiry(now, PeriodProperty(p, AsWrittenPeriodProperty)) == AddOneMonth(now)
    ensures AddOneMonth(now) != AddOneYear(now)
  {
    var m := AddOneMonth(now);
    var y := AddOneYear(now);
    AddOneMonthDate(now);
    AddOneYearDate(now);
    assert MonthIndex(m.year, m.month) <= MonthIndex(now.year, now.month) + 2;
    assert MonthIndex(y.year, y.month) >= MonthIndex(now.year, now.month) + 12;
  }

  /** Corrected: reading the schema column, a YEAR payment expires one
      calendar year on and a MONTH payment one calendar month on. */
  lemma VerifiedExpiryFollowsPeriod(p: Payment, now: Instant)
    ensures NextExpiry(now, PeriodProperty(p, SchemaPeriodProperty))
         == if p.subscriptionPeriod == YEAR then AddOneYear(now) else AddOneMonth(now)
  {
  }

  /** As written, any non-empty signature is accepted: a forged one yields
      exactly what the genuine one yields, state changes included. */
  lemma AsWrittenAcceptsForgedSignature(t: Tables, forged: string, ipnSecret: Option<string>,
                                        rawBody: Option<Json>, crypto: Crypto, now: Instant)
    requires forged != "" && !IsBlank(ipnSecret)
    requires rawBody.Some? && !rawBody.value.JNull?
    requires forged != ExpectedSignature(ipnSecret.value, TopLevelMembers(rawBody.value), crypto)
    ensures var genuine := ExpectedSignature(ipnSecret.value, TopLevelMembers(rawBody.value), crypto);
      genuine != "" ==>
        Reconcile(t, Some(forged), ipnSecret, rawBody, now) == Reconcile(t, Some(genuine), ipnSecret, rawBody, now)
    ensures Reconcile(t, Some(forged), ipnSecret, rawBody, now)
         == Process(t, TopLevelMembers(rawBody.value), now, AsWritten)
  {
  }

  /** Corrected: a mismatching signature is rejected with 400 and changes
      nothing; a matching one is processed. */
  lemma VerifiedRejectsForgedSignature(t: Tables, sig: string, ipnSecret: Option<string>,
                                       rawBody: Option<Json>, crypto: Crypto, now: Instant)
    requires sig != "" && !IsBlank(ipnSecret)
    requires rawBody.Some? && !rawBody.value.JNull?
    ensures var body := TopLevelMembers(rawBody.value);
      var o := ReconcileVerified(t, Some(sig), ipnSecret, rawBody, crypto, now);
      if sig == ExpectedSignature(ipnSecret.value, body, crypto) then
        o == Process(t, body, now, Intended)
      else
        o == Outcome(t, InvalidSignature) && o.response.Code() == 400
  {
  }
}
