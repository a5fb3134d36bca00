/** The checkout initiator (app/api/checkout/route.ts): authenticate,
    validate plan and interval, price with the 5% discount, ask the
    provider for an invoice, and record a PENDING payment only once the
    invoice exists. */
module Checkout {
  import opened Options
  import opened Json
  import opened Http
  import opened Calendar
  import opened Schema
  import opened Store

  /** The validated request (`checkoutSchema`). */
  datatype CheckoutRequest = CheckoutRequest(plan: Plan, interval: Period)

  /** `z.enum(["PRO", "CLOUD", "POWER"])` on a member value. */
  function ParsePaidPlan(v: Option<Json>): Option<Plan> {
    match v
    case Some(JString(s)) =>
      (match ParsePlan(s)
       case Some(p) => if p == FREE then None else Some(p)
       case None => None)
    case _ => None
  }

  /** `z.enum(["MONTH", "YEAR"])` on a member value. */
  function ParseInterval(v: Option<Json>): Option<Period> {
    match v
    case Some(JString(s)) => ParsePeriod(s)
    case _ => None
  }

  /** `checkoutSchema.safeParse(body)`: an object whose `plan` is one of
      the three paid labels and whose `interval` is a period label; other
      members are ignored. */
  function ParseCheckout(body: Json): (r: Option<CheckoutRequest>)
    ensures r.Some? ==> r.value.plan != FREE
    ensures r.Some? <==> (
      && body.JObject?
      && Lookup(body.members, "plan") in {Some(JString("PRO")), Some(JString("CLOUD")), Some(JString("POWER"))}
      && Lookup(body.members, "interval") in {Some(JString("MONTH")), Some(JString("YEAR"))})
    ensures r.Some? ==> (
      && Lookup(body.members, "plan") == Some(JString(PlanName(r.value.plan)))
      && Lookup(body.members, "interval") == Some(JString(PeriodName(r.value.interval))))
  {
    if !body.JObject? then None
    else
      var plan := ParsePaidPlan(Lookup(body.members, "plan"));
      var interval := ParseInterval(Lookup(body.members, "interval"));
      if plan.Some? && interval.Some? then Some(CheckoutRequest(plan.value, interval.value)) else None
  }

  /** The body a client sends for a request. */
  function RequestJson(req: CheckoutRequest): Json {
    JObject([("plan", JString(PlanName(req.plan))), ("interval", JString(PeriodName(req.interval)))])
  }

  /** Validation accepts exactly what a client encodes for a paid plan. */
  lemma ParseCheckoutRoundTrip(req: CheckoutRequest)
    requires req.plan != FREE
    ensures ParseCheckout(RequestJson(req)) == Some(req)
  {
  }

  /** `PRICES`, in cents. */
  function BasePriceCents(plan: Plan, interval: Period): nat
    requires plan != FREE
  {
    match (plan, interval)
    case (PRO, MONTH) => 599
    case (PRO, YEAR) => 5900
    case (CLOUD, MONTH) => 899
    case (CLOUD, YEAR) => 8900
    case (POWER, MONTH) => 1299
    case (POWER, YEAR) => 12900
  }

  /** `Number((base * 0.95).toFixed(2))` in cents: 95% of the base price
      rounded to the nearest cent, a half cent rounding up. */
  function DiscountedCents(base: nat): (r: nat)
    ensures 95 * base - 50 < 100 * r <= 95 * base + 50
  {
    (95 * base + 50) / 100
  }

  /** The discounted amount is strictly below any base price above ten cents. */
  lemma DiscountBelowBase(base: nat)
    requires base > 10
    ensures DiscountedCents(base) < base
  {
  }

  /** Every table entry: the charged amounts, each below its base price
      (PRO/MONTH 5.99 becomes 5.69). */
  lemma DiscountedTable(plan: Plan, interval: Period)
    requires plan != FREE
    ensures DiscountedCents(BasePriceCents(plan, interval)) < BasePriceCents(plan, interval)
    ensures DiscountedCents(BasePriceCents(PRO, MONTH)) == 569
    ensures DiscountedCents(BasePriceCents(PRO, YEAR)) == 5605
    ensures DiscountedCents(BasePriceCents(CLOUD, MONTH)) == 854
    ensures DiscountedCents(BasePriceCents(CLOUD, YEAR)) == 8455
    ensures DiscountedCents(BasePriceCents(POWER, MONTH)) == 1234
    ensures DiscountedCents(BasePriceCents(POWER, YEAR)) == 12255
  {
    DiscountBelowBase(BasePriceCents(plan, interval));
  }

  /** The environment the route reads: `NOWPAYMENTS_API_KEY`,
      `NOWPAYMENTS_API_BASE` and `NEXTAUTH_URL`. */
  datatype Env = Env(apiKey: Option<string>, apiBase: Option<string>, siteUrl: Option<string>)

  /** The JSON body of the invoice request (lines 54-62). */
  datatype InvoiceRequest = InvoiceRequest(
    priceCents: nat,
    priceCurrency: string,
    orderId: OrderId,
    orderDescription: string,
    ipnCallbackUrl: string,
    successUrl: string,
    cancelUrl: string)

  /** The outbound call: endpoint, `x-api-key` header and body. */
  datatype InvoiceCall = InvoiceCall(endpoint: string, apiKey: string, request: InvoiceRequest)

  /** What the provider's answer comes to: the call or reading its JSON
      threw, the response was not ok, or an invoice with its `id` and
      `invoice_url` (either may be absent). */
  datatype InvoiceReply = Threw | NotOk | Ok(id: Option<string>, invoiceUrl: Option<string>)

  /** A template literal renders a missing value as "undefined". */
  function Interpolate(s: Option<string>): string {
    if s.None? then "undefined" else s.value
  }

  function Endpoint(env: Env): string {
    (if IsBlank(env.apiBase) then "https://api.nowpayments.io/v1" else env.apiBase.value) + "/invoice"
  }

  function InvoiceFor(req: CheckoutRequest, amount: nat, orderId: OrderId, env: Env): InvoiceCall
    requires !IsBlank(env.apiKey)
  {
    var site := Interpolate(env.siteUrl);
    InvoiceCall(Endpoint(env), env.apiKey.value, InvoiceRequest(
      amount, "usd", orderId,
      "PassGen " + PlanName(req.plan) + " Plan (" + PeriodName(req.interval) + ")",
      site + "/api/webhooks/nowpayments",
      site + "/passgen/pricing?success=true",
      site + "/passgen/pricing?canceled=true"))
  }

  datatype Response =
    | Unauthorized
    | InvalidRequest
    | ConfigurationError
    | InvoiceFailed
    | ServerError
    | Created(paymentUrl: Option<string>, invoiceId: Option<string>)
  {
    function Code(): int {
      match this
      case Unauthorized => 401
      case InvalidRequest => 400
      case ConfigurationError => 500
      case InvoiceFailed => 502
      case ServerError => 500
      case Created(_, _) => 200
    }
  }

  datatype Outcome = Outcome(tables: Tables, response: Response)

  /** The PENDING row recorded for a created invoice (lines 74-82). */
  function PendingPayment(req: CheckoutRequest, userId: UserId, amount: nat, orderId: OrderId,
                          invoiceId: Option<string>, now: Instant): Payment {
    Payment(orderId, userId, req.plan, req.interval, amount, invoiceId, PENDING, now, now)
  }

  /** `POST` on the tables. `body` is None when `req.json()` throws;
      `provider` answers the invoice call; `orderId` is the fresh
      `crypto.randomUUID()`. */
  function PlaceOrder(t: Tables, session: Option<SessionUser>, body: Option<Json>, env: Env,
                      provider: InvoiceCall -> InvoiceReply, orderId: OrderId, now: Instant): Outcome {
    var userId := AuthenticatedId(session);
    if userId.None? then Outcome(t, Unauthorized)
    else if body.None? then Outcome(t, ServerError)
    else match ParseCheckout(body.value)
      case None => Outcome(t, InvalidRequest)
      case Some(req) =>
        var amount := DiscountedCents(BasePriceCents(req.plan, req.interval));
        if IsBlank(env.apiKey) then Outcome(t, ConfigurationError)
        else match provider(InvoiceFor(req, amount, orderId, env))
          case Threw => Outcome(t, ServerError)
          case NotOk => Outcome(t, InvoiceFailed)
          case Ok(invoiceId, invoiceUrl) =>
            match WithNewPayment(t, PendingPayment(req, userId.value, amount, orderId, invoiceId, now))
            case None => Outcome(t, ServerError)
            case Some(recorded) => Outcome(recorded, Created(invoiceUrl, invoiceId))
  }

  /** `POST` against the database. */
  method HandleCheckout(db: Database, session: Option<SessionUser>, body: Option<Json>, env: Env,
                        provider: InvoiceCall -> InvoiceReply, orderId: OrderId, now: Instant)
    returns (response: Response)
    modifies db
    ensures db.Snapshot() == PlaceOrder(old(db.Snapshot()), session, body, env, provider, orderId, now).tables
    ensures response == PlaceOrder(old(db.Snapshot()), session, body, env, provider, orderId, now).response
    ensures old(db.Valid()) ==> db.Valid()
  {
    var userId := AuthenticatedId(session);
    if userId.None? {
      return Unauthorized;
    }
    if body.None? {
      return ServerError;
    }
    var result := ParseCheckout(body.value);
    if result.None? {
      return InvalidRequest;
    }
    var req := result.value;
    var amount := DiscountedCents(BasePriceCents(req.plan, req.interval));
    if IsBlank(env.apiKey) {
      return ConfigurationError;
    }
    var invoiceResponse := provider(InvoiceFor(req, amount, orderId, env));
    if invoiceResponse.Threw? {
      return ServerError;
    }
    if invoiceResponse.NotOk? {
      return InvoiceFailed;
    }
    var row := PendingPayment(req, userId.value, amount, orderId, invoiceResponse.id, now);
    var inserted := db.InsertPayment(row);
    if !inserted {
      return ServerError;
    }
    response := Created(invoiceResponse.invoiceUrl, invoiceResponse.id);
  }

  // ---------------------------------------------------------------------
  // Properties of the checkout initiator

  /** Without an authenticated user id: 401 and nothing recorded. */
  lemma UnauthenticatedRejected(t: Tables, session: Option<SessionUser>, body: Option<Json>, env: Env,
                                provider: InvoiceCall -> InvoiceReply, orderId: OrderId, now: Instant)
    requires AuthenticatedId(session).None?
    ensures PlaceOrder(t, session, body, env, provider, orderId, now) == Outcome(t, Unauthorized)
    ensures Unauthorized.Code() == 401
  {
  }

  /** A body the schema rejects (a plan outside PRO, CLOUD, POWER, an
      interval outside MONTH, YEAR, or not an object): 400, nothing recorded. */
  lemma InvalidRequestRejected(t: Tables, session: Option<SessionUser>, body: Json, env: Env,
                               provider: InvoiceCall -> InvoiceReply, orderId: OrderId, now: Instant)
    requires AuthenticatedId(session).Some?
    requires ParseCheckout(body).None?
    ensures PlaceOrder(t, session, Some(body), env, provider, orderId, now) == Outcome(t, InvalidRequest)
    ensures InvalidRequest.Code() == 400
  {
  }

  /** Without an API key: 500 and nothing recorded, before any call. */
  lemma MissingApiKeyRejected(t: Tables, session: Option<SessionUser>, body: Json, env: Env,
                              provider: InvoiceCall -> InvoiceReply, orderId: OrderId, now: Instant)
    requires AuthenticatedId(session).Some? && ParseCheckout(body).Some?
    requires IsBlank(env.apiKey)
    ensures PlaceOrder(t, session, Some(body), env, provider, orderId, now) == Outcome(t, ConfigurationError)
    ensures ConfigurationError.Code() == 500
  {
  }

  /** A payment is recorded exactly when the invoice was created (and the
      fresh id is unused): every other outcome leaves the tables as they
      were. A change of the tables means that every check passed and the
      provider answered the invoice call with an invoice. */
  lemma RecordedOnlyAfterInvoice(t: Tables, session: Option<SessionUser>, body: Option<Json>, env: Env,
                                 provider: InvoiceCall -> InvoiceReply, orderId: OrderId, now: Instant)
    ensures var o := PlaceOrder(t, session, body, env, provider, orderId, now);
      (o.tables != t <==> o.response.Created?) && (!o.response.Created? ==> o.tables == t)
    ensures var o := PlaceOrder(t, session, body, env, provider, orderId, now);
      o.tables != t ==>
        && AuthenticatedId(session).Some?
        && body.Some?
        && ParseCheckout(body.value).Some?
        && !IsBlank(env.apiKey)
        && orderId !in t.payments
        && (var req := ParseCheckout(body.value).value;
            provider(InvoiceFor(req, DiscountedCents(BasePriceCents(req.plan, req.interval)), orderId, env)).Ok?)
  {
    var o := PlaceOrder(t, session, body, env, provider, orderId, now);
    if o.response.Created? {
      assert orderId !in t.payments && orderId in o.tables.payments;
    }
  }

  /** The invoice the provider is asked for and the payment recorded for
      it agree: same order id (the one the webhook later reports), same
      amount, and the plan and interval named in the description; the
      provider is told to notify the webhook route of the same site. */
  lemma InvoiceMatchesRecord(t: Tables, session: Option<SessionUser>, body: Json, env: Env,
                             provider: InvoiceCall -> InvoiceReply, orderId: OrderId, now: Instant)
    requires AuthenticatedId(session).Some? && ParseCheckout(body).Some? && !IsBlank(env.apiKey)
    ensures var req := ParseCheckout(body).value;
      var amount := DiscountedCents(BasePriceCents(req.plan, req.interval));
      var call := InvoiceFor(req, amount, orderId, env);
      var o := PlaceOrder(t, session, Some(body), env, provider, orderId, now);
      && call.apiKey == env.apiKey.value
      && call.request.priceCurrency == "usd"
      && call.request.ipnCallbackUrl == Interpolate(env.siteUrl) + "/api/webhooks/nowpayments"
      && (o.response.Created? ==>
            && call.request.orderId in o.tables.payments
            && o.tables.payments[call.request.orderId].amountCents == call.request.priceCents
            && o.tables.payments[call.request.orderId].nowpaymentsInvoiceId == o.response.invoiceId
            && call.request.orderDescription
               == "PassGen " + PlanName(o.tables.payments[call.request.orderId].plan) + " Plan ("
                  + PeriodName(o.tables.payments[call.request.orderId].subscriptionPeriod) + ")")
  {
  }

  /** A call that throws (or a reply whose JSON cannot be read) is caught:
      500 and nothing recorded. */
  lemma InvoiceErrorRejected(t: Tables, session: Option<SessionUser>, body: Json, env: Env,
                             provider: InvoiceCall -> InvoiceReply, orderId: OrderId, now: Instant)
    requires AuthenticatedId(session).Some? && ParseCheckout(body).Some? && !IsBlank(env.apiKey)
    requires var req := ParseCheckout(body).value;
      provider(InvoiceFor(req, DiscountedCents(BasePriceCents(req.plan, req.interval)), orderId, env)).Threw?
    ensures PlaceOrder(t, session, Some(body), env, provider, orderId, now) == Outcome(t, ServerError)
    ensures ServerError.Code() == 500
  {
  }

  /** On a created invoice: exactly one new PENDING payment under the
      fresh order id, for the user, plan, interval, discounted amount and
      invoice id; existing payments and all subscriptions unchanged; the
      answer carries the invoice's URL and id. On a refused invoice: 502. */
  lemma InvoiceOutcomeDecides(t: Tables, session: Option<SessionUser>, body: Json, env: Env,
                              provider: InvoiceCall -> InvoiceReply, orderId: OrderId, now: Instant)
    requires AuthenticatedId(session).Some? && ParseCheckout(body).Some? && !IsBlank(env.apiKey)
    requires orderId !in t.payments
    ensures var req := ParseCheckout(body).value;
      var amount := DiscountedCents(BasePriceCents(req.plan, req.interval));
      var reply := provider(InvoiceFor(req, amount, orderId, env));
      var o := PlaceOrder(t, session, Some(body), env, provider, orderId, now);
      && (reply.NotOk? ==> o == Outcome(t, InvoiceFailed) && o.response.Code() == 502)
      && (reply.Ok? ==>
            && o.response == Created(reply.invoiceUrl, reply.id)
            && o.tables.subscriptions == t.subscriptions
            && o.tables.payments.Keys == t.payments.Keys + {orderId}
            && |o.tables.payments| == |t.payments| + 1
            && (forall k :: k in t.payments ==> o.tables.payments[k] == t.payments[k])
            && o.tables.payments[orderId]
               == Payment(orderId, AuthenticatedId(session).value, req.plan, req.interval,
                          amount, reply.id, PENDING, now, now))
  {
  }
}
