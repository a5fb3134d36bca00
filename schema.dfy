/** The closed vocabularies and row shapes of the database schema
    (db/schema.ts) that the three route handlers share. */
module Schema {
  import opened Options
  import opened Calendar

  type UserId = string
  type OrderId = string

  /** `planEnum` */
  datatype Plan = FREE | PRO | CLOUD | POWER

  /** `subscriptionPeriodEnum` */
  datatype Period = MONTH | YEAR

  /** `paymentStatusEnum` */
  datatype PaymentStatus = PENDING | COMPLETED | FAILED | REFUNDED

  /** Column defaults: `subscription.plan`, `subscription.status` and
      `payment.status`. */
  const DefaultPlan: Plan := FREE
  const DefaultSubscriptionStatus: string := "active"
  const DefaultPaymentStatus: PaymentStatus := PENDING

  /** The enum label stored in the database and used on the wire. */
  function PlanName(p: Plan): string {
    match p
    case FREE => "FREE"
    case PRO => "PRO"
    case CLOUD => "CLOUD"
    case POWER => "POWER"
  }

  /** The enum value of a label; None for a label outside the enum. */
  function ParsePlan(s: string): Option<Plan> {
    if s == "FREE" then Some(FREE)
    else if s == "PRO" then Some(PRO)
    else if s == "CLOUD" then Some(CLOUD)
    else if s == "POWER" then Some(POWER)
    else None
  }

  function PeriodName(p: Period): string {
    match p
    case MONTH => "MONTH"
    case YEAR => "YEAR"
  }

  function ParsePeriod(s: string): Option<Period> {
    if s == "MONTH" then Some(MONTH)
    else if s == "YEAR" then Some(YEAR)
    else None
  }

  /** The plan enum is closed: exactly its four labels parse, each to the
      plan whose label it is. */
  lemma PlanLabelsRoundTrip(p: Plan, s: string)
    ensures ParsePlan(PlanName(p)) == Some(p)
    ensures ParsePlan(s) == Some(p) ==> PlanName(p) == s
    ensures ParsePlan(s).Some? <==> s in {"FREE", "PRO", "CLOUD", "POWER"}
  {
  }

  /** The period enum is closed: exactly "MONTH" and "YEAR" parse. */
  lemma PeriodLabelsRoundTrip(p: Period, s: string)
    ensures ParsePeriod(PeriodName(p)) == Some(p)
    ensures ParsePeriod(s) == Some(p) ==> PeriodName(p) == s
    ensures ParsePeriod(s).Some? <==> s in {"MONTH", "YEAR"}
  {
  }

  /** A `subscription` row. Its status is free text ("active",
      "cancelled", "expired" by convention); `expiresAt` is nullable. */
  datatype Subscription = Subscription(
    userId: UserId,
    plan: Plan,
    status: string,
    expiresAt: Option<Instant>,
    updatedAt: Instant)

  /** A `payment` row. `amountUsd` is a decimal of scale 2, held here in
      whole cents; the invoice id is null until the provider answers. */
  datatype Payment = Payment(
    id: OrderId,
    userId: UserId,
    plan: Plan,
    subscriptionPeriod: Period,
    amountCents: nat,
    nowpaymentsInvoiceId: Option<string>,
    status: PaymentStatus,
    createdAt: Instant,
    updatedAt: Instant)

  /** The two tables the core reads and writes, keyed by their primary
      keys: `payment.id` and `subscription.userId` (one row per user). */
  datatype Tables = Tables(
    payments: map<OrderId, Payment>,
    subscriptions: map<UserId, Subscription>)

  /** Each row sits under its own primary key. */
  predicate KeysMatch(t: Tables) {
    && (forall id :: id in t.payments ==> t.payments[id].id == id)
    && (forall u :: u in t.subscriptions ==> t.subscriptions[u].userId == u)
  }
}
