/** The entitlement resolver (app/api/me/route.ts): the caller's current
    plan, whether it is premium, and the feature flags derived from it. */
module Entitlements {
  import opened Options
  import opened Http
  import opened Calendar
  import opened Schema
  import Json
  import Checkout

  datatype Features = Features(
    unlimitedVault: bool,
    devTools: bool,
    envInject: bool,
    cloudSync: bool,
    s3Byos: bool)

  datatype Response =
    | Unauthorized
    | Profile(userId: UserId, email: Option<string>, plan: Plan, isPremium: bool,
              expiresAt: Option<Instant>, features: Features)
  {
    function Code(): int {
      if Unauthorized? then 401 else 200
    }
  }

  /** The query of lines 19-25: the user's row, if its status is "active"
      and it expires after `now` (a null expiry never compares greater). */
  function ActiveSubscription(subs: map<UserId, Subscription>, userId: UserId, now: Instant): Option<Subscription> {
    if userId in subs && subs[userId].status == "active"
       && subs[userId].expiresAt.Some? && Before(now, subs[userId].expiresAt.value)
    then Some(subs[userId])
    else None
  }

  /** Lines 31-37. */
  function FeaturesFor(currentPlan: Plan, isPremium: bool): Features {
    Features(
      unlimitedVault := isPremium,
      devTools := isPremium,
      envInject := isPremium,
      cloudSync := currentPlan in {CLOUD, POWER},
      s3Byos := currentPlan in {POWER})
  }

  /** `GET`: the table read becomes the `subs` argument and the clock `now`. */
  function Me(session: Option<SessionUser>, subs: map<UserId, Subscription>, now: Instant): (r: Response)
    ensures r.Unauthorized? <==> AuthenticatedId(session).None?
    ensures r.Profile? ==> r.userId == AuthenticatedId(session).value && r.email == session.value.email
  {
    match AuthenticatedId(session)
    case None => Unauthorized
    case Some(userId) =>
      var sub := ActiveSubscription(subs, userId, now);
      var currentPlan := if sub.Some? then sub.value.plan else FREE;
      var isPremium := currentPlan != FREE;
      Profile(userId, session.value.email, currentPlan, isPremium,
              if sub.Some? then sub.value.expiresAt else None,
              FeaturesFor(currentPlan, isPremium))
  }


  // ---------------------------------------------------------------------
  // The tier table: each plan a strict superset of the one below

  function Tier(p: Plan): nat {
    match p
    case FREE => 0
    case PRO => 1
    case CLOUD => 2
    case POWER => 3
  }

  datatype Flag = UnlimitedVault | DevTools | EnvInject | CloudSync | S3Byos

  /** The lowest tier that grants a flag. */
  function MinimumTier(f: Flag): nat {
    match f
    case UnlimitedVault => 1
    case DevTools => 1
    case EnvInject => 1
    case CloudSync => 2
    case S3Byos => 3
  }

  function Enabled(features: Features, f: Flag): bool {
    match f
    case UnlimitedVault => features.unlimitedVault
    case DevTools => features.devTools
    case EnvInject => features.envInject
    case CloudSync => features.cloudSync
    case S3Byos => features.s3Byos
  }

  // ---------------------------------------------------------------------
  // Properties of the resolver

  /** No authenticated user id: 401. */
  lemma UnauthenticatedRejected(session: Option<SessionUser>, subs: map<UserId, Subscription>, now: Instant)
    requires AuthenticatedId(session).None?
    ensures Me(session, subs, now) == Unauthorized && Unauthorized.Code() == 401
  {
  }

  /** The current plan is the stored plan exactly when the row is "active"
      and unexpired; otherwise FREE, and then no expiry is reported. */
  lemma CurrentPlanRule(session: Option<SessionUser>, subs: map<UserId, Subscription>, now: Instant)
    requires AuthenticatedId(session).Some?
    ensures var u := AuthenticatedId(session).value;
      var r := Me(session, subs, now);
      var qualifies := u in subs && subs[u].status == "active"
                       && subs[u].expiresAt.Some? && Before(now, subs[u].expiresAt.value);
      && r.Profile?
      && r.plan == (if qualifies then subs[u].plan else FREE)
      && r.expiresAt == (if qualifies then subs[u].expiresAt else None)
      && (r.expiresAt.None? <==> !qualifies)
  {
  }

  /** A user whose row has lapsed, or who has none, is FREE with every
      premium flag off, whatever plan the row stores. */
  lemma LapsedIsFree(session: Option<SessionUser>, subs: map<UserId, Subscription>, now: Instant)
    requires AuthenticatedId(session).Some?
    requires var u := AuthenticatedId(session).value;
      u !in subs || subs[u].expiresAt.None? || !Before(now, subs[u].expiresAt.value)
    ensures var r := Me(session, subs, now);
      && r.plan == FREE && !r.isPremium && r.expiresAt.None?
      && r.features == Features(false, false, false, false, false)
  {
  }

  /** Premium exactly for a plan other than FREE; the three PRO flags equal
      it; cloud sync exactly for CLOUD and POWER; S3 BYOS exactly for
      POWER; hence s3Byos implies cloudSync implies isPremium. */
  lemma FlagsFollowPlan(session: Option<SessionUser>, subs: map<UserId, Subscription>, now: Instant)
    ensures var r := Me(session, subs, now);
      r.Profile? ==>
        && (r.isPremium <==> r.plan != FREE)
        && r.features.unlimitedVault == r.isPremium
        && r.features.devTools == r.isPremium
        && r.features.envInject == r.isPremium
        && (r.features.cloudSync <==> r.plan in {CLOUD, POWER})
        && (r.features.s3Byos <==> r.plan == POWER)
        && (r.features.s3Byos ==> r.features.cloudSync)
        && (r.features.cloudSync ==> r.isPremium)
  {
  }

  /** The flags the route computes are those of the tier table: a flag is
      on exactly when the plan's tier reaches the flag's minimum tier. */
  lemma FlagsMatchTierTable(session: Option<SessionUser>, subs: map<UserId, Subscription>, now: Instant, f: Flag)
    ensures var r := Me(session, subs, now);
      r.Profile? ==> (Enabled(r.features, f) <==> Tier(r.plan) >= MinimumTier(f))
  {
  }

  /** Both routes guard on the same `session?.user?.id`: a session is
      refused by one exactly when it is refused by the other (an empty id
      counts as none), and the payment checkout records belongs to the user
      whose profile this route reports. */
  lemma SameCallerBothRoutes(session: Option<SessionUser>, subs: map<UserId, Subscription>, now: Instant,
                             t: Tables, body: Option<Json.Json>, env: Checkout.Env,
                             provider: Checkout.InvoiceCall -> Checkout.InvoiceReply, orderId: OrderId)
    ensures var r := Me(session, subs, now);
      var o := Checkout.PlaceOrder(t, session, body, env, provider, orderId, now);
      && (r.Unauthorized? <==> o.response.Unauthorized?)
      && (session.Some? && session.value.id == Some("") ==> r.Unauthorized?)
      && (o.response.Created? ==>
            && r.Profile?
            && orderId in o.tables.payments
            && o.tables.payments[orderId].userId == r.userId)
  {
  }

  /** The flags the route reports for a current plan. */
  function PlanFeatures(p: Plan): Features {
    FeaturesFor(p, p != FREE)
  }

  /** Flags are monotone in tier, and a higher tier grants strictly more. */
  lemma FlagsMonotone(p: Plan, q: Plan)
    ensures Tier(p) <= Tier(q) ==>
      forall f :: Enabled(PlanFeatures(p), f) ==> Enabled(PlanFeatures(q), f)
    ensures Tier(p) < Tier(q) ==>
      exists f :: Enabled(PlanFeatures(q), f) && !Enabled(PlanFeatures(p), f)
  {
    if Tier(p) < Tier(q) {
      var f := match q
        case PRO => UnlimitedVault
        case CLOUD => CloudSync
        case POWER => S3Byos
        case FREE => UnlimitedVault;
      assert Enabled(PlanFeatures(q), f) && !Enabled(PlanFeatures(p), f);
    }
  }
}
