/** The database the route handlers talk to, as two in-memory tables, and
    the three statements they issue against it: a status update keyed by
    payment id, an insert of a payment, and an insert-or-update of a
    subscription keyed by user id. */
module Store {
  import opened Options
  import opened Calendar
  import opened Schema

  /** `db.query.payments.findFirst({ where: eq(payments.id, id) })`;
      an id that is not a string matches no row. When every row sits under
      its own id, the row found is one whose `id` column equals the order
      id, and there is one exactly when some stored row has that id. */
  function FindPayment(payments: map<OrderId, Payment>, id: Option<OrderId>): (r: Option<Payment>)
    ensures r.Some? ==> r.value in payments.Values
    ensures (forall k :: k in payments ==> payments[k].id == k) ==>
      && (r.Some? <==> id.Some? && exists k :: k in payments && payments[k].id == id.value)
      && (r.Some? ==> r.value.id == id.value)
    ensures r.Some? <==> id.Some? && id.value in payments
    ensures r.Some? ==> r.value == payments[id.value]
  {
    if id.Some? && id.value in payments then Some(payments[id.value]) else None
  }

  /** `update payment set status, updatedAt where id = ...`: touches at
      most the one row with that id. */
  function WithPaymentStatus(t: Tables, id: OrderId, status: PaymentStatus, now: Instant): (r: Tables)
    ensures r.subscriptions == t.subscriptions
    ensures r.payments.Keys == t.payments.Keys
    ensures id in t.payments ==> r.payments[id] == t.payments[id].(status := status, updatedAt := now)
    ensures forall k :: k in t.payments && k != id ==> r.payments[k] == t.payments[k]
    ensures KeysMatch(t) ==> KeysMatch(r)
  {
    if id in t.payments then
      t.(payments := t.payments[id := t.payments[id].(status := status, updatedAt := now)])
    else t
  }

  /** `insert into subscription ... on conflict (userId) do update set plan,
      status, expiresAt, updatedAt`: afterwards the user's row holds the
      given values whether or not a row existed, and no other row changes. */
  function WithSubscription(t: Tables, userId: UserId, plan: Plan, status: string,
                            expiresAt: Option<Instant>, now: Instant): (r: Tables)
    ensures r.payments == t.payments
    ensures r.subscriptions.Keys == t.subscriptions.Keys + {userId}
    ensures var row := r.subscriptions[userId];
      row.plan == plan && row.status == status && row.expiresAt == expiresAt && row.updatedAt == now
    ensures KeysMatch(t) ==> r.subscriptions[userId] == Subscription(userId, plan, status, expiresAt, now)
    ensures forall u :: u in t.subscriptions && u != userId ==> r.subscriptions[u] == t.subscriptions[u]
    ensures KeysMatch(t) ==> KeysMatch(r)
  {
    if userId in t.subscriptions then
      var existing := t.subscriptions[userId];
      var updated := existing.(plan := plan, status := status, expiresAt := expiresAt, updatedAt := now);
      t.(subscriptions := t.subscriptions[userId := updated])
    else
      t.(subscriptions := t.subscriptions[userId := Subscription(userId, plan, status, expiresAt, now)])
  }

  /** `insert into payment values (...)`; None when the primary key is
      already taken (the insert throws). */
  function WithNewPayment(t: Tables, row: Payment): (r: Option<Tables>)
    ensures r.Some? <==> row.id !in t.payments
    ensures r.Some? ==> r.value.payments.Keys == t.payments.Keys + {row.id}
    ensures r.Some? ==> |r.value.payments| == |t.payments| + 1
    ensures r.Some? ==> r.value.payments[row.id] == row
    ensures r.Some? ==> forall k :: k in t.payments ==> r.value.payments[k] == t.payments[k]
    ensures r.Some? ==> r.value.subscriptions == t.subscriptions
    ensures r.Some? && KeysMatch(t) ==> KeysMatch(r.value)
  {
    if row.id in t.payments then None else Some(t.(payments := t.payments[row.id := row]))
  }

  /** The database handle: both tables, updated in place by each statement. */
  class Database {
    var payments: map<OrderId, Payment>
    var subscriptions: map<UserId, Subscription>

    constructor ()
      ensures payments == map[] && subscriptions == map[]
      ensures Valid()
    {
      payments := map[];
      subscriptions := map[];
    }

    function Snapshot(): Tables
      reads this
    {
      Tables(payments, subscriptions)
    }

    predicate Valid()
      reads this
    {
      KeysMatch(Snapshot())
    }

    method UpdatePaymentStatus(id: OrderId, status: PaymentStatus, now: Instant)
      modifies this
      ensures Snapshot() == WithPaymentStatus(old(Snapshot()), id, status, now)
      ensures old(Valid()) ==> Valid()
    {
      if id in payments {
        var row := payments[id];
        payments := payments[id := row.(status := status, updatedAt := now)];
      }
    }

    method UpsertSubscription(userId: UserId, plan: Plan, status: string,
                              expiresAt: Option<Instant>, now: Instant)
      modifies this
      ensures Snapshot() == WithSubscription(old(Snapshot()), userId, plan, status, expiresAt, now)
      ensures old(Valid()) ==> Valid()
    {
      if userId in subscriptions {
        var existing := subscriptions[userId];
        subscriptions := subscriptions[userId := existing.(plan := plan, status := status,
                                                           expiresAt := expiresAt, updatedAt := now)];
      } else {
        subscriptions := subscriptions[userId := Subscription(userId, plan, status, expiresAt, now)];
      }
    }

    method InsertPayment(row: Payment) returns (inserted: bool)
      modifies this
      ensures inserted <==> row.id !in old(payments)
      ensures inserted ==> Some(Snapshot()) == WithNewPayment(old(Snapshot()), row)
      ensures !inserted ==> Snapshot() == old(Snapshot())
      ensures old(Valid()) ==> Valid()
    {
      inserted := row.id !in payments;
      if inserted {
        payments := payments[row.id := row];
      }
    }
  }
}
