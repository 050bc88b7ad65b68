// The main results about the order and payment tables, for every run: any
// number of concurrent calls, any faults, any crashes.

module SagaTheorems {
  import opened Domain
  import opened Saga
  import opened SagaInvariant

  ghost function Reached(actions: seq<Action>): State {
    Run(Init(), actions)
  }

  lemma ReachedIsSound(actions: seq<Action>)
    ensures Inv(Reached(actions))
  {
    RunKeeps(Init(), actions);
  }

  // ----- Paid is backed by money -----

  /** A Paid order has exactly one payment row, and that row is an authorised
      charge of the order's own amount, within the limit, with a transaction id. */
  lemma {:induction false} PaidIsBackedByMoney(actions: seq<Action>)
    ensures var db := Reached(actions).db;
            forall id :: id in db.orders && db.orders[id].status.Paid? ==>
              exists i :: i in db.payments && Backs(db.payments[i], db.orders[id]) && db.payments[i].amount <= 100000
                && forall j :: j in db.payments && db.payments[j].orderId == id ==> j == i
  {
    ReachedIsSound(actions);
  }

  // ----- at most one charge per idempotency key -----

  lemma {:induction false} AtMostOneChargePerKey(actions: seq<Action>)
    ensures var db := Reached(actions).db;
            && (forall i, j :: i in db.orders && j in db.orders && db.orders[i].key == db.orders[j].key ==> i == j)
            && (forall a, b | a in db.payments && b in db.payments && SameKey(db, db.payments[a], db.payments[b]) :: a == b)
  {
    ReachedIsSound(actions);
  }

  /** The two payments are for orders with one idempotency key. */
  ghost predicate SameKey(db: Db, x: Payment, y: Payment) {
    && x.orderId in db.orders && y.orderId in db.orders
    && db.orders[x.orderId].key == db.orders[y.orderId].key
  }

  // ----- replays agree -----

  /** CreateOrder returned this order, with a nil error, for this key. */
  ghost predicate Answered(s: State, p: Pid, key: string, o: Order) {
    p in s.calls &&
    match s.calls[p]
    case Creating(Replayed(req, r)) => r == o && req.key == key
    case Creating(Finished(r)) => r == o && r.key == key
    case _ => false
  }

  /** Whatever payload a retry carried, it is answered with the stored row's
      id, customer, item, amount, creation time and key. */
  lemma {:induction false} ReplaysAgree(actions: seq<Action>, p: Pid, q: Pid, key: string, o: Order, o': Order)
    requires Answered(Reached(actions), p, key, o) && Answered(Reached(actions), q, key, o')
    ensures var db := Reached(actions).db;
            o.id in db.orders && db.orders[o.id].key == key && SameBody(o, db.orders[o.id]) && SameBody(o, o')
  {
    ReachedIsSound(actions);
    CallFacts(Reached(actions), p);
    CallFacts(Reached(actions), q);
  }

  // ----- only the four statuses -----

  lemma {:induction false} OnlyKnownStatuses(actions: seq<Action>)
    ensures var s := Reached(actions);
            && (forall id :: id in s.db.orders ==> KnownStatus(s.db.orders[id].status))
            && (forall id :: id in s.cache ==> KnownStatus(s.cache[id].order.status))
            && (forall i :: 0 <= i < |s.notices| ==> KnownStatus(s.notices[i].status))
            && (forall p :: p in s.calls && s.calls[p].Getting? && s.calls[p].g.Got? && s.calls[p].g.answer.Some? ==>
                  KnownStatus(s.calls[p].g.answer.value.status))
  {
    ReachedIsSound(actions);
    var s := Reached(actions);
    forall p | p in s.calls && s.calls[p].Getting? && s.calls[p].g.Got? && s.calls[p].g.answer.Some?
      ensures KnownStatus(s.calls[p].g.answer.value.status)
    {
      CallFacts(s, p);
    }
  }
}
