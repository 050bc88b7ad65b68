// The two SQL tables, as maps from the primary key that also enforce the
// second unique column, and the three ways a statement can end.

module Tables {
  import opened Domain

  /** How a statement or a remote call ends: done and reported; not done and
      reported as an error; done, but reported as an error. */
  datatype Fault = Acked | Lost | Unacked

  type Orders = map<Uuid, Order>
  type Payments = map<Uuid, Payment>

  /** PRIMARY KEY, CHECK (amount > 0) and UNIQUE idempotency_key. */
  ghost predicate OrderFits(t: Orders, o: Order) {
    && o.id !in t
    && o.amount > 0
    && forall i :: i in t ==> t[i].key != o.key
  }

  ghost function InsertOrder(t: Orders, o: Order, f: Fault): (r: (Orders, bool)) {
    if f.Lost? || !OrderFits(t, o) then (t, false) else (t[o.id := o], f.Acked?)
  }

  /** UPDATE ... WHERE id: touches no row when the id is unknown. */
  function SetStatus(t: Orders, id: Uuid, st: OrderStatus, f: Fault): (r: (Orders, bool)) {
    if f.Lost? then (t, false)
    else (if id in t then t[id := t[id].(status := st)] else t, f.Acked?)
  }

  ghost function ByKey(t: Orders, key: string): (r: Option<Order>)
    ensures r.Some? ==> exists i :: i in t && t[i] == r.value && t[i].key == key
    ensures r.None? ==> forall i :: i in t ==> t[i].key != key
  {
    if exists i :: i in t && t[i].key == key then
      var i :| i in t && t[i].key == key; Some(t[i])
    else None
  }

  /** PRIMARY KEY and the unique index on order_id. */
  ghost predicate PaymentFits(t: Payments, p: Payment) {
    p.id !in t && !HasPayment(t, p.orderId)
  }

  ghost predicate HasPayment(t: Payments, orderId: Uuid) {
    exists i :: i in t && t[i].orderId == orderId
  }

  ghost function InsertPayment(t: Payments, p: Payment, f: Fault): (r: (Payments, bool)) {
    if f.Lost? || !PaymentFits(t, p) then (t, false) else (t[p.id := p], f.Acked?)
  }
}
