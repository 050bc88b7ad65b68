// Whole calls, with nothing in between: what CreateOrder, CancelOrder,
// GetOrder and ProcessPayment do to the stores when they run alone.

module WholeCalls {
  import opened Domain
  import opened Gateway
  import opened Tables
  import opened Saga

  datatype Cached = Cached(order: Order, expires: nat)

  datatype Stores = Stores(
    orders: Orders,
    payments: Payments,
    cache: map<Uuid, Cached>,
    queue: seq<Event>,
    notices: seq<Order>,
    now: nat)

  datatype PayEnv = PayEnv(lookup: Fault, insert: Fault, publish: Fault)
  datatype RpcEnv = RpcEnv(dial: Fault, pay: PayEnv, reply: Fault)
  datatype WriteEnv = WriteEnv(update: Fault, delete: Fault)
  datatype CreateEnv = CreateEnv(lookup: Fault, insert: Fault, rpc: RpcEnv, write: WriteEnv)
  datatype CancelEnv = CancelEnv(read: Fault, write: WriteEnv)
  datatype GetEnv = GetEnv(cache: Fault, read: Fault, fill: Fault, ttl: nat)

  datatype CreateResult = Replay(order: Order) | InsertError | PaymentUnavailable | Created(order: Order)

  // ----- payment service -----

  ghost function PayWhole(m: Stores, q: Pid, job: Job, env: PayEnv): (Stores, Option<Payment>) {
    if job.amount <= 0 then (m, None)
    else if env.lookup.Acked? && HasPayment(m.payments, job.orderId) then (m, None)
    else
      var payment := NewPayment(q, job.orderId, job.amount);
      var (payments, ok) := InsertPayment(m.payments, payment, env.insert);
      var m1 := m.(payments := payments);
      if !ok then (m1, None)
      else (m1.(queue := if env.publish.Lost? then m.queue else m.queue + [EventOf(q, payment)]), Some(payment))
  }

  ghost function AuthorizeWhole(m: Stores, p: Pid, o: Order, env: RpcEnv): (Stores, Result<PaymentStatus>) {
    if env.dial.Lost? then (m, Err)
    else
      var (m1, paid) := PayWhole(m, Server(p), Job(o.id, o.amount, true), env.pay);
      (m1, if env.reply.Acked? then AuthorizePayment(HandlerReply(paid)) else Err)
  }

  // ----- order service -----

  /** UpdateStatus, and the cache deletion if it reported success. */
  function WriteWhole(m: Stores, id: Uuid, st: OrderStatus, env: WriteEnv): (Stores, bool) {
    var (orders, ok) := SetStatus(m.orders, id, st, env.update);
    var m1 := m.(orders := orders);
    (if ok && !env.delete.Lost? then m1.(cache := m.cache - {id}) else m1, ok)
  }

  function Notified(m: Stores, o: Order): Stores {
    m.(notices := m.notices + [o])
  }

  ghost function CreateWhole(m: Stores, p: Pid, req: Request, env: CreateEnv): (Stores, CreateResult) {
    var found := if env.lookup.Acked? then ByKey(m.orders, req.key) else None;
    if found.Some? then (m, Replay(found.value)) else InsertWhole(m, p, NewOrder(p, req, m.now), env)
  }

  ghost function InsertWhole(m: Stores, p: Pid, o: Order, env: CreateEnv): (Stores, CreateResult) {
    var (orders, ok) := InsertOrder(m.orders, o, env.insert);
    if !ok then (m.(orders := orders), InsertError)
    else PayForWhole(Notified(m.(orders := orders), o), p, o, env)
  }

  ghost function PayForWhole(m: Stores, p: Pid, o: Order, env: CreateEnv): (Stores, CreateResult) {
    var (m1, verdict) := AuthorizeWhole(m, p, o, env.rpc);
    match verdict
    case Err => (WriteWhole(m1, o.id, Failed, env.write).0, PaymentUnavailable)
    case Ok(v) =>
      var done := o.(status := StatusFor(v));
      (Notified(WriteWhole(m1, o.id, done.status, env.write).0, done), Created(done))
  }

  function CancelWhole(m: Stores, id: Uuid, env: CancelEnv): (Stores, Option<CancelError>) {
    if !env.read.Acked? || id !in m.orders then (m, Some(NotFound))
    else if m.orders[id].status.Paid? then (m, Some(CannotCancelPaid))
    else if !m.orders[id].status.Pending? then (m, Some(InvalidState))
    else
      var (m1, ok) := WriteWhole(m, id, Cancelled, env.write);
      if !ok then (m1, Some(WriteError)) else (Notified(m1, m.orders[id].(status := Cancelled)), None)
  }

  function GetWhole(m: Stores, id: Uuid, env: GetEnv): (Stores, Option<Order>) {
    if env.cache.Acked? && id in m.cache && m.now < m.cache[id].expires then (m, Some(m.cache[id].order))
    else GetMiss(m, id, env)
  }

  function GetMiss(m: Stores, id: Uuid, env: GetEnv): (Stores, Option<Order>) {
    if !env.read.Acked? || id !in m.orders then (m, None)
    else
      var o := m.orders[id];
      (if env.fill.Lost? then m else m.(cache := m.cache[o.id := Cached(o, m.now + env.ttl)]), Some(o))
  }
}
