// The order and payment services as one transition system.  Any number of
// CreateOrder, CancelOrder, GetOrder and ProcessPayment calls run at once;
// each database, Redis, gRPC or broker operation is one atomic step that the
// environment may make fail, and a call may crash between any two steps.

module Saga {
  import opened Domain
  import opened Gateway
  import opened Tables

  datatype Request = Request(customerId: string, itemName: string, amount: int, key: string)

  /** What a ProcessPayment call was asked for; grpc: by the saga of that
      order, otherwise through a door anyone can use. */
  datatype Job = Job(orderId: Uuid, amount: int, grpc: bool)

  datatype CancelError = NotFound | CannotCancelPaid | InvalidState | WriteError

  // A call in flight, by the operation it does next, or the answer it gave.

  datatype CreateAt =
    | Lookup(req: Request)
    | Insert(order: Order)
    | NotifyNew(order: Order)
    | Dial(order: Order)
    | Await(order: Order)
    | Update(order: Order, target: OrderStatus, failed: bool)
    | Evict(order: Order, target: OrderStatus, failed: bool)
    | NotifyEnd(order: Order)
    | Replayed(req: Request, order: Order)   // an existing row answers
    | Rejected(order: Order)                 // the insert failed
    | Broken(order: Order)                   // payment unavailable
    | Finished(order: Order)

  datatype CancelAt =
    | CancelRead(id: Uuid)
    | CancelWrite(order: Order)
    | CancelEvict(order: Order)
    | CancelNotify(order: Order)
    | CancelFailed(id: Uuid, error: CancelError)
    | CancelDone(order: Order)

  datatype GetAt =
    | ReadCache(id: Uuid)
    | ReadTable(id: Uuid)
    | Fill(order: Order, readAt: nat)
    | Got(id: Uuid, answer: Option<Order>)

  datatype PayAt =
    | PayLookup(job: Job)
    | PayInsert(job: Job, payment: Payment)
    | Publish(job: Job, payment: Payment)
    | PayDone(job: Job, paid: Option<Payment>)
    | Replied(job: Job)

  datatype Call = Creating(c: CreateAt) | Cancelling(k: CancelAt) | Getting(g: GetAt) | Paying(y: PayAt)

  datatype Db = Db(orders: Orders, payments: Payments)

  /** A cached order; readAt and setAt are the steps of its table read and its Set. */
  datatype Entry = Entry(order: Order, readAt: nat, setAt: nat, expires: nat)

  // Bookkeeping, which no step reads to decide what to do.

  /** What became of the cache deletion that belongs to a row's last write. */
  datatype Sweep = Due | Swept | Missed

  datatype Write = Write(at: nat, writer: Pid, sweep: Sweep)

  datatype Cause = InsertFailed | ReplyFailed | UpdateFailed | Crashed | CancelledBy | DirectDoor

  datatype Trail = Trail(
    held: map<Uuid, set<OrderStatus>>,  // the statuses each row has had
    writes: map<Uuid, Write>,           // the last write of each row
    blame: set<(Uuid, Cause)>)          // what went wrong for an order

  datatype State = State(
    db: Db,
    cache: map<Uuid, Entry>,
    calls: map<Pid, Call>,
    replies: map<Uuid, Reply>,  // answers on their way back, by order id
    queue: seq<Event>,          // everything published so far
    notices: seq<Order>,        // everything passed to notify so far
    clock: nat,
    step: nat,
    trail: Trail)

  /** What the environment decides about a step: its fault, and the cache TTL in force. */
  datatype Env = Env(fault: Fault, ttl: nat)

  datatype Action =
    | Start(c: Call)
    | Move(p: Pid, e: Env)
    | Crash(p: Pid)
    | Pass(d: nat)
    | Drop(id: Uuid)

  ghost function Init(): State {
    State(Db(map[], map[]), map[], map[], map[], [], [], 0, 0, Trail(map[], map[], {}))
  }

  ghost function Next(s: State, a: Action): State {
    Tick(Act(s, a))
  }

  ghost function Tick(s: State): State {
    s.(step := s.step + 1)
  }

  ghost function Act(s: State, a: Action): State {
    match a
    case Start(c) => if Opening(c) then At(s, Client(s.step), c) else s
    case Move(p, e) => if p in s.calls then Advance(s, p, s.calls[p], e) else s
    case Crash(p) => if p in s.calls && !Over(s.calls[p]) then Die(s, p, s.calls[p]) else s
    case Pass(d) => s.(clock := s.clock + d)
    case Drop(id) => s.(cache := s.cache - {id})
  }

  ghost function Run(s: State, actions: seq<Action>): State
    decreases |actions|
  {
    if actions == [] then s else Run(Next(s, actions[0]), actions[1..])
  }

  // ----- starting and losing calls -----

  /** The calls clients start.  A client may present any identifier. */
  predicate Opening(c: Call) {
    match c
    case Creating(c) => c.Lookup?
    case Cancelling(k) => k.CancelRead?
    case Getting(g) => g.ReadCache?
    case Paying(y) => y.PayLookup? && !y.job.grpc && y.job.orderId != Text("")
  }

  ghost function At(s: State, p: Pid, c: Call): State {
    s.(calls := s.calls[p := c])
  }

  ghost function Die(s: State, p: Pid, c: Call): State {
    s.(calls := s.calls - {p}, trail := TrailOfDeath(s.trail, p, c))
  }

  /** A crash matters to the order of a saga that was not done, and to the
      deletion a write still owed. */
  ghost function TrailOfDeath(h: Trail, p: Pid, c: Call): Trail {
    match c
    case Creating(Evict(o, _, _)) => Blame(Tag(h, o.id, p, Missed), o.id, Crashed)
    case Creating(c) => if InSaga(c) then Blame(h, c.order.id, Crashed) else h
    case Cancelling(CancelEvict(o)) => Tag(h, o.id, p, Missed)
    case _ => h
  }

  /** The saga of c.order is past its insert and has not returned. */
  predicate InSaga(c: CreateAt) {
    c.NotifyNew? || c.Dial? || c.Await? || c.Update? || c.Evict? || c.NotifyEnd?
  }

  /** The call has answered; its answer stays on record. */
  predicate Over(c: Call) {
    match c
    case Creating(c) => c.Replayed? || c.Rejected? || c.Broken? || c.Finished?
    case Cancelling(k) => k.CancelFailed? || k.CancelDone?
    case Getting(g) => g.Got?
    case Paying(y) => y.Replied?
  }

  ghost function Blame(h: Trail, id: Uuid, c: Cause): Trail {
    h.(blame := h.blame + {(id, c)})
  }

  /** Note what became of the deletion owed by call p, if the last write is its. */
  ghost function Tag(h: Trail, id: Uuid, p: Pid, sweep: Sweep): Trail {
    if id in h.writes && h.writes[id].writer == p
    then h.(writes := h.writes[id := h.writes[id].(sweep := sweep)])
    else h
  }

  /** Note a status a row now has, and the write that gave it. */
  ghost function Record(h: Trail, step: nat, p: Pid, id: Uuid, st: OrderStatus, sweep: Sweep): Trail {
    h.(held := h.held[id := (if id in h.held then h.held[id] else {}) + {st}],
    writes := h.writes[id := Write(step, p, sweep)])
  }

  ghost function Advance(s: State, p: Pid, c: Call, e: Env): State {
    match c
    case Creating(c) => AdvanceCreate(s, p, c, e)
    case Cancelling(k) => AdvanceCancel(s, p, k, e)
    case Getting(g) => AdvanceGet(s, p, g, e)
    case Paying(y) => AdvancePay(s, p, y, e)
  }

  // ----- CreateOrder -----

  ghost function AdvanceCreate(s: State, p: Pid, c: CreateAt, e: Env): State {
    match c
    case Lookup(req) => DoLookup(s, p, req, e)
    case Insert(o) => DoInsert(s, p, o, e)
    case NotifyNew(o) => DoNotify(s, p, o, Creating(Dial(o)))
    case Dial(o) => DoDial(s, p, o, e)
    case Await(o) => DoAwait(s, p, o, e)
    case Update(o, t, failed) => DoUpdate(s, p, o, t, failed, e)
    case Evict(o, t, failed) => DoDelete(s, p, o.id, e, Creating(AfterWrite(o, t, failed)))
    case NotifyEnd(o) => DoNotify(s, p, o, Creating(Finished(o)))
    case _ => s
  }

  ghost function DoLookup(s: State, p: Pid, req: Request, e: Env): State {
    var found := if e.fault.Acked? then ByKey(s.db.orders, req.key) else None;
    if found.Some? then At(s, p, Creating(Replayed(req, found.value)))
    else At(s, p, Creating(Insert(NewOrder(p, req, s.clock))))
  }

  function NewOrder(p: Pid, req: Request, now: nat): Order {
    Order(Minted(p, 0), req.customerId, req.itemName, req.amount, Pending, now, req.key)
  }

  ghost function DoInsert(s: State, p: Pid, o: Order, e: Env): State {
    var (orders, ok) := InsertOrder(s.db.orders, o, e.fault);
    var landed := !e.fault.Lost? && OrderFits(s.db.orders, o);
    var h := if landed then Record(s.trail, s.step, p, o.id, Pending, Swept) else s.trail;
    s.(db := s.db.(orders := orders),
    calls := s.calls[p := Creating(if ok then NotifyNew(o) else Rejected(o))],
    trail := if landed && !ok then Blame(h, o.id, InsertFailed) else h)
  }

  ghost function DoNotify(s: State, p: Pid, o: Order, c: Call): State {
    s.(notices := s.notices + [o], calls := s.calls[p := c])
  }

  /** The request reaches the payment service, or is lost on the way. */
  ghost function DoDial(s: State, p: Pid, o: Order, e: Env): State {
    if e.fault.Lost? then GiveUp(s, p, o)
    else s.(calls := s.calls[p := Creating(Await(o))][Server(p) := Paying(PayLookup(Job(o.id, o.amount, true)))])
  }

  ghost function GiveUp(s: State, p: Pid, o: Order): State {
    s.(calls := s.calls[p := Creating(Update(o, Failed, true))], trail := Blame(s.trail, o.id, ReplyFailed))
  }

  /** The reply arrives, or the client gives up: a timeout, a lost connection. */
  ghost function DoAwait(s: State, p: Pid, o: Order, e: Env): State {
    if !e.fault.Acked? then GiveUp(s, p, o)
    else if o.id !in s.replies then s
    else
      match AuthorizePayment(s.replies[o.id])
      case Err => GiveUp(s, p, o)
      case Ok(verdict) => At(s, p, Creating(Update(o, StatusFor(verdict), false)))
  }

  ghost function DoUpdate(s: State, p: Pid, o: Order, t: OrderStatus, failed: bool, e: Env): State {
    var (orders, ok) := SetStatus(s.db.orders, o.id, t, e.fault);
    var h := if e.fault.Lost? then s.trail else Record(s.trail, s.step, p, o.id, t, if ok then Due else Missed);
    s.(db := s.db.(orders := orders),
    calls := s.calls[p := Creating(if ok then Evict(o, t, failed) else AfterWrite(o, t, failed))],
    trail := if ok then h else Blame(h, o.id, UpdateFailed))
  }

  function AfterWrite(o: Order, t: OrderStatus, failed: bool): CreateAt {
    if failed then Broken(o) else NotifyEnd(o.(status := t))
  }

  /** cache.Delete: its error is logged and dropped. */
  ghost function DoDelete(s: State, p: Pid, id: Uuid, e: Env, c: Call): State {
    s.(cache := if e.fault.Lost? then s.cache else s.cache - {id},
    calls := s.calls[p := c],
    trail := Tag(s.trail, id, p, if e.fault.Lost? then Missed else Swept))
  }

  // ----- CancelOrder -----

  ghost function AdvanceCancel(s: State, p: Pid, k: CancelAt, e: Env): State {
    match k
    case CancelRead(id) => At(s, p, Cancelling(CancelVerdict(s.db.orders, id, e)))
    case CancelWrite(o) => DoCancelWrite(s, p, o, e)
    case CancelEvict(o) => DoDelete(s, p, o.id, e, Cancelling(CancelNotify(o.(status := Cancelled))))
    case CancelNotify(o) => DoNotify(s, p, o, Cancelling(CancelDone(o)))
    case _ => s
  }

  function CancelVerdict(orders: Orders, id: Uuid, e: Env): CancelAt {
    if !e.fault.Acked? || id !in orders then CancelFailed(id, NotFound)
    else if orders[id].status.Paid? then CancelFailed(id, CannotCancelPaid)
    else if !orders[id].status.Pending? then CancelFailed(id, InvalidState)
    else CancelWrite(orders[id])
  }

  ghost function DoCancelWrite(s: State, p: Pid, o: Order, e: Env): State {
    var (orders, ok) := SetStatus(s.db.orders, o.id, Cancelled, e.fault);
    s.(db := s.db.(orders := orders),
    calls := s.calls[p := Cancelling(if ok then CancelEvict(o) else CancelFailed(o.id, WriteError))],
    trail := if e.fault.Lost? then s.trail
             else Blame(Record(s.trail, s.step, p, o.id, Cancelled, if ok then Due else Missed), o.id, CancelledBy))
  }

  // ----- GetOrder -----

  ghost function AdvanceGet(s: State, p: Pid, g: GetAt, e: Env): State {
    match g
    case ReadCache(id) =>
      // a failed or corrupt read counts as a miss
      if e.fault.Acked? && id in s.cache && s.clock < s.cache[id].expires
      then At(s, p, Getting(Got(id, Some(s.cache[id].order))))
      else At(s, p, Getting(ReadTable(id)))
    case ReadTable(id) =>
      if !e.fault.Acked? || id !in s.db.orders then At(s, p, Getting(Got(id, None)))
      else At(s, p, Getting(Fill(s.db.orders[id], s.step)))
    case Fill(o, readAt) =>
      s.(cache := if e.fault.Lost? then s.cache
                  else s.cache[o.id := Entry(o, readAt, s.step, s.clock + e.ttl)],
      calls := s.calls[p := Getting(Got(o.id, Some(o)))])
    case Got(_, _) => s
  }

  // ----- ProcessPayment -----

  ghost function AdvancePay(s: State, p: Pid, y: PayAt, e: Env): State {
    match y
    case PayLookup(job) =>
      // the handler's guard, the lookup, then the decision
      if job.amount <= 0 then At(s, p, Paying(PayDone(job, None)))
      else if e.fault.Acked? && HasPayment(s.db.payments, job.orderId) then At(s, p, Paying(PayDone(job, None)))
      else At(s, p, Paying(PayInsert(job, NewPayment(p, job.orderId, job.amount))))
    case PayInsert(job, payment) => DoPayInsert(s, p, job, payment, e)
    case Publish(job, payment) =>
      // after the commit; the error is ignored
      s.(queue := if e.fault.Lost? then s.queue else s.queue + [EventOf(p, payment)],
      calls := s.calls[p := Paying(PayDone(job, Some(payment)))])
    case PayDone(job, paid) =>
      s.(replies := if job.grpc then s.replies[job.orderId := HandlerReply(paid)] else s.replies,
      calls := s.calls[p := Paying(Replied(job))])
    case Replied(_) => s
  }

  ghost function DoPayInsert(s: State, p: Pid, job: Job, payment: Payment, e: Env): State {
    var (payments, ok) := InsertPayment(s.db.payments, payment, e.fault);
    var landed := !e.fault.Lost? && PaymentFits(s.db.payments, payment);
    s.(db := s.db.(payments := payments),
    calls := s.calls[p := Paying(if ok then Publish(job, payment) else PayDone(job, None))],
    trail := if landed && !job.grpc then Blame(s.trail, job.orderId, DirectDoor) else s.trail)
  }

  function EventOf(p: Pid, payment: Payment): Event {
    Event(payment.orderId, payment.amount, UserAtExample(payment.orderId), payment.status, Minted(p, 2))
  }
}
