// What holds in every reachable state, whatever the interleaving and the
// faults: the tables, the cache, the replies and every call in flight agree.

module SagaInvariant {
  import opened Domain
  import opened Gateway
  import opened Tables
  import opened Saga

  // ----- what each call may rely on -----

  ghost predicate Row(db: Db, o: Order) {
    o.id in db.orders && SameBody(o, db.orders[o.id])
  }

  predicate Open(st: OrderStatus) {
    st.Pending? || st.Cancelled?
  }

  /** The payment row that lets an order be Paid. */
  predicate Backs(p: Payment, o: Order) {
    && p.orderId == o.id
    && p.amount == o.amount
    && p.status.Authorized?
    && p.transactionId.Some?
    && p.amount <= 100000
  }

  ghost predicate Backed(db: Db, o: Order) {
    exists i :: i in db.payments && Backs(db.payments[i], o)
  }

  /** The row was charged for this order's amount, with this verdict. */
  predicate Charges(p: Payment, o: Order, verdict: PaymentStatus) {
    p.orderId == o.id && p.amount == o.amount && p.status == verdict
  }

  ghost predicate Charged(db: Db, o: Order, verdict: PaymentStatus) {
    exists i :: i in db.payments && Charges(db.payments[i], o, verdict)
  }

  /** The status the order's payment row calls for. */
  ghost predicate Deserves(db: Db, o: Order, st: OrderStatus) {
    (st.Paid? && Charged(db, o, Authorized)) || (st.Failed? && Charged(db, o, Declined))
  }

  ghost predicate Target(db: Db, o: Order, t: OrderStatus, failed: bool) {
    if failed then t.Failed? else Deserves(db, o, t)
  }

  /** The order the saga of call p inserted. */
  ghost predicate Mine(db: Db, p: Pid, o: Order) {
    o.id == Minted(p, 0) && Row(db, o)
  }

  /** ... and nobody but a cancel has written it. */
  ghost predicate Unsettled(db: Db, p: Pid, o: Order) {
    Mine(db, p, o) && Open(db.orders[o.id].status)
  }

  ghost predicate CreateOk(db: Db, p: Pid, c: CreateAt) {
    match c
    case Lookup(_) => Minted(p, 0) !in db.orders
    case Insert(o) => o.status.Pending? && o.id == Minted(p, 0) && o.id !in db.orders
    case NotifyNew(o) => Unsettled(db, p, o) && o.status.Pending?
    case Dial(o) => Unsettled(db, p, o) && o.status.Pending?
    case Await(o) => Unsettled(db, p, o) && o.status.Pending?
    case Update(o, t, failed) => Unsettled(db, p, o) && Target(db, o, t, failed)
    case Evict(o, t, failed) => Mine(db, p, o) && Target(db, o, t, failed)
    case NotifyEnd(o) => Mine(db, p, o) && Deserves(db, o, o.status)
    case Replayed(req, o) => Row(db, o) && o.key == req.key && KnownStatus(o.status)
    case Rejected(o) => o.id == Minted(p, 0)
    case Broken(o) => Mine(db, p, o)
    case Finished(o) => Mine(db, p, o) && Deserves(db, o, o.status)
  }

  ghost predicate CancelOk(db: Db, k: CancelAt) {
    match k
    case CancelWrite(o) => Row(db, o) && o.status.Pending?
    case CancelEvict(o) => Row(db, o)
    case CancelNotify(o) => Row(db, o) && o.status.Cancelled?
    case CancelDone(o) => Row(db, o) && o.status.Cancelled?
    case _ => true
  }

  ghost predicate GetOk(db: Db, g: GetAt) {
    match g
    case Fill(o, _) => Row(db, o) && KnownStatus(o.status)
    case Got(id, answer) =>
      answer.Some? ==> answer.value.id == id && Row(db, answer.value) && KnownStatus(answer.value.status)
    case _ => true
  }

  /** An rpc asks to charge the caller's own order for that order's amount. */
  ghost predicate JobOk(db: Db, p: Pid, job: Job) {
    job.grpc ==>
      && p.Server? && job.orderId == Minted(p.of, 0)
      && job.orderId in db.orders && db.orders[job.orderId].amount == job.amount
  }

  ghost predicate Committed(db: Db, job: Job, pay: Payment) {
    && pay.id in db.payments && db.payments[pay.id] == pay
    && pay.orderId == job.orderId && pay.amount == job.amount
  }

  ghost predicate PayOk(db: Db, p: Pid, y: PayAt) {
    match y
    case PayLookup(job) => JobOk(db, p, job)
    case PayInsert(job, pay) =>
      && JobOk(db, p, job) && job.amount > 0
      && pay == NewPayment(p, job.orderId, job.amount)
    case Publish(job, pay) => JobOk(db, p, job) && Committed(db, job, pay) && pay.id == Minted(p, 0)
    case PayDone(job, paid) => JobOk(db, p, job) && (paid.Some? ==> Committed(db, job, paid.value))
    case Replied(job) => true
  }

  ghost predicate CallOk(db: Db, p: Pid, c: Call) {
    (c.Paying? || p.Client?) &&
    match c
    case Creating(c) => CreateOk(db, p, c)
    case Cancelling(k) => CancelOk(db, k)
    case Getting(g) => GetOk(db, g)
    case Paying(y) => PayOk(db, p, y)
  }

  // ----- the stores -----

  ghost predicate OrdersOk(db: Db) {
    && (forall id :: id in db.orders ==>
          && db.orders[id].id == id && db.orders[id].amount > 0
          && KnownStatus(db.orders[id].status)
          && (db.orders[id].status.Paid? ==> Backed(db, db.orders[id])))
    && (forall i, j :: i in db.orders && j in db.orders && db.orders[i].key == db.orders[j].key ==> i == j)
  }

  ghost predicate PaymentsOk(payments: Payments) {
    && (forall i :: i in payments ==> payments[i].id == i && PaymentOk(payments[i]))
    && (forall i, j :: i in payments && j in payments && payments[i].orderId == payments[j].orderId ==> i == j)
  }

  ghost predicate CacheOk(db: Db, cache: map<Uuid, Entry>) {
    forall id :: id in cache ==>
      cache[id].order.id == id && Row(db, cache[id].order) && KnownStatus(cache[id].order.status)
  }

  ghost predicate RepliesOk(db: Db, replies: map<Uuid, Reply>) {
    forall id :: id in replies && AuthorizePayment(replies[id]).Ok? ==>
      id in db.orders && Charged(db, db.orders[id], AuthorizePayment(replies[id]).value)
  }

  ghost predicate NoticesOk(db: Db, notices: seq<Order>) {
    forall i :: 0 <= i < |notices| ==> Row(db, notices[i]) && KnownStatus(notices[i].status)
  }

  function Born(p: Pid): nat {
    match p case Client(n) => n case Server(of) => Born(of)
  }

  ghost predicate CallsOk(db: Db, calls: map<Pid, Call>) {
    forall p :: p in calls ==> CallOk(db, p, calls[p])
  }

  /** Identifiers are as old as the calls they name. */
  ghost predicate BirthsOk(s: State) {
    && (forall p :: p in s.calls ==> Born(p) < s.step)
    && (forall id :: id in s.db.orders ==> id.Minted? && Born(id.call) < s.step)
    && (forall id :: id in s.db.payments ==> id.Minted? && Born(id.call) < s.step)
  }

  ghost predicate Inv(s: State) {
    && OrdersOk(s.db) && PaymentsOk(s.db.payments)
    && CacheOk(s.db, s.cache) && RepliesOk(s.db, s.replies) && NoticesOk(s.db, s.notices)
    && CallsOk(s.db, s.calls)
    && BirthsOk(s)
  }

  // ----- what a step of call p may do under everyone else's feet -----

  ghost predicate Evolves(db: Db, db': Db, p: Pid) {
    && (forall id :: id in db.orders ==>
          && id in db'.orders && SameBody(db.orders[id], db'.orders[id])
          && (db'.orders[id].status == db.orders[id].status || db'.orders[id].status.Cancelled? || id == Minted(p, 0)))
    && (forall id :: id in db'.orders && id !in db.orders ==> id == Minted(p, 0))
    && (forall i :: i in db.payments ==> i in db'.payments && db'.payments[i] == db.payments[i])
    && (forall i :: i in db'.payments && i !in db.payments ==> i == Minted(p, 0))
  }

  lemma CallSurvives(db: Db, db': Db, p: Pid, q: Pid, c: Call)
    requires Evolves(db, db', p) && q != p && CallOk(db, q, c)
    ensures CallOk(db', q, c)
  {
  }

  lemma CallsSurvive(db: Db, db': Db, p: Pid, calls: map<Pid, Call>, c: Call)
    requires Evolves(db, db', p) && CallsOk(db, calls) && CallOk(db', p, c)
    ensures CallsOk(db', calls[p := c])
  {
    forall q | q in calls && q != p ensures CallOk(db', q, calls[q]) {
      CallSurvives(db, db', p, q, calls[q]);
    }
  }

  lemma StoresSurvive(s: State, db': Db, p: Pid)
    requires Inv(s) && Evolves(s.db, db', p)
    ensures CacheOk(db', s.cache) && RepliesOk(db', s.replies) && NoticesOk(db', s.notices)
  {
    forall id | id in s.replies && AuthorizePayment(s.replies[id]).Ok?
      ensures id in db'.orders && Charged(db', db'.orders[id], AuthorizePayment(s.replies[id]).value)
    {
      var v := AuthorizePayment(s.replies[id]).value;
      var i :| i in s.db.payments && Charges(s.db.payments[i], s.db.orders[id], v);
      assert Charges(db'.payments[i], db'.orders[id], v);
    }
  }

  /** A step of p that writes a table row. */
  lemma WriteStep(s: State, t: State, p: Pid, c: Call)
    requires Inv(s) && p in s.calls
    requires t.step == s.step + 1 && t.cache == s.cache && t.replies == s.replies && t.notices == s.notices
    requires Evolves(s.db, t.db, p) && OrdersOk(t.db) && PaymentsOk(t.db.payments)
    requires t.calls == s.calls[p := c] && CallOk(t.db, p, c)
    ensures Inv(t)
  {
    hide CallOk, OrdersOk, PaymentsOk, CallsOk, CacheOk, RepliesOk, NoticesOk;
    CallsSurvive(s.db, t.db, p, s.calls, c);
    StoresSurvive(s, t.db, p);
  }

  /** A step of p that leaves the tables alone. */
  lemma ReadStep(s: State, t: State, p: Pid, c: Call)
    requires Inv(s) && Born(p) <= s.step
    requires t.step == s.step + 1 && t.db == s.db && t.cache == s.cache && t.replies == s.replies
    requires NoticesOk(t.db, t.notices)
    requires t.calls == s.calls[p := c] && CallOk(t.db, p, c)
    ensures Inv(t)
  {
  }

  // ----- the three table writes -----

  lemma StatusWrite(db: Db, p: Pid, o: Order, st: OrderStatus, failed: bool, f: Fault)
    requires OrdersOk(db) && PaymentsOk(db.payments) && Row(db, o)
    requires st.Cancelled? || (o.id == Minted(p, 0) && Target(db, o, st, failed))
    ensures var db' := db.(orders := SetStatus(db.orders, o.id, st, f).0);
            OrdersOk(db') && Evolves(db, db', p) && Row(db', o)
            && (Target(db, o, st, failed) ==> Target(db', o, st, failed))
  {
    var db' := db.(orders := SetStatus(db.orders, o.id, st, f).0);
    forall id | id in db'.orders && db'.orders[id].status.Paid? ensures Backed(db', db'.orders[id]) {
      if id == o.id && st.Paid? && db' != db {
        var i :| i in db.payments && Charges(db.payments[i], o, Authorized);
        assert Backs(db'.payments[i], db'.orders[id]);
      } else {
        var i :| i in db.payments && Backs(db.payments[i], db.orders[id]);
        assert Backs(db'.payments[i], db'.orders[id]);
      }
    }
  }

  lemma OrderInsert(db: Db, p: Pid, o: Order, f: Fault)
    requires OrdersOk(db) && o.id == Minted(p, 0) && o.status.Pending?
    ensures var db' := db.(orders := InsertOrder(db.orders, o, f).0);
            OrdersOk(db') && Evolves(db, db', p)
  {
    var db' := db.(orders := InsertOrder(db.orders, o, f).0);
    forall id | id in db'.orders && db'.orders[id].status.Paid? ensures Backed(db', db'.orders[id]) {
      var i :| i in db.payments && Backs(db.payments[i], db.orders[id]);
      assert Backs(db'.payments[i], db'.orders[id]);
    }
  }

  lemma PaymentInsert(db: Db, p: Pid, pay: Payment, f: Fault)
    requires OrdersOk(db) && PaymentsOk(db.payments) && pay.id == Minted(p, 0) && PaymentOk(pay)
    ensures var db' := db.(payments := InsertPayment(db.payments, pay, f).0);
            OrdersOk(db') && PaymentsOk(db'.payments) && Evolves(db, db', p)
  {
    var db' := db.(payments := InsertPayment(db.payments, pay, f).0);
    forall id | id in db'.orders && db'.orders[id].status.Paid? ensures Backed(db', db'.orders[id]) {
      var i :| i in db.payments && Backs(db.payments[i], db.orders[id]);
      assert Backs(db'.payments[i], db'.orders[id]);
    }
  }

  // ----- one lemma per operation -----

  lemma CallFacts(s: State, p: Pid)
    requires Inv(s) && p in s.calls
    ensures CallOk(s.db, p, s.calls[p]) && Born(p) < s.step
    ensures OrdersOk(s.db) && PaymentsOk(s.db.payments)
    ensures NoticesOk(s.db, s.notices)
  {
  }

  lemma LookupKeeps(s: State, p: Pid, req: Request, e: Env)
    requires Inv(s) && p in s.calls && s.calls[p] == Creating(Lookup(req))
    ensures Inv(Tick(DoLookup(s, p, req, e)))
  {
    CallFacts(s, p);
    hide Inv, NoticesOk, PaymentsOk;
    ReadStep(s, Tick(DoLookup(s, p, req, e)), p, DoLookup(s, p, req, e).calls[p]);
  }

  lemma InsertKeeps(s: State, p: Pid, o: Order, e: Env)
    requires Inv(s) && p in s.calls && s.calls[p] == Creating(Insert(o))
    ensures Inv(Tick(DoInsert(s, p, o, e)))
  {
    CallFacts(s, p);
    OrderInsert(s.db, p, o, e.fault);
    hide Inv, NoticesOk, PaymentsOk, OrdersOk, Evolves;
    var t := DoInsert(s, p, o, e);
    WriteStep(s, Tick(t), p, t.calls[p]);
  }

  lemma AfterWriteOk(db: Db, p: Pid, o: Order, t: OrderStatus, failed: bool)
    requires Mine(db, p, o) && Target(db, o, t, failed)
    ensures CreateOk(db, p, AfterWrite(o, t, failed)) && CreateOk(db, p, Evict(o, t, failed))
  {
    if !failed {
      var v := if t.Paid? then Authorized else Declined;
      var i :| i in db.payments && Charges(db.payments[i], o, v);
      assert Charges(db.payments[i], o.(status := t), v);
    }
  }

  lemma UpdateKeeps(s: State, p: Pid, o: Order, t: OrderStatus, failed: bool, e: Env)
    requires Inv(s) && p in s.calls && s.calls[p] == Creating(Update(o, t, failed))
    ensures Inv(Tick(DoUpdate(s, p, o, t, failed, e)))
  {
    CallFacts(s, p);
    StatusWrite(s.db, p, o, t, failed, e.fault);
    var (orders, ok) := SetStatus(s.db.orders, o.id, t, e.fault);
    AfterWriteOk(s.db.(orders := orders), p, o, t, failed);
    hide Inv, NoticesOk, PaymentsOk, OrdersOk, Evolves, Row, Record, Blame, Charged, SetStatus, AfterWrite, CreateOk, Target;
    WriteStep(s, Tick(DoUpdate(s, p, o, t, failed, e)), p, Creating(if ok then Evict(o, t, failed) else AfterWrite(o, t, failed)));
  }

  lemma CancelWriteKeeps(s: State, p: Pid, o: Order, e: Env)
    requires Inv(s) && p in s.calls && s.calls[p] == Cancelling(CancelWrite(o))
    ensures Inv(Tick(DoCancelWrite(s, p, o, e)))
  {
    CallFacts(s, p);
    StatusWrite(s.db, p, o, Cancelled, true, e.fault);
    var (orders, ok) := SetStatus(s.db.orders, o.id, Cancelled, e.fault);
    hide Inv, NoticesOk, PaymentsOk, OrdersOk, Evolves, Row, Record, Blame, SetStatus;
    WriteStep(s, Tick(DoCancelWrite(s, p, o, e)), p,
              Cancelling(if ok then CancelEvict(o) else CancelFailed(o.id, WriteError)));
  }

  lemma PayInsertKeeps(s: State, p: Pid, job: Job, pay: Payment, e: Env)
    requires Inv(s) && p in s.calls && s.calls[p] == Paying(PayInsert(job, pay))
    ensures Inv(Tick(DoPayInsert(s, p, job, pay, e)))
  {
    CallFacts(s, p);
    PaymentInsert(s.db, p, pay, e.fault);
    var (payments, ok) := InsertPayment(s.db.payments, pay, e.fault);
    hide Inv, NoticesOk, PaymentsOk, OrdersOk, Evolves, Record, Blame;
    WriteStep(s, Tick(DoPayInsert(s, p, job, pay, e)), p, Paying(if ok then Publish(job, pay) else PayDone(job, None)));
  }

  lemma NotifyKeeps(s: State, p: Pid, o: Order, c: Call)
    requires Inv(s) && p in s.calls && CallOk(s.db, p, c) && Row(s.db, o) && KnownStatus(o.status)
    ensures Inv(Tick(DoNotify(s, p, o, c)))
  {
    CallFacts(s, p);
    hide Inv, PaymentsOk, OrdersOk, CallOk, Row;
    ReadStep(s, Tick(DoNotify(s, p, o, c)), p, c);
  }

  lemma SpawnKeeps(s: State, q: Pid, c: Call)
    requires Inv(s) && Born(q) < s.step && CallOk(s.db, q, c)
    ensures Inv(s.(calls := s.calls[q := c]))
  {
  }

  /** A step of a call that only waits, or is over. */
  lemma IdleKeeps(s: State)
    requires Inv(s)
    ensures Inv(Tick(s))
  {
  }

  lemma DialKeeps(s: State, p: Pid, o: Order, e: Env)
    requires Inv(s) && p in s.calls && s.calls[p] == Creating(Dial(o))
    ensures Inv(Tick(DoDial(s, p, o, e)))
  {
    CallFacts(s, p);
    hide Inv, NoticesOk, PaymentsOk, OrdersOk;
    if e.fault.Lost? {
      ReadStep(s, Tick(GiveUp(s, p, o)), p, Creating(Update(o, Failed, true)));
    } else {
      var y := Paying(PayLookup(Job(o.id, o.amount, true)));
      var s1 := Tick(At(s, p, Creating(Await(o))));
      ReadStep(s, s1, p, Creating(Await(o)));
      SpawnKeeps(s1, Server(p), y);
    }
  }

  lemma ReplyIsDeserved(db: Db, replies: map<Uuid, Reply>, o: Order)
    requires RepliesOk(db, replies) && Row(db, o)
    requires o.id in replies && AuthorizePayment(replies[o.id]).Ok?
    ensures Deserves(db, o, StatusFor(AuthorizePayment(replies[o.id]).value))
  {
    var v := AuthorizePayment(replies[o.id]).value;
    var i :| i in db.payments && Charges(db.payments[i], db.orders[o.id], v);
    assert Charges(db.payments[i], o, v);
  }

  lemma AwaitKeeps(s: State, p: Pid, o: Order, e: Env)
    requires Inv(s) && p in s.calls && s.calls[p] == Creating(Await(o))
    ensures Inv(Tick(DoAwait(s, p, o, e)))
  {
    CallFacts(s, p);
    hide Inv, NoticesOk, PaymentsOk, OrdersOk;
    if !e.fault.Acked? || (o.id in s.replies && AuthorizePayment(s.replies[o.id]).Err?) {
      ReadStep(s, Tick(GiveUp(s, p, o)), p, Creating(Update(o, Failed, true)));
    } else if o.id in s.replies {
      ReplyIsDeserved(s.db, s.replies, o);
      var t := StatusFor(AuthorizePayment(s.replies[o.id]).value);
      ReadStep(s, Tick(At(s, p, Creating(Update(o, t, false)))), p, Creating(Update(o, t, false)));
    } else {
      IdleKeeps(s);
    }
  }

  lemma DeleteKeeps(s: State, p: Pid, id: Uuid, e: Env, c: Call)
    requires Inv(s) && p in s.calls && CallOk(s.db, p, c)
    ensures Inv(Tick(DoDelete(s, p, id, e, c)))
  {
  }

  lemma EvictKeeps(s: State, p: Pid, o: Order, t: OrderStatus, failed: bool, e: Env)
    requires Inv(s) && p in s.calls && s.calls[p] == Creating(Evict(o, t, failed))
    ensures Inv(Tick(DoDelete(s, p, o.id, e, Creating(AfterWrite(o, t, failed)))))
  {
    CallFacts(s, p);
    hide Inv, NoticesOk, PaymentsOk, OrdersOk, DoDelete, Row, Charged;
    AfterWriteOk(s.db, p, o, t, failed);
    DeleteKeeps(s, p, o.id, e, Creating(AfterWrite(o, t, failed)));
  }

  /** The order of a saga about to notify is a row, and what it does next is fine. */
  lemma NotifyFacts(s: State, p: Pid, o: Order)
    requires Inv(s) && p in s.calls
    ensures s.calls[p] == Creating(NotifyNew(o)) ==>
              CallOk(s.db, p, Creating(Dial(o))) && Row(s.db, o) && KnownStatus(o.status)
    ensures s.calls[p] == Creating(NotifyEnd(o)) ==>
              CallOk(s.db, p, Creating(Finished(o))) && Row(s.db, o) && KnownStatus(o.status)
  {
    CallFacts(s, p);
    hide Inv, NoticesOk, PaymentsOk, OrdersOk;
  }

  lemma CreateKeeps(s: State, p: Pid, c: CreateAt, e: Env)
    requires Inv(s) && p in s.calls && s.calls[p] == Creating(c)
    ensures Inv(Tick(AdvanceCreate(s, p, c, e)))
  {
    hide Inv, Tick, CallOk, Row, DoLookup, DoInsert, DoNotify, DoDial, DoAwait, DoUpdate, DoDelete;
    match c {
      case Lookup(req) => LookupKeeps(s, p, req, e);
      case Insert(o) => InsertKeeps(s, p, o, e);
      case NotifyNew(o) =>
        NotifyFacts(s, p, o);
        NotifyKeeps(s, p, o, Creating(Dial(o)));
      case Dial(o) => DialKeeps(s, p, o, e);
      case Await(o) => AwaitKeeps(s, p, o, e);
      case Update(o, t, failed) => UpdateKeeps(s, p, o, t, failed, e);
      case Evict(o, t, failed) => EvictKeeps(s, p, o, t, failed, e);
      case NotifyEnd(o) =>
        NotifyFacts(s, p, o);
        NotifyKeeps(s, p, o, Creating(Finished(o)));
      case _ => IdleKeeps(s);
    }
  }

  lemma CancelKeeps(s: State, p: Pid, k: CancelAt, e: Env)
    requires Inv(s) && p in s.calls && s.calls[p] == Cancelling(k)
    ensures Inv(Tick(AdvanceCancel(s, p, k, e)))
  {
    CallFacts(s, p);
    hide Inv, NoticesOk, PaymentsOk, DoNotify, DoCancelWrite, DoDelete;
    match k {
      case CancelRead(id) =>
        ReadStep(s, Tick(AdvanceCancel(s, p, k, e)), p, Cancelling(CancelVerdict(s.db.orders, id, e)));
      case CancelWrite(o) => CancelWriteKeeps(s, p, o, e);
      case CancelEvict(o) => DeleteKeeps(s, p, o.id, e, Cancelling(CancelNotify(o.(status := Cancelled))));
      case CancelNotify(o) => NotifyKeeps(s, p, o, Cancelling(CancelDone(o)));
      case _ => IdleKeeps(s);
    }
  }

  lemma FillKeeps(s: State, p: Pid, o: Order, readAt: nat, e: Env)
    requires Inv(s) && p in s.calls && s.calls[p] == Getting(Fill(o, readAt))
    ensures Inv(Tick(AdvanceGet(s, p, Fill(o, readAt), e)))
  {
  }

  lemma CacheFacts(s: State)
    requires Inv(s)
    ensures CacheOk(s.db, s.cache) && OrdersOk(s.db)
  {
  }

  lemma ReadCacheKeeps(s: State, p: Pid, id: Uuid, e: Env)
    requires Inv(s) && p in s.calls && s.calls[p] == Getting(ReadCache(id))
    ensures Inv(Tick(AdvanceGet(s, p, ReadCache(id), e)))
  {
    CallFacts(s, p);
    CacheFacts(s);
    hide Inv, PaymentsOk, NoticesOk, OrdersOk, Row;
    var t := Tick(AdvanceGet(s, p, ReadCache(id), e));
    ReadStep(s, t, p, t.calls[p]);
  }

  /** What a table read makes of the call is fine. */
  lemma TableReadOk(s: State, p: Pid, id: Uuid, e: Env)
    requires OrdersOk(s.db) && p.Client?
    ensures var t := AdvanceGet(s, p, ReadTable(id), e); p in t.calls && CallOk(s.db, p, t.calls[p])
  {
    hide Backed;
  }

  lemma ReadTableKeeps(s: State, p: Pid, id: Uuid, e: Env)
    requires Inv(s) && p in s.calls && s.calls[p] == Getting(ReadTable(id))
    ensures Inv(Tick(AdvanceGet(s, p, ReadTable(id), e)))
  {
    CallFacts(s, p);
    TableReadOk(s, p, id, e);
    hide Inv, PaymentsOk, NoticesOk, OrdersOk, CallOk;
    var t := Tick(AdvanceGet(s, p, ReadTable(id), e));
    ReadStep(s, t, p, t.calls[p]);
  }

  lemma GetKeeps(s: State, p: Pid, g: GetAt, e: Env)
    requires Inv(s) && p in s.calls && s.calls[p] == Getting(g)
    ensures Inv(Tick(AdvanceGet(s, p, g, e)))
  {
    hide Inv, Tick;
    match g {
      case ReadCache(id) => ReadCacheKeeps(s, p, id, e);
      case ReadTable(id) => ReadTableKeeps(s, p, id, e);
      case Fill(o, readAt) => FillKeeps(s, p, o, readAt, e);
      case Got(_, _) => IdleKeeps(s);
    }
  }

  /** A reply with a verdict is about a row that was charged with it. */
  lemma ReplyOk(s: State, p: Pid, job: Job, paid: Option<Payment>)
    requires OrdersOk(s.db) && PaymentsOk(s.db.payments) && RepliesOk(s.db, s.replies) && PayOk(s.db, p, PayDone(job, paid))
    ensures job.grpc ==> RepliesOk(s.db, s.replies[job.orderId := HandlerReply(paid)])
  {
    if job.grpc && paid.Some? {
      assert Charges(s.db.payments[paid.value.id], s.db.orders[job.orderId], paid.value.status);
    }
  }

  lemma ReplyKeeps(s: State, p: Pid, job: Job, paid: Option<Payment>, e: Env)
    requires Inv(s) && p in s.calls && s.calls[p] == Paying(PayDone(job, paid))
    ensures Inv(Tick(AdvancePay(s, p, PayDone(job, paid), e)))
  {
    CallFacts(s, p);
    ReplyOk(s, p, job, paid);
    hide OrdersOk, PaymentsOk, CacheOk, RepliesOk, NoticesOk, HandlerReply;
  }

  lemma PayLookupKeeps(s: State, p: Pid, job: Job, e: Env)
    requires Inv(s) && p in s.calls && s.calls[p] == Paying(PayLookup(job))
    ensures Inv(Tick(AdvancePay(s, p, PayLookup(job), e)))
  {
    CallFacts(s, p);
    hide Inv, NoticesOk, PaymentsOk, OrdersOk, HasPayment, NewPayment;
    var t := Tick(AdvancePay(s, p, PayLookup(job), e));
    ReadStep(s, t, p, t.calls[p]);
  }

  lemma PublishKeeps(s: State, p: Pid, job: Job, pay: Payment, e: Env)
    requires Inv(s) && p in s.calls && s.calls[p] == Paying(Publish(job, pay))
    ensures Inv(Tick(AdvancePay(s, p, Publish(job, pay), e)))
  {
    CallFacts(s, p);
    hide Inv, NoticesOk, PaymentsOk, OrdersOk, EventOf;
    var t := Tick(AdvancePay(s, p, Publish(job, pay), e));
    ReadStep(s, t, p, t.calls[p]);
  }

  lemma PayKeeps(s: State, p: Pid, y: PayAt, e: Env)
    requires Inv(s) && p in s.calls && s.calls[p] == Paying(y)
    ensures Inv(Tick(AdvancePay(s, p, y, e)))
  {
    hide Inv, Tick, DoPayInsert, HasPayment, NewPayment, EventOf, HandlerReply;
    match y {
      case PayLookup(job) => PayLookupKeeps(s, p, job, e);
      case PayInsert(job, pay) => PayInsertKeeps(s, p, job, pay, e);
      case Publish(job, pay) => PublishKeeps(s, p, job, pay, e);
      case PayDone(job, paid) => ReplyKeeps(s, p, job, paid, e);
      case Replied(_) => IdleKeeps(s);
    }
  }

  lemma MoveKeeps(s: State, p: Pid, e: Env)
    requires Inv(s) && p in s.calls
    ensures Inv(Tick(Advance(s, p, s.calls[p], e)))
  {
    hide Inv, AdvanceCreate, AdvanceCancel, AdvanceGet, AdvancePay;
    match s.calls[p] {
      case Creating(c) => CreateKeeps(s, p, c, e);
      case Cancelling(k) => CancelKeeps(s, p, k, e);
      case Getting(g) => GetKeeps(s, p, g, e);
      case Paying(y) => PayKeeps(s, p, y, e);
    }
  }

  lemma StartKeeps(s: State, c: Call)
    requires Inv(s)
    ensures Inv(Next(s, Start(c)))
  {
  }

  /** Calls crashing, time passing, cache entries lost. */
  lemma CrashKeeps(s: State, p: Pid)
    requires Inv(s)
    ensures Inv(Next(s, Crash(p)))
  {
    hide TrailOfDeath, CallOk, OrdersOk, PaymentsOk, RepliesOk, NoticesOk, CacheOk;
  }

  lemma LossKeeps(s: State, a: Action)
    requires Inv(s) && (a.Pass? || a.Drop?)
    ensures Inv(Next(s, a))
  {
    hide CallOk, OrdersOk, PaymentsOk, RepliesOk, NoticesOk;
  }

  lemma StepKeeps(s: State, a: Action)
    requires Inv(s)
    ensures Inv(Next(s, a))
  {
    hide Inv, Advance, Die;
    match a {
      case Start(c) => StartKeeps(s, c);
      case Move(p, e) => if p in s.calls { MoveKeeps(s, p, e); } else { IdleKeeps(s); }
      case Crash(p) => CrashKeeps(s, p);
      case _ => LossKeeps(s, a);
    }
  }

  lemma {:induction false} RunKeeps(s: State, actions: seq<Action>)
    requires Inv(s)
    ensures Inv(Run(s, actions))
    decreases |actions|
  {
    if actions != [] {
      StepKeeps(s, actions[0]);
      RunKeeps(Next(s, actions[0]), actions[1..]);
    }
  }
}
