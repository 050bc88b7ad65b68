// A whole call is a run of the transition system in which only that call (and
// the rpc it makes) moves: the same stores and the same answer.

module WholeRuns {
  import opened Domain
  import opened Gateway
  import opened Tables
  import opened Saga
  import opened WholeCalls

  ghost predicate Shows(s: State, m: Stores) {
    && s.db == Db(m.orders, m.payments) && s.queue == m.queue && s.notices == m.notices && s.clock == m.now
    && CacheShows(s.cache, m.cache)
  }

  ghost predicate CacheShows(c: map<Uuid, Entry>, d: map<Uuid, Cached>) {
    c.Keys == d.Keys && forall id :: id in d ==> Cached(c[id].order, c[id].expires) == d[id]
  }

  ghost predicate Stands(s: State, p: Pid, c: Call) {
    p in s.calls && s.calls[p] == c
  }

  /** Call p has moved from s to t; the other calls and the replies have not. */
  ghost predicate OnlyMoved(s: State, t: State, p: Pid) {
    t.calls.Keys == s.calls.Keys + {p} && forall q :: q in s.calls && q != p ==> t.calls[q] == s.calls[q]
  }

  lemma {:induction false} RunSnoc(s: State, actions: seq<Action>, a: Action)
    ensures Run(s, actions + [a]) == Next(Run(s, actions), a)
    decreases |actions|
  {
    hide Next;
    if actions == [] {
      assert ([] + [a])[1..] == [];
    } else {
      assert (actions + [a])[1..] == actions[1..] + [a];
      RunSnoc(Next(s, actions[0]), actions[1..], a);
    }
  }

  /** The longer trace goes on with moves of the calls ps only. */
  ghost predicate Moved(trace: seq<Action>, longer: seq<Action>, ps: set<Pid>) {
    trace <= longer && forall i :: |trace| <= i < |longer| ==> longer[i].Move? && longer[i].p in ps
  }

  lemma Then(s: State, trace: seq<Action>, p: Pid, f: Fault) returns (longer: seq<Action>)
    ensures Moved(trace, longer, {p}) && longer == trace + [Move(p, Env(f, 0))]
    ensures Run(s, longer) == Next(Run(s, trace), Move(p, Env(f, 0)))
  {
    longer := trace + [Move(p, Env(f, 0))];
    RunSnoc(s, trace, Move(p, Env(f, 0)));
  }

  // ----- ProcessPayment -----

  lemma PayStep(s: State, q: Pid, y: PayAt, f: Fault)
    requires Stands(s, q, Paying(y)) && !y.PayDone?
    ensures var t := Next(s, Move(q, Env(f, 0)));
            && t == AdvancePay(s, q, y, Env(f, 0)).(step := s.step + 1)
            && OnlyMoved(s, t, q) && t.replies == s.replies
  {
  }

  lemma PayRun(s: State, trace: seq<Action>, m: Stores, q: Pid, job: Job, env: PayEnv) returns (longer: seq<Action>)
    requires Shows(Run(s, trace), m) && Stands(Run(s, trace), q, Paying(PayLookup(job)))
    ensures var t, (m1, paid) := Run(s, longer), PayWhole(m, q, job, env);
            && Shows(t, m1) && Stands(t, q, Paying(PayDone(job, paid)))
            && OnlyMoved(Run(s, trace), t, q) && t.replies == Run(s, trace).replies
    ensures Moved(trace, longer, {q})
  {
    hide Run, Next, HasPayment, InsertPayment, NewPayment, PaymentFits;
    longer := Then(s, trace, q, env.lookup);
    PayStep(Run(s, trace), q, PayLookup(job), env.lookup);
    if job.amount > 0 && !(env.lookup.Acked? && HasPayment(m.payments, job.orderId)) {
      var payment := NewPayment(q, job.orderId, job.amount);
      var s1 := Run(s, longer);
      longer := Then(s, longer, q, env.insert);
      PayStep(s1, q, PayInsert(job, payment), env.insert);
      if InsertPayment(m.payments, payment, env.insert).1 {
        var s2 := Run(s, longer);
        longer := Then(s, longer, q, env.publish);
        PayStep(s2, q, Publish(job, payment), env.publish);
      }
    }
  }

  // ----- AuthorizePayment -----

  lemma CreateStep(s: State, p: Pid, c: CreateAt, f: Fault)
    requires Stands(s, p, Creating(c))
    ensures Next(s, Move(p, Env(f, 0))) == Tick(AdvanceCreate(s, p, c, Env(f, 0)))
  {
    hide AdvanceCreate;
  }

  lemma ReplyStep(s: State, q: Pid, job: Job, paid: Option<Payment>)
    requires Stands(s, q, Paying(PayDone(job, paid))) && job.grpc
    ensures var t := Next(s, Move(q, Env(Acked, 0)));
            t == s.(step := s.step + 1, replies := s.replies[job.orderId := HandlerReply(paid)],
                    calls := s.calls[q := Paying(Replied(job))])
  {
  }

  /** Where the saga stands once the client has answered it. */
  function AfterRpc(o: Order, verdict: Result<PaymentStatus>): Call {
    match verdict
    case Err => Creating(Update(o, Failed, true))
    case Ok(v) => Creating(Update(o, StatusFor(v), false))
  }

  lemma DialStep(s: State, p: Pid, m: Stores, o: Order, f: Fault)
    requires Shows(s, m) && Stands(s, p, Creating(Dial(o)))
    ensures var t := Next(s, Move(p, Env(f, 0)));
            && Shows(t, m)
            && (f.Lost? ==> Stands(t, p, Creating(Update(o, Failed, true))))
            && (!f.Lost? ==> Stands(t, Server(p), Paying(PayLookup(Job(o.id, o.amount, true)))) && Stands(t, p, Creating(Await(o))))
  {
    Older(p);
    CreateStep(s, p, Dial(o), f);
    hide Next, Blame;
  }

  lemma AwaitStep(s: State, p: Pid, m: Stores, o: Order, f: Fault)
    requires Shows(s, m) && Stands(s, p, Creating(Await(o))) && o.id in s.replies
    ensures var t := Next(s, Move(p, Env(f, 0)));
            Shows(t, m) && Stands(t, p, AfterRpc(o, if f.Acked? then AuthorizePayment(s.replies[o.id]) else Err))
  {
    CreateStep(s, p, Await(o), f);
    hide Next, Blame;
  }

  lemma AuthorizeRun(s: State, trace: seq<Action>, m: Stores, p: Pid, o: Order, env: RpcEnv) returns (longer: seq<Action>)
    requires Shows(Run(s, trace), m) && Stands(Run(s, trace), p, Creating(Dial(o)))
    ensures var t, (m1, verdict) := Run(s, longer), AuthorizeWhole(m, p, o, env);
            Shows(t, m1) && Stands(t, p, AfterRpc(o, verdict))
    ensures Moved(trace, longer, {p, Server(p)})
  {
    hide Run, Next, PayWhole;
    longer := Then(s, trace, p, env.dial);
    DialStep(Run(s, trace), p, m, o, env.dial);
    if !env.dial.Lost? {
      var q, job := Server(p), Job(o.id, o.amount, true);
      Older(p);
      longer := PayRun(s, longer, m, q, job, env.pay);
      var (m1, paid) := PayWhole(m, q, job, env.pay);
      var before := longer;
      longer := Then(s, longer, q, Acked);
      ReplyStep(Run(s, before), q, job, paid);
      assert Shows(Run(s, longer), m1);
      before := longer;
      longer := Then(s, longer, p, env.reply);
      AwaitStep(Run(s, before), p, m1, o, env.reply);
    }
  }

  function Depth(p: Pid): nat {
    match p case Client(_) => 0 case Server(of) => Depth(of) + 1
  }

  lemma Older(p: Pid)
    ensures p != Server(p)
  {
    assert Depth(p) < Depth(Server(p));
  }

  // ----- UpdateStatus and the deletion -----

  lemma UpdateStep(s: State, p: Pid, m: Stores, o: Order, st: OrderStatus, failed: bool, f: Fault)
    requires Shows(s, m) && Stands(s, p, Creating(Update(o, st, failed)))
    ensures var t, (orders, ok) := Next(s, Move(p, Env(f, 0))), SetStatus(m.orders, o.id, st, f);
            && Shows(t, m.(orders := orders))
            && Stands(t, p, Creating(if ok then Evict(o, st, failed) else AfterWrite(o, st, failed)))
  {
    CreateStep(s, p, Update(o, st, failed), f);
    hide Next, Blame, Record;
  }

  lemma EvictStep(s: State, p: Pid, m: Stores, o: Order, st: OrderStatus, failed: bool, f: Fault)
    requires Shows(s, m) && Stands(s, p, Creating(Evict(o, st, failed)))
    ensures var t := Next(s, Move(p, Env(f, 0)));
            && Shows(t, if f.Lost? then m else m.(cache := m.cache - {o.id}))
            && Stands(t, p, Creating(AfterWrite(o, st, failed)))
  {
    CreateStep(s, p, Evict(o, st, failed), f);
    hide Next, Tag;
  }

  lemma SettleRun(s: State, trace: seq<Action>, m: Stores, p: Pid, o: Order, st: OrderStatus, failed: bool, env: WriteEnv)
    returns (longer: seq<Action>)
    requires Shows(Run(s, trace), m) && Stands(Run(s, trace), p, Creating(Update(o, st, failed)))
    ensures Shows(Run(s, longer), WriteWhole(m, o.id, st, env).0)
    ensures Stands(Run(s, longer), p, Creating(AfterWrite(o, st, failed)))
    ensures Moved(trace, longer, {p, Server(p)})
  {
    hide Run, Next, Shows;
    longer := Then(s, trace, p, env.update);
    UpdateStep(Run(s, trace), p, m, o, st, failed, env.update);
    var (orders, ok) := SetStatus(m.orders, o.id, st, env.update);
    if ok {
      var before := longer;
      longer := Then(s, longer, p, env.delete);
      EvictStep(Run(s, before), p, m.(orders := orders), o, st, failed, env.delete);
    }
  }

  // ----- CreateOrder -----

  /** The answer on record for a result. */
  ghost predicate Answers(c: Call, req: Request, r: CreateResult) {
    match r
    case Replay(o) => c == Creating(Replayed(req, o))
    case InsertError => c.Creating? && c.c.Rejected?
    case PaymentUnavailable => c.Creating? && c.c.Broken?
    case Created(o) => c == Creating(Finished(o))
  }

  lemma NotifyStep(s: State, p: Pid, m: Stores, o: Order, c: CreateAt)
    requires Shows(s, m) && Stands(s, p, Creating(c)) && (c == NotifyNew(o) || c == NotifyEnd(o))
    ensures var t := Next(s, Move(p, Env(Acked, 0)));
            && Shows(t, Notified(m, o))
            && Stands(t, p, Creating(if c.NotifyNew? then Dial(o) else Finished(o)))
  {
    CreateStep(s, p, c, Acked);
    hide Next;
  }

  lemma PayForRun(s: State, trace: seq<Action>, m: Stores, p: Pid, req: Request, o: Order, env: CreateEnv)
    returns (longer: seq<Action>)
    requires Shows(Run(s, trace), m) && Stands(Run(s, trace), p, Creating(Dial(o)))
    ensures var t, (m1, r) := Run(s, longer), PayForWhole(m, p, o, env);
            Shows(t, m1) && p in t.calls && Answers(t.calls[p], req, r)
    ensures Moved(trace, longer, {p, Server(p)})
  {
    hide Run, Next, AuthorizeWhole, WriteWhole, Shows;
    longer := AuthorizeRun(s, trace, m, p, o, env.rpc);
    var (m1, verdict) := AuthorizeWhole(m, p, o, env.rpc);
    match verdict {
      case Err =>
        longer := SettleRun(s, longer, m1, p, o, Failed, true, env.write);
      case Ok(v) =>
        var done := o.(status := StatusFor(v));
        longer := SettleRun(s, longer, m1, p, o, done.status, false, env.write);
        var s2 := Run(s, longer);
        longer := Then(s, longer, p, Acked);
        NotifyStep(s2, p, WriteWhole(m1, o.id, done.status, env.write).0, done, NotifyEnd(done));
    }
  }

  lemma StartStep(s: State, c: Call)
    requires Opening(c)
    ensures Run(s, [Start(c)]) == s.(step := s.step + 1, calls := s.calls[Client(s.step) := c])
  {
    assert [Start(c)][1..] == [];
  }

  lemma LookupStep(s: State, p: Pid, m: Stores, req: Request, f: Fault)
    requires Shows(s, m) && Stands(s, p, Creating(Lookup(req)))
    ensures var t, found := Next(s, Move(p, Env(f, 0))), if f.Acked? then ByKey(m.orders, req.key) else None;
            && Shows(t, m)
            && Stands(t, p, Creating(if found.Some? then Replayed(req, found.value) else Insert(NewOrder(p, req, m.now))))
  {
    CreateStep(s, p, Lookup(req), f);
    hide Next, ByKey;
  }

  lemma InsertStep(s: State, p: Pid, m: Stores, o: Order, f: Fault)
    requires Shows(s, m) && Stands(s, p, Creating(Insert(o)))
    ensures var t, (orders, ok) := Next(s, Move(p, Env(f, 0))), InsertOrder(m.orders, o, f);
            Shows(t, m.(orders := orders)) && Stands(t, p, Creating(if ok then NotifyNew(o) else Rejected(o)))
  {
    CreateStep(s, p, Insert(o), f);
    hide Next, OrderFits, Record, Blame;
  }

  /** A saga that has not inserted its order yet, to its end. */
  lemma InsertRun(s: State, trace: seq<Action>, m: Stores, p: Pid, req: Request, o: Order, env: CreateEnv)
    returns (longer: seq<Action>)
    requires Shows(Run(s, trace), m) && Stands(Run(s, trace), p, Creating(Insert(o)))
    ensures var t, (m1, r) := Run(s, longer), InsertWhole(m, p, o, env);
            Shows(t, m1) && p in t.calls && Answers(t.calls[p], req, r)
    ensures Moved(trace, longer, {p, Server(p)})
  {
    hide Run, Next, PayForWhole, InsertOrder, Shows;
    longer := Then(s, trace, p, env.insert);
    InsertStep(Run(s, trace), p, m, o, env.insert);
    var (orders, ok) := InsertOrder(m.orders, o, env.insert);
    if ok {
      var m1, before := m.(orders := orders), longer;
      longer := Then(s, longer, p, Acked);
      NotifyStep(Run(s, before), p, m1, o, NotifyNew(o));
      longer := PayForRun(s, longer, Notified(m1, o), p, req, o, env);
    }
  }

  /** CreateOrder alone. */
  lemma CreateIsARun(s: State, m: Stores, req: Request, env: CreateEnv) returns (trace: seq<Action>)
    requires Shows(s, m)
    ensures var t, p := Run(s, trace), Client(s.step);
            var (m1, r) := CreateWhole(m, p, req, env);
            Shows(t, m1) && p in t.calls && Answers(t.calls[p], req, r)
    ensures Moved([Start(Creating(Lookup(req)))], trace, {Client(s.step), Server(Client(s.step))})
  {
    var p := Client(s.step);
    trace := [Start(Creating(Lookup(req)))];
    StartStep(s, Creating(Lookup(req)));
    assert Shows(Run(s, trace), m);
    hide Run, Next, ByKey, InsertWhole, Shows;
    var before := trace;
    trace := Then(s, trace, p, env.lookup);
    LookupStep(Run(s, before), p, m, req, env.lookup);
    if !(env.lookup.Acked? && ByKey(m.orders, req.key).Some?) {
      trace := InsertRun(s, trace, m, p, req, NewOrder(p, req, m.now), env);
    }
  }

  // ----- CancelOrder -----

  lemma CancelStep(s: State, p: Pid, k: CancelAt, f: Fault)
    requires Stands(s, p, Cancelling(k))
    ensures Next(s, Move(p, Env(f, 0))) == Tick(AdvanceCancel(s, p, k, Env(f, 0)))
  {
    hide AdvanceCancel;
  }

  lemma CancelReadStep(s: State, p: Pid, m: Stores, id: Uuid, f: Fault)
    requires Shows(s, m) && Stands(s, p, Cancelling(CancelRead(id)))
    ensures var t := Next(s, Move(p, Env(f, 0)));
            Shows(t, m) && Stands(t, p, Cancelling(CancelVerdict(m.orders, id, Env(f, 0))))
  {
    CancelStep(s, p, CancelRead(id), f);
    hide Next, CancelVerdict;
  }

  lemma CancelWriteStep(s: State, p: Pid, m: Stores, o: Order, f: Fault)
    requires Shows(s, m) && Stands(s, p, Cancelling(CancelWrite(o)))
    ensures var t, (orders, ok) := Next(s, Move(p, Env(f, 0))), SetStatus(m.orders, o.id, Cancelled, f);
            && Shows(t, m.(orders := orders))
            && Stands(t, p, Cancelling(if ok then CancelEvict(o) else CancelFailed(o.id, WriteError)))
  {
    CancelStep(s, p, CancelWrite(o), f);
    hide Next, Blame, Record;
  }

  lemma CancelEvictStep(s: State, p: Pid, m: Stores, o: Order, f: Fault)
    requires Shows(s, m) && Stands(s, p, Cancelling(CancelEvict(o)))
    ensures var t := Next(s, Move(p, Env(f, 0)));
            && Shows(t, if f.Lost? then m else m.(cache := m.cache - {o.id}))
            && Stands(t, p, Cancelling(CancelNotify(o.(status := Cancelled))))
  {
    CancelStep(s, p, CancelEvict(o), f);
    hide Next, Tag;
  }

  lemma CancelNotifyStep(s: State, p: Pid, m: Stores, o: Order)
    requires Shows(s, m) && Stands(s, p, Cancelling(CancelNotify(o)))
    ensures var t := Next(s, Move(p, Env(Acked, 0)));
            Shows(t, Notified(m, o)) && Stands(t, p, Cancelling(CancelDone(o)))
  {
    CancelStep(s, p, CancelNotify(o), Acked);
    hide Next;
  }

  /** A cancel that has read a Pending row, to its end. */
  lemma CancelRun(s: State, trace: seq<Action>, m: Stores, p: Pid, o: Order, env: WriteEnv) returns (longer: seq<Action>)
    requires Shows(Run(s, trace), m) && Stands(Run(s, trace), p, Cancelling(CancelWrite(o)))
    ensures var t, (m1, ok), done := Run(s, longer), WriteWhole(m, o.id, Cancelled, env), o.(status := Cancelled);
            && Shows(t, if ok then Notified(m1, done) else m1)
            && Stands(t, p, Cancelling(if ok then CancelDone(done) else CancelFailed(o.id, WriteError)))
    ensures Moved(trace, longer, {p})
  {
    hide Run, Next, Shows;
    longer := Then(s, trace, p, env.update);
    CancelWriteStep(Run(s, trace), p, m, o, env.update);
    var (orders, ok) := SetStatus(m.orders, o.id, Cancelled, env.update);
    if ok {
      var m1, before := m.(orders := orders), longer;
      longer := Then(s, longer, p, env.delete);
      CancelEvictStep(Run(s, before), p, m1, o, env.delete);
      before := longer;
      longer := Then(s, longer, p, Acked);
      CancelNotifyStep(Run(s, before), p, WriteWhole(m, o.id, Cancelled, env).0, o.(status := Cancelled));
    }
  }

  /** CancelOrder alone. */
  lemma CancelIsARun(s: State, m: Stores, id: Uuid, env: CancelEnv) returns (trace: seq<Action>)
    requires Shows(s, m) && forall i :: i in m.orders ==> m.orders[i].id == i
    ensures var t, p := Run(s, trace), Client(s.step);
            var (m1, err) := CancelWhole(m, id, env);
            && Shows(t, m1) && p in t.calls
            && if err.Some? then t.calls[p] == Cancelling(CancelFailed(id, err.value))
               else id in m.orders && t.calls[p] == Cancelling(CancelDone(m.orders[id].(status := Cancelled)))
    ensures Moved([Start(Cancelling(CancelRead(id)))], trace, {Client(s.step)})
  {
    var p := Client(s.step);
    trace := [Start(Cancelling(CancelRead(id)))];
    StartStep(s, Cancelling(CancelRead(id)));
    assert Shows(Run(s, trace), m);
    hide Run, Next, Shows, WriteWhole;
    var before := trace;
    trace := Then(s, trace, p, env.read);
    CancelReadStep(Run(s, before), p, m, id, env.read);
    if env.read.Acked? && id in m.orders && m.orders[id].status.Pending? {
      trace := CancelRun(s, trace, m, p, m.orders[id], env.write);
    }
  }

  // ----- GetOrder -----

  lemma GetStep(s: State, p: Pid, g: GetAt, e: Saga.Env)
    requires Stands(s, p, Getting(g))
    ensures Next(s, Move(p, e)) == Tick(AdvanceGet(s, p, g, e))
  {
    hide AdvanceGet;
  }

  lemma ReadCacheStep(s: State, p: Pid, m: Stores, id: Uuid, f: Fault)
    requires Shows(s, m) && Stands(s, p, Getting(ReadCache(id)))
    ensures var t, hit := Next(s, Move(p, Env(f, 0))), f.Acked? && id in m.cache && m.now < m.cache[id].expires;
            Shows(t, m) && Stands(t, p, Getting(if hit then Got(id, Some(m.cache[id].order)) else ReadTable(id)))
  {
    GetStep(s, p, ReadCache(id), Env(f, 0));
    hide Next;
  }

  lemma ReadTableStep(s: State, p: Pid, m: Stores, id: Uuid, f: Fault)
    requires Shows(s, m) && Stands(s, p, Getting(ReadTable(id)))
    ensures var t, found := Next(s, Move(p, Env(f, 0))), f.Acked? && id in m.orders;
            Shows(t, m) && Stands(t, p, Getting(if found then Fill(m.orders[id], s.step) else Got(id, None)))
  {
    GetStep(s, p, ReadTable(id), Env(f, 0));
    hide Next;
  }

  lemma FillStep(s: State, p: Pid, m: Stores, o: Order, readAt: nat, e: Saga.Env)
    requires Shows(s, m) && Stands(s, p, Getting(Fill(o, readAt)))
    ensures var t := Next(s, Move(p, e));
            && Shows(t, if e.fault.Lost? then m else m.(cache := m.cache[o.id := Cached(o, m.now + e.ttl)]))
            && Stands(t, p, Getting(Got(o.id, Some(o))))
  {
    GetStep(s, p, Fill(o, readAt), e);
    hide Next;
  }

  /** A read that missed the cache, to its end. */
  lemma MissRun(s: State, trace: seq<Action>, m: Stores, p: Pid, id: Uuid, env: GetEnv) returns (longer: seq<Action>)
    requires Shows(Run(s, trace), m) && Stands(Run(s, trace), p, Getting(ReadTable(id)))
    requires id in m.orders ==> m.orders[id].id == id
    ensures var t, (m1, answer) := Run(s, longer), GetMiss(m, id, env);
            Shows(t, m1) && Stands(t, p, Getting(Got(id, answer)))
    ensures Moved(trace, longer, {p})
  {
    hide Run, Next, Shows;
    longer := Then(s, trace, p, env.read);
    ReadTableStep(Run(s, trace), p, m, id, env.read);
    if env.read.Acked? && id in m.orders {
      var e, before := Saga.Env(env.fill, env.ttl), longer;
      longer := longer + [Move(p, e)];
      RunSnoc(s, before, Move(p, e));
      FillStep(Run(s, before), p, m, m.orders[id], Run(s, trace).step, e);
    }
  }

  /** GetOrder alone. */
  lemma GetIsARun(s: State, m: Stores, id: Uuid, env: GetEnv) returns (trace: seq<Action>)
    requires Shows(s, m) && forall i :: i in m.orders ==> m.orders[i].id == i
    ensures var t, p := Run(s, trace), Client(s.step);
            var (m1, answer) := GetWhole(m, id, env);
            Shows(t, m1) && Stands(t, p, Getting(Got(id, answer)))
    ensures Moved([Start(Getting(ReadCache(id)))], trace, {Client(s.step)})
  {
    var p := Client(s.step);
    trace := [Start(Getting(ReadCache(id)))];
    StartStep(s, Getting(ReadCache(id)));
    assert Shows(Run(s, trace), m);
    hide Run, Next, Shows, GetMiss;
    var before := trace;
    trace := Then(s, trace, p, env.cache);
    ReadCacheStep(Run(s, before), p, m, id, env.cache);
    if !(env.cache.Acked? && id in m.cache && m.now < m.cache[id].expires) {
      trace := MissRun(s, trace, m, p, id, env);
    }
  }
}
