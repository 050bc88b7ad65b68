// Runs that show what does not hold: a terminal status may still change while
// an older cancel is in flight, a reader may cache a version that has been
// deleted, and Paid may be told of a row that stays Pending.

module Witnesses {
  import opened Domain
  import opened Gateway
  import opened Tables
  import opened Saga
  import opened SagaInvariant
  import opened SagaFrames
  import opened SagaTheorems
  import opened WholeCalls
  import opened WholeRuns

  /** While others move, call q stays where it is. */
  lemma {:induction false} Waits(s: State, trace: seq<Action>, longer: seq<Action>, ps: set<Pid>, q: Pid, c: Call)
    requires Moved(trace, longer, ps) && Stands(Run(s, trace), q, c)
    requires forall p :: p in ps ==> q != p && q != Server(p)
    ensures Stands(Run(s, longer), q, c)
    decreases |longer|
  {
    if longer == trace {
    } else {
      var n := |longer| - 1;
      var a := longer[n];
      assert longer == longer[..n] + [a];
      Waits(s, trace, longer[..n], ps, q, c);
      RunSnoc(s, longer[..n], a);
      var t := Run(s, longer[..n]);
      hide Run, Advance;
      if a.p in t.calls {
        FrameMove(t, a.p, a.e);
      }
    }
  }

  /** Another call begins. */
  lemma Begin(s: State, trace: seq<Action>, m: Stores, c: Call, p: Pid, cp: Call) returns (longer: seq<Action>, q: Pid)
    requires Shows(Run(s, trace), m) && Opening(c) && Stands(Run(s, trace), p, cp) && Inv(Run(s, trace))
    ensures longer == trace + [Start(c)] && q.Client? && q != p
    ensures Shows(Run(s, longer), m) && Stands(Run(s, longer), q, c) && Stands(Run(s, longer), p, cp)
  {
    var t := Run(s, trace);
    assert Born(p) < t.step;
    longer, q := trace + [Start(c)], Client(t.step);
    RunSnoc(s, trace, Start(c));
    hide Run, Inv;
  }

  function Empty(): Stores {
    Stores(map[], map[], map[], [], [], 0)
  }

  /** Every step of the run succeeded and said so. */
  ghost predicate AllAcked(trace: seq<Action>) {
    forall i :: 0 <= i < |trace| && trace[i].Move? ==> trace[i].e.fault.Acked?
  }

  /** The first order ever, inserted and not yet notified. */
  lemma Inserted(req: Request) returns (trace: seq<Action>)
    requires req.amount > 0
    ensures var o := NewOrder(Client(0), req, 0);
            && AllAcked(trace)
            && Shows(Run(Init(), trace), Empty().(orders := map[o.id := o]))
            && Stands(Run(Init(), trace), Client(0), Creating(NotifyNew(o)))
  {
    var p, o := Client(0), NewOrder(Client(0), req, 0);
    trace := [Start(Creating(Lookup(req)))];
    StartStep(Init(), Creating(Lookup(req)));
    assert Shows(Run(Init(), trace), Empty());
    assert OrderFits(Empty().orders, o);
    hide Run, Next, Shows;
    var before := trace;
    trace := Then(Init(), trace, p, Acked);
    LookupStep(Run(Init(), before), p, Empty(), req, Acked);
    before := trace;
    trace := Then(Init(), trace, p, Acked);
    InsertStep(Run(Init(), before), p, Empty(), o, Acked);
    assert map[][o.id := o] == map[o.id := o];
  }

  /** A cancel that has read the Pending row waits while the saga moves. */
  lemma CancelHasRead(req: Request) returns (trace: seq<Action>, q: Pid)
    requires req.amount > 0
    ensures var o := NewOrder(Client(0), req, 0);
            && q.Client? && q != Client(0)
            && Shows(Run(Init(), trace), Empty().(orders := map[o.id := o]))
            && Stands(Run(Init(), trace), Client(0), Creating(NotifyNew(o)))
            && Stands(Run(Init(), trace), q, Cancelling(CancelWrite(o)))
  {
    var p, o := Client(0), NewOrder(Client(0), req, 0);
    var m := Empty().(orders := map[o.id := o]);
    trace := Inserted(req);
    ReachedIsSound(trace);
    hide Run, Next, Shows, Inv;
    trace, q := Begin(Init(), trace, m, Cancelling(CancelRead(o.id)), p, Creating(NotifyNew(o)));
    var before := trace;
    trace := Then(Init(), trace, q, Acked);
    CancelReadStep(Run(Init(), before), q, m, o.id, Acked);
    Waits(Init(), before, trace, {q}, p, Creating(NotifyNew(o)));
  }

  /** An order that was Paid, with its money taken, ends as Cancelled: the
      cancel read it while it was Pending and wrote after the saga. */
  lemma PaidMayBecomeCancelled(req: Request) returns (before: seq<Action>, after: seq<Action>)
    requires 0 < req.amount <= LIMIT
    ensures var id, s, t := Minted(Client(0), 0), Reached(before), Reached(before + after);
            && id in s.db.orders && s.db.orders[id].status.Paid?
            && id in t.db.orders && t.db.orders[id].status.Cancelled?
  {
    var p, o := Client(0), NewOrder(Client(0), req, 0);
    var m0 := Empty().(orders := map[o.id := o]);
    var trace, q := CancelHasRead(req);
    hide Run, Next, Shows, Moved;
    // the saga runs to its update
    before := Then(Init(), trace, p, Acked);
    NotifyStep(Run(Init(), trace), p, m0, o, NotifyNew(o));
    var m1, env := Notified(m0, o), RpcEnv(Acked, PayEnv(Acked, Acked, Acked), Acked);
    var dialled := before;
    before := AuthorizeRun(Init(), before, m1, p, o, env);
    var m2 := AuthorizeWhole(m1, p, o, env).0;
    Pays(m1, p, o, env);
    var ready := before;
    before := Then(Init(), before, p, Acked);
    UpdateStep(Run(Init(), ready), p, m2, o, Paid, false, Acked);
    var m3 := m2.(orders := m2.orders[o.id := o.(status := Paid)]);
    Waits(Init(), trace, dialled, {p}, q, Cancelling(CancelWrite(o)));
    Waits(Init(), dialled, ready, {p, Server(p)}, q, Cancelling(CancelWrite(o)));
    Waits(Init(), ready, before, {p}, q, Cancelling(CancelWrite(o)));
    // and the cancel writes
    var last := Then(Init(), before, q, Acked);
    after := [Move(q, Env(Acked, 0))];
    CancelWriteStep(Run(Init(), before), q, m3, o, Acked);
    Rows(Run(Init(), before), m3);
    Rows(Run(Init(), last), m3.(orders := m3.orders[o.id := m3.orders[o.id].(status := Cancelled)]));
  }

  lemma Pays(m: Stores, p: Pid, o: Order, env: RpcEnv)
    requires 0 < o.amount <= LIMIT && m.payments == map[] && env == RpcEnv(Acked, PayEnv(Acked, Acked, Acked), Acked)
    ensures AuthorizeWhole(m, p, o, env).1 == Ok(Authorized) && AuthorizeWhole(m, p, o, env).0.orders == m.orders
  {
    var payment := NewPayment(Server(p), o.id, o.amount);
    assert PaymentFits(m.payments, payment);
  }

  lemma Rows(s: State, m: Stores)
    requires Shows(s, m)
    ensures s.db.orders == m.orders
    ensures forall id :: id in m.cache ==> id in s.cache && s.cache[id].order == m.cache[id].order
  {
  }

  /** A reader has fetched the Pending row and not yet set it. */
  lemma ReaderHasFetched(req: Request) returns (trace: seq<Action>, r: Pid, readAt: nat)
    requires req.amount > 0
    ensures var o := NewOrder(Client(0), req, 0);
            && AllAcked(trace) && r.Client?
            && Shows(Run(Init(), trace), Empty().(orders := map[o.id := o]))
            && Stands(Run(Init(), trace), r, Getting(Fill(o, readAt)))
  {
    var o := NewOrder(Client(0), req, 0);
    var m := Empty().(orders := map[o.id := o]);
    trace := Inserted(req);
    ReachedIsSound(trace);
    hide Run, Next, Shows, Inv;
    trace, r := Begin(Init(), trace, m, Getting(ReadCache(o.id)), Client(0), Creating(NotifyNew(o)));
    var before := trace;
    trace := Then(Init(), trace, r, Acked);
    ReadCacheStep(Run(Init(), before), r, m, o.id, Acked);
    before := trace;
    trace := Then(Init(), trace, r, Acked);
    readAt := Run(Init(), before).step;
    ReadTableStep(Run(Init(), before), r, m, o.id, Acked);
  }

  /** ... and a cancel, begun afterwards, has read, written and deleted. */
  lemma CancelOvertakes(req: Request) returns (trace: seq<Action>, r: Pid, readAt: nat)
    requires req.amount > 0
    ensures var o := NewOrder(Client(0), req, 0);
            && AllAcked(trace)
            && Shows(Run(Init(), trace), Empty().(orders := map[o.id := o.(status := Cancelled)]))
            && Stands(Run(Init(), trace), r, Getting(Fill(o, readAt)))
  {
    var o := NewOrder(Client(0), req, 0);
    var m := Empty().(orders := map[o.id := o]);
    trace, r, readAt := ReaderHasFetched(req);
    var reader, q := Getting(Fill(o, readAt)), r;
    ReachedIsSound(trace);
    hide Run, Next, Shows, Inv;
    trace, q := Begin(Init(), trace, m, Cancelling(CancelRead(o.id)), r, reader);
    trace := Overtake(trace, m, o, q, r, reader);
  }

  lemma Overtake(trace: seq<Action>, m: Stores, o: Order, q: Pid, r: Pid, reader: Call) returns (longer: seq<Action>)
    requires AllAcked(trace) && m.orders == map[o.id := o] && m.cache == map[] && o.status.Pending?
    requires Shows(Run(Init(), trace), m) && q.Client? && r.Client? && q != r
    requires Stands(Run(Init(), trace), q, Cancelling(CancelRead(o.id))) && Stands(Run(Init(), trace), r, reader)
    ensures AllAcked(longer) && Shows(Run(Init(), longer), m.(orders := map[o.id := o.(status := Cancelled)]))
    ensures Stands(Run(Init(), longer), r, reader)
  {
    hide Run, Next, Shows;
    var s1 := Then(Init(), trace, q, Acked);
    CancelReadStep(Run(Init(), trace), q, m, o.id, Acked);
    var s2 := Then(Init(), s1, q, Acked);
    CancelWriteStep(Run(Init(), s1), q, m, o, Acked);
    var m1 := m.(orders := map[o.id := o.(status := Cancelled)]);
    assert m.orders[o.id := o.(status := Cancelled)] == m1.orders;
    longer := Then(Init(), s2, q, Acked);
    CancelEvictStep(Run(Init(), s2), q, m1, o, Acked);
    assert m1.cache - {o.id} == map[] && m1.(cache := map[]) == m1;
    Waits(Init(), trace, longer, {q}, r, reader);
  }

  /** The entry of a Cancelled order reads Pending though no operation failed: the
      reader fetched the row before the cancel's write and set it after the deletion. */
  lemma ADeletedVersionComesBack(req: Request, ttl: nat) returns (trace: seq<Action>)
    requires req.amount > 0
    ensures var id, s := Minted(Client(0), 0), Reached(trace);
            && AllAcked(trace)
            && id in s.cache && s.cache[id].order.status.Pending?
            && id in s.db.orders && s.db.orders[id].status.Cancelled?
  {
    var o, e := NewOrder(Client(0), req, 0), Saga.Env(Acked, ttl);
    var m := Empty().(orders := map[o.id := o.(status := Cancelled)]);
    var before, r, readAt := CancelOvertakes(req);
    hide Run, Next, Shows;
    trace := before + [Move(r, e)];
    RunSnoc(Init(), before, Move(r, e));
    FillStep(Run(Init(), before), r, m, o, readAt, e);
    Rows(Run(Init(), trace), m.(cache := m.cache[o.id := Cached(o, m.now + ttl)]));
  }

  /** The status update is lost, and its error ignored: CreateOrder answers and
      notifies Paid, and the row stays Pending. */
  lemma PaidIsToldOfAPendingRow(req: Request) returns (trace: seq<Action>)
    requires 0 < req.amount <= 100000
    ensures var id, s := Minted(Client(0), 0), Reached(trace);
            && id in s.db.orders && s.db.orders[id].status.Pending?
            && Client(0) in s.calls && s.calls[Client(0)] == Creating(Finished(s.db.orders[id].(status := Paid)))
            && s.db.orders[id].(status := Paid) in s.notices
  {
    var p, o, rpc := Client(0), NewOrder(Client(0), req, 0), RpcEnv(Acked, PayEnv(Acked, Acked, Acked), Acked);
    var env := CreateEnv(Acked, Acked, rpc, WriteEnv(Lost, Acked));
    trace := CreateIsARun(Init(), Empty(), req, env);
    var m := Notified(Empty().(orders := map[o.id := o]), o);
    Pays(m, p, o, rpc);
    assert OrderFits(Empty().orders, o);
    var (m1, r) := CreateWhole(Empty(), p, req, env);
    assert r == Created(o.(status := Paid)) && m1.orders == map[o.id := o];
    assert m1.notices[|m1.notices| - 1] == o.(status := Paid);
    hide Run, CreateWhole;
    Rows(Reached(trace), m1);
  }
}
