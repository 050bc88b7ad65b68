// Who has told what: the notifications of a saga and of a cancel, in every run.

module Notices {
  import opened Domain
  import opened Gateway
  import opened Tables
  import opened Saga
  import opened SagaInvariant
  import opened SagaFrames
  import opened SagaTheorems
  import Staleness

  /** The notifications for order `id`, other than those of cancels. */
  function About(notices: seq<Order>, id: Uuid): seq<Order> {
    if notices == [] then [] else
      var n := |notices| - 1;
      About(notices[..n], id) + if notices[n].id == id && !notices[n].status.Cancelled? then [notices[n]] else []
  }

  lemma AboutSnoc(notices: seq<Order>, o: Order, id: Uuid)
    ensures About(notices + [o], id) == About(notices, id) + if o.id == id && !o.status.Cancelled? then [o] else []
  {
    assert (notices + [o])[..|notices|] == notices;
  }

  lemma {:induction false} AboutNobody(notices: seq<Order>, id: Uuid)
    requires forall i :: 0 <= i < |notices| ==> notices[i].id != id
    ensures About(notices, id) == []
  {
    if notices != [] {
      AboutNobody(notices[..|notices| - 1], id);
    }
  }

  /** What a saga that stands here has told. */
  ghost predicate HasTold(told: seq<Order>, c: CreateAt) {
    match c
    case Dial(o) => told == [o] && o.status.Pending?
    case Await(o) => told == [o] && o.status.Pending?
    case Update(o, _, _) => told == [o] && o.status.Pending?
    case Evict(o, _, _) => told == [o] && o.status.Pending?
    case NotifyEnd(o) => told == [o.(status := Pending)]
    case Broken(o) => told == [o] && o.status.Pending?
    case Finished(o) => told == [o.(status := Pending), o]
    case _ => told == []
  }

  ghost predicate Told(s: State, p: Pid)
    requires p in s.calls
  {
    && (s.calls[p].Creating? ==> HasTold(About(s.notices, Minted(p, 0)), s.calls[p].c))
    && (s.calls[p].Cancelling? && s.calls[p].k.CancelDone? ==> s.calls[p].k.order in s.notices)
  }

  ghost predicate AllTold(s: State) {
    forall p :: p in s.calls ==> Told(s, p)
  }

  // ----- one step -----

  /** What a step of call c tells. */
  function Tells(c: Call): seq<Order> {
    match c
    case Creating(NotifyNew(o)) => [o]
    case Creating(NotifyEnd(o)) => [o]
    case Cancelling(CancelNotify(o)) => [o]
    case _ => []
  }

  lemma StepTells(s: State, p: Pid, e: Env)
    requires p in s.calls
    ensures Advance(s, p, s.calls[p], e).notices == s.notices + Tells(s.calls[p])
  {
    hide ByKey, HasPayment, PaymentFits, InsertPayment, OrderFits, InsertOrder, SetStatus, Record, Tag, Blame;
  }

  /** A notification of another call is about another order, or of a cancel. */
  lemma TellsOthers(s: State, p: Pid, q: Pid)
    requires Inv(s) && p in s.calls && p != q
    ensures About(s.notices + Tells(s.calls[p]), Minted(q, 0)) == About(s.notices, Minted(q, 0))
  {
    CallFacts(s, p);
    if Tells(s.calls[p]) == [] {
      assert s.notices + [] == s.notices;
    } else {
      AboutSnoc(s.notices, Tells(s.calls[p])[0], Minted(q, 0));
    }
    hide Inv, About, OrdersOk, PaymentsOk, NoticesOk;
  }

  lemma OthersStayTold(s: State, p: Pid, e: Env, q: Pid)
    requires Inv(s) && AllTold(s) && p in s.calls && q != p && q in Advance(s, p, s.calls[p], e).calls
    ensures Told(Advance(s, p, s.calls[p], e), q)
  {
    FrameMove(s, p, e);
    StepTells(s, p, e);
    TellsOthers(s, p, q);
    assert q in s.calls ==> Told(s, q);
    hide Inv, Advance, About, Tells;
  }

  /** Where a saga can stand after it stood at c. */
  predicate Follows(c: CreateAt, d: CreateAt) {
    match c
    case Lookup(_) => d.Insert? || d.Replayed?
    case Insert(o) => d == NotifyNew(o) || d == Rejected(o)
    case NotifyNew(o) => d == Dial(o)
    case Dial(o) => d == Await(o) || (d.Update? && d.order == o)
    case Await(o) => d == c || (d.Update? && d.order == o)
    case Update(o, t, failed) => d == Evict(o, t, failed) || d == AfterWrite(o, t, failed)
    case Evict(o, t, failed) => d == AfterWrite(o, t, failed)
    case NotifyEnd(o) => d == Finished(o)
    case _ => d == c
  }

  lemma GoesOn(s: State, p: Pid, c: CreateAt, e: Env)
    requires p in s.calls && s.calls[p] == Creating(c)
    ensures var t := AdvanceCreate(s, p, c, e);
            p in t.calls && t.calls[p].Creating? && Follows(c, t.calls[p].c)
  {
    hide ByKey, InsertOrder, SetStatus, Record, Blame, Tag, OrderFits, AfterWrite;
  }

  lemma TellsNext(told: seq<Order>, c: CreateAt, d: CreateAt, id: Uuid)
    requires HasTold(told, c) && Follows(c, d)
    requires c.NotifyNew? ==> c.order.id == id && c.order.status.Pending?
    requires c.NotifyEnd? ==> c.order.id == id && !c.order.status.Cancelled?
    ensures HasTold(told + Tells(Creating(c)), d)
  {
    assert told + [] == told;
  }

  lemma SagaTells(s: State, p: Pid, c: CreateAt)
    requires Inv(s) && p in s.calls && s.calls[p] == Creating(c)
    ensures c.NotifyNew? ==> c.order.id == Minted(p, 0) && c.order.status.Pending?
    ensures c.NotifyEnd? ==> c.order.id == Minted(p, 0) && !c.order.status.Cancelled?
    ensures About(s.notices + Tells(Creating(c)), Minted(p, 0)) == About(s.notices, Minted(p, 0)) + Tells(Creating(c))
  {
    CallFacts(s, p);
    if c.NotifyNew? || c.NotifyEnd? {
      AboutSnoc(s.notices, c.order, Minted(p, 0));
    } else {
      assert s.notices + [] == s.notices;
    }
    hide Inv, About, OrdersOk, PaymentsOk, NoticesOk;
  }

  lemma SagaMoves(s: State, p: Pid, c: CreateAt, e: Env)
    requires Inv(s) && p in s.calls && s.calls[p] == Creating(c) && Told(s, p)
    ensures var t := Advance(s, p, s.calls[p], e); p in t.calls && Told(t, p)
  {
    var t := AdvanceCreate(s, p, c, e);
    var told := About(s.notices, Minted(p, 0));
    assert Advance(s, p, s.calls[p], e) == t && HasTold(told, c);
    hide AdvanceCreate, Advance, About, HasTold, Inv, Follows, Tells;
    StepTells(s, p, e);
    GoesOn(s, p, c, e);
    SagaTells(s, p, c);
    TellsNext(told, c, t.calls[p].c, Minted(p, 0));
  }

  lemma CancelMoves(s: State, p: Pid, k: CancelAt, e: Env)
    requires p in s.calls && s.calls[p] == Cancelling(k) && Told(s, p)
    ensures var t := Advance(s, p, s.calls[p], e); p in t.calls && Told(t, p)
  {
    hide SetStatus, Record, Blame, Tag, About, CancelVerdict;
    if k.CancelNotify? {
      assert (s.notices + [k.order])[|s.notices|] == k.order;
    } else if k.CancelRead? {
      assert !CancelVerdict(s.db.orders, k.id, e).CancelDone? by { VerdictIsNotDone(s.db.orders, k.id, e); }
    }
  }

  lemma VerdictIsNotDone(orders: Orders, id: Uuid, e: Env)
    ensures !CancelVerdict(orders, id, e).CancelDone?
  {
  }

  /** GetOrder and ProcessPayment calls stay what they are. */
  lemma OtherCalls(s: State, p: Pid, e: Env)
    requires p in s.calls && (s.calls[p].Getting? || s.calls[p].Paying?)
    ensures var t := Advance(s, p, s.calls[p], e);
            p in t.calls && (t.calls[p].Getting? || t.calls[p].Paying?)
  {
    hide HasPayment, InsertPayment, PaymentFits, HandlerReply, EventOf, NewPayment;
  }

  lemma MoverTold(s: State, p: Pid, e: Env)
    requires Inv(s) && p in s.calls && Told(s, p)
    ensures var t := Advance(s, p, s.calls[p], e); p in t.calls && Told(t, p)
  {
    match s.calls[p] {
      case Creating(c) =>
        hide *;
        SagaMoves(s, p, c, e);
      case Cancelling(k) =>
        hide *;
        CancelMoves(s, p, k, e);
      case _ =>
        OtherCalls(s, p, e);
        hide Advance, Inv, About, HasTold;
    }
  }

  lemma MoveTold(s: State, p: Pid, e: Env)
    requires Inv(s) && AllTold(s) && p in s.calls
    ensures AllTold(Next(s, Move(p, e)))
  {
    var t := Advance(s, p, s.calls[p], e);
    forall q | q in t.calls ensures Told(t, q) {
      hide Advance, Told, Inv;
      if q == p {
        MoverTold(s, p, e);
      } else {
        OthersStayTold(s, p, e, q);
      }
    }
    assert Next(s, Move(p, e)) == Tick(t);
    hide Advance, About, HasTold, Inv, Next;
  }

  lemma StartTold(s: State, c: Call)
    requires Inv(s) && AllTold(s)
    ensures AllTold(Next(s, Start(c)))
  {
    assert BirthsOk(s) && NoticesOk(s.db, s.notices);
    forall i | 0 <= i < |s.notices| ensures s.notices[i].id != Minted(Client(s.step), 0) {
      assert Row(s.db, s.notices[i]);
    }
    AboutNobody(s.notices, Minted(Client(s.step), 0));
    var t := Next(s, Start(c));
    hide Inv, About;
    forall q | q in t.calls ensures Told(t, q) {
      if q in s.calls && q != Client(s.step) {
        assert Told(s, q);
      }
    }
  }

  lemma StepTold(s: State, a: Action)
    requires Inv(s) && AllTold(s)
    ensures AllTold(Next(s, a))
  {
    match a {
      case Start(c) => StartTold(s, c);
      case Move(p, e) =>
        if p in s.calls {
          MoveTold(s, p, e);
        }
        hide Advance, About, HasTold, Inv;
      case _ =>
        hide Inv, About, HasTold, TrailOfDeath;
        forall q | q in Next(s, a).calls ensures Told(Next(s, a), q) {
          assert Told(s, q);
        }
    }
  }

  lemma {:induction false} RunTold(s: State, actions: seq<Action>)
    requires Inv(s) && AllTold(s)
    ensures AllTold(Run(s, actions))
    decreases |actions|
  {
    if actions != [] {
      StepTold(s, actions[0]);
      StepKeeps(s, actions[0]);
      hide Inv, AllTold, Next;
      RunTold(Next(s, actions[0]), actions[1..]);
    }
  }

  // ----- in every run -----

  /** Position i of the notifications is the only one about its order, cancels apart. */
  ghost predicate Only(notices: seq<Order>, id: Uuid, places: set<nat>) {
    forall k :: 0 <= k < |notices| && notices[k].id == id && !notices[k].status.Cancelled? ==> k in places
  }

  lemma {:induction false} NoneAbout(notices: seq<Order>, id: Uuid)
    requires About(notices, id) == []
    ensures Only(notices, id, {})
  {
    if notices != [] {
      NoneAbout(notices[..|notices| - 1], id);
    }
  }

  lemma {:induction false} OneAbout(notices: seq<Order>, id: Uuid) returns (i: nat)
    requires |About(notices, id)| == 1
    ensures i < |notices| && notices[i] == About(notices, id)[0] && Only(notices, id, {i})
  {
    var n := |notices| - 1;
    if notices[n].id == id && !notices[n].status.Cancelled? {
      NoneAbout(notices[..n], id);
      i := n;
    } else {
      i := OneAbout(notices[..n], id);
    }
  }

  lemma {:induction false} TwoAbout(notices: seq<Order>, id: Uuid) returns (i: nat, j: nat)
    requires |About(notices, id)| == 2
    ensures i < j < |notices| && Only(notices, id, {i, j})
    ensures notices[i] == About(notices, id)[0] && notices[j] == About(notices, id)[1]
  {
    var n := |notices| - 1;
    if notices[n].id == id && !notices[n].status.Cancelled? {
      i := OneAbout(notices[..n], id);
      j := n;
    } else {
      i, j := TwoAbout(notices[..n], id);
    }
  }

  lemma ReachedIsTold(actions: seq<Action>, p: Pid)
    requires p in Reached(actions).calls
    ensures Told(Reached(actions), p)
  {
    RunTold(Init(), actions);
  }

  /** A CreateOrder that has answered with an order notified that order twice, first
      as Pending and then as answered; there is no other notification of it but by cancels. */
  lemma {:induction false} CreatedIsTold(actions: seq<Action>, p: Pid, o: Order)
    requires p in Reached(actions).calls && Reached(actions).calls[p] == Creating(Finished(o))
    ensures o.status.Paid? || o.status.Failed?
    ensures var notices := Reached(actions).notices;
            exists i, j :: 0 <= i < j < |notices| && notices[i] == o.(status := Pending) && notices[j] == o
              && forall k :: 0 <= k < |notices| && notices[k].id == o.id && !notices[k].status.Cancelled? ==> k in {i, j}
  {
    ReachedIsSound(actions);
    CallFacts(Reached(actions), p);
    ReachedIsTold(actions, p);
    var notices := Reached(actions).notices;
    assert About(notices, o.id) == [o.(status := Pending), o];
    hide Inv, Run, About, HasTold;
    var i, j := TwoAbout(notices, o.id);
  }

  /** One that answered that payment is unavailable notified its order once, as Pending. */
  lemma {:induction false} BrokenIsTold(actions: seq<Action>, p: Pid, o: Order)
    requires p in Reached(actions).calls && Reached(actions).calls[p] == Creating(Broken(o))
    ensures var notices := Reached(actions).notices;
            exists i :: 0 <= i < |notices| && notices[i] == o.(status := Pending)
              && forall k :: 0 <= k < |notices| && notices[k].id == o.id && !notices[k].status.Cancelled? ==> k == i
  {
    ReachedIsSound(actions);
    CallFacts(Reached(actions), p);
    ReachedIsTold(actions, p);
    hide Inv, Run;
    var i := OneAbout(Reached(actions).notices, o.id);
  }

  /** One that failed to insert its order notified nothing. */
  lemma {:induction false} RejectedIsNotTold(actions: seq<Action>, p: Pid, o: Order)
    requires p in Reached(actions).calls && Reached(actions).calls[p] == Creating(Rejected(o))
    ensures var notices := Reached(actions).notices;
            forall k :: 0 <= k < |notices| && notices[k].id == o.id ==> notices[k].status.Cancelled?
  {
    ReachedIsSound(actions);
    CallFacts(Reached(actions), p);
    ReachedIsTold(actions, p);
    hide Inv, Run;
    NoneAbout(Reached(actions).notices, o.id);
  }

  /** A cancel that has succeeded notified the order as Cancelled. */
  lemma {:induction false} CancelledIsTold(actions: seq<Action>, p: Pid, o: Order)
    requires p in Reached(actions).calls && Reached(actions).calls[p] == Cancelling(CancelDone(o))
    ensures o.status.Cancelled? && o in Reached(actions).notices
  {
    ReachedIsSound(actions);
    CallFacts(Reached(actions), p);
    ReachedIsTold(actions, p);
  }

  // ----- what is told was so -----

  /** The row has had this status, or the update that should have given it reported an error. */
  ghost predicate Real(h: Trail, o: Order) {
    Staleness.WasHeld(h, o) || (o.id, UpdateFailed) in h.blame
  }

  ghost predicate CallReal(h: Trail, c: Call) {
    match c
    case Creating(NotifyNew(o)) => Real(h, o)
    case Creating(Evict(o, t, _)) => Real(h, o.(status := t))
    case Creating(NotifyEnd(o)) => Real(h, o)
    case Cancelling(CancelEvict(o)) => Real(h, o.(status := Cancelled))
    case Cancelling(CancelNotify(o)) => Real(h, o)
    case _ => true
  }

  ghost predicate AllReal(s: State) {
    && (forall p :: p in s.calls ==> CallReal(s.trail, s.calls[p]))
    && (forall i :: 0 <= i < |s.notices| ==> Real(s.trail, s.notices[i]))
  }

  ghost predicate Longer(h: Trail, g: Trail) {
    h.blame <= g.blame && forall id :: id in h.held ==> id in g.held && h.held[id] <= g.held[id]
  }

  lemma Grows(h: Trail, p: Pid, step: nat, id: Uuid, st: OrderStatus, sweep: Sweep, c: Cause)
    ensures Longer(h, Record(h, step, p, id, st, sweep)) && Longer(h, Blame(h, id, c)) && Longer(h, Tag(h, id, p, sweep))
    ensures Longer(h, Blame(Record(h, step, p, id, st, sweep), id, c))
  {
  }

  lemma SagaTrailGrows(s: State, p: Pid, c: CreateAt, e: Env)
    requires p in s.calls && s.calls[p] == Creating(c)
    ensures Longer(s.trail, AdvanceCreate(s, p, c, e).trail)
  {
    match c {
      case Insert(o) => Grows(s.trail, p, s.step, o.id, Pending, Swept, InsertFailed);
      case Dial(o) => Grows(s.trail, p, s.step, o.id, Failed, Due, ReplyFailed);
      case Await(o) => Grows(s.trail, p, s.step, o.id, Failed, Due, ReplyFailed);
      case Update(o, t, _) =>
        Grows(s.trail, p, s.step, o.id, t, Due, UpdateFailed);
        Grows(s.trail, p, s.step, o.id, t, Missed, UpdateFailed);
      case Evict(o, t, _) =>
        Grows(s.trail, p, s.step, o.id, t, Swept, UpdateFailed);
        Grows(s.trail, p, s.step, o.id, t, Missed, UpdateFailed);
      case _ =>
    }
    assert Longer(s.trail, s.trail);
    hide ByKey, OrderFits, InsertOrder, SetStatus, Record, Blame, Tag, Longer;
  }

  lemma TrailGrows(s: State, p: Pid, e: Env)
    requires p in s.calls
    ensures Longer(s.trail, Advance(s, p, s.calls[p], e).trail)
  {
    if s.calls[p].Creating? {
      SagaTrailGrows(s, p, s.calls[p].c, e);
      hide AdvanceCreate;
    } else {
      hide HasPayment, PaymentFits, InsertPayment, SetStatus;
    }
  }

  lemma UpdateReal(s: State, p: Pid, o: Order, t: OrderStatus, failed: bool, e: Env)
    requires p in s.calls && s.calls[p] == Creating(Update(o, t, failed))
    ensures var u := DoUpdate(s, p, o, t, failed, e); p in u.calls && CallReal(u.trail, u.calls[p])
  {
  }

  lemma SagaReal(s: State, p: Pid, c: CreateAt, e: Env)
    requires p in s.calls && s.calls[p] == Creating(c) && CallOk(s.db, p, s.calls[p]) && CallReal(s.trail, s.calls[p])
    ensures var t := AdvanceCreate(s, p, c, e); p in t.calls && CallReal(t.trail, t.calls[p])
  {
    if c.Update? {
      UpdateReal(s, p, c.order, c.target, c.failed, e);
      hide DoUpdate, CallReal, CallOk;
    } else {
      hide ByKey, OrderFits, Row;
    }
  }

  lemma OthersAreReal(h: Trail, c: Call)
    requires c.Getting? || c.Paying?
    ensures CallReal(h, c)
  {
  }

  lemma CancelReal(s: State, p: Pid, k: CancelAt, e: Env)
    requires p in s.calls && s.calls[p] == Cancelling(k) && CallOk(s.db, p, s.calls[p]) && CallReal(s.trail, s.calls[p])
    ensures var t := AdvanceCancel(s, p, k, e); p in t.calls && CallReal(t.trail, t.calls[p])
  {
    hide Row;
  }

  lemma MoverReal(s: State, p: Pid, e: Env)
    requires Inv(s) && p in s.calls && CallReal(s.trail, s.calls[p])
    ensures var t := Advance(s, p, s.calls[p], e); p in t.calls && CallReal(t.trail, t.calls[p])
  {
    hide Inv, AdvanceCreate, AdvanceCancel, AdvanceGet, AdvancePay, CallReal, OrdersOk, PaymentsOk, NoticesOk, CallOk;
    CallFacts(s, p);
    match s.calls[p] {
      case Creating(c) => SagaReal(s, p, c, e);
      case Cancelling(k) => CancelReal(s, p, k, e);
      case _ =>
        OtherCalls(s, p, e);
        OthersAreReal(Advance(s, p, s.calls[p], e).trail, Advance(s, p, s.calls[p], e).calls[p]);
    }
  }

  /** What was real stays so. */
  lemma StaysReal(h: Trail, g: Trail, c: Call)
    requires Longer(h, g) && CallReal(h, c)
    ensures CallReal(g, c)
  {
  }

  lemma NoticesStayReal(h: Trail, g: Trail, notices: seq<Order>)
    requires Longer(h, g) && forall i :: 0 <= i < |notices| ==> Real(h, notices[i])
    ensures forall i :: 0 <= i < |notices| ==> Real(g, notices[i])
  {
  }

  lemma TellsReal(h: Trail, c: Call)
    requires CallReal(h, c)
    ensures forall i :: 0 <= i < |Tells(c)| ==> Real(h, Tells(c)[i])
  {
  }

  lemma MoveReal(s: State, p: Pid, e: Env)
    requires Inv(s) && AllReal(s) && p in s.calls
    ensures AllReal(Next(s, Move(p, e)))
  {
    var t := Advance(s, p, s.calls[p], e);
    assert Next(s, Move(p, e)) == Tick(t);
    MoverReal(s, p, e);
    TrailGrows(s, p, e);
    FrameMove(s, p, e);
    StepTells(s, p, e);
    TellsReal(s.trail, s.calls[p]);
    hide Inv, Advance, Next, Longer, Real, Tells, CallReal;
    NoticesStayReal(s.trail, t.trail, s.notices + Tells(s.calls[p]));
    forall q | q in t.calls ensures CallReal(t.trail, t.calls[q]) {
      if q in s.calls && t.calls[q] == s.calls[q] {
        StaysReal(s.trail, t.trail, s.calls[q]);
      } else if t.calls[q].Paying? {
        OthersAreReal(t.trail, t.calls[q]);
      }
    }
  }

  lemma DeathGrows(h: Trail, p: Pid, c: Call)
    ensures Longer(h, TrailOfDeath(h, p, c))
  {
  }

  lemma CrashReal(s: State, p: Pid)
    requires AllReal(s)
    ensures AllReal(Next(s, Crash(p)))
  {
    var t := Next(s, Crash(p));
    if p in s.calls {
      DeathGrows(s.trail, p, s.calls[p]);
    }
    assert Longer(s.trail, s.trail);
    hide Longer, Real, CallReal, TrailOfDeath;
    NoticesStayReal(s.trail, t.trail, s.notices);
    forall q | q in t.calls ensures CallReal(t.trail, t.calls[q]) {
      StaysReal(s.trail, t.trail, s.calls[q]);
    }
  }

  lemma StepReal(s: State, a: Action)
    requires Inv(s) && AllReal(s)
    ensures AllReal(Next(s, a))
  {
    match a {
      case Move(p, e) =>
        if p in s.calls {
          hide *;
          MoveReal(s, p, e);
        } else {
          hide Real, CallReal, Inv;
        }
      case Crash(p) =>
        hide *;
        CrashReal(s, p);
      case Start(c) =>
        assert Opening(c) ==> CallReal(s.trail, c);
        hide Real, CallReal, Inv;
      case _ =>
        hide Real, CallReal, Inv;
    }
  }

  lemma {:induction false} RunReal(s: State, actions: seq<Action>)
    requires Inv(s) && AllReal(s)
    ensures AllReal(Run(s, actions))
    decreases |actions|
  {
    if actions != [] {
      StepReal(s, actions[0]);
      StepKeeps(s, actions[0]);
      hide Inv, AllReal, Next;
      RunReal(Next(s, actions[0]), actions[1..]);
    }
  }

  /** No subscriber is told a status that the row never had, unless the row's status
      update was reported as failed. */
  lemma {:induction false} NoticesAreReal(actions: seq<Action>, i: nat)
    requires i < |Reached(actions).notices|
    ensures var s, o := Reached(actions), Reached(actions).notices[i];
            (o.id in s.trail.held && o.status in s.trail.held[o.id]) || (o.id, UpdateFailed) in s.trail.blame
  {
    RunReal(Init(), actions);
  }
}
