// Which faults can separate an order from its payment, and that without them
// the order row, the payment row and the answer agree.

module Orphans {
  import opened Domain
  import opened Gateway
  import opened Tables
  import opened Saga
  import opened SagaInvariant
  import opened SagaFrames
  import opened SagaTheorems

  ghost predicate Clean(h: Trail, id: Uuid) {
    forall c: Cause :: (id, c) !in h.blame
  }

  /** The saga of this row is where the row's status says it is. */
  ghost predicate OnTrack(orders: Orders, calls: map<Pid, Call>, id: Uuid)
    requires id in orders
  {
    && id.Minted? && id.call in calls && calls[id.call].Creating?
    && match calls[id.call].c
       case NotifyNew(o) => o.id == id && orders[id].status.Pending?
       case Dial(o) => o.id == id && orders[id].status.Pending?
       case Await(o) => o.id == id && orders[id].status.Pending?
       case Update(o, _, failed) => o.id == id && !failed && orders[id].status.Pending?
       case Evict(o, t, failed) => o.id == id && !failed && orders[id].status == t
       case NotifyEnd(o) => o.id == id && orders[id].status == o.status
       case Finished(o) => o.id == id && orders[id].status == o.status
       case _ => false
  }

  ghost predicate Tracked(s: State) {
    forall id :: id in s.db.orders && Clean(s.trail, id) ==> OnTrack(s.db.orders, s.calls, id)
  }

  /** The payment service has not been asked, and has not charged, for call p's order. */
  ghost predicate Undialed(s: State, p: Pid) {
    Server(p) !in s.calls && Minted(Server(p), 0) !in s.db.payments
  }

  predicate BeforeDial(c: Call) {
    c.Creating? && (c.c.Lookup? || c.c.Insert? || c.c.NotifyNew? || c.c.Dial?)
  }

  /** An order whose insert was reported as failed, though done: no saga goes on with it. */
  ghost predicate Abandoned(s: State, id: Uuid) {
    && id in s.db.orders && id.Minted? && id.call.Client? && Undialed(s, id.call)
    && (id.call in s.calls ==> s.calls[id.call].Creating? && s.calls[id.call].c.Rejected?)
  }

  /** Each payment row was made by the rpc of its order's saga, or through the direct door. */
  ghost predicate Traced(s: State) {
    && (forall i :: i in s.db.payments ==>
          (s.db.payments[i].orderId, DirectDoor) in s.trail.blame || FromRpc(i, s.db.payments[i].orderId))
    && (forall id :: (id, InsertFailed) in s.trail.blame ==> Abandoned(s, id))
    && (forall p :: p in s.calls && BeforeDial(s.calls[p]) ==> Undialed(s, p))
  }

  predicate FromRpc(i: Uuid, orderId: Uuid) {
    orderId.Minted? && orderId.k == 0 && i == Minted(Server(orderId.call), 0)
  }

  // ----- keeping track -----

  lemma BlamedIsNotClean(h: Trail, id: Uuid, c: Cause)
    ensures !Clean(Blame(h, id, c), id)
  {
    assert (id, c) in Blame(h, id, c).blame;
  }

  lemma OwnInsert(s: State, p: Pid, o: Order, e: Env)
    requires o.id == Minted(p, 0) && o.status.Pending? && o.id !in s.db.orders
    requires var t := DoInsert(s, p, o, e); o.id in t.db.orders && Clean(t.trail, o.id)
    ensures var t := DoInsert(s, p, o, e); OnTrack(t.db.orders, t.calls, o.id)
  {
    BlamedIsNotClean(Record(s.trail, s.step, p, o.id, Pending, Swept), o.id, InsertFailed);
    hide Record, Blame, Clean;
  }

  lemma OwnUpdate(s: State, p: Pid, o: Order, st: OrderStatus, failed: bool, e: Env)
    requires o.id == Minted(p, 0) && o.id in s.db.orders && !failed
    requires var t := DoUpdate(s, p, o, st, failed, e); Clean(t.trail, o.id)
    ensures var t := DoUpdate(s, p, o, st, failed, e); OnTrack(t.db.orders, t.calls, o.id)
  {
    var t := DoUpdate(s, p, o, st, failed, e);
    assert t.trail.blame == s.trail.blame + {(o.id, UpdateFailed)} ==> (o.id, UpdateFailed) in t.trail.blame;
  }

  lemma OwnRpc(s: State, p: Pid, o: Order, e: Env)
    requires o.id == Minted(p, 0) && o.id in s.db.orders && s.db.orders[o.id].status.Pending?
    requires p in s.calls && s.calls[p] == Creating(Await(o)) && Clean(DoAwait(s, p, o, e).trail, o.id)
    ensures var t := DoAwait(s, p, o, e); OnTrack(t.db.orders, t.calls, o.id)
  {
    BlamedIsNotClean(s.trail, o.id, ReplyFailed);
    hide Blame, Clean;
  }

  lemma OwnDial(s: State, p: Pid, o: Order, e: Env)
    requires o.id == Minted(p, 0) && o.id in s.db.orders && s.db.orders[o.id].status.Pending?
    requires Clean(DoDial(s, p, o, e).trail, o.id)
    ensures var t := DoDial(s, p, o, e); OnTrack(t.db.orders, t.calls, o.id)
  {
    BlamedIsNotClean(s.trail, o.id, ReplyFailed);
    hide Blame, Clean;
  }

  /** A step of the saga itself, while nothing has gone wrong for its order. */
  lemma OwnStep(s: State, p: Pid, c: CreateAt, e: Env)
    requires p in s.calls && s.calls[p] == Creating(c) && CreateOk(s.db, p, c)
    requires var t := AdvanceCreate(s, p, c, e);
             && Minted(p, 0) in t.db.orders && Clean(t.trail, Minted(p, 0))
             && (Minted(p, 0) in s.db.orders ==> OnTrack(s.db.orders, s.calls, Minted(p, 0)))
    ensures var t := AdvanceCreate(s, p, c, e);
            OnTrack(t.db.orders, t.calls, Minted(p, 0))
  {
    hide DoInsert, DoUpdate, DoAwait, DoDial, Clean, ByKey, Tag, Charged;
    match c
    case Insert(o) => OwnInsert(s, p, o, e);
    case Update(o, st, failed) => OwnUpdate(s, p, o, st, failed, e);
    case Await(o) => OwnRpc(s, p, o, e);
    case Dial(o) => OwnDial(s, p, o, e);
    case _ =>
  }

  /** A step of any other call: only a cancel could disturb the row, and that is blamed. */
  lemma OthersStep(s: State, q: Pid, e: Env, id: Uuid)
    requires Inv(s) && q in s.calls && id in s.db.orders && OnTrack(s.db.orders, s.calls, id)
    requires q != id.call && Clean(Advance(s, q, s.calls[q], e).trail, id)
    ensures var t := Advance(s, q, s.calls[q], e);
            id in t.db.orders && OnTrack(t.db.orders, t.calls, id)
  {
    RowAfterMove(s, q, e, id);
    FrameMove(s, q, e);
    CallFacts(s, q);
    CallFacts(s, id.call);
    var t := Advance(s, q, s.calls[q], e);
    if t.db.orders[id].status != s.db.orders[id].status {
      hide Inv, OrdersOk, PaymentsOk, NoticesOk;
      assert s.calls[q].Cancelling?;
      BlamedIsNotClean(Record(s.trail, s.step, q, id, Cancelled, if e.fault.Acked? then Due else Missed), id, CancelledBy);
      assert false;
    }
    hide Inv, OrdersOk, PaymentsOk, NoticesOk, Advance, CreateOk;
  }

  lemma TrackedMove(s: State, p: Pid, e: Env, id: Uuid)
    requires Inv(s) && Tracked(s) && p in s.calls
    requires var t := Advance(s, p, s.calls[p], e); id in t.db.orders && Clean(t.trail, id)
    ensures var t := Advance(s, p, s.calls[p], e); OnTrack(t.db.orders, t.calls, id)
  {
    CallFacts(s, p);
    FrameMove(s, p, e);
    RowsAfterMove(s, p, e);
    assert Clean(s.trail, id);
    if id == Minted(p, 0) && s.calls[p].Creating? {
      OwnStep(s, p, s.calls[p].c, e);
    } else {
      hide Inv, Advance, CreateOk, OrdersOk, PaymentsOk, NoticesOk;
      if id.call == p {
        assert false;
      }
      OthersStep(s, p, e, id);
    }
  }

  lemma DeathIsBlamed(s: State, p: Pid, id: Uuid)
    requires p in s.calls
    ensures var t := Act(s, Crash(p));
            && s.trail.blame <= t.trail.blame && t.db == s.db
            && (forall q :: q in s.calls && q != p ==> q in t.calls && t.calls[q] == s.calls[q])
            && (Over(s.calls[p]) ==> t == s)
            && (s.calls[p].Creating? && InSaga(s.calls[p].c) && s.calls[p].c.order.id == id ==> (id, Crashed) in t.trail.blame)
  {
  }

  lemma TrackedCrash(s: State, p: Pid, id: Uuid)
    requires Tracked(s) && p in s.calls && id in s.db.orders
    requires var t := Act(s, Crash(p)); Clean(t.trail, id)
    ensures var t := Act(s, Crash(p)); OnTrack(t.db.orders, t.calls, id)
  {
    var t := Act(s, Crash(p));
    DeathIsBlamed(s, p, id);
    assert Clean(s.trail, id);
    hide Act;
  }

  lemma TrackedStep(s: State, a: Action)
    requires Inv(s) && Tracked(s)
    ensures Tracked(Next(s, a))
  {
    var t := Next(s, a);
    forall id | id in t.db.orders && Clean(t.trail, id) ensures OnTrack(t.db.orders, t.calls, id) {
      match a {
        case Move(p, e) =>
          if p in s.calls {
            hide Advance, Inv;
            TrackedMove(s, p, e, id);
          }
        case Crash(p) =>
          if p in s.calls {
            hide Die;
            TrackedCrash(s, p, id);
          }
        case _ =>
          assert Clean(s.trail, id);
      }
    }
  }

  // ----- where payment rows come from -----

  /** A new payment row is of the paying call's own making; the direct door is blamed for its own. */
  lemma PaymentAfterInsert(s: State, p: Pid, job: Job, pay: Payment, e: Env)
    requires PayOk(s.db, p, PayInsert(job, pay))
    ensures var t := DoPayInsert(s, p, job, pay, e);
            forall i :: i in t.db.payments ==>
              if i in s.db.payments then t.db.payments[i] == s.db.payments[i]
              else i == Minted(p, 0) && ((t.db.payments[i].orderId, DirectDoor) in t.trail.blame || FromRpc(i, t.db.payments[i].orderId))
  {
  }

  lemma TracedPayments(s: State, p: Pid, e: Env)
    requires Inv(s) && Traced(s) && p in s.calls
    ensures var t := Advance(s, p, s.calls[p], e);
            forall i :: i in t.db.payments ==>
              && ((t.db.payments[i].orderId, DirectDoor) in t.trail.blame || FromRpc(i, t.db.payments[i].orderId))
              && (i in s.db.payments || i == Minted(p, 0))
  {
    CallFacts(s, p);
    FrameMove(s, p, e);
    if s.calls[p].Paying? && s.calls[p].y.PayInsert? {
      PaymentAfterInsert(s, p, s.calls[p].y.job, s.calls[p].y.payment, e);
      hide Inv, DoPayInsert, OrdersOk, PaymentsOk, NoticesOk;
      assert Advance(s, p, s.calls[p], e) == DoPayInsert(s, p, s.calls[p].y.job, s.calls[p].y.payment, e);
    } else {
      PaymentsOnlyByInsert(s, p, e);
      hide Inv, Advance, OrdersOk, PaymentsOk, NoticesOk;
    }
  }

  /** A call that is not at its Dial keeps the payment service out of it. */
  lemma UndialedMove(s: State, p: Pid, e: Env, q: Pid)
    requires Inv(s) && Traced(s) && p in s.calls && Undialed(s, q)
    requires !(p == q && s.calls[p].Creating? && s.calls[p].c.Dial?)
    ensures Undialed(Advance(s, p, s.calls[p], e), q)
  {
    TracedPayments(s, p, e);
    FrameMove(s, p, e);
    hide Inv, Advance;
  }

  /** The saga up to its rpc: it does not go back, and only a failed insert is blamed as one. */
  lemma BeginningOfSaga(s: State, p: Pid, c: CreateAt, e: Env)
    requires p in s.calls && s.calls[p] == Creating(c)
    ensures var t := AdvanceCreate(s, p, c, e);
            && p in t.calls
            && (BeforeDial(t.calls[p]) ==> BeforeDial(s.calls[p]) && !c.Dial?)
            && (c.Rejected? ==> t == s)
            && (forall id :: (id, InsertFailed) in t.trail.blame && (id, InsertFailed) !in s.trail.blame ==>
                  c.Insert? && c.order.id == id && id in t.db.orders && t.calls[p] == Creating(Rejected(c.order)))
  {
    hide ByKey, SetStatus, OrderFits;
  }

  lemma CancelIsNoSaga(s: State, p: Pid, k: CancelAt, e: Env)
    requires p in s.calls
    ensures var t := AdvanceCancel(s, p, k, e);
            forall id :: (id, InsertFailed) in t.trail.blame ==> (id, InsertFailed) in s.trail.blame
  {
    hide SetStatus;
  }

  lemma PayIsNoSaga(s: State, p: Pid, y: PayAt, e: Env)
    requires p in s.calls
    ensures var t := AdvancePay(s, p, y, e);
            forall id :: (id, InsertFailed) in t.trail.blame ==> (id, InsertFailed) in s.trail.blame
  {
    hide HasPayment, PaymentFits;
  }

  /** The call stays of its kind. */
  lemma StaysNoSaga(s: State, p: Pid, e: Env)
    requires p in s.calls && !s.calls[p].Creating?
    ensures var t := Advance(s, p, s.calls[p], e); p in t.calls && !t.calls[p].Creating?
  {
    hide AdvanceCreate, SetStatus, HasPayment, PaymentFits, InsertPayment, Record, Blame, Tag, CancelVerdict;
  }

  lemma NotASaga(s: State, p: Pid, e: Env)
    requires p in s.calls && !s.calls[p].Creating?
    ensures var t := Advance(s, p, s.calls[p], e);
            && p in t.calls && !t.calls[p].Creating?
            && (forall id :: (id, InsertFailed) in t.trail.blame ==> (id, InsertFailed) in s.trail.blame)
  {
    StaysNoSaga(s, p, e);
    hide AdvanceCreate, AdvanceCancel, AdvancePay;
    match s.calls[p]
    case Cancelling(k) => CancelIsNoSaga(s, p, k, e);
    case Paying(y) => PayIsNoSaga(s, p, y, e);
    case Getting(g) =>
  }

  lemma AbandonedMove(s: State, p: Pid, e: Env, id: Uuid)
    requires Inv(s) && Traced(s) && p in s.calls && Abandoned(s, id)
    ensures Abandoned(Advance(s, p, s.calls[p], e), id)
  {
    UndialedMove(s, p, e, id.call);
    FrameMove(s, p, e);
    RowAfterMove(s, p, e, id);
    if p == id.call {
      BeginningOfSaga(s, p, s.calls[p].c, e);
      hide AdvanceCreate, Inv;
    } else {
      hide Advance, Inv;
    }
  }

  lemma TracedMove(s: State, p: Pid, e: Env)
    requires Inv(s) && Traced(s) && p in s.calls
    ensures Traced(Advance(s, p, s.calls[p], e))
  {
    var t := Advance(s, p, s.calls[p], e);
    TracedPayments(s, p, e);
    FrameMove(s, p, e);
    CallFacts(s, p);
    if s.calls[p].Creating? {
      BeginningOfSaga(s, p, s.calls[p].c, e);
    } else {
      NotASaga(s, p, e);
    }
    hide Inv, AdvanceCreate, AdvanceCancel, AdvanceGet, AdvancePay, OrdersOk, PaymentsOk, NoticesOk, CancelOk, GetOk, PayOk;
    forall id | (id, InsertFailed) in t.trail.blame ensures Abandoned(t, id) {
      if (id, InsertFailed) in s.trail.blame {
        AbandonedMove(s, p, e, id);
      } else {
        UndialedMove(s, p, e, p);
      }
    }
    forall q | q in t.calls && BeforeDial(t.calls[q]) ensures Undialed(t, q) {
      UndialedMove(s, p, e, q);
    }
  }

  lemma TracedCrash(s: State, p: Pid)
    requires Traced(s)
    ensures Traced(Act(s, Crash(p)))
  {
  }

  lemma TracedStart(s: State, c: Call)
    requires BirthsOk(s) && Traced(s)
    ensures Traced(Act(s, Start(c)))
  {
    assert Born(Server(Client(s.step))) == s.step;
  }

  lemma TracedAct(s: State, a: Action)
    requires Inv(s) && Traced(s)
    ensures Traced(Act(s, a))
  {
    match a {
      case Move(p, e) =>
        if p in s.calls { TracedMove(s, p, e); }
        hide Advance, Inv, Traced;
      case Crash(p) => TracedCrash(s, p);
      case Start(c) =>
        assert BirthsOk(s);
        TracedStart(s, c);
      case _ => hide Inv;
    }
  }

  lemma TracedStep(s: State, a: Action)
    requires Inv(s) && Traced(s)
    ensures Traced(Next(s, a))
  {
    TracedAct(s, a);
    hide Inv, Act;
  }

  lemma {:induction false} TrackedRun(actions: seq<Action>)
    ensures Tracked(Reached(actions)) && Traced(Reached(actions))
  {
    TrackedFrom(Init(), actions);
  }

  lemma {:induction false} TrackedFrom(s: State, actions: seq<Action>)
    requires Inv(s) && Tracked(s) && Traced(s)
    ensures Tracked(Run(s, actions)) && Traced(Run(s, actions))
    decreases |actions|
  {
    if actions != [] {
      StepKeeps(s, actions[0]);
      TrackedStep(s, actions[0]);
      TracedStep(s, actions[0]);
      hide Inv, Tracked, Traced, Next;
      TrackedFrom(Next(s, actions[0]), actions[1..]);
    }
  }

  // ----- the classification -----

  /** The saga of this order is still in flight. */
  ghost predicate SagaInFlight(s: State, id: Uuid) {
    && id.Minted? && id.call in s.calls && s.calls[id.call].Creating?
    && InSaga(s.calls[id.call].c) && s.calls[id.call].c.order.id == id
  }

  /** An authorised charge whose order is not Paid: its saga is still at work, or
      one of these happened to the order: the reply was lost or an error, a
      status update was reported as failed, its call crashed, it was cancelled,
      or a payment for it came through the direct door. */
  lemma {:induction false} OrphanHasACause(actions: seq<Action>, i: Uuid)
    requires var s := Reached(actions);
             && i in s.db.payments && s.db.payments[i].status.Authorized?
             && s.db.payments[i].orderId in s.db.orders
             && !s.db.orders[s.db.payments[i].orderId].status.Paid?
             && !SagaInFlight(s, s.db.payments[i].orderId)
    ensures var s := Reached(actions);
            exists c :: c in {ReplyFailed, UpdateFailed, Crashed, CancelledBy, DirectDoor}
                        && (s.db.payments[i].orderId, c) in s.trail.blame
  {
    ReachedIsSound(actions);
    TrackedRun(actions);
    var s := Reached(actions);
    var id := s.db.payments[i].orderId;
    if Clean(s.trail, id) {
      CallFacts(s, id.call);
      assert false;
    }
    if (id, InsertFailed) in s.trail.blame {
      assert Abandoned(s, id);
      assert (id, DirectDoor) in s.trail.blame;
    } else {
      var c :| (id, c) in s.trail.blame;
      assert !c.InsertFailed?;
      assert c.ReplyFailed? || c.UpdateFailed? || c.Crashed? || c.CancelledBy? || c.DirectDoor?;
    }
  }

  /** With nothing to blame, a saga that is over left the row it returned, and a
      payment with the verdict that goes with it: Paid exactly up to the limit. */
  lemma {:induction false} CleanSagaAgrees(actions: seq<Action>, id: Uuid)
    requires var s := Reached(actions);
             id in s.db.orders && Clean(s.trail, id) && !SagaInFlight(s, id)
    ensures var s := Reached(actions);
            var o := s.db.orders[id];
            && id.Minted? && id.call in s.calls && s.calls[id.call] == Creating(Finished(o))
            && (exists i :: i in s.db.payments && Charges(s.db.payments[i], o, Decide(o.amount)))
            && (o.status.Paid? <==> o.amount <= 100000) && (o.status.Failed? <==> o.amount > 100000)
  {
    ReachedIsSound(actions);
    TrackedRun(actions);
    var s := Reached(actions);
    CallFacts(s, id.call);
  }
}
