// When an order's status can still change, and when it never will again.

module Stability {
  import opened Domain
  import opened Tables
  import opened Saga
  import opened SagaInvariant
  import opened SagaFrames
  import opened SagaTheorems

  /** Call c may yet give row `id`, whose status is `st`, a different status:
      its saga has not reached its update, or a cancel has read Pending. */
  predicate MayWrite(c: Call, id: Uuid, st: OrderStatus) {
    match c
    case Creating(c) => (c.NotifyNew? || c.Dial? || c.Await? || c.Update?) && c.order.id == id
    case Cancelling(k) => k.CancelWrite? && k.order.id == id && !st.Cancelled?
    case _ => false
  }

  ghost predicate Settled(s: State, id: Uuid) {
    && id in s.db.orders && !s.db.orders[id].status.Pending?
    && forall p :: p in s.calls ==> !MayWrite(s.calls[p], id, s.db.orders[id].status)
  }

  ghost predicate KeepsStatus(s: State, actions: seq<Action>, id: Uuid)
    requires id in s.db.orders
  {
    var t := Run(s, actions);
    id in t.db.orders && t.db.orders[id].status == s.db.orders[id].status
  }

  // ----- no way back to Pending -----

  /** Once a row has left Pending, no run brings it back. */
  lemma {:induction false} NeverReopens(s: State, actions: seq<Action>, id: Uuid)
    requires Inv(s) && id in s.db.orders && !s.db.orders[id].status.Pending?
    ensures id in Run(s, actions).db.orders && !Run(s, actions).db.orders[id].status.Pending?
    decreases |actions|
  {
    if actions != [] {
      var a := actions[0];
      RowAfterStep(s, a, id);
      if a.Move? && a.p in s.calls {
        CallFacts(s, a.p);
      }
      StepKeeps(s, a);
      hide Inv, Next;
      NeverReopens(Next(s, a), actions[1..], id);
    }
  }

  // ----- settled means stable -----

  /** A saga is about to write a row only if it was, or has just inserted it. */
  lemma WritesAfter(s: State, p: Pid, c: CreateAt, e: Env, id: Uuid, st: OrderStatus)
    requires p in s.calls && s.calls[p] == Creating(c)
    ensures var t := AdvanceCreate(s, p, c, e);
            && p in t.calls
            && (MayWrite(t.calls[p], id, st) ==> MayWrite(Creating(c), id, st) || (c.Insert? && c.order.id == id))
  {
    hide ByKey, InsertOrder, OrderFits, SetStatus, Record, Blame, Tag;
  }

  lemma SettledSaga(s: State, p: Pid, c: CreateAt, e: Env, id: Uuid)
    requires Inv(s) && Settled(s, id) && p in s.calls && s.calls[p] == Creating(c)
    ensures var t := AdvanceCreate(s, p, c, e);
            p in t.calls && !MayWrite(t.calls[p], id, s.db.orders[id].status)
  {
    CallFacts(s, p);
    assert !MayWrite(s.calls[p], id, s.db.orders[id].status);
    assert c.Insert? ==> c.order.id != id;
    hide *;
    WritesAfter(s, p, c, e, id, s.db.orders[id].status);
  }

  lemma SettledCancel(s: State, p: Pid, k: CancelAt, e: Env, id: Uuid)
    requires OrdersOk(s.db) && Settled(s, id) && p in s.calls && s.calls[p] == Cancelling(k)
    ensures var t := AdvanceCancel(s, p, k, e);
            p in t.calls && !MayWrite(t.calls[p], id, s.db.orders[id].status)
  {
    hide Record, Blame, Tag;
  }

  lemma OtherKinds(s: State, p: Pid, e: Env)
    requires p in s.calls && (s.calls[p].Getting? || s.calls[p].Paying?)
    ensures var t := Advance(s, p, s.calls[p], e);
            p in t.calls && (t.calls[p].Getting? || t.calls[p].Paying?)
  {
    hide AdvanceCreate, AdvanceCancel, HasPayment, PaymentFits, Blame;
  }

  lemma MoverStaysSettled(s: State, p: Pid, e: Env, id: Uuid)
    requires Inv(s) && Settled(s, id) && p in s.calls
    ensures var t := Advance(s, p, s.calls[p], e);
            p in t.calls && !MayWrite(t.calls[p], id, s.db.orders[id].status)
  {
    hide AdvanceCreate, AdvanceCancel, AdvanceGet, AdvancePay;
    match s.calls[p]
    case Creating(c) => SettledSaga(s, p, c, e, id);
    case Cancelling(k) => CallFacts(s, p); SettledCancel(s, p, k, e, id);
    case _ => OtherKinds(s, p, e);
  }

  lemma SettledMove(s: State, p: Pid, e: Env, id: Uuid)
    requires Inv(s) && Settled(s, id) && p in s.calls
    ensures Settled(Advance(s, p, s.calls[p], e), id)
  {
    RowAfterMove(s, p, e, id);
    FrameMove(s, p, e);
    MoverStaysSettled(s, p, e, id);
    CallFacts(s, p);
    assert !MayWrite(s.calls[p], id, s.db.orders[id].status);
    hide Inv, Advance, CallOk, OrdersOk, PaymentsOk, NoticesOk;
    var t := Advance(s, p, s.calls[p], e);
    forall q | q in t.calls ensures !MayWrite(t.calls[q], id, t.db.orders[id].status) {
    }
  }

  lemma SettledStep(s: State, a: Action, id: Uuid)
    requires Inv(s) && Settled(s, id)
    ensures Settled(Next(s, a), id) && Next(s, a).db.orders[id].status == s.db.orders[id].status
  {
    RowAfterStep(s, a, id);
    hide Inv, Advance, TrailOfDeath;
    if a.Move? && a.p in s.calls {
      SettledMove(s, a.p, a.e, id);
    }
  }

  lemma {:induction false} SettledIsStable(s: State, actions: seq<Action>, id: Uuid)
    requires Inv(s) && Settled(s, id)
    ensures KeepsStatus(s, actions, id)
    decreases |actions|
  {
    if actions != [] {
      SettledStep(s, actions[0], id);
      StepKeeps(s, actions[0]);
      hide Inv, Next, Settled;
      SettledIsStable(Next(s, actions[0]), actions[1..], id);
    }
  }

  // ----- and unsettled means it may change -----

  function StepsToWrite(c: Call): nat {
    match c
    case Creating(NotifyNew(_)) => 3
    case Creating(Dial(_)) => 2
    case Creating(Await(_)) => 2
    case _ => 1
  }

  /** The next step of the call is the rpc's. */
  predicate AtRpc(c: Call) {
    c.Creating? && (c.c.Dial? || c.c.Await?)
  }

  /** The saga of a row moves on towards its write,
      giving its rpc up on the way if it has not made it. */
  lemma TowardsTheWrite(s: State, p: Pid, id: Uuid, e: Env)
    requires Inv(s) && id in s.db.orders && p in s.calls && StepsToWrite(s.calls[p]) > 1
    requires MayWrite(s.calls[p], id, s.db.orders[id].status) && (AtRpc(s.calls[p]) ==> e.fault.Lost?)
    ensures var t := Next(s, Move(p, e));
            && p in t.calls && t.db == s.db && MayWrite(t.calls[p], id, s.db.orders[id].status)
            && StepsToWrite(t.calls[p]) < StepsToWrite(s.calls[p])
            && t.cache == s.cache && t.clock == s.clock
  {
    hide Inv, Blame;
  }

  lemma TheWriteChanges(s: State, p: Pid, id: Uuid)
    requires Inv(s) && id in s.db.orders && p in s.calls
    requires MayWrite(s.calls[p], id, s.db.orders[id].status) && StepsToWrite(s.calls[p]) == 1
    ensures var t := Next(s, Move(p, Env(Acked, 0)));
            && id in t.db.orders && t.db.orders[id].status != s.db.orders[id].status
            && t.cache == s.cache && t.clock == s.clock
  {
    CallFacts(s, p);
    hide Inv, Record, Blame, PaymentsOk, NoticesOk;
  }

  lemma {:induction false} UnsettledMayChange(s: State, p: Pid, id: Uuid) returns (actions: seq<Action>)
    requires Inv(s) && id in s.db.orders && p in s.calls
    requires MayWrite(s.calls[p], id, s.db.orders[id].status)
    ensures !KeepsStatus(s, actions, id)
    decreases StepsToWrite(s.calls[p])
  {
    if StepsToWrite(s.calls[p]) == 1 {
      actions := [Move(p, Env(Acked, 0))];
      TheWriteChanges(s, p, id);
      assert actions[1..] == [];
      assert Run(s, actions) == Run(Next(s, actions[0]), []);
    } else {
      var a := Move(p, Env(Lost, 0));
      TowardsTheWrite(s, p, id, Env(Lost, 0));
      StepKeeps(s, a);
      var rest := UnsettledMayChange(Next(s, a), p, id);
      actions := [a] + rest;
      assert actions[1..] == rest;
    }
  }

  /** A Pending row can always be cancelled: a new call reads it, and is about to write it. */
  lemma CancelReads(s: State, id: Uuid)
    requires Inv(s) && id in s.db.orders && s.db.orders[id].status.Pending?
    ensures var q, s1 := Client(s.step), Next(s, Start(Cancelling(CancelRead(id))));
            var t := Next(s1, Move(q, Env(Acked, 0)));
            && Inv(s1) && s1.db == s.db && q in s1.calls && s1.calls[q] == Cancelling(CancelRead(id))
            && Inv(t) && t.db == s.db && t.cache == s.cache && t.clock == s.clock
            && q in t.calls && MayWrite(t.calls[q], id, Pending)
  {
    var a := Start(Cancelling(CancelRead(id)));
    assert s.db.orders[id].id == id;
    StepKeeps(s, a);
    StepKeeps(Next(s, a), Move(Client(s.step), Env(Acked, 0)));
    hide Inv;
  }

  lemma ChangesLater(s: State, a: Action, rest: seq<Action>, id: Uuid)
    requires id in s.db.orders && Next(s, a).db == s.db && !KeepsStatus(Next(s, a), rest, id)
    ensures !KeepsStatus(s, [a] + rest, id)
  {
    assert ([a] + rest)[1..] == rest;
    hide Next;
  }

  lemma PendingMayChange(s: State, id: Uuid) returns (actions: seq<Action>)
    requires Inv(s) && id in s.db.orders && s.db.orders[id].status.Pending?
    ensures !KeepsStatus(s, actions, id)
  {
    var a, b := Start(Cancelling(CancelRead(id))), Move(Client(s.step), Env(Acked, 0));
    CancelReads(s, id);
    hide Next, Inv, MayWrite, KeepsStatus;
    var s1 := Next(s, a);
    actions := UnsettledMayChange(Next(s1, b), Client(s.step), id);
    ChangesLater(s1, b, actions, id);
    ChangesLater(s, a, [b] + actions, id);
    actions := [a] + ([b] + actions);
  }

  /** A status is safe from every continuation of the run exactly when it has left
      Pending, and no saga short of its update and no cancel that read Pending is
      still holding on to the row. */
  lemma {:induction false} StableIffSettled(s: State, id: Uuid)
    requires Inv(s) && id in s.db.orders
    ensures Settled(s, id) <==> forall actions :: KeepsStatus(s, actions, id)
  {
    if Settled(s, id) {
      forall actions ensures KeepsStatus(s, actions, id) {
        SettledIsStable(s, actions, id);
      }
    } else if s.db.orders[id].status.Pending? {
      var actions := PendingMayChange(s, id);
    } else {
      var p :| p in s.calls && MayWrite(s.calls[p], id, s.db.orders[id].status);
      var actions := UnsettledMayChange(s, p, id);
    }
  }

  /** Between whole calls the three terminal statuses are absorbing: with every
      call answered or crashed, no later run, serial or not, changes them. */
  lemma {:induction false} TerminalIsAbsorbingBetweenCalls(before: seq<Action>, actions: seq<Action>, id: Uuid)
    requires var s := Reached(before);
             && id in s.db.orders && Terminal(s.db.orders[id].status)
             && forall p :: p in s.calls ==> Over(s.calls[p])
    ensures KeepsStatus(Reached(before), actions, id)
  {
    ReachedIsSound(before);
    SettledIsStable(Reached(before), actions, id);
  }
}
