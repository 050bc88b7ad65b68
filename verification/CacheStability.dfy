// When the cache of a row can still come to disagree with it, and when it
// never will.

module CacheStability {
  import opened Domain
  import opened Tables
  import opened Saga
  import opened SagaInvariant
  import opened SagaFrames
  import opened Stability

  /** GetOrder would be answered from this entry. */
  predicate Live(s: State, id: Uuid) {
    id in s.cache && s.clock < s.cache[id].expires
  }

  ghost predicate Agrees(s: State, id: Uuid)
    requires id in s.db.orders
  {
    Live(s, id) ==> s.cache[id].order == s.db.orders[id]
  }

  /** A reader is about to set another version of the row. */
  predicate HoldsOld(c: Call, row: Order) {
    c.Getting? && c.g.Fill? && c.g.order.id == row.id && c.g.order != row
  }

  ghost predicate Steady(s: State, id: Uuid) {
    && Settled(s, id) && Agrees(s, id)
    && forall p :: p in s.calls ==> !HoldsOld(s.calls[p], s.db.orders[id])
  }

  // ----- steady for ever -----

  lemma RowStays(s: State, a: Action, id: Uuid)
    requires Inv(s) && Settled(s, id)
    ensures Settled(Next(s, a), id) && Next(s, a).db.orders[id] == s.db.orders[id]
  {
    SettledStep(s, a, id);
    hide Inv, Advance, TrailOfDeath, Settled;
    if a.Move? && a.p in s.calls {
      BodyAfterMove(s, a.p, a.e, id);
    }
  }

  /** An entry after a step is an old one, or was set by a reader. */
  lemma EntryFrom(s: State, a: Action, id: Uuid)
    requires Live(Next(s, a), id)
    ensures var t := Next(s, a);
            || (Live(s, id) && t.cache[id] == s.cache[id])
            || (a.Move? && a.p in s.calls && s.calls[a.p].Getting? && s.calls[a.p].g.Fill?
                && s.calls[a.p].g.order.id == id && t.cache[id].order == s.calls[a.p].g.order)
  {
    hide ByKey, OrderFits, InsertOrder, InsertPayment, SetStatus, HasPayment, PaymentFits, Record, Blame, Tag, TrailOfDeath;
  }

  /** A reader after a step is an old one, or has just read the table. */
  lemma ReaderFrom(s: State, a: Action, q: Pid)
    requires q in Next(s, a).calls && Next(s, a).calls[q].Getting? && Next(s, a).calls[q].g.Fill?
    ensures var g := Next(s, a).calls[q].g;
            || (q in s.calls && s.calls[q] == Getting(g))
            || exists id :: id in s.db.orders && g.order == s.db.orders[id]
  {
    var t := Next(s, a);
    if a.Move? && a.p in s.calls {
      FrameMove(s, a.p, a.e);
      if q == a.p {
        MoverReads(s, a.p, a.e);
      }
    }
    hide Advance, TrailOfDeath;
  }

  lemma SagaStays(s: State, p: Pid, c: CreateAt, e: Env)
    requires p in s.calls && s.calls[p] == Creating(c)
    ensures p in AdvanceCreate(s, p, c, e).calls && AdvanceCreate(s, p, c, e).calls[p].Creating?
  {
    hide ByKey, OrderFits, InsertOrder, SetStatus, Record, Blame, Tag;
  }

  lemma MoverReads(s: State, p: Pid, e: Env)
    requires p in s.calls
    requires var t := Advance(s, p, s.calls[p], e); p in t.calls && t.calls[p].Getting? && t.calls[p].g.Fill?
    ensures exists id :: id in s.db.orders && Advance(s, p, s.calls[p], e).calls[p].g.order == s.db.orders[id]
  {
    hide AdvanceCreate, InsertPayment, SetStatus, HasPayment, PaymentFits, Record, Blame, Tag;
    match s.calls[p]
    case Creating(c) => SagaStays(s, p, c, e);
    case _ =>
  }

  lemma NoOldReader(s: State, a: Action, id: Uuid, q: Pid)
    requires OrdersOk(s.db) && Steady(s, id) && q in Next(s, a).calls
    ensures !HoldsOld(Next(s, a).calls[q], s.db.orders[id])
  {
    var t := Next(s, a);
    if t.calls[q].Getting? && t.calls[q].g.Fill? {
      ReaderFrom(s, a, q);
    }
    hide Next;
  }

  lemma SteadyStep(s: State, a: Action, id: Uuid)
    requires Inv(s) && Steady(s, id)
    ensures Steady(Next(s, a), id)
  {
    var t := Next(s, a);
    RowStays(s, a, id);
    if Live(t, id) {
      EntryFrom(s, a, id);
    }
    forall q | q in t.calls ensures !HoldsOld(t.calls[q], t.db.orders[id]) {
      NoOldReader(s, a, id, q);
    }
    hide Next, Settled;
  }

  lemma {:induction false} SteadyAgrees(s: State, actions: seq<Action>, id: Uuid)
    requires Inv(s) && Steady(s, id)
    ensures Steady(Run(s, actions), id)
    decreases |actions|
  {
    if actions != [] {
      SteadyStep(s, actions[0], id);
      StepKeeps(s, actions[0]);
      hide Inv, Next, Steady;
      SteadyAgrees(Next(s, actions[0]), actions[1..], id);
    }
  }

  // ----- and otherwise not even without failures -----

  /** No crash, and no operation on a table, the cache or the broker fails; an rpc may time out. */
  predicate Smooth(s: State, a: Action) {
    !a.Crash? && (a.Move? && a.p in s.calls && !AtRpc(s.calls[a.p]) ==> a.e.fault.Acked?)
  }

  ghost predicate SmoothRun(s: State, actions: seq<Action>)
    decreases |actions|
  {
    actions != [] ==> Smooth(s, actions[0]) && SmoothRun(Next(s, actions[0]), actions[1..])
  }

  lemma AckedIsSmooth(p: Pid, ttl: nat)
    ensures forall s :: Smooth(s, Move(p, Env(Acked, ttl)))
  {
  }

  lemma SmoothMore(s: State, a: Action, rest: seq<Action>)
    requires Smooth(s, a) && SmoothRun(Next(s, a), rest)
    ensures SmoothRun(s, [a] + rest) && Run(s, [a] + rest) == Run(Next(s, a), rest)
  {
    assert ([a] + rest)[1..] == rest;
    hide Next, Smooth;
  }

  /** The row and a live entry differ at the end of the run. */
  ghost predicate EndsApart(s: State, actions: seq<Action>, id: Uuid) {
    var t := Run(s, actions);
    SmoothRun(s, actions) && id in t.db.orders && !Agrees(t, id)
  }

  lemma Longer(s: State, a: Action, rest: seq<Action>, id: Uuid)
    requires Smooth(s, a) && EndsApart(Next(s, a), rest, id)
    ensures EndsApart(s, [a] + rest, id)
  {
    SmoothMore(s, a, rest);
    hide Next, Run, SmoothRun, Agrees;
  }

  /** With the present row in the cache, the saga or the cancel writes the row. */
  lemma {:induction false} WritePastTheEntry(s: State, p: Pid, id: Uuid) returns (actions: seq<Action>)
    requires Inv(s) && id in s.db.orders && p in s.calls
    requires MayWrite(s.calls[p], id, s.db.orders[id].status)
    requires Live(s, id) && s.cache[id].order == s.db.orders[id]
    ensures EndsApart(s, actions, id)
    decreases StepsToWrite(s.calls[p])
  {
    if StepsToWrite(s.calls[p]) == 1 {
      var a := Move(p, Env(Acked, 0));
      TheWriteChanges(s, p, id);
      hide Next, Inv, MayWrite;
      assert EndsApart(Next(s, a), [], id);
      Longer(s, a, [], id);
      actions := [a] + [];
    } else {
      var a := Move(p, Env(if AtRpc(s.calls[p]) then Lost else Acked, 0));
      TowardsTheWrite(s, p, id, a.e);
      StepKeeps(s, a);
      hide Next, Inv, EndsApart;
      actions := WritePastTheEntry(Next(s, a), p, id);
      Longer(s, a, actions, id);
      actions := [a] + actions;
    }
  }

  /** A reader q is somewhere on its way, call p is where it was, and the tables have not changed. */
  ghost predicate Reading(s: State, t: State, p: Pid, q: Pid, g: GetAt) {
    && Inv(t) && t.db == s.db && t.cache == s.cache && t.clock == s.clock
    && p in s.calls && p in t.calls && t.calls[p] == s.calls[p] && q != p
    && q in t.calls && t.calls[q] == Getting(g)
  }

  lemma ReaderStarts(s: State, p: Pid, id: Uuid)
    requires Inv(s) && p in s.calls
    ensures Reading(s, Next(s, Start(Getting(ReadCache(id)))), p, Client(s.step), ReadCache(id))
  {
    assert Born(p) < s.step;
    StepKeeps(s, Start(Getting(ReadCache(id))));
    hide Inv;
  }

  lemma ReaderMisses(s: State, t: State, p: Pid, q: Pid, id: Uuid)
    requires Reading(s, t, p, q, ReadCache(id)) && !Live(s, id)
    ensures Reading(s, Next(t, Move(q, Env(Acked, 0))), p, q, ReadTable(id))
  {
    StepKeeps(t, Move(q, Env(Acked, 0)));
    hide Inv;
  }

  lemma ReaderReads(s: State, t: State, p: Pid, q: Pid, id: Uuid)
    requires Reading(s, t, p, q, ReadTable(id)) && id in s.db.orders
    ensures Reading(s, Next(t, Move(q, Env(Acked, 0))), p, q, Fill(s.db.orders[id], t.step))
  {
    StepKeeps(t, Move(q, Env(Acked, 0)));
    hide Inv;
  }

  lemma ReaderSets(t: State, p: Pid, q: Pid, o: Order, readAt: nat)
    requires Inv(t) && p in t.calls && q in t.calls && q != p && t.calls[q] == Getting(Fill(o, readAt))
    ensures var u := Next(t, Move(q, Env(Acked, 1)));
            && Inv(u) && u.db == t.db && p in u.calls && u.calls[p] == t.calls[p]
            && Live(u, o.id) && u.cache[o.id].order == o
  {
    StepKeeps(t, Move(q, Env(Acked, 1)));
    hide Inv;
  }

  lemma SetAndWrite(s: State, t: State, p: Pid, q: Pid, id: Uuid, readAt: nat) returns (actions: seq<Action>)
    requires id in s.db.orders && s.db.orders[id].id == id
    requires Reading(s, t, p, q, Fill(s.db.orders[id], readAt)) && MayWrite(s.calls[p], id, s.db.orders[id].status)
    ensures EndsApart(t, actions, id)
  {
    var fill := Move(q, Env(Acked, 1));
    ReaderSets(t, p, q, s.db.orders[id], readAt);
    hide Next, Inv, MayWrite, EndsApart, Live;
    actions := WritePastTheEntry(Next(t, fill), p, id);
    Longer(t, fill, actions, id);
    actions := [fill] + actions;
  }

  /** Without a live entry, a reader makes one first. */
  lemma ReadAndWrite(s: State, p: Pid, id: Uuid) returns (actions: seq<Action>)
    requires Inv(s) && id in s.db.orders && p in s.calls
    requires MayWrite(s.calls[p], id, s.db.orders[id].status) && !Live(s, id)
    ensures EndsApart(s, actions, id)
  {
    var q, go := Client(s.step), Start(Getting(ReadCache(id)));
    var move := Move(q, Env(Acked, 0));
    assert s.db.orders[id].id == id;
    AckedIsSmooth(q, 0);
    assert Smooth(s, go);
    hide *;
    var s1 := Next(s, go);
    var s2 := Next(s1, move);
    ReaderStarts(s, p, id);
    ReaderMisses(s, s1, p, q, id);
    ReaderReads(s, s2, p, q, id);
    actions := SetAndWrite(s, Next(s2, move), p, q, id, s2.step);
    Longer(s2, move, actions, id);
    Longer(s1, move, [move] + actions, id);
    Longer(s, go, [move] + ([move] + actions), id);
    actions := [go] + ([move] + ([move] + actions));
  }

  lemma OldReaderSets(s: State, p: Pid, id: Uuid) returns (actions: seq<Action>)
    requires Inv(s) && id in s.db.orders && p in s.calls && HoldsOld(s.calls[p], s.db.orders[id])
    ensures EndsApart(s, actions, id)
  {
    var a := Move(p, Env(Acked, 1));
    assert s.db.orders[id].id == id;
    hide Inv;
    assert Next(s, a).db == s.db && Live(Next(s, a), id);
    assert EndsApart(Next(s, a), [], id);
    Longer(s, a, [], id);
    actions := [a] + [];
  }

  /** With a call on its way to write the row. */
  lemma WriterEndsApart(s: State, p: Pid, id: Uuid) returns (actions: seq<Action>)
    requires Inv(s) && id in s.db.orders && p in s.calls && MayWrite(s.calls[p], id, s.db.orders[id].status)
    ensures EndsApart(s, actions, id)
  {
    hide Inv, MayWrite, Run;
    if !Agrees(s, id) {
      actions := [];
      RunNone(s);
    } else if Live(s, id) {
      actions := WritePastTheEntry(s, p, id);
    } else {
      actions := ReadAndWrite(s, p, id);
    }
  }

  /** A Pending row can be cancelled at any time, past whatever entry there is. */
  lemma CancelEndsApart(s: State, id: Uuid) returns (actions: seq<Action>)
    requires Inv(s) && id in s.db.orders && s.db.orders[id].status.Pending?
    ensures EndsApart(s, actions, id)
  {
    var q, a := Client(s.step), Start(Cancelling(CancelRead(id)));
    var b := Move(q, Env(Acked, 0));
    CancelReads(s, id);
    AckedIsSmooth(q, 0);
    assert Smooth(s, a);
    hide *;
    var s1 := Next(s, a);
    actions := WriterEndsApart(Next(s1, b), q, id);
    Longer(s1, b, actions, id);
    Longer(s, a, [b] + actions, id);
    actions := [a] + ([b] + actions);
  }

  lemma {:induction false} UnsteadyEndsApart(s: State, id: Uuid) returns (actions: seq<Action>)
    requires Inv(s) && id in s.db.orders && !Steady(s, id)
    ensures EndsApart(s, actions, id)
  {
    hide Inv, MayWrite, HoldsOld, Run;
    if s.db.orders[id].status.Pending? {
      actions := CancelEndsApart(s, id);
    } else if !Agrees(s, id) {
      actions := [];
      RunNone(s);
    } else if !Settled(s, id) {
      var p :| p in s.calls && MayWrite(s.calls[p], id, s.db.orders[id].status);
      actions := WriterEndsApart(s, p, id);
    } else {
      var p :| p in s.calls && HoldsOld(s.calls[p], s.db.orders[id]);
      actions := OldReaderSets(s, p, id);
    }
  }

  lemma RunNone(s: State)
    ensures Run(s, []) == s
  {
    hide Next;
  }

  // ----- exactly when -----

  /** No failure-free continuation makes GetOrder answer another version than the row's. */
  ghost predicate StaysFresh(s: State, id: Uuid) {
    forall actions :: SmoothRun(s, actions) ==> id in Run(s, actions).db.orders && Agrees(Run(s, actions), id)
  }

  /** The cache of a row stays right in every failure-free continuation, and then
      in every continuation at all, if and only if the row is settled (so no longer
      Pending), its live entry is the row, and no reader holds another version. */
  lemma {:induction false} FreshIffSteady(s: State, id: Uuid)
    requires Inv(s) && id in s.db.orders
    ensures StaysFresh(s, id) <==> Steady(s, id)
    ensures Steady(s, id) ==> forall actions :: Steady(Run(s, actions), id)
  {
    if Steady(s, id) {
      forall actions ensures Steady(Run(s, actions), id) {
        SteadyAgrees(s, actions, id);
      }
      hide Run, Inv, Settled;
    } else {
      var actions := UnsteadyEndsApart(s, id);
      hide Run, Inv, Steady, SmoothRun;
    }
  }
}
