// No published message disappears: which crashes and failed settlements are
// harmless, that without the others every message is queued, in flight, emailed
// or dead-lettered at every moment, and that each of the others loses one.

module NoLoss {
  import opened Domain
  import opened Tables
  import opened Notifier
  import opened AtMostOnce
  import opened Provenance

  /** A worker that will not drop its message: it holds the lock, has mailed, or will dead-letter. */
  predicate Committed(x: Worker) {
    Holding(x) || (x.Settling? && !x.how.Skipped?)
  }

  ghost predicate Emailed(s: State, id: Uuid) {
    exists i :: 0 <= i < |s.sent| && s.sent[i].e.messageId == id
  }

  ghost predicate DeadLettered(s: State, id: Uuid) {
    exists e :: e in s.dead && e.messageId == id
  }

  /** A worker other than w is in charge of the message. */
  ghost predicate OtherInCharge(s: State, id: Uuid, w: nat) {
    exists v :: v in s.workers && v != w && Committed(s.workers[v]) && s.workers[v].e.messageId == id
  }

  ghost predicate InCharge(s: State, id: Uuid) {
    exists w :: w in s.workers && Committed(s.workers[w]) && s.workers[w].e.messageId == id
  }

  ghost predicate InFlight(s: State, id: Uuid) {
    exists w :: w in s.workers && s.workers[w].e.messageId == id
  }

  ghost predicate BeingLocked(s: State, id: Uuid) {
    exists w :: w in s.workers && s.workers[w].Locking? && s.workers[w].e.messageId == id
  }

  ghost predicate Queued(s: State, id: Uuid) {
    exists e :: e in s.ready && e.messageId == id
  }

  /** The message is somewhere. */
  ghost predicate Present(s: State, id: Uuid) {
    Queued(s, id) || InFlight(s, id) || Emailed(s, id) || DeadLettered(s, id)
  }

  /** Somebody has sent, has dead-lettered or is in charge of this message. */
  ghost predicate Covered(s: State, id: Uuid) {
    Emailed(s, id) || DeadLettered(s, id) || InCharge(s, id)
  }

  /** Covered; or no live key stands in the way of a delivery to come. */
  ghost predicate Safe(s: State, id: Uuid) {
    Covered(s, id) || (!Locked(s, id) && (Queued(s, id) || BeingLocked(s, id)))
  }

  ghost predicate MailedOk(s: State) {
    forall w :: w in s.workers && s.workers[w].Settling? && s.workers[w].how.Mailed? ==> Emailed(s, s.workers[w].e.messageId)
  }

  /** A live key means that its message is covered: the key step. */
  ghost predicate KeysOk(s: State) {
    forall id :: Locked(s, id) ==> Covered(s, id)
  }

  ghost predicate Inv(s: State) {
    && NoStrangers(s) && MailedOk(s) && KeysOk(s)
    && forall e :: e in s.published ==> Safe(s, e.messageId)
  }

  // ----- the steps that may lose a message -----

  /** A worker dies, or settles and the broker does not hear of it. */
  predicate Breaks(s: State, a: Action) {
    && (a.Crash? || (a.Settle? && !a.f.Acked?))
    && a.w in s.workers && (a.Settle? ==> s.workers[a.w].Settling?)
  }

  /** ... which does no harm unless its message has a live key, and it alone was
      in charge of a message that is neither emailed nor dead-lettered. */
  ghost predicate Harmless(s: State, a: Action) {
    Breaks(s, a) && Committed(s.workers[a.w]) ==>
      var id := s.workers[a.w].e.messageId;
      !Locked(s, id) || Emailed(s, id) || DeadLettered(s, id) || OtherInCharge(s, id, a.w)
  }

  /** No crash, and every Redis and broker operation succeeds and says so. */
  predicate FaultFree(s: State, a: Action) {
    !a.Crash? && (a.SetNX? || a.Del? || a.Settle? ==> a.f.Acked?)
  }

  // ----- what one step keeps -----

  /** What was sent or dead-lettered stays so. */
  lemma NothingTakenBack(s: State, a: Action)
    ensures s.sent <= Next(s, a).sent && forall e :: e in s.dead ==> e in Next(s, a).dead
  {
    hide Delay, Locked;
  }

  lemma SettledStays(s: State, a: Action, id: Uuid)
    requires Emailed(s, id) || DeadLettered(s, id)
    ensures Emailed(Next(s, a), id) || DeadLettered(Next(s, a), id)
  {
    NothingTakenBack(s, a);
    var t := Next(s, a);
    hide Next;
    if Emailed(s, id) {
      var i :| 0 <= i < |s.sent| && s.sent[i].e.messageId == id;
      assert t.sent[i] == s.sent[i];
    } else {
      var e :| e in s.dead && e.messageId == id;
      assert e in t.dead;
    }
  }

  /** A worker keeps its message, and what it has taken on. */
  lemma KeepsItsMessage(s: State, a: Action, w: nat)
    requires w in s.workers && w in Next(s, a).workers
    ensures var x, y := s.workers[w], Next(s, a).workers[w];
            && y.e == x.e && (Committed(x) ==> Committed(y))
            && (x.Locking? && !Locked(s, x.e.messageId) ==> y.Locking? || Committed(y))
  {
    hide Delay;
    if Next(s, a).workers[w] != s.workers[w] {
      OneMoves(s, a, w);
    }
  }

  /** Only a crash or its settlement ends a worker; its message goes back to the
      queue, or to the dead-letter queue if it was nacked. */
  lemma Leaves(s: State, a: Action, w: nat)
    requires w in s.workers && w !in Next(s, a).workers
    ensures var t := Next(s, a);
            && (a.Crash? || (a.Settle? && s.workers[w].Settling?)) && a.w == w
            && t.locks == s.locks && t.now == s.now
            && (Breaks(s, a) ==> s.workers[w].e in t.ready)
            && (!Breaks(s, a) && s.workers[w].how.GaveUp? ==> s.workers[w].e in t.dead)
  {
    hide Delay, Locked;
  }

  /** A key comes to life only by the SetNX of a worker that is then in charge. */
  lemma NewKey(s: State, a: Action, id: Uuid)
    requires !Locked(s, id) && Locked(Next(s, a), id)
    ensures InCharge(Next(s, a), id)
  {
    hide Delay;
    var t := Next(s, a);
    assert a.SetNX? && a.w in t.workers && Committed(t.workers[a.w]) && t.workers[a.w].e.messageId == id;
  }

  lemma InChargeStays(s: State, a: Action, id: Uuid)
    requires MailedOk(s) && Harmless(s, a) && InCharge(s, id)
    ensures Safe(Next(s, a), id)
  {
    var t := Next(s, a);
    var w :| w in s.workers && Committed(s.workers[w]) && s.workers[w].e.messageId == id;
    if w in t.workers {
      KeepsItsMessage(s, a, w);
    } else {
      Leaves(s, a, w);
      hide Next, Delay;
      if !Breaks(s, a) {
        if s.workers[w].how.GaveUp? {
          assert DeadLettered(t, id);
        } else {
          SettledStays(s, a, id);
        }
      } else if !Locked(s, id) {
        assert Queued(t, id) && !Locked(t, id);
      } else if Emailed(s, id) || DeadLettered(s, id) {
        SettledStays(s, a, id);
      } else {
        OtherStays(s, a, id, w);
      }
    }
  }

  lemma OtherStays(s: State, a: Action, id: Uuid, w: nat)
    requires OtherInCharge(s, id, w) && w in s.workers && w !in Next(s, a).workers
    ensures InCharge(Next(s, a), id)
  {
    Leaves(s, a, w);
    var v :| v in s.workers && v != w && Committed(s.workers[v]) && s.workers[v].e.messageId == id;
    if v in Next(s, a).workers {
      KeepsItsMessage(s, a, v);
      hide Next;
    } else {
      Leaves(s, a, v);
      assert false;
    }
  }

  /** A delivery to come stays to come, until somebody is in charge. */
  lemma ComingStays(s: State, a: Action, id: Uuid)
    requires !Locked(s, id) && (Queued(s, id) || BeingLocked(s, id))
    ensures Safe(Next(s, a), id)
  {
    var t := Next(s, a);
    if Locked(t, id) {
      NewKey(s, a, id);
    } else if w :| w in s.workers && s.workers[w].Locking? && s.workers[w].e.messageId == id {
      if w in t.workers {
        KeepsItsMessage(s, a, w);
        hide Next, Locked;
        if t.workers[w].Locking? {
          assert BeingLocked(t, id);
        } else {
          assert InCharge(t, id);
        }
      } else {
        Leaves(s, a, w);
        assert Queued(t, id);
      }
    } else {
      var e :| e in s.ready && e.messageId == id;
      QueuedStays(s, a, e);
    }
  }

  lemma QueuedStays(s: State, a: Action, e: Event)
    requires e in s.ready
    ensures Queued(Next(s, a), e.messageId) || BeingLocked(Next(s, a), e.messageId)
  {
    hide Delay, Locked;
    var t := Next(s, a);
    if e !in t.ready {
      assert t.workers[a.w] == Locking(e);
    }
  }

  lemma SafeStays(s: State, a: Action, id: Uuid)
    requires MailedOk(s) && Harmless(s, a) && Safe(s, id)
    ensures Safe(Next(s, a), id)
  {
    hide Next, Locked, Harmless, MailedOk, Emailed, DeadLettered, InCharge, Queued, BeingLocked;
    if Emailed(s, id) || DeadLettered(s, id) {
      SettledStays(s, a, id);
    } else if InCharge(s, id) {
      InChargeStays(s, a, id);
    } else {
      ComingStays(s, a, id);
    }
  }

  lemma MailedStays(s: State, a: Action)
    requires MailedOk(s)
    ensures MailedOk(Next(s, a))
  {
    var t := Next(s, a);
    forall w | w in t.workers && t.workers[w].Settling? && t.workers[w].how.Mailed?
      ensures Emailed(t, t.workers[w].e.messageId)
    {
      MailedNow(s, a, w);
    }
  }

  lemma MailedNow(s: State, a: Action, w: nat)
    requires MailedOk(s) && w in Next(s, a).workers
    requires Next(s, a).workers[w].Settling? && Next(s, a).workers[w].how.Mailed?
    ensures Emailed(Next(s, a), Next(s, a).workers[w].e.messageId)
  {
    hide Delay, Locked;
    var t := Next(s, a);
    if w in s.workers && t.workers[w] == s.workers[w] {
      NothingTakenBack(s, a);
      var i :| 0 <= i < |s.sent| && s.sent[i].e.messageId == t.workers[w].e.messageId;
      assert t.sent[i] == s.sent[i];
    } else {
      OneMoves(s, a, w);
      assert t.sent[|s.sent|].e == t.workers[w].e;
    }
  }

  lemma SafeAndLocked(s: State, id: Uuid)
    requires Safe(s, id) && Locked(s, id)
    ensures Covered(s, id)
  {
    hide Covered, Locked;
  }

  /** The key step: a live key is only ever set by a call that then takes care of the message. */
  lemma LocksStay(s: State, a: Action, id: Uuid)
    requires MailedOk(s) && KeysOk(s) && Harmless(s, a) && Locked(Next(s, a), id)
    ensures Covered(Next(s, a), id)
  {
    if Locked(s, id) {
      SafeStays(s, a, id);
      SafeAndLocked(Next(s, a), id);
    } else {
      NewKey(s, a, id);
    }
  }

  lemma PublishedStays(s: State, a: Action, e: Event)
    requires Inv(s) && Harmless(s, a) && e in Next(s, a).published
    ensures Safe(Next(s, a), e.messageId)
  {
    var t, id := Next(s, a), e.messageId;
    if e in s.published {
      SafeStays(s, a, id);
    } else {
      assert e in t.ready && Queued(t, id);
      if Locked(t, id) {
        LocksStay(s, a, id);
      }
    }
  }

  lemma StepKeeps(s: State, a: Action)
    requires Inv(s) && Harmless(s, a)
    ensures Inv(Next(s, a))
  {
    Provenance.StepKeeps(s, a);
    MailedStays(s, a);
    var t := Next(s, a);
    hide Next, Harmless, Safe, Covered, Locked, NoStrangers, MailedOk;
    forall e | e in t.published ensures Safe(t, e.messageId) { PublishedStays(s, a, e); }
    forall id | Locked(t, id) ensures Covered(t, id) { LocksStay(s, a, id); }
  }

  lemma {:induction false} RunKeeps(s: State, actions: seq<Action>)
    requires Inv(s) && Along(s, actions, Harmless)
    ensures Inv(Run(s, actions))
    decreases |actions|
  {
    if actions != [] {
      StepKeeps(s, actions[0]);
      hide Inv, Next, Harmless;
      RunKeeps(Next(s, actions[0]), actions[1..]);
    }
  }

  lemma SafeIsPresent(s: State, id: Uuid)
    requires Safe(s, id)
    ensures Present(s, id)
  {
    hide Locked, Committed, Emailed, DeadLettered, Queued;
  }

  /** At every moment of a run in which every crash and every failed settlement is
      harmless, every message id that was published is queued, in flight, emailed or dead. */
  lemma {:induction false} NothingIsLost(retries: nat, actions: seq<Action>, e: Event)
    requires Along(Init(retries), actions, Harmless)
    requires e in Run(Init(retries), actions).published
    ensures Present(Run(Init(retries), actions), e.messageId)
  {
    RunKeeps(Init(retries), actions);
    hide Run, Safe;
    SafeIsPresent(Run(Init(retries), actions), e.messageId);
  }

  // ----- and each harmful step does lose one -----

  lemma FreshWorker(workers: map<nat, Worker>) returns (w: nat)
    ensures w !in workers
  {
    w := Above(workers.Keys);
  }

  lemma {:induction false} Above(ws: set<nat>) returns (n: nat)
    ensures forall w :: w in ws ==> w < n
  {
    if v :| v in ws {
      var m := Above(ws - {v});
      n := if v < m then m else v + 1;
      assert forall w :: w in ws ==> w == v || w in ws - {v};
    } else {
      n := 0;
    }
  }

  /** The worker's message has a live key: it skips it, and acks. */
  lemma Skips(s: State, w: nat)
    requires w in s.workers && s.workers[w].Locking? && Locked(s, s.workers[w].e.messageId)
    ensures Next(Next(s, SetNX(w, Acked)), Settle(w, Acked)) == s.(workers := s.workers - {w})
  {
    var s1 := Next(s, SetNX(w, Acked));
    assert s1 == s.(workers := s.workers[w := Settling(s.workers[w].e, Skipped)]);
    assert s1.workers - {w} == s.workers - {w};
  }

  lemma DeliverAndSkip(s: State, w: nat, e: Event)
    requires w !in s.workers && e in s.ready && Locked(s, e.messageId)
    ensures Next(Next(Next(s, Deliver(w, e)), SetNX(w, Acked)), Settle(w, Acked))
            == s.(ready := s.ready - multiset{e})
  {
    var s1 := Next(s, Deliver(w, e));
    Skips(s1, w);
    assert s1.workers - {w} == s.workers;
  }

  /** Nobody is in charge, and a live key, or an empty queue, keeps it that way. */
  ghost predicate Doomed(s: State, id: Uuid) {
    !Covered(s, id) && (Locked(s, id) || (!Queued(s, id) && !BeingLocked(s, id)))
  }

  lemma StillDoomed(s: State, t: State, id: Uuid)
    requires Doomed(s, id)
    requires t.sent == s.sent && t.dead == s.dead && t.locks == s.locks && t.now == s.now
    requires t.ready <= s.ready && t.workers.Keys <= s.workers.Keys
    requires forall w :: w in t.workers ==> t.workers[w] == s.workers[w]
    ensures Doomed(t, id)
  {
  }

  lemma AlongMore(s: State, a: Action, rest: seq<Action>)
    requires FaultFree(s, a) && Along(Next(s, a), rest, FaultFree)
    ensures Along(s, [a] + rest, FaultFree) && Run(s, [a] + rest) == Run(Next(s, a), rest)
  {
    assert ([a] + rest)[1..] == rest;
    hide Next;
  }

  /** A fault-free continuation after which the message is nowhere: every copy is
      delivered, skipped and acked. */
  lemma {:induction false} Drain(s: State, id: Uuid) returns (actions: seq<Action>)
    requires Doomed(s, id)
    ensures Along(s, actions, FaultFree) && !Present(Run(s, actions), id)
    decreases |s.ready| + |s.workers|
  {
    if w :| w in s.workers && s.workers[w].e.messageId == id {
      var t := s.(workers := s.workers - {w});
      FewerWorkers(s.workers, w);
      StillDoomed(s, t, id);
      actions := Drain(t, id);
      actions := WorkerEnds(s, id, w, actions);
    } else if e :| e in s.ready && e.messageId == id {
      var t := s.(ready := s.ready - multiset{e});
      StillDoomed(s, t, id);
      actions := Drain(t, id);
      actions := CopyEnds(s, e, actions);
    } else {
      actions := [];
    }
  }

  lemma FewerWorkers(workers: map<nat, Worker>, w: nat)
    requires w in workers
    ensures |workers - {w}| < |workers|
  {
    assert (workers - {w}).Keys == workers.Keys - {w};
  }

  lemma WorkerEnds(s: State, id: Uuid, w: nat, rest: seq<Action>) returns (actions: seq<Action>)
    requires Doomed(s, id) && w in s.workers && s.workers[w].e.messageId == id
    requires Along(s.(workers := s.workers - {w}), rest, FaultFree)
    ensures Along(s, actions, FaultFree) && Run(s, actions) == Run(s.(workers := s.workers - {w}), rest)
  {
    assert !Committed(s.workers[w]);
    if s.workers[w].Locking? {
      Skips(s, w);
      hide Next, Run, Along;
      AlongMore(Next(s, SetNX(w, Acked)), Settle(w, Acked), rest);
      AlongMore(s, SetNX(w, Acked), [Settle(w, Acked)] + rest);
      actions := [SetNX(w, Acked)] + ([Settle(w, Acked)] + rest);
    } else {
      assert Next(s, Settle(w, Acked)) == s.(workers := s.workers - {w});
      hide Next, Run, Along;
      AlongMore(s, Settle(w, Acked), rest);
      actions := [Settle(w, Acked)] + rest;
    }
  }

  lemma CopyEnds(s: State, e: Event, rest: seq<Action>) returns (actions: seq<Action>)
    requires e in s.ready && Locked(s, e.messageId)
    requires Along(s.(ready := s.ready - multiset{e}), rest, FaultFree)
    ensures Along(s, actions, FaultFree) && Run(s, actions) == Run(s.(ready := s.ready - multiset{e}), rest)
  {
    var w := FreshWorker(s.workers);
    DeliverAndSkip(s, w, e);
    hide Next, Run, Along;
    var s1 := Next(s, Deliver(w, e));
    AlongMore(Next(s1, SetNX(w, Acked)), Settle(w, Acked), rest);
    AlongMore(s1, SetNX(w, Acked), [Settle(w, Acked)] + rest);
    AlongMore(s, Deliver(w, e), [SetNX(w, Acked)] + ([Settle(w, Acked)] + rest));
    actions := [Deliver(w, e)] + ([SetNX(w, Acked)] + ([Settle(w, Acked)] + rest));
  }

  /** The message is somewhere after every fault-free continuation. */
  ghost predicate Kept(s: State, id: Uuid) {
    forall actions :: Along(s, actions, FaultFree) ==> Present(Run(s, actions), id)
  }

  lemma {:induction false} SafeIsKept(s: State, actions: seq<Action>, id: Uuid)
    requires MailedOk(s) && Safe(s, id) && Along(s, actions, FaultFree)
    ensures Present(Run(s, actions), id)
    decreases |actions|
  {
    if actions == [] {
      SafeIsPresent(s, id);
    } else {
      assert Harmless(s, actions[0]);
      SafeStays(s, actions[0], id);
      MailedStays(s, actions[0]);
      hide Next, Safe, MailedOk, FaultFree, Harmless;
      SafeIsKept(Next(s, actions[0]), actions[1..], id);
    }
  }

  /** No fault-free continuation loses a message if and only if it is covered, or
      has no live key and is queued or about to be locked. */
  lemma {:induction false} KeptIffSafe(s: State, id: Uuid)
    requires MailedOk(s)
    ensures Kept(s, id) <==> Safe(s, id)
  {
    if Safe(s, id) {
      forall actions | Along(s, actions, FaultFree) ensures Present(Run(s, actions), id) {
        SafeIsKept(s, actions, id);
      }
    } else {
      assert Doomed(s, id);
      var actions := Drain(s, id);
    }
  }

  lemma {:induction false} MailedAlways(s: State, actions: seq<Action>)
    requires MailedOk(s)
    ensures MailedOk(Run(s, actions))
    decreases |actions|
  {
    if actions != [] {
      MailedStays(s, actions[0]);
      hide Next, MailedOk;
      MailedAlways(Next(s, actions[0]), actions[1..]);
    }
  }

  /** The same in whatever state crashes and failures of every kind have led to. */
  lemma {:induction false} KeptIffSafeAnywhere(retries: nat, before: seq<Action>, id: Uuid)
    ensures var s := Run(Init(retries), before); Kept(s, id) <==> Safe(s, id)
  {
    MailedAlways(Init(retries), before);
    hide Run, Safe, Kept;
    KeptIffSafe(Run(Init(retries), before), id);
  }

  /** After harmless steps only, one more step leaves every published message
      safe from every fault-free continuation if and only if it is harmless. */
  lemma {:induction false} ExactlyTheHarmlessStepsKeepAll(retries: nat, before: seq<Action>, a: Action)
    requires Along(Init(retries), before, Harmless)
    ensures var s := Run(Init(retries), before);
            Harmless(s, a) <==> forall e :: e in Next(s, a).published ==> Kept(Next(s, a), e.messageId)
  {
    RunKeeps(Init(retries), before);
    var s := Run(Init(retries), before);
    MailedStays(s, a);
    if Harmless(s, a) {
      StepKeeps(s, a);
      forall e | e in Next(s, a).published ensures Kept(Next(s, a), e.messageId) {
        KeptIffSafe(Next(s, a), e.messageId);
      }
    } else {
      var e := HarmfulUncovers(s, a);
      KeptIffSafe(Next(s, a), e.messageId);
    }
  }

  lemma HarmfulUncovers(s: State, a: Action) returns (e: Event)
    requires Inv(s) && !Harmless(s, a)
    ensures e in Next(s, a).published && !Safe(Next(s, a), e.messageId)
  {
    e := s.workers[a.w].e;
    var t, id := Next(s, a), e.messageId;
    assert t.published == s.published && t.workers == s.workers - {a.w};
    assert t.locks == s.locks && t.now == s.now && t.sent == s.sent && t.dead == s.dead;
    hide Next;
    assert Locked(t, id);
    assert !InCharge(t, id);
  }

  /** A crash between SetNX and Send: the redelivery is skipped and acked, and
      the message is nowhere. */
  lemma {:induction false} ACrashAfterTheLockLosesIt(retries: nat, e: Event) returns (actions: seq<Action>)
    ensures actions == [Publish(e), Deliver(0, e), SetNX(0, Acked), Crash(0), Deliver(1, e), SetNX(1, Acked), Settle(1, Acked)]
    ensures var s := Run(Init(retries), actions); e in s.published && !Present(s, e.messageId)
  {
    actions := [];
    var s := Init(retries);
    RunSnoc(s, actions, Publish(e)); actions := actions + [Publish(e)];
    RunSnoc(s, actions, Deliver(0, e)); actions := actions + [Deliver(0, e)];
    RunSnoc(s, actions, SetNX(0, Acked)); actions := actions + [SetNX(0, Acked)];
    RunSnoc(s, actions, Crash(0)); actions := actions + [Crash(0)];
    assert Run(s, actions) == LockedAndQueued(retries, e);
    actions := SkippedAndAcked(retries, e, actions);
  }

  /** No crash: the SetNX is done but reported as failed, and the nack is lost. */
  lemma {:induction false} AFailedSettlementLosesIt(retries: nat, e: Event) returns (actions: seq<Action>)
    ensures actions == [Publish(e), Deliver(0, e), SetNX(0, Unacked), Settle(0, Lost), Deliver(1, e), SetNX(1, Acked), Settle(1, Acked)]
    ensures var s := Run(Init(retries), actions); e in s.published && !Present(s, e.messageId)
  {
    actions := [];
    var s := Init(retries);
    RunSnoc(s, actions, Publish(e)); actions := actions + [Publish(e)];
    RunSnoc(s, actions, Deliver(0, e)); actions := actions + [Deliver(0, e)];
    RunSnoc(s, actions, SetNX(0, Unacked)); actions := actions + [SetNX(0, Unacked)];
    RunSnoc(s, actions, Settle(0, Lost)); actions := actions + [Settle(0, Lost)];
    assert Run(s, actions) == LockedAndQueued(retries, e);
    actions := SkippedAndAcked(retries, e, actions);
  }

  function LockedAndQueued(retries: nat, e: Event): State {
    Init(retries).(published := {e}, ready := multiset{e}, locks := map[e.messageId := TTL])
  }

  lemma SkippedAndAcked(retries: nat, e: Event, before: seq<Action>) returns (actions: seq<Action>)
    requires Run(Init(retries), before) == LockedAndQueued(retries, e)
    ensures actions == before + [Deliver(1, e), SetNX(1, Acked), Settle(1, Acked)]
    ensures var s := Run(Init(retries), actions); e in s.published && !Present(s, e.messageId)
  {
    var s, mid := Init(retries), LockedAndQueued(retries, e);
    DeliverAndSkip(mid, 1, e);
    assert mid.(ready := mid.ready - multiset{e}) == mid.(ready := multiset{});
    hide Next, Run;
    RunSnoc(s, before, Deliver(1, e));
    RunSnoc(s, before + [Deliver(1, e)], SetNX(1, Acked));
    RunSnoc(s, before + [Deliver(1, e)] + [SetNX(1, Acked)], Settle(1, Acked));
    actions := before + [Deliver(1, e), SetNX(1, Acked), Settle(1, Acked)];
    assert actions == before + [Deliver(1, e)] + [SetNX(1, Acked)] + [Settle(1, Acked)];
  }
}
