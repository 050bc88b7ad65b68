// Every delivery is accounted for: queued, with a worker, acked or dead-lettered,
// and dead-lettered exactly when its processing had given up.

module Deliveries {
  import opened Domain
  import opened Notifier
  import opened Tables

  /** The workers that have the event. */
  function Holders(workers: map<nat, Worker>, e: Event): set<nat> {
    set w | w in workers && workers[w].e == e
  }

  /** The step settles a delivery of the event for good: gaveUp tells with which verdict. */
  predicate Settles(s: State, a: Action, e: Event, gaveUp: bool) {
    && a.Settle? && a.f.Acked? && a.w in s.workers && s.workers[a.w].Settling?
    && s.workers[a.w].e == e && s.workers[a.w].how.GaveUp? == gaveUp
  }

  function Published(actions: seq<Action>, e: Event): nat {
    if actions == [] then 0 else (if actions[0] == Publish(e) then 1 else 0) + Published(actions[1..], e)
  }

  function Settlements(s: State, actions: seq<Action>, e: Event, gaveUp: bool): nat
    decreases |actions|
  {
    if actions == [] then 0
    else (if Settles(s, actions[0], e, gaveUp) then 1 else 0) + Settlements(Next(s, actions[0]), actions[1..], e, gaveUp)
  }

  /** The deliveries of the event that are not settled, or dead. */
  function Here(s: State, e: Event): nat {
    s.ready[e] + |Holders(s.workers, e)| + s.dead[e]
  }

  lemma OneLess(workers: map<nat, Worker>, w: nat, e: Event)
    requires w in workers
    ensures |Holders(workers - {w}, e)| == |Holders(workers, e)| - if workers[w].e == e then 1 else 0
  {
    assert Holders(workers - {w}, e) == Holders(workers, e) - {w};
    assert w in Holders(workers, e) <==> workers[w].e == e;
    hide Holders;
  }

  lemma OneMore(workers: map<nat, Worker>, w: nat, x: Worker, e: Event)
    requires w !in workers
    ensures |Holders(workers[w := x], e)| == |Holders(workers, e)| + if x.e == e then 1 else 0
  {
    OneLess(workers[w := x], w, e);
    assert workers[w := x] - {w} == workers;
    hide Holders;
  }

  lemma SameHolders(s: State, a: Action, e: Event)
    requires !a.Deliver? && !a.Settle? && !a.Crash?
    ensures var t := Next(s, a);
            && Holders(t.workers, e) == Holders(s.workers, e) && t.dead == s.dead
            && t.ready == if a.Publish? then s.ready + multiset{a.e} else s.ready
  {
    hide Delay, Locked;
  }

  /** The step has counted what it moved. */
  ghost predicate Counted(s: State, a: Action, t: State, e: Event) {
    && Here(t, e) + (if Settles(s, a, e, false) then 1 else 0) == Here(s, e) + (if a == Publish(e) then 1 else 0)
    && t.dead[e] == s.dead[e] + (if Settles(s, a, e, true) then 1 else 0)
  }

  lemma DeliverCounts(s: State, w: nat, x: Event, e: Event)
    ensures Counted(s, Deliver(w, x), Next(s, Deliver(w, x)), e)
  {
    if w !in s.workers && x in s.ready {
      OneMore(s.workers, w, Locking(x), e);
    }
    hide Holders;
  }

  lemma SettleCounts(s: State, w: nat, f: Fault, e: Event)
    ensures Counted(s, Settle(w, f), Next(s, Settle(w, f)), e)
  {
    if w in s.workers && s.workers[w].Settling? {
      OneLess(s.workers, w, e);
    }
    hide Holders;
  }

  lemma CrashCounts(s: State, w: nat, e: Event)
    ensures Counted(s, Crash(w), Next(s, Crash(w)), e)
  {
    if w in s.workers {
      OneLess(s.workers, w, e);
    }
    hide Holders;
  }

  lemma StepCounts(s: State, a: Action, e: Event)
    ensures Counted(s, a, Next(s, a), e)
  {
    match a {
      case Deliver(w, x) =>
        hide *;
        DeliverCounts(s, w, x, e);
      case Settle(w, f) =>
        hide *;
        SettleCounts(s, w, f, e);
      case Crash(w) =>
        hide *;
        CrashCounts(s, w, e);
      case _ =>
        SameHolders(s, a, e);
        hide Next, Holders;
    }
  }

  lemma {:induction false} CountsFrom(s: State, actions: seq<Action>, e: Event)
    ensures var t := Run(s, actions);
            && Here(t, e) + Settlements(s, actions, e, false) == Here(s, e) + Published(actions, e)
            && t.dead[e] == s.dead[e] + Settlements(s, actions, e, true)
    decreases |actions|
  {
    if actions != [] {
      StepCounts(s, actions[0], e);
      hide Next, Here, Settles;
      CountsFrom(Next(s, actions[0]), actions[1..], e);
    }
  }

  /** In every run, with whatever crashes and lost settlements: an event has been
      published as often as it is queued, with a worker, dead-lettered or acked after
      being skipped or mailed; and it is dead-lettered as often as it was nacked. */
  lemma {:induction false} EveryDeliveryIsAccountedFor(retries: nat, actions: seq<Action>, e: Event)
    ensures var s := Run(Init(retries), actions);
            && Published(actions, e)
               == s.ready[e] + |Holders(s.workers, e)| + s.dead[e] + Settlements(Init(retries), actions, e, false)
            && s.dead[e] == Settlements(Init(retries), actions, e, true)
  {
    CountsFrom(Init(retries), actions, e);
    assert Holders(Init(retries).workers, e) == {};
  }
}
