// Nothing is in the notification service that was not published to it.

module Provenance {
  import opened Domain
  import opened Notifier

  /** Every event the notifier has anywhere was published to it. */
  ghost predicate NoStrangers(s: State) {
    && (forall e :: e in s.ready ==> e in s.published)
    && (forall w :: w in s.workers ==> s.workers[w].e in s.published)
    && (forall i :: 0 <= i < |s.sent| ==> s.sent[i].e in s.published)
    && (forall e :: e in s.dead ==> e in s.published)
  }

  lemma PublishedOnly(s: State, a: Action)
    ensures Next(s, a).published == if a.Publish? then s.published + {a.e} else s.published
  {
    hide Delay, Locked;
  }

  /** What is queued or dead was queued or dead before, is published now, or comes back from a worker. */
  lemma QueuesFrom(s: State, a: Action, e: Event)
    requires e in Next(s, a).ready || e in Next(s, a).dead
    ensures e in s.ready || e in s.dead || a == Publish(e)
            || ((a.Settle? || a.Crash?) && a.w in s.workers && s.workers[a.w].e == e)
  {
    hide Delay, Locked;
    match a
    case Settle(w, f) =>
    case Crash(w) =>
    case _ =>
  }

  lemma ReadyKeeps(s: State, a: Action, e: Event)
    requires NoStrangers(s) && (e in Next(s, a).ready || e in Next(s, a).dead)
    ensures e in Next(s, a).published
  {
    QueuesFrom(s, a, e);
    PublishedOnly(s, a);
    hide Next;
  }

  lemma WorkerKeeps(s: State, a: Action, w: nat)
    requires NoStrangers(s) && w in Next(s, a).workers
    ensures Next(s, a).workers[w].e in s.published
  {
    hide Delay, Locked;
    if !(w in s.workers && Next(s, a).workers[w] == s.workers[w]) {
      OneMoves(s, a, w);
    }
  }

  lemma SentKeeps(s: State, a: Action, i: nat)
    requires NoStrangers(s) && i < |Next(s, a).sent|
    ensures Next(s, a).sent[i].e in s.published
  {
    hide Delay, Locked;
  }

  lemma StepKeeps(s: State, a: Action)
    requires NoStrangers(s)
    ensures NoStrangers(Next(s, a))
    ensures Next(s, a).published == if a.Publish? then s.published + {a.e} else s.published
  {
    PublishedOnly(s, a);
    var t := Next(s, a);
    hide Next;
    forall e | e in t.ready || e in t.dead ensures e in t.published { ReadyKeeps(s, a, e); }
    forall w | w in t.workers ensures t.workers[w].e in t.published { WorkerKeeps(s, a, w); }
    forall i | 0 <= i < |t.sent| ensures t.sent[i].e in t.published { SentKeeps(s, a, i); }
  }

  lemma {:induction false} RunKeeps(s: State, actions: seq<Action>, fed: set<Event>)
    requires NoStrangers(s) && s.published <= fed
    requires forall k :: 0 <= k < |actions| && actions[k].Publish? ==> actions[k].e in fed
    ensures NoStrangers(Run(s, actions)) && Run(s, actions).published <= fed
    decreases |actions|
  {
    if actions != [] {
      StepKeeps(s, actions[0]);
      assert forall k :: 0 <= k < |actions[1..]| ==> actions[1..][k] == actions[k + 1];
      hide Next, NoStrangers;
      RunKeeps(Next(s, actions[0]), actions[1..], fed);
    }
  }
}
