// The notification service as a timed transition system: a queue with a
// dead-letter queue, any number of workers, and Redis locks that expire.
// Times are in nanoseconds.

module Notifier {
  import opened Domain
  import opened Powers
  import opened Tables

  const SECOND: nat := 1000000000
  const TTL: nat := 86400 * SECOND

  datatype Outcome = Skipped | Mailed | GaveUp

  /** A worker by what it does next.  lockedAt is the time of its SetNX, since
      the time it came to where it is. */
  datatype Worker =
    | Locking(e: Event)
    | Sending(e: Event, attempt: nat, lockedAt: nat, since: nat)
    | Sleeping(e: Event, attempt: nat, lockedAt: nat, since: nat)
    | Unlocking(e: Event, lockedAt: nat, since: nat)
    | Settling(e: Event, how: Outcome)

  /** A Send that succeeded, with the SetNX time of the call that made it. */
  datatype Sent = Sent(e: Event, lockedAt: nat, at: nat)

  datatype State = State(
    retries: nat,                 // MAX_RETRIES
    now: nat,
    published: set<Event>,
    ready: multiset<Event>,       // waiting in payment.completed
    workers: map<nat, Worker>,
    locks: map<Uuid, nat>,        // processed:<message id>, with its expiry time
    sent: seq<Sent>,
    dead: multiset<Event>)        // in dlq.payment.completed

  datatype Action =
    | Publish(e: Event)
    | Deliver(w: nat, e: Event)
    | SetNX(w: nat, f: Fault)
    | Send(w: nat, ok: bool)
    | Wake(w: nat)
    | Del(w: nat, f: Fault)
    | Settle(w: nat, f: Fault)
    | Crash(w: nat)
    | Pass(d: nat)

  function Init(retries: nat): State {
    State(retries, 0, {}, multiset{}, map[], map[], [], multiset{})
  }

  /** The sleep before retry number `attempt`, attempt >= 1: 2, 4, 8... seconds. */
  function Delay(attempt: nat): nat {
    Pow2(attempt) * SECOND
  }

  predicate Locked(s: State, id: Uuid) {
    id in s.locks && s.now < s.locks[id]
  }

  /** The step, or s itself when the action is not enabled. */
  function Next(s: State, a: Action): State {
    match a
    case Publish(e) => s.(published := s.published + {e}, ready := s.ready + multiset{e})
    case Deliver(w, e) =>
      if w in s.workers || e !in s.ready then s
      else s.(ready := s.ready - multiset{e}, workers := s.workers[w := Locking(e)])
    case SetNX(w, f) => if w in s.workers && s.workers[w].Locking? then DoSetNX(s, w, s.workers[w].e, f) else s
    case Send(w, ok) => if w in s.workers && s.workers[w].Sending? then DoSend(s, w, s.workers[w], ok) else s
    case Wake(w) =>
      if w in s.workers && s.workers[w].Sleeping? && s.now >= s.workers[w].since + Delay(s.workers[w].attempt)
      then s.(workers := s.workers[w := Sending(s.workers[w].e, s.workers[w].attempt, s.workers[w].lockedAt, s.now)])
      else s
    case Del(w, f) =>
      if w in s.workers && s.workers[w].Unlocking?
      then s.(locks := if f.Lost? then s.locks else s.locks - {s.workers[w].e.messageId},
              workers := s.workers[w := Settling(s.workers[w].e, GaveUp)])
      else s
    case Settle(w, f) => if w in s.workers && s.workers[w].Settling? then DoSettle(s, w, s.workers[w].e, s.workers[w].how, f) else s
    case Crash(w) =>
      // an unsettled delivery goes back to the queue
      if w in s.workers then s.(ready := s.ready + multiset{s.workers[w].e}, workers := s.workers - {w}) else s
    case Pass(d) => s.(now := s.now + d)
  }

  function DoSetNX(s: State, w: nat, e: Event, f: Fault): State {
    var free := !Locked(s, e.messageId);
    var locks := if free && !f.Lost? then s.locks[e.messageId := s.now + TTL] else s.locks;
    s.(locks := locks,
    workers := s.workers[w := if !f.Acked? then Settling(e, GaveUp)
                              else if free then Sending(e, 0, s.now, s.now)
                              else Settling(e, Skipped)])
  }

  function DoSend(s: State, w: nat, x: Worker, ok: bool): State
    requires x.Sending?
  {
    if ok then s.(sent := s.sent + [Sent(x.e, x.lockedAt, s.now)], workers := s.workers[w := Settling(x.e, Mailed)])
    else s.(workers := s.workers[w := if x.attempt < s.retries
                                      then Sleeping(x.e, x.attempt + 1, x.lockedAt, s.now)
                                      else Unlocking(x.e, x.lockedAt, s.now)])
  }

  /** Ack, or Nack without requeue; a settlement that fails leaves the delivery to be redelivered. */
  function DoSettle(s: State, w: nat, e: Event, how: Outcome, f: Fault): State {
    var s1 := s.(workers := s.workers - {w});
    if !f.Acked? then s1.(ready := s1.ready + multiset{e})
    else if how.GaveUp? then s1.(dead := s1.dead + multiset{e})
    else s1
  }

  function Run(s: State, actions: seq<Action>): State
    decreases |actions|
  {
    if actions == [] then s else Run(Next(s, actions[0]), actions[1..])
  }

  lemma {:induction false} RunSnoc(s: State, actions: seq<Action>, a: Action)
    ensures Run(s, actions + [a]) == Next(Run(s, actions), a)
    decreases |actions|
  {
    hide Next;
    if actions == [] {
      assert ([] + [a])[1..] == [];
    } else {
      assert (actions + [a])[1..] == actions[1..] + [a];
      RunSnoc(Next(s, actions[0]), actions[1..], a);
    }
  }

  /** Every step of the run is allowed by p, which may look at the state it is taken in. */
  ghost predicate Along(s: State, actions: seq<Action>, p: (State, Action) -> bool)
    decreases |actions|
  {
    actions != [] ==> p(s, actions[0]) && Along(Next(s, actions[0]), actions[1..], p)
  }

  lemma {:induction false} AlongSnoc(s: State, actions: seq<Action>, p: (State, Action) -> bool, a: Action)
    requires Along(s, actions, p) && p(Run(s, actions), a)
    ensures Along(s, actions + [a], p)
    decreases |actions|
  {
    hide Next;
    if actions == [] {
      assert ([] + [a])[1..] == [];
    } else {
      assert (actions + [a])[1..] == actions[1..] + [a];
      AlongSnoc(Next(s, actions[0]), actions[1..], p, a);
    }
  }

  /** Where a worker is when `attempt` attempts have failed. */
  function Facing(e: Event, attempt: nat, retries: nat, lockedAt: nat, now: nat): Worker {
    if attempt == 0 then Sending(e, 0, lockedAt, now)
    else if attempt <= retries then Sleeping(e, attempt, lockedAt, now)
    else Unlocking(e, lockedAt, now)
  }

  /** Only the worker that acts moves. */
  lemma OneMoves(s: State, a: Action, w: nat)
    requires w in Next(s, a).workers && !(w in s.workers && Next(s, a).workers[w] == s.workers[w])
    ensures !a.Publish? && !a.Pass? && !a.Crash? && !a.Settle? && a.w == w
  {
    hide Delay, Pow2;
  }
}
