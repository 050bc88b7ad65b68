// ProcessPaymentCompleted: the lock, the email, the retry loop with its
// backoff, and the unlock when every attempt failed.

module NotificationUseCase {
  import opened Domain
  import opened Money
  import opened Notifier
  import opened Pacing
  import opened Powers
  import opened Tables

  datatype EmailJob = EmailJob(to: Email, orderId: Uuid, amountText: string)

  /** How the environment treats one call: its Redis replies, and for each
      attempt the outcome and length of the Send and how late the sleep before it ends. */
  datatype Env = Env(
    lock: Fault,
    lockTime: nat,
    delivered: nat -> bool,
    sendTime: nat -> nat,
    lag: nat -> nat,
    unlock: Fault,
    unlockTime: nat)

  /** The email for an event; quotient is float64(amount)/100.0 as the machine divides. */
  function JobFor(e: Event, quotient: real): EmailJob
    requires quotient >= 0.0
  {
    EmailJob(e.customerEmail, e.orderId, Dollars(quotient))
  }

  /** The email names the event's order and customer, and its text reads as the event's amount. */
  lemma EmailStatesTheEvent(e: Event, quotient: real)
    requires 0 <= e.amount <= LARGEST && Nearest(quotient, e.amount as real / 100.0)
    ensures quotient >= 0.0
    ensures var job := JobFor(e, quotient);
            job.to == e.customerEmail && job.orderId == e.orderId && |job.amountText| >= 4 && Cents(job.amountText) == e.amount
  {
    AmountReadsBack(e.amount, quotient);
    hide Nearest, Cents, Dollars;
  }

  predicate ByWorker(a: Action, w: nat) {
    match a
    case Pass(_) => true
    case SetNX(v, _) => v == w
    case Send(v, _) => v == w
    case Wake(v) => v == w
    case Del(v, _) => v == w
    case _ => false
  }

  /** Redis, the clock and the mail server as one call sees them.  The ghost
      fields tell the same story to the rest of the system: its state when the
      call began, the actions taken since, and its state now. */
  class World {
    const retries: nat
    var now: nat
    var locks: map<Uuid, nat>
    var sent: seq<Sent>
    var jobs: seq<EmailJob>   // everything handed to the sender
    ghost var start: State
    ghost var trace: seq<Action>
    ghost var state: State

    ghost predicate Valid()
      reads this
    {
      && state == Run(start, trace)
      && state == start.(now := now, locks := locks, sent := sent, workers := state.workers)
      && state.retries == retries
    }

    constructor (ghost s: State, retries: nat, now: nat, locks: map<Uuid, nat>, sent: seq<Sent>)
      requires s.retries == retries && s.now == now && s.locks == locks && s.sent == sent
      ensures Valid() && start == s && trace == [] && jobs == []
      ensures this.retries == retries && this.now == now && this.locks == locks && this.sent == sent
    {
      this.retries, this.now, this.locks, this.sent := retries, now, locks, sent;
      jobs, start, trace, state := [], s, [], s;
    }

    ghost method Note(a: Action)
      requires state == Run(start, trace)
      modifies `trace, `state
      ensures trace == old(trace) + [a] && state == Next(old(state), a) && state == Run(start, trace)
    {
      RunSnoc(start, trace, a);
      trace, state := trace + [a], Next(state, a);
    }

    method Elapse(d: nat)
      requires Valid()
      modifies `now, `trace, `state
      ensures Valid() && now == old(now) + d
      ensures trace == old(trace) + [Pass(d)] && state.workers == old(state).workers
    {
      now := now + d;
      Note(Pass(d));
    }

    method SetNX(e: Event, f: Fault, ghost w: nat) returns (free: bool)
      requires Valid() && w in state.workers && state.workers[w] == Locking(e)
      modifies `locks, `trace, `state
      ensures Valid() && free == !Held(old(locks), now, e.messageId)
      ensures locks == if free && !f.Lost? then old(locks)[e.messageId := now + TTL] else old(locks)
      ensures trace == old(trace) + [Action.SetNX(w, f)]
      ensures state.workers == old(state).workers[w := if !f.Acked? then Settling(e, GaveUp)
                                                       else if free then Sending(e, 0, now, now)
                                                       else Settling(e, Skipped)]
    {
      free := !(e.messageId in locks && now < locks[e.messageId]);
      if free && !f.Lost? {
        locks := locks[e.messageId := now + TTL];
      }
      Note(Action.SetNX(w, f));
    }

    method Del(e: Event, f: Fault, ghost w: nat)
      requires Valid() && w in state.workers && state.workers[w].Unlocking? && state.workers[w].e == e
      modifies `locks, `trace, `state
      ensures Valid() && locks == if f.Lost? then old(locks) else old(locks) - {e.messageId}
      ensures trace == old(trace) + [Action.Del(w, f)]
      ensures state.workers == old(state).workers[w := Settling(e, GaveUp)]
    {
      if !f.Lost? {
        locks := locks - {e.messageId};
      }
      Note(Action.Del(w, f));
    }

    /** time.Sleep(delay), which may last longer. */
    method Sleep(delay: nat, lag: nat, ghost w: nat)
      requires Valid() && w in state.workers && state.workers[w].Sleeping?
      requires state.workers[w].since == now && delay == Delay(state.workers[w].attempt)
      modifies `now, `trace, `state
      ensures Valid() && now == old(now) + delay + lag
      ensures trace == old(trace) + [Pass(delay + lag), Wake(w)]
      ensures var x := old(state).workers[w];
              state.workers == old(state).workers[w := Sending(x.e, x.attempt, x.lockedAt, now)]
    {
      hide Delay, Run;
      Elapse(delay + lag);
      Note(Wake(w));
    }

    method Send(job: EmailJob, e: Event, ok: bool, d: nat, lockedAt: nat, ghost w: nat)
      requires Valid() && w in state.workers && state.workers[w].Sending?
      requires state.workers[w].e == e && state.workers[w].lockedAt == lockedAt
      modifies `now, `sent, `jobs, `trace, `state
      ensures Valid() && now == old(now) + d && jobs == old(jobs) + [job]
      ensures sent == if ok then old(sent) + [Sent(e, lockedAt, now)] else old(sent)
      ensures trace == old(trace) + [Pass(d), Action.Send(w, ok)]
      ensures var k := old(state).workers[w].attempt;
              state.workers == old(state).workers[w := if ok then Settling(e, Mailed)
                                                       else if k < retries then Sleeping(e, k + 1, lockedAt, now)
                                                       else Unlocking(e, lockedAt, now)]
    {
      jobs := jobs + [job];
      Elapse(d);
      if ok {
        sent := sent + [Sent(e, lockedAt, now)];
      }
      Note(Action.Send(w, ok));
    }
  }

  predicate Held(locks: map<Uuid, nat>, now: nat, id: Uuid) {
    id in locks && now < locks[id]
  }

  ghost predicate AllBy(trace: seq<Action>, w: nat) {
    forall i :: 0 <= i < |trace| ==> ByWorker(trace[i], w)
  }

  /** n copies of one job. */
  function Copies(job: EmailJob, n: nat): seq<EmailJob> {
    if n == 0 then [] else Copies(job, n - 1) + [job]
  }

  lemma AllByExtends(before: seq<Action>, after: seq<Action>, w: nat)
    requires AllBy(before, w) && AllBy(after, w)
    ensures AllBy(before + after, w)
  {
  }

  /** One turn of the retry loop. */
  method Attempt(world: World, job: EmailJob, e: Event, env: Env, attempt: nat, lockedAt: nat, ghost w: nat)
    returns (delay: nat)
    requires world.Valid() && w in world.state.workers && attempt <= world.retries && AllBy(world.trace, w)
    requires world.state.workers[w] == Facing(e, attempt, world.retries, lockedAt, world.now)
    modifies world`now, world`sent, world`jobs, world`trace, world`state
    ensures world.Valid() && AllBy(world.trace, w)
    ensures delay == if attempt == 0 then 0 else Delay(attempt)
    ensures world.jobs == old(world.jobs) + [job]
    ensures world.sent == if env.delivered(attempt) then old(world.sent) + [Sent(e, lockedAt, world.now)] else old(world.sent)
    ensures world.state.workers == old(world.state).workers[w :=
              if env.delivered(attempt) then Settling(e, Mailed)
              else Facing(e, attempt + 1, world.retries, lockedAt, world.now)]
  {
    hide Run, Next, Delay;
    delay := 0;
    if attempt > 0 {
      delay := Delay(attempt);
      world.Sleep(delay, env.lag(attempt), w);
      AllByExtends(old(world.trace), [Pass(delay + env.lag(attempt)), Wake(w)], w);
    }
    ghost var before := world.trace;
    world.Send(job, e, env.delivered(attempt), env.sendTime(attempt), lockedAt, w);
    AllByExtends(before, [Pass(env.sendTime(attempt)), Action.Send(w, env.delivered(attempt))], w);
  }

  /** The retry loop. */
  method Retry(world: World, job: EmailJob, e: Event, env: Env, ghost w: nat) returns (ok: bool, sends: nat, slept: nat)
    requires world.Valid() && w in world.state.workers && AllBy(world.trace, w)
    requires world.state.workers[w] == Sending(e, 0, world.now, world.now)
    modifies world`now, world`sent, world`jobs, world`trace, world`state
    ensures world.Valid() && AllBy(world.trace, w)
    ensures 1 <= sends <= world.retries + 1 && (!ok ==> sends == world.retries + 1)
    ensures ok <==> env.delivered(sends - 1)
    ensures forall k :: 0 <= k < sends - 1 ==> !env.delivered(k)
    ensures slept == Backoff(sends - 1) && world.jobs == old(world.jobs) + Copies(job, sends)
    ensures world.sent == if ok then old(world.sent) + [Sent(e, old(world.now), world.now)] else old(world.sent)
    ensures world.state.workers == old(world.state).workers[w :=
              if ok then Settling(e, Mailed) else Unlocking(e, old(world.now), world.now)]
  {
    hide Run, Next, Delay;
    var lockedAt := world.now;
    sends, slept := 0, 0;
    var attempt := 0;
    while attempt <= world.retries
      invariant world.Valid() && AllBy(world.trace, w)
      invariant attempt <= world.retries + 1 && sends == attempt
      invariant forall k :: 0 <= k < attempt ==> !env.delivered(k)
      invariant world.state.workers ==
                old(world.state).workers[w := Facing(e, attempt, world.retries, lockedAt, world.now)]
      invariant world.jobs == old(world.jobs) + Copies(job, sends)
      invariant slept == if sends == 0 then 0 else Backoff(sends - 1)
      invariant world.sent == old(world.sent)
    {
      var delay := Attempt(world, job, e, env, attempt, lockedAt, w);
      sends, slept := sends + 1, slept + delay;
      if env.delivered(attempt) {
        return true, sends, slept;
      }
      attempt := attempt + 1;
    }
    return false, sends, slept;
  }

  /** The key is deleted when every attempt has failed. */
  method Unlock(world: World, e: Event, env: Env, ghost w: nat)
    requires world.Valid() && w in world.state.workers && AllBy(world.trace, w)
    requires world.state.workers[w].Unlocking? && world.state.workers[w].e == e
    modifies world`now, world`locks, world`trace, world`state
    ensures world.Valid() && AllBy(world.trace, w)
    ensures world.locks == if env.unlock.Lost? then old(world.locks) else old(world.locks) - {e.messageId}
    ensures world.state.workers == old(world.state).workers[w := Settling(e, GaveUp)]
  {
    hide Run, Next, Delay;
    ghost var before := world.trace;
    world.Elapse(env.unlockTime);
    world.Del(e, env.unlock, w);
    AllByExtends(before, [Pass(env.unlockTime), Action.Del(w, env.unlock)], w);
  }

  /** A call by worker w, which holds the delivery. */
  method ProcessPaymentCompleted(world: World, e: Event, env: Env, quotient: real, ghost w: nat)
    returns (ok: bool, sends: nat, slept: nat)
    requires world.Valid() && w in world.state.workers && world.state.workers[w] == Locking(e)
    requires world.trace == [] && quotient >= 0.0
    modifies world
    // the whole call is a run of the system in which only this worker moves
    ensures world.Valid() && world.start == old(world.start) && AllBy(world.trace, w)
    ensures world.state.workers == old(world.state).workers[w := Settling(e,
              if !ok then GaveUp else if sends == 0 then Skipped else Mailed)]
    // nothing is sent without the lock, which stays after a success and goes after a failure
    ensures sends == 0 <==> !env.lock.Acked? || Held(old(world.locks), old(world.now) + env.lockTime, e.messageId)
    ensures sends == 0 ==> (ok <==> env.lock.Acked?)
    ensures ok ==> e.messageId in world.locks
    ensures ok && sends > 0 ==>
              world.locks == old(world.locks)[e.messageId := old(world.now) + env.lockTime + 86400 * 1000000000]
    ensures sends > 0 && !ok && !env.unlock.Lost? ==> e.messageId !in world.locks
    // otherwise the first success ends the call, and the failures are waited out
    ensures sends <= world.retries + 1
    ensures sends > 0 ==> (ok <==> env.delivered(sends - 1)) && forall k :: 0 <= k < sends - 1 ==> !env.delivered(k)
    ensures sends > 0 ==> slept == Backoff(sends - 1)
    ensures sends > 0 && !ok ==> sends == world.retries + 1 && slept == (Pow2(world.retries + 1) - 2) * SECOND
    // every attempt carries the same email, and a success is recorded once
    ensures world.jobs == old(world.jobs) + Copies(JobFor(e, quotient), sends)
    ensures world.sent == old(world.sent) +
              if ok && sends > 0 then [Sent(e, old(world.now) + env.lockTime, world.now)] else []
  {
    hide Run, Next, Delay, JobFor, Facing, Pow2;
    world.Elapse(env.lockTime);
    var isNew := world.SetNX(e, env.lock, w);
    if !env.lock.Acked? {
      return false, 0, 0;
    }
    if !isNew {
      return true, 0, 0;
    }
    var job := JobFor(e, quotient);
    ok, sends, slept := Retry(world, job, e, env, w);
    if ok {
      return;
    }
    BackoffClosed(world.retries);
    Unlock(world, e, env, w);
  }

  // ----- the sleeps fit into an int64 -----

  const INT64: nat := 0x8000_0000_0000_0000

  lemma Pow2Of33()
    ensures Pow2(33) == 8589934592 && Pow2(34) == 17179869184
  {
    Pow2Adds(11, 11);
    Pow2Adds(22, 11);
    assert Pow2(11) == 2048 by { Pow2Adds(5, 6); }
  }

  /** No sleep overflows time.Duration exactly when there are at most 33 retries. */
  lemma NoOverflowUpTo33(n: nat)
    ensures (forall k :: 1 <= k <= n ==> Delay(k) < INT64) <==> n <= 33
  {
    Pow2Of33();
    forall k | 1 <= k <= n && n <= 33 ensures Delay(k) < INT64 {
      Pow2Grows(k, 33);
    }
    if n > 33 {
      assert Delay(34) >= INT64;
    }
  }
}
