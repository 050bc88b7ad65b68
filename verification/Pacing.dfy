// How long one call can take, and that two sends of one message are a TTL apart
// exactly when that is less than a TTL.

module Pacing {
  import opened Domain
  import opened Notifier
  import opened Powers
  import opened AtMostOnce
  import opened Tables

  /** Bounds the environment keeps to: a Redis reply, a Send, and how late a sleeper wakes. */
  datatype Bounds = Bounds(redis: nat, send: nat, lag: nat)

  /** 2 + 4 + ... + 2^n seconds of sleep before retry n. */
  function Backoff(n: nat): nat {
    if n == 0 then 0 else Backoff(n - 1) + Delay(n)
  }

  lemma {:induction false} BackoffClosed(n: nat)
    ensures Backoff(n) == (Pow2(n + 1) - 2) * SECOND
  {
    if n > 0 {
      BackoffClosed(n - 1);
      assert Pow2(n + 1) == 2 * Pow2(n);
    }
  }

  /** Time from the SetNX to the end of Send number n, n = 0 being the first. */
  function Spent(b: Bounds, n: nat): nat {
    if n == 0 then b.redis + b.send else Spent(b, n - 1) + Delay(n) + b.lag + b.send
  }

  lemma {:induction false} SpentClosed(b: Bounds, n: nat)
    ensures Spent(b, n) == b.redis + Backoff(n) + (n + 1) * b.send + n * b.lag
  {
    if n > 0 {
      SpentClosed(b, n - 1);
      assert (n + 1) * b.send == n * b.send + b.send;
      assert n * b.lag == (n - 1) * b.lag + b.lag;
    }
  }

  /** The step comes no later than the bounds allow after the worker got where it is. */
  predicate Timely(b: Bounds, s: State, a: Action) {
    match a
    case Send(w, _) =>
      w in s.workers && s.workers[w].Sending? ==>
        s.now <= s.workers[w].since + b.send + (if s.workers[w].attempt == 0 then b.redis else 0)
    case Wake(w) =>
      w in s.workers && s.workers[w].Sleeping? ==>
        s.now <= s.workers[w].since + Delay(s.workers[w].attempt) + b.lag
    case Del(w, _) =>
      w in s.workers && s.workers[w].Unlocking? ==> s.now <= s.workers[w].since + b.redis
    case _ => true
  }

  /** Where a worker is, it came to in time. */
  predicate InTime(b: Bounds, n: nat, x: Worker) {
    match x
    case Sending(_, k, t, since) =>
      k <= n && since <= if k == 0 then t else t + Spent(b, k - 1) + Delay(k) + b.lag
    case Sleeping(_, k, t, since) => 1 <= k <= n && since <= t + Spent(b, k - 1)
    case Unlocking(_, t, since) => since <= t + Spent(b, n)
    case _ => true
  }

  ghost predicate Paced(b: Bounds, s: State) {
    forall w :: w in s.workers ==> InTime(b, s.retries, s.workers[w])
  }

  lemma {:induction false} SpentGrows(b: Bounds, k: nat, n: nat)
    requires k <= n
    ensures Spent(b, k) <= Spent(b, n)
    decreases n
  {
    if k < n { SpentGrows(b, k, n - 1); }
  }

  lemma SendPaced(b: Bounds, s: State, w: nat, ok: bool)
    requires w in s.workers && s.workers[w].Sending? && InTime(b, s.retries, s.workers[w]) && Timely(b, s, Send(w, ok))
    ensures InTime(b, s.retries, DoSend(s, w, s.workers[w], ok).workers[w])
  {
    hide Delay;
  }

  lemma StepPaced(b: Bounds, s: State, a: Action)
    requires Paced(b, s) && Timely(b, s, a)
    ensures Paced(b, Next(s, a)) && Next(s, a).retries == s.retries
  {
    hide Delay;
    var t := Next(s, a);
    forall w | w in t.workers ensures InTime(b, t.retries, t.workers[w]) {
      if !(w in s.workers && t.workers[w] == s.workers[w]) {
        OneMoves(s, a, w);
        if a.Send? {
          SendPaced(b, s, w, a.ok);
          hide DoSend;
        }
      }
    }
  }

  ghost function Within(b: Bounds): (State, Action) -> bool {
    (s, a) => Timely(b, s, a)
  }

  /** Time from the SetNX to the Del of a call with n retries, at the longest. */
  function Longest(b: Bounds, n: nat): nat {
    Spent(b, n) + b.redis
  }

  lemma LongestClosed(b: Bounds, n: nat)
    ensures Longest(b, n) == (Pow2(n + 1) - 2) * SECOND + (n + 1) * b.send + n * b.lag + 2 * b.redis
  {
    SpentClosed(b, n);
    BackoffClosed(n);
  }

  // ----- short calls delete only their own keys -----

  /** While its claim lasts, the live key is the caller's own. */
  lemma TimelyIsOwn(b: Bounds, s: State, a: Action)
    requires Inv(s) && Paced(b, s) && Timely(b, s, a) && Longest(b, s.retries) < TTL
    ensures OwnKey(s, a)
  {
    hide Delay, SendsApart;
    if a.Del? && a.w in s.workers && s.workers[a.w].Unlocking? {
      assert InTime(b, s.retries, s.workers[a.w]);
      assert ClaimOk(s, s.workers[a.w].e.messageId, s.workers[a.w].lockedAt);
    }
  }

  lemma {:induction false} TimelyRunKeeps(b: Bounds, s: State, actions: seq<Action>)
    requires Inv(s) && Paced(b, s) && Along(s, actions, Within(b)) && Longest(b, s.retries) < TTL
    ensures Along(s, actions, OwnKey)
    decreases |actions|
  {
    if actions != [] {
      TimelyIsOwn(b, s, actions[0]);
      StepPaced(b, s, actions[0]);
      AtMostOnce.StepKeeps(s, actions[0]);
      hide Next, Paced, Inv, Longest, OwnKey;
      TimelyRunKeeps(b, Next(s, actions[0]), actions[1..]);
    }
  }

  // ----- long calls let two send -----

  lemma Then(b: Bounds, s: State, before: seq<Action>, a: Action) returns (longer: seq<Action>, u: State)
    requires Along(s, before, Within(b)) && Timely(b, Run(s, before), a)
    ensures u == Run(s, longer) == Next(Run(s, before), a) && Along(s, longer, Within(b))
  {
    hide Next, Timely;
    longer, u := before + [a], Next(Run(s, before), a);
    RunSnoc(s, before, a);
    AlongSnoc(s, before, Within(b), a);
  }

  /** Nothing sent yet; k copies of e are queued, and its key is as given. */
  predicate Scene(t: State, n: nat, e: Event, k: nat, lock: Option<nat>) {
    && t.retries == n && t.sent == [] && t.ready[e] == k
    && if lock.Some? then e.messageId in t.locks && t.locks[e.messageId] == lock.value else e.messageId !in t.locks
  }

  lemma Publishes(t: State, n: nat, e: Event, k: nat, lock: Option<nat>)
    requires Scene(t, n, e, k, lock)
    ensures var u := Next(t, Publish(e)); Scene(u, n, e, k + 1, lock) && u.workers == t.workers && u.now == t.now
  {
  }

  lemma Passes(t: State, n: nat, e: Event, k: nat, lock: Option<nat>, d: nat)
    requires Scene(t, n, e, k, lock)
    ensures var u := Next(t, Pass(d)); Scene(u, n, e, k, lock) && u.now == t.now + d && u.workers == t.workers
  {
  }

  /** Worker w gets a copy, and then the key, which is free. */
  lemma TakesLock(t: State, n: nat, e: Event, k: nat, lock: Option<nat>, w: nat)
    requires Scene(t, n, e, k, lock) && k > 0 && w !in t.workers && (lock.Some? ==> lock.value <= t.now)
    ensures var u := Next(Next(t, Deliver(w, e)), SetNX(w, Acked));
            && Scene(u, n, e, k - 1, Some(t.now + TTL)) && u.now == t.now
            && u.workers == t.workers[w := Sending(e, 0, t.now, t.now)]
  {
    assert Next(t, Deliver(w, e)).workers == t.workers[w := Locking(e)];
  }

  lemma Fails(t: State, n: nat, e: Event, k: nat, lock: Option<nat>, w: nat, attempt: nat, at: nat, since: nat)
    requires Scene(t, n, e, k, lock) && w in t.workers && t.workers[w] == Sending(e, attempt, at, since) && attempt <= n
    ensures var u := Next(t, Send(w, false));
            && Scene(u, n, e, k, lock) && u.now == t.now
            && u.workers == t.workers[w := Facing(e, attempt + 1, n, at, t.now)]
  {
  }

  lemma Wakes(t: State, n: nat, e: Event, k: nat, lock: Option<nat>, w: nat, attempt: nat, at: nat, since: nat)
    requires Scene(t, n, e, k, lock) && w in t.workers && t.workers[w] == Sleeping(e, attempt, at, since)
    requires t.now >= since + Delay(attempt)
    ensures var u := Next(t, Wake(w));
            Scene(u, n, e, k, lock) && u.now == t.now && u.workers == t.workers[w := Sending(e, attempt, at, t.now)]
  {
    hide Delay;
  }

  lemma Deletes(t: State, n: nat, e: Event, k: nat, lock: Option<nat>, w: nat)
    requires Scene(t, n, e, k, lock) && w in t.workers && t.workers[w].Unlocking? && t.workers[w].e == e
    ensures var u := Next(t, Del(w, Acked));
            Scene(u, n, e, k, None) && u.now == t.now && u.workers == t.workers[w := Settling(e, GaveUp)]
  {
  }

  lemma TwoSend(t: State, e: Event, at: nat)
    requires t.sent == [] && 1 in t.workers && 2 in t.workers
    requires t.workers[1] == Sending(e, 0, at, at) && t.workers[2] == Sending(e, 0, at, at)
    ensures Next(t, Send(1, true)).workers == t.workers[1 := Settling(e, Mailed)] && Next(t, Send(1, true)).now == t.now
    ensures Next(Next(t, Send(1, true)), Send(2, true)).sent == [Sent(e, at, t.now), Sent(e, at, t.now)]
  {
  }

  /** Worker 0 has the key, taken at time 0; two duplicates are queued. */
  lemma OneLocks(b: Bounds, n: nat, e: Event) returns (actions: seq<Action>, t: State)
    ensures t == Run(Init(n), actions) && Along(Init(n), actions, Within(b))
    ensures Scene(t, n, e, 2, Some(TTL)) && t.now == 0 && t.workers == map[0 := Facing(e, 0, n, 0, 0)]
  {
    var s := Init(n);
    actions, t := [], s;
    assert Scene(s, n, e, 0, None) && s.now == 0 && s.workers == map[] && Run(s, []) == s;
    hide Next, Run, Scene;
    Publishes(t, n, e, 0, None); actions, t := Then(b, s, actions, Publish(e));
    Publishes(t, n, e, 1, None); actions, t := Then(b, s, actions, Publish(e));
    Publishes(t, n, e, 2, None); actions, t := Then(b, s, actions, Publish(e));
    TakesLock(t, n, e, 3, None, 0);
    actions, t := Then(b, s, actions, Deliver(0, e));
    actions, t := Then(b, s, actions, SetNX(0, Acked));
    assert t.workers == map[0 := Facing(e, 0, n, 0, 0)];
  }

  /** Worker 0 has failed k times, each attempt at its full length. */
  lemma {:induction false} OneFails(b: Bounds, n: nat, e: Event, k: nat) returns (actions: seq<Action>, t: State)
    requires k <= n + 1
    ensures t == Run(Init(n), actions) && Along(Init(n), actions, Within(b))
    ensures Scene(t, n, e, 2, Some(TTL)) && t.now == (if k == 0 then 0 else Spent(b, k - 1))
    ensures t.workers == map[0 := Facing(e, k, n, 0, t.now)]
  {
    hide Next, Run, Scene, Delay;
    if k == 0 {
      actions, t := OneLocks(b, n, e);
    } else {
      var s, j := Init(n), k - 1;
      actions, t := OneFails(b, n, e, j);
      if j > 0 {
        Passes(t, n, e, 2, Some(TTL), Delay(j) + b.lag);
        var since := t.now;
        actions, t := Then(b, s, actions, Pass(Delay(j) + b.lag));
        Wakes(t, n, e, 2, Some(TTL), 0, j, 0, since);
        actions, t := Then(b, s, actions, Wake(0));
      }
      var since, d := t.now, b.send + if j == 0 then b.redis else 0;
      assert t.workers[0] == Sending(e, j, 0, since);
      Passes(t, n, e, 2, Some(TTL), d);
      actions, t := Then(b, s, actions, Pass(d));
      Fails(t, n, e, 2, Some(TTL), 0, j, 0, since);
      actions, t := Then(b, s, actions, Send(0, false));
      assert t.workers == map[0 := Facing(e, k, n, 0, t.now)];
    }
  }

  /** Worker 1 takes the expired key while worker 0 is about to delete it. */
  lemma OneTakesOver(b: Bounds, n: nat, e: Event, before: seq<Action>, t0: State, d: nat)
    returns (actions: seq<Action>, t: State)
    requires t0 == Run(Init(n), before) && Along(Init(n), before, Within(b)) && t0.now + b.redis == d >= TTL
    requires Scene(t0, n, e, 2, Some(TTL)) && t0.workers == map[0 := Unlocking(e, 0, t0.now)]
    ensures t == Run(Init(n), actions) && Along(Init(n), actions, Within(b))
    ensures Scene(t, n, e, 1, Some(d + TTL)) && t.now == d
    ensures t.workers.Keys == {0, 1} && t.workers[0] == Unlocking(e, 0, t0.now) && t.workers[1] == Sending(e, 0, d, d)
  {
    hide Next, Run, Scene, Delay;
    actions, t := before, t0;
    Passes(t, n, e, 2, Some(TTL), b.redis);
    actions, t := Then(b, Init(n), actions, Pass(b.redis));
    TakesLock(t, n, e, 2, Some(TTL), 1);
    actions, t := Then(b, Init(n), actions, Deliver(1, e));
    actions, t := Then(b, Init(n), actions, SetNX(1, Acked));
  }

  /** Worker 0 deletes that key in the same instant, and worker 2 takes it again. */
  lemma AnotherTakesOver(b: Bounds, n: nat, e: Event, before: seq<Action>, t0: State, d: nat)
    returns (actions: seq<Action>, t: State)
    requires t0 == Run(Init(n), before) && Along(Init(n), before, Within(b)) && t0.now == d
    requires Scene(t0, n, e, 1, Some(d + TTL)) && t0.workers.Keys == {0, 1}
    requires t0.workers[1] == Sending(e, 0, d, d)
    requires t0.workers[0].Unlocking? && t0.workers[0].e == e && d <= t0.workers[0].since + b.redis
    ensures t == Run(Init(n), actions) && Along(Init(n), actions, Within(b)) && t.sent == [] && t.now == d
    ensures 1 in t.workers && t.workers[1] == Sending(e, 0, d, d) && 2 in t.workers && t.workers[2] == Sending(e, 0, d, d)
  {
    hide Next, Run, Scene, Delay;
    Deletes(t0, n, e, 1, Some(d + TTL), 0);
    actions, t := Then(b, Init(n), before, Del(0, Acked));
    TakesLock(t, n, e, 1, None, 2);
    actions, t := Then(b, Init(n), actions, Deliver(2, e));
    actions, t := Then(b, Init(n), actions, SetNX(2, Acked));
    NoneSent(t, n, e, 0, Some(d + TTL));
  }

  /** A call as long as a TTL deletes another call's key, and two calls then
      send in the same instant; nobody has overrun any bound. */
  lemma TooLongLetsTwoSend(b: Bounds, n: nat, e: Event) returns (actions: seq<Action>)
    requires Longest(b, n) >= TTL
    ensures Along(Init(n), actions, Within(b))
    ensures var sent := Run(Init(n), actions).sent;
            |sent| == 2 && sent[0].e == e && sent[1].e == e && sent[0].lockedAt == sent[1].lockedAt
  {
    var d, t := Longest(b, n), Init(n);
    actions, t := OneFails(b, n, e, n + 1);
    assert t.now + b.redis == d;
    hide Next, Run, Scene, Delay, Spent, Longest;
    actions, t := OneTakesOver(b, n, e, actions, t, d);
    actions, t := AnotherTakesOver(b, n, e, actions, t, d);
    TwoSend(t, e, d);
    actions, t := Then(b, Init(n), actions, Send(1, true));
    actions, t := Then(b, Init(n), actions, Send(2, true));
  }

  lemma NoneSent(t: State, n: nat, e: Event, k: nat, lock: Option<nat>)
    requires Scene(t, n, e, k, lock)
    ensures t.sent == []
  {
  }

  // ----- exactly when -----

  /** Whatever happens, within the bounds, sends of one message are locked a TTL apart. */
  ghost predicate AlwaysApart(b: Bounds, n: nat) {
    forall actions :: Along(Init(n), actions, Within(b)) ==> SendsApart(Run(Init(n), actions))
  }

  lemma ShortIsApart(b: Bounds, n: nat)
    requires Longest(b, n) < TTL
    ensures AlwaysApart(b, n)
  {
    forall actions | Along(Init(n), actions, Within(b)) ensures SendsApart(Run(Init(n), actions)) {
      assert Inv(Init(n)) && Paced(b, Init(n));
      TimelyRunKeeps(b, Init(n), actions);
      RunKeeps(Init(n), actions);
    }
  }

  /** With n retries, two successful sends of one message are always locked at
      least 24 hours apart if and only if 2^(n+1)-2 seconds of sleep, n+1 sends,
      n late wake-ups and two Redis replies fit into less than 24 hours. */
  lemma {:induction false} ApartIffWithinADay(b: Bounds, n: nat)
    ensures AlwaysApart(b, n)
            <==> (Pow2(n + 1) - 2) * SECOND + (n + 1) * b.send + n * b.lag + 2 * b.redis < 86400 * SECOND
  {
    LongestClosed(b, n);
    hide Longest;
    if Longest(b, n) < TTL {
      ShortIsApart(b, n);
    } else {
      var e := Event(Text("order"), 1, UserAtExample(Text("order")), PaymentStatus.Authorized, Text("message"));
      var actions := TooLongLetsTwoSend(b, n, e);
      var sent := Run(Init(n), actions).sent;
      hide Run;
      assert sent[0].e.messageId == sent[1].e.messageId && !Apart(sent[0].lockedAt, sent[1].lockedAt);
    }
  }

  lemma SixteenPowers(n: nat)
    ensures Pow2(16) == 65536 && (n >= 16 ==> Pow2(n + 1) >= 131072)
  {
    Pow2Adds(4, 4);
    Pow2Adds(8, 8);
    assert Pow2(17) == 131072;
    if n >= 16 {
      Pow2Grows(17, n + 1);
    }
  }

  /** With MAX_RETRIES of 16 or more the sleeps alone are too long, whatever the
      bounds; with 15 there are 20866 seconds left for everything else. */
  lemma SixteenRetriesAreTooMany(b: Bounds, n: nat)
    ensures n >= 16 ==> !AlwaysApart(b, n)
    ensures AlwaysApart(b, 15) <==> 16 * b.send + 15 * b.lag + 2 * b.redis < 20866 * SECOND
  {
    SixteenPowers(n);
    hide AlwaysApart, Pow2;
    ApartIffWithinADay(b, 15);
    if n >= 16 {
      ApartIffWithinADay(b, n);
      AtLeast((n + 1) * b.send, n * b.lag, Pow2(n + 1));
    }
  }

  lemma AtLeast(sends: nat, lags: nat, p: nat)
    requires p >= 131072
    ensures (p - 2) * SECOND + sends + lags >= 86400 * SECOND
  {
  }

  /** What it means for two sends in one run. */
  lemma {:induction false} AtMostOnePerDayWithinBounds(b: Bounds, n: nat, actions: seq<Action>, i: nat, j: nat)
    requires Along(Init(n), actions, Within(b))
    requires (Pow2(n + 1) - 2) * SECOND + (n + 1) * b.send + n * b.lag + 2 * b.redis < 86400 * SECOND
    requires var sent := Run(Init(n), actions).sent;
             i < |sent| && j < |sent| && i != j && sent[i].e.messageId == sent[j].e.messageId
    ensures var sent := Run(Init(n), actions).sent;
            Apart(sent[i].lockedAt, sent[j].lockedAt)
  {
    ApartIffWithinADay(b, n);
    hide Run;
    assert SendsApart(Run(Init(n), actions));
  }
}
