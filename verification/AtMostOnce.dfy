// Two successful sends of one message come from calls whose locks were taken
// at least a TTL apart, if no call deletes somebody else's lock.

module AtMostOnce {
  import opened Domain
  import opened Tables
  import opened Notifier

  /** A worker between its SetNX and its Del. */
  predicate Holding(x: Worker) {
    x.Sending? || x.Sleeping? || x.Unlocking?
  }

  /** A deletion that gets through finds the caller's own key, or no live one. */
  predicate OwnKey(s: State, a: Action) {
    a.Del? && !a.f.Lost? && a.w in s.workers && s.workers[a.w].Unlocking? ==>
      var x := s.workers[a.w];
      Locked(s, x.e.messageId) ==> s.locks[x.e.messageId] == x.lockedAt + TTL
  }

  predicate Apart(t: nat, u: nat) {
    t + TTL <= u || u + TTL <= t
  }

  /** A claim on a message taken at time t: while it lasts, the lock is its own. */
  predicate ClaimOk(s: State, id: Uuid, t: nat) {
    t <= s.now && (s.now < t + TTL ==> id in s.locks && s.locks[id] == t + TTL)
  }

  ghost predicate Inv(s: State) {
    && (forall w :: w in s.workers && Holding(s.workers[w]) ==> ClaimOk(s, s.workers[w].e.messageId, s.workers[w].lockedAt))
    && (forall i :: 0 <= i < |s.sent| ==> ClaimOk(s, s.sent[i].e.messageId, s.sent[i].lockedAt))
    && (forall w, v :: w in s.workers && v in s.workers && w != v && Holding(s.workers[w]) && Holding(s.workers[v])
                       && s.workers[w].e.messageId == s.workers[v].e.messageId ==>
                       Apart(s.workers[w].lockedAt, s.workers[v].lockedAt))
    && (forall w, i :: w in s.workers && Holding(s.workers[w]) && 0 <= i < |s.sent|
                       && s.workers[w].e.messageId == s.sent[i].e.messageId ==>
                       Apart(s.workers[w].lockedAt, s.sent[i].lockedAt))
    && SendsApart(s)
  }

  ghost predicate SendsApart(s: State) {
    forall i, j :: 0 <= i < j < |s.sent| && s.sent[i].e.messageId == s.sent[j].e.messageId ==>
      Apart(s.sent[i].lockedAt, s.sent[j].lockedAt)
  }

  // ----- one lemma per kind of step -----

  /** A lock that is free has outlasted every claim on its message. */
  lemma SetNXKeeps(s: State, w: nat, f: Fault)
    requires Inv(s) && w in s.workers && s.workers[w].Locking?
    ensures Inv(DoSetNX(s, w, s.workers[w].e, f))
  {
  }

  lemma SendKeeps(s: State, w: nat, ok: bool)
    requires Inv(s) && w in s.workers && s.workers[w].Sending?
    ensures Inv(DoSend(s, w, s.workers[w], ok))
  {
  }

  /** A Del of the caller's own lock leaves every other claim as it was: it has run out. */
  lemma DelKeeps(s: State, w: nat, f: Fault)
    requires Inv(s) && w in s.workers && s.workers[w].Unlocking? && OwnKey(s, Del(w, f))
    ensures Inv(Next(s, Del(w, f)))
  {
  }

  /** Steps after which no worker holds a claim it did not hold before. */
  ghost predicate NoNewClaims(s: State, t: State) {
    && t.locks == s.locks && t.sent == s.sent && t.now >= s.now
    && forall w :: w in t.workers && Holding(t.workers[w]) ==>
         w in s.workers && Holding(s.workers[w])
         && s.workers[w].e == t.workers[w].e && s.workers[w].lockedAt == t.workers[w].lockedAt
  }

  lemma ClaimsNothing(s: State, a: Action, w: nat)
    requires !a.SetNX? && !a.Send? && !a.Del? && w in Next(s, a).workers && Holding(Next(s, a).workers[w])
    ensures var x := Next(s, a).workers[w];
            w in s.workers && Holding(s.workers[w]) && s.workers[w].e == x.e && s.workers[w].lockedAt == x.lockedAt
  {
    hide Delay, Locked;
    if !(w in s.workers && Next(s, a).workers[w] == s.workers[w]) {
      OneMoves(s, a, w);
    }
  }

  lemma OthersClaimNothing(s: State, a: Action)
    requires !a.SetNX? && !a.Send? && !a.Del?
    ensures NoNewClaims(s, Next(s, a))
  {
    var t := Next(s, a);
    assert t.locks == s.locks && t.sent == s.sent && t.now >= s.now by { hide Delay, Locked; }
    hide Next;
    forall w | w in t.workers && Holding(t.workers[w])
      ensures w in s.workers && Holding(s.workers[w])
              && s.workers[w].e == t.workers[w].e && s.workers[w].lockedAt == t.workers[w].lockedAt
    {
      ClaimsNothing(s, a, w);
    }
  }

  lemma OtherKeeps(s: State, t: State)
    requires Inv(s) && NoNewClaims(s, t)
    ensures Inv(t)
  {
  }

  lemma StepKeeps(s: State, a: Action)
    requires Inv(s) && OwnKey(s, a)
    ensures Inv(Next(s, a))
  {
    hide Inv, OwnKey, DoSetNX, DoSend, DoSettle, NoNewClaims, Delay;
    match a
    case SetNX(w, f) => if w in s.workers && s.workers[w].Locking? { SetNXKeeps(s, w, f); }
    case Send(w, ok) => if w in s.workers && s.workers[w].Sending? { SendKeeps(s, w, ok); }
    case Del(w, f) => if w in s.workers && s.workers[w].Unlocking? { DelKeeps(s, w, f); }
    case _ => OthersClaimNothing(s, a); OtherKeeps(s, Next(s, a));
  }

  lemma {:induction false} RunKeeps(s: State, actions: seq<Action>)
    requires Inv(s) && Along(s, actions, OwnKey)
    ensures Inv(Run(s, actions))
    decreases |actions|
  {
    if actions != [] {
      StepKeeps(s, actions[0]);
      hide Inv, Next, OwnKey;
      RunKeeps(Next(s, actions[0]), actions[1..]);
    }
  }

  /** Any interleaving of workers, duplicates, redeliveries, failed Redis calls
      and crashes, however long a call takes: as long as no call deletes a live key
      that is not its own, two successful sends of one message id are locked at
      least a TTL apart. */
  lemma {:induction false} AtMostOnePerTtl(retries: nat, actions: seq<Action>, i: nat, j: nat)
    requires Along(Init(retries), actions, OwnKey)
    requires var sent := Run(Init(retries), actions).sent;
             i < |sent| && j < |sent| && i != j && sent[i].e.messageId == sent[j].e.messageId
    ensures var sent := Run(Init(retries), actions).sent;
            Apart(sent[i].lockedAt, sent[j].lockedAt)
  {
    RunKeeps(Init(retries), actions);
  }
}
