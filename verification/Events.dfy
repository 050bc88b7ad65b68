// No phantom events: what is published is a committed payment row, once.

module Events {
  import opened Domain
  import opened Tables
  import opened Saga
  import opened SagaInvariant
  import opened SagaFrames
  import opened SagaTheorems
  import opened Orphans

  /** The event announces the row that its own ProcessPayment call inserted. */
  ghost predicate Announces(payments: Payments, e: Event) {
    && e.messageId.Minted?
    && Minted(e.messageId.call, 0) in payments
    && e == EventOf(e.messageId.call, payments[Minted(e.messageId.call, 0)])
  }

  /** Call q has published, if it is going to: it will not publish again. */
  predicate PastPublish(calls: map<Pid, Call>, q: Pid) {
    q in calls ==> calls[q].Paying? && (calls[q].y.PayDone? || calls[q].y.Replied?)
  }

  ghost predicate Published(s: State, e: Event) {
    Announces(s.db.payments, e) && PastPublish(s.calls, e.messageId.call)
  }

  ghost predicate QueueOk(s: State) {
    && (forall k :: 0 <= k < |s.queue| ==> Published(s, s.queue[k]))
    && (forall j, k :: 0 <= j < k < |s.queue| ==> s.queue[j].orderId != s.queue[k].orderId)
  }

  lemma PaymentsOnlyGrow(s: State, p: Pid, e: Env, i: Uuid)
    requires Inv(s) && p in s.calls && i in s.db.payments
    ensures var t := Advance(s, p, s.calls[p], e);
            i in t.db.payments && t.db.payments[i] == s.db.payments[i]
  {
    CallFacts(s, p);
    if s.calls[p].Paying? && s.calls[p].y.PayInsert? {
      PaymentAfterInsert(s, p, s.calls[p].y.job, s.calls[p].y.payment, e);
      hide Inv, DoPayInsert, OrdersOk, PaymentsOk, NoticesOk;
      assert Advance(s, p, s.calls[p], e) == DoPayInsert(s, p, s.calls[p].y.job, s.calls[p].y.payment, e);
    } else {
      PaymentsOnlyByInsert(s, p, e);
    }
  }

  lemma QueueAfterMove(s: State, p: Pid, e: Env)
    requires p in s.calls
    ensures var t := Advance(s, p, s.calls[p], e);
            t.queue == s.queue
            || (s.calls[p].Paying? && s.calls[p].y.Publish? && t.queue == s.queue + [EventOf(p, s.calls[p].y.payment)])
  {
    hide ByKey, HasPayment, PaymentFits, InsertPayment, OrderFits, InsertOrder, SetStatus, Record, Tag;
  }

  lemma EndOfPayment(s: State, p: Pid, e: Env)
    requires p in s.calls && PastPublish(s.calls, p)
    ensures PastPublish(Advance(s, p, s.calls[p], e).calls, p)
  {
    hide AdvanceCreate, AdvanceCancel, AdvanceGet;
  }

  lemma PastPublishStays(s: State, p: Pid, e: Env, q: Pid)
    requires Traced(s) && p in s.calls && PastPublish(s.calls, q) && Minted(q, 0) in s.db.payments
    ensures PastPublish(Advance(s, p, s.calls[p], e).calls, q)
  {
    hide Advance;
    if p == q {
      EndOfPayment(s, p, e);
    } else {
      FrameMove(s, p, e);
      assert BeforeDial(s.calls[p]) ==> Undialed(s, p);
    }
  }

  lemma StaysPublished(s: State, p: Pid, e: Env, ev: Event)
    requires Inv(s) && Traced(s) && p in s.calls && Published(s, ev)
    ensures Published(Advance(s, p, s.calls[p], e), ev)
  {
    PaymentsOnlyGrow(s, p, e, Minted(ev.messageId.call, 0));
    PastPublishStays(s, p, e, ev.messageId.call);
    hide Inv, Advance, Traced, PastPublish;
  }

  lemma NewEvent(s: State, p: Pid, e: Env)
    requires Inv(s) && QueueOk(s) && p in s.calls && s.calls[p].Paying? && s.calls[p].y.Publish?
    ensures var t := Advance(s, p, s.calls[p], e);
            var ev := EventOf(p, s.calls[p].y.payment);
            Published(t, ev) && forall k :: 0 <= k < |s.queue| ==> s.queue[k].orderId != ev.orderId
  {
    CallFacts(s, p);
    var pay := s.calls[p].y.payment;
    forall k | 0 <= k < |s.queue| ensures s.queue[k].orderId != pay.orderId {
      assert Published(s, s.queue[k]);
      var i := Minted(s.queue[k].messageId.call, 0);
      assert s.db.payments[i].orderId == pay.orderId ==> i == pay.id;
    }
  }

  lemma QueueMove(s: State, p: Pid, e: Env)
    requires Inv(s) && Traced(s) && QueueOk(s) && p in s.calls
    ensures QueueOk(Advance(s, p, s.calls[p], e))
  {
    QueueAfterMove(s, p, e);
    if s.calls[p].Paying? && s.calls[p].y.Publish? {
      NewEvent(s, p, e);
    }
    forall k | 0 <= k < |s.queue| ensures Published(Advance(s, p, s.calls[p], e), s.queue[k]) {
      StaysPublished(s, p, e, s.queue[k]);
    }
    hide Inv, Advance, Traced, Published;
  }

  lemma QueueOutside(s: State, a: Action)
    requires Inv(s) && QueueOk(s) && !a.Move?
    ensures QueueOk(Next(s, a))
  {
    assert BirthsOk(s);
    hide Inv, TrailOfDeath;
    var t := Next(s, a);
    forall k | 0 <= k < |s.queue| ensures Published(t, s.queue[k]) {
      assert Published(s, s.queue[k]);
    }
  }

  lemma QueueStep(s: State, a: Action)
    requires Inv(s) && Traced(s) && QueueOk(s)
    ensures QueueOk(Next(s, a))
  {
    if a.Move? {
      if a.p in s.calls {
        QueueMove(s, a.p, a.e);
      }
      hide Inv, Advance, Traced;
    } else {
      hide Next, Inv, Traced, QueueOk;
      QueueOutside(s, a);
    }
  }

  lemma {:induction false} QueueFrom(s: State, actions: seq<Action>)
    requires Inv(s) && Traced(s) && QueueOk(s)
    ensures QueueOk(Run(s, actions))
    decreases |actions|
  {
    if actions != [] {
      StepKeeps(s, actions[0]);
      TracedStep(s, actions[0]);
      QueueStep(s, actions[0]);
      hide Inv, Traced, QueueOk, Next;
      QueueFrom(Next(s, actions[0]), actions[1..]);
    }
  }

  /** The row and the event name the same order, amount and verdict. */
  predicate Agree(p: Payment, e: Event) {
    p.orderId == e.orderId && p.amount == e.amount && p.status == e.status
  }

  ghost predicate Grounded(payments: Payments, e: Event) {
    exists i :: i in payments && Agree(payments[i], e)
  }

  /** Every published event is a committed payment row's order, amount and verdict,
      addressed to that order's customer; no order has two events, and no two
      events have one message id. */
  lemma {:induction false} NoPhantomEvents(actions: seq<Action>)
    ensures var s := Reached(actions);
            && (forall k :: 0 <= k < |s.queue| ==>
                  && Grounded(s.db.payments, s.queue[k])
                  && s.queue[k].customerEmail == UserAtExample(s.queue[k].orderId))
            && (forall j, k :: 0 <= j < k < |s.queue| ==>
                  s.queue[j].orderId != s.queue[k].orderId && s.queue[j].messageId != s.queue[k].messageId)
  {
    ReachedIsSound(actions);
    QueueFrom(Init(), actions);
    var s := Reached(actions);
    hide Inv, Traced;
    forall k | 0 <= k < |s.queue|
      ensures Grounded(s.db.payments, s.queue[k]) && s.queue[k].customerEmail == UserAtExample(s.queue[k].orderId)
    {
      assert Published(s, s.queue[k]);
      assert Agree(s.db.payments[Minted(s.queue[k].messageId.call, 0)], s.queue[k]);
    }
    forall j, k | 0 <= j < k < |s.queue| ensures s.queue[j].messageId != s.queue[k].messageId {
      assert Published(s, s.queue[j]) && Published(s, s.queue[k]);
    }
  }
}
