// From the payment table to the mailbox: the notifier fed by ProcessPayment.

module EndToEnd {
  import opened Domain
  import opened Gateway
  import opened Notifier
  import opened Provenance
  import opened Tables
  import AtMostOnce
  import SagaTheorems
  import Saga
  import Events
  import WholeCalls
  import WholeRuns

  /** The notifier is fed only by ProcessPayment: what is published to it, once or
      more often, is in the queue of some run of the order and payment services. */
  ghost predicate FedBy(saga: seq<Saga.Action>, actions: seq<Action>) {
    forall k :: 0 <= k < |actions| && actions[k].Publish? ==> actions[k].e in SagaTheorems.Reached(saga).queue
  }

  ghost predicate Grounded(saga: seq<Saga.Action>, e: Event) {
    Events.Grounded(SagaTheorems.Reached(saga).db.payments, e)
  }

  /** Every queued, in-flight, dead-lettered or emailed event is a committed payment
      row's order id, amount and verdict, addressed to that order's customer. */
  lemma {:induction false} NothingInFlightIsPhantom(saga: seq<Saga.Action>, retries: nat, actions: seq<Action>)
    requires FedBy(saga, actions)
    ensures var s := Run(Init(retries), actions);
            && (forall e :: e in s.ready ==> Grounded(saga, e) && e.customerEmail == UserAtExample(e.orderId))
            && (forall w :: w in s.workers ==>
                  Grounded(saga, s.workers[w].e) && s.workers[w].e.customerEmail == UserAtExample(s.workers[w].e.orderId))
            && (forall i :: 0 <= i < |s.sent| ==>
                  Grounded(saga, s.sent[i].e) && s.sent[i].e.customerEmail == UserAtExample(s.sent[i].e.orderId))
            && (forall e :: e in s.dead ==> Grounded(saga, e) && e.customerEmail == UserAtExample(e.orderId))
  {
    var queue := SagaTheorems.Reached(saga).queue;
    RunKeeps(Init(retries), actions, set e | e in queue);
    Events.NoPhantomEvents(saga);
  }

  /** One message id per order: emails for one order inherit the bound of the
      message, across all workers, redeliveries and crashes. */
  lemma {:induction false} OneEmailPerOrderPerTtl(saga: seq<Saga.Action>, retries: nat, actions: seq<Action>, i: nat, j: nat)
    requires FedBy(saga, actions) && Along(Init(retries), actions, AtMostOnce.OwnKey)
    requires var sent := Run(Init(retries), actions).sent;
             i < |sent| && j < |sent| && i != j && sent[i].e.orderId == sent[j].e.orderId
    ensures var sent := Run(Init(retries), actions).sent;
            AtMostOnce.Apart(sent[i].lockedAt, sent[j].lockedAt)
  {
    var queue := SagaTheorems.Reached(saga).queue;
    RunKeeps(Init(retries), actions, set e | e in queue);
    Events.NoPhantomEvents(saga);
    var sent := Run(Init(retries), actions).sent;
    assert sent[i].e in queue && sent[j].e in queue;
    AtMostOnce.AtMostOnePerTtl(retries, actions, i, j);
  }

  // ----- what an email says about the payment -----

  /** An emailed event tells of an authorised payment if and only if its amount
      is within the limit; otherwise it tells of a declined one. */
  lemma {:induction false} AuthorizedIffWithinLimit(saga: seq<Saga.Action>, retries: nat, actions: seq<Action>, i: nat)
    requires FedBy(saga, actions) && i < |Run(Init(retries), actions).sent|
    ensures var e := Run(Init(retries), actions).sent[i].e;
            && (e.status.Authorized? <==> e.amount <= 100000)
            && (e.status.Declined? <==> e.amount > 100000)
  {
    NothingInFlightIsPhantom(saga, retries, actions);
    SagaTheorems.ReachedIsSound(saga);
    var e := Run(Init(retries), actions).sent[i].e;
    var payments := SagaTheorems.Reached(saga).db.payments;
    var k :| k in payments && Events.Agree(payments[k], e);
    hide Run;
    assert PaymentOk(payments[k]);
  }

  /** A CreateOrder over the limit, with nothing going wrong: the payment is
      declined, and an event for it is queued. */
  lemma ADeclinedPaymentIsPublished(req: Saga.Request) returns (saga: seq<Saga.Action>, e: Event)
    requires req.amount > 100000
    ensures SagaTheorems.Reached(saga).queue == [e] && e.status.Declined? && e.amount == req.amount
  {
    var m, p := WholeCalls.Stores(map[], map[], map[], [], [], 0), Client(0);
    var env := WholeCalls.CreateEnv(Acked, Acked,
      WholeCalls.RpcEnv(Acked, WholeCalls.PayEnv(Acked, Acked, Acked), Acked), WholeCalls.WriteEnv(Acked, Acked));
    var o := Saga.NewOrder(p, req, 0);
    var payment := NewPayment(Server(p), o.id, o.amount);
    assert OrderFits(m.orders, o) && PaymentFits(m.payments, payment);
    e := Saga.EventOf(Server(p), payment);
    assert WholeCalls.CreateWhole(m, p, req, env).0.queue == [e];
    saga := WholeRuns.CreateIsARun(Saga.Init(), m, req, env);
  }

  /** ... and mailed, like any other. */
  lemma {:induction false} ADeclinedPaymentIsMailed(req: Saga.Request, retries: nat)
    returns (saga: seq<Saga.Action>, actions: seq<Action>)
    requires req.amount > 100000
    ensures FedBy(saga, actions)
    ensures var sent := Run(Init(retries), actions).sent; |sent| == 1 && sent[0].e.status.Declined?
  {
    var e;
    saga, e := ADeclinedPaymentIsPublished(req);
    actions := Mailed(e, retries);
    assert e in SagaTheorems.Reached(saga).queue;
  }

  lemma Mailed(e: Event, retries: nat) returns (actions: seq<Action>)
    ensures actions == [Publish(e), Deliver(0, e), Action.SetNX(0, Acked), Action.Send(0, true)]
    ensures Run(Init(retries), actions).sent == [Sent(e, 0, 0)]
  {
    var s := Init(retries);
    actions := [];
    RunSnoc(s, actions, Publish(e)); actions := actions + [Publish(e)];
    RunSnoc(s, actions, Deliver(0, e)); actions := actions + [Deliver(0, e)];
    RunSnoc(s, actions, Action.SetNX(0, Acked)); actions := actions + [Action.SetNX(0, Acked)];
    RunSnoc(s, actions, Action.Send(0, true)); actions := actions + [Action.Send(0, true)];
  }
}
