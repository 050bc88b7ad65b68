// What a step can and cannot touch, whatever it is.

module SagaFrames {
  import opened Domain
  import opened Tables
  import opened Saga

  /** A step of p moves its own call, and may start the payment service's side
      of an rpc; blame is never taken back. */
  ghost predicate OthersWait(s: State, t: State, p: Pid) {
    && (forall q :: q in t.calls && q != p && q != Server(p) ==> q in s.calls && t.calls[q] == s.calls[q])
    && (forall q :: q in s.calls ==> q in t.calls)
    && (Server(p) in t.calls ==>
          (Server(p) in s.calls && t.calls[Server(p)] == s.calls[Server(p)])
          || (t.calls[Server(p)].Paying? && p in s.calls && s.calls[p].Creating? && s.calls[p].c.Dial?))
    && s.trail.blame <= t.trail.blame
  }

  lemma FrameRpc(s: State, p: Pid, o: Order, e: Env)
    requires p in s.calls && (s.calls[p] == Creating(Dial(o)) || s.calls[p] == Creating(Await(o)))
    ensures OthersWait(s, AdvanceCreate(s, p, s.calls[p].c, e), p)
  {
  }

  lemma FrameLocal(s: State, p: Pid, c: CreateAt, e: Env)
    requires p in s.calls && s.calls[p] == Creating(c) && !c.Dial? && !c.Await?
    ensures OthersWait(s, AdvanceCreate(s, p, c, e), p)
  {
    hide ByKey, InsertOrder, SetStatus, OrderFits, DoDial, DoAwait;
  }

  lemma FrameCreate(s: State, p: Pid, c: CreateAt, e: Env)
    requires p in s.calls && s.calls[p] == Creating(c)
    ensures OthersWait(s, AdvanceCreate(s, p, c, e), p)
  {
    hide *;
    match c
    case Dial(o) => FrameRpc(s, p, o, e);
    case Await(o) => FrameRpc(s, p, o, e);
    case _ => FrameLocal(s, p, c, e);
  }

  lemma FrameCancel(s: State, p: Pid, k: CancelAt, e: Env)
    requires p in s.calls
    ensures OthersWait(s, AdvanceCancel(s, p, k, e), p)
  {
    hide SetStatus;
  }

  lemma FrameGet(s: State, p: Pid, g: GetAt, e: Env)
    requires p in s.calls
    ensures OthersWait(s, AdvanceGet(s, p, g, e), p)
  {
  }

  lemma FramePay(s: State, p: Pid, y: PayAt, e: Env)
    requires p in s.calls
    ensures OthersWait(s, AdvancePay(s, p, y, e), p)
  {
    hide HasPayment, PaymentFits, InsertPayment;
  }

  lemma FrameMove(s: State, p: Pid, e: Env)
    requires p in s.calls
    ensures OthersWait(s, Advance(s, p, s.calls[p], e), p)
  {
    hide AdvanceCreate, AdvanceCancel, AdvanceGet, AdvancePay, OthersWait;
    match s.calls[p]
    case Creating(c) => FrameCreate(s, p, c, e);
    case Cancelling(k) => FrameCancel(s, p, k, e);
    case Getting(g) => FrameGet(s, p, g, e);
    case Paying(y) => FramePay(s, p, y, e);
  }

  // ----- what one step does to one row -----

  /** The next step of call c gives row `id` the status `st`. */
  predicate Writes(c: Call, id: Uuid, st: OrderStatus) {
    match c
    case Creating(Update(o, t, _)) => o.id == id && st == t
    case Cancelling(CancelWrite(o)) => o.id == id && st.Cancelled?
    case _ => false
  }

  ghost predicate RowStep(s: State, t: State, c: Call, id: Uuid)
    requires id in s.db.orders
  {
    && id in t.db.orders
    && (t.db.orders[id].status == s.db.orders[id].status || Writes(c, id, t.db.orders[id].status))
  }

  lemma RowAfterCreate(s: State, p: Pid, c: CreateAt, e: Env, id: Uuid)
    requires id in s.db.orders
    ensures RowStep(s, AdvanceCreate(s, p, c, e), Creating(c), id)
  {
    hide Record, Blame, Tag, ByKey;
  }

  lemma RowAfterMove(s: State, p: Pid, e: Env, id: Uuid)
    requires id in s.db.orders && p in s.calls
    ensures RowStep(s, Advance(s, p, s.calls[p], e), s.calls[p], id)
  {
    hide AdvanceCreate, Record, Blame, Tag, HasPayment, PaymentFits;
    if s.calls[p].Creating? {
      RowAfterCreate(s, p, s.calls[p].c, e, id);
    }
  }

  lemma BodyAfterCreate(s: State, p: Pid, c: CreateAt, e: Env, id: Uuid)
    requires id in s.db.orders
    ensures var t := AdvanceCreate(s, p, c, e); id in t.db.orders && SameBody(s.db.orders[id], t.db.orders[id])
  {
    hide Record, Blame, Tag, ByKey;
  }

  /** No step changes any other column of a row. */
  lemma BodyAfterMove(s: State, p: Pid, e: Env, id: Uuid)
    requires id in s.db.orders && p in s.calls
    ensures var t := Advance(s, p, s.calls[p], e); id in t.db.orders && SameBody(s.db.orders[id], t.db.orders[id])
  {
    hide AdvanceCreate, Record, Blame, Tag, HasPayment, PaymentFits;
    if s.calls[p].Creating? {
      BodyAfterCreate(s, p, s.calls[p].c, e, id);
    }
  }

  /** Only an insert makes a row, and only for its own call's identifier. */
  lemma RowsAfterMove(s: State, p: Pid, e: Env)
    requires p in s.calls
    requires s.calls[p].Creating? && s.calls[p].c.Insert? ==> s.calls[p].c.order.id == Minted(p, 0)
    ensures forall id :: id in Advance(s, p, s.calls[p], e).db.orders && id !in s.db.orders ==>
              id == Minted(p, 0) && s.calls[p].Creating?
  {
    hide AdvanceCreate, HasPayment, PaymentFits;
    if s.calls[p].Creating? {
      RowsAfterCreate(s, p, s.calls[p].c, e);
    }
  }

  lemma RowsAfterCreate(s: State, p: Pid, c: CreateAt, e: Env)
    requires c.Insert? ==> c.order.id == Minted(p, 0)
    ensures forall id :: id in AdvanceCreate(s, p, c, e).db.orders && id !in s.db.orders ==> id == Minted(p, 0)
  {
    hide Record, Blame, Tag, ByKey;
  }

  /** Only PayInsert writes the payment table. */
  lemma PaymentsOnlyByInsert(s: State, p: Pid, e: Env)
    requires p in s.calls && !(s.calls[p].Paying? && s.calls[p].y.PayInsert?)
    ensures Advance(s, p, s.calls[p], e).db.payments == s.db.payments
  {
    hide ByKey, OrderFits, InsertOrder, SetStatus, Record, Tag, HasPayment;
  }

  lemma RowAfterStep(s: State, a: Action, id: Uuid)
    requires id in s.db.orders
    ensures id in Next(s, a).db.orders
    ensures Next(s, a).db.orders[id].status == s.db.orders[id].status
            || (a.Move? && a.p in s.calls && Writes(s.calls[a.p], id, Next(s, a).db.orders[id].status))
  {
    hide Advance, TrailOfDeath;
    if a.Move? && a.p in s.calls {
      RowAfterMove(s, a.p, a.e, id);
    }
  }

}
