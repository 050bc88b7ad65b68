// How old a cached order can be: every copy is a version its row really had,
// and a copy that differs from the row has one of three explanations.

module Staleness {
  import opened Domain
  import opened Tables
  import opened Saga
  import opened SagaInvariant
  import opened SagaFrames
  import opened SagaTheorems

  /** The row has had this status. */
  predicate WasHeld(h: Trail, o: Order) {
    o.id in h.held && o.status in h.held[o.id]
  }

  /** A copy read at step `readAt` is a version of the row, and is the row if nothing was written since. */
  ghost predicate Copy(db: Db, h: Trail, o: Order, readAt: nat) {
    && Row(db, o) && WasHeld(h, o)
    && o.id in h.writes && readAt != h.writes[o.id].at
    && (readAt > h.writes[o.id].at ==> o == db.orders[o.id])
  }

  /** An entry older than the last write is there because the deletion that
      belongs to that write has not been done. */
  ghost predicate Entered(db: Db, h: Trail, e: Entry) {
    && Copy(db, h, e.order, e.readAt) && e.readAt < e.setAt
    && e.setAt != h.writes[e.order.id].at
    && (e.setAt < h.writes[e.order.id].at ==> !h.writes[e.order.id].sweep.Swept?)
  }

  predicate Deletes(c: Call, id: Uuid) {
    match c
    case Creating(c) => c.Evict? && c.order.id == id
    case Cancelling(k) => k.CancelEvict? && k.order.id == id
    case _ => false
  }

  ghost predicate RowsOk(s: State) {
    forall id :: id in s.db.orders ==>
      && id in s.trail.writes && s.trail.writes[id].at < s.step
      && WasHeld(s.trail, s.db.orders[id])
  }

  /** If the deletion owed by this write is still due, its writer is about to do it. */
  ghost predicate DueBy(calls: map<Pid, Call>, id: Uuid, w: Write) {
    w.sweep.Due? ==> w.writer in calls && Deletes(calls[w.writer], id)
  }

  ghost predicate DueOk(s: State) {
    forall id :: id in s.trail.writes ==> DueBy(s.calls, id, s.trail.writes[id])
  }

  ghost predicate ReaderOk(s: State, c: Call) {
    match c
    case Getting(Fill(o, readAt)) => Copy(s.db, s.trail, o, readAt) && readAt < s.step
    case Getting(Got(id, answer)) => answer.Some? ==> WasHeld(s.trail, answer.value)
    case _ => true
  }

  ghost predicate ReadersOk(s: State) {
    forall p :: p in s.calls ==> ReaderOk(s, s.calls[p])
  }

  ghost predicate EntriesOk(s: State) {
    forall id :: id in s.cache ==>
      s.cache[id].order.id == id && Entered(s.db, s.trail, s.cache[id]) && s.cache[id].setAt < s.step
  }

  ghost predicate Explained(s: State) {
    RowsOk(s) && DueOk(s) && ReadersOk(s) && EntriesOk(s)
  }

  // ----- what a write does to the copies -----

  /** One row was written at step s.step. */
  ghost predicate RowWritten(s: State, t: State, id: Uuid) {
    && (forall i :: i in s.db.orders ==> i in t.db.orders && SameBody(s.db.orders[i], t.db.orders[i])
                                         && (i != id ==> t.db.orders[i] == s.db.orders[i]))
    && (forall i :: i in s.trail.held ==> i in t.trail.held && s.trail.held[i] <= t.trail.held[i])
    && (forall i :: i in s.trail.writes ==> i in t.trail.writes)
    && (forall i :: i in s.trail.writes && i != id ==> t.trail.writes[i] == s.trail.writes[i])
    && id in t.trail.writes && t.trail.writes[id].at == s.step
    && s.step < t.step
  }

  lemma CopySurvivesWrite(s: State, t: State, id: Uuid, o: Order, readAt: nat)
    requires RowWritten(s, t, id) && Copy(s.db, s.trail, o, readAt) && readAt < s.step
    ensures Copy(t.db, t.trail, o, readAt)
  {
  }

  // ----- the four ways a step can matter -----

  /** Every call but p goes on as it was, or is the payment service's. */
  ghost predicate CallsMoved(s: State, t: State, p: Pid) {
    forall q :: q != p ==>
      && (q in t.calls ==> t.calls[q].Paying? || (q in s.calls && t.calls[q] == s.calls[q]))
      && (q in s.calls && !s.calls[q].Paying? ==> q in t.calls && t.calls[q] == s.calls[q])
  }

  /** A step that touches neither rows nor entries. */
  lemma QuietKeeps(s: State, t: State, p: Pid)
    requires Explained(s) && CallsMoved(s, t, p)
    requires t.db.orders == s.db.orders && t.trail.held == s.trail.held && t.trail.writes == s.trail.writes
    requires t.cache == s.cache && t.step == s.step + 1
    requires p in s.calls ==> forall id :: id in s.trail.writes ==> !Deletes(s.calls[p], id)
    requires p in t.calls ==> ReaderOk(t, t.calls[p])
    ensures Explained(t)
  {
  }

  lemma DueKept(s: State, t: State, p: Pid, i: Uuid)
    requires i in s.trail.writes && DueBy(s.calls, i, s.trail.writes[i]) && CallsMoved(s, t, p)
    requires p in s.calls ==> !Deletes(s.calls[p], i)
    ensures DueBy(t.calls, i, s.trail.writes[i])
  {
  }

  ghost predicate DueKeptBut(s: State, t: State, p: Pid, id: Uuid) {
    && (forall i :: i in t.trail.writes && i != id ==> i in s.trail.writes && t.trail.writes[i] == s.trail.writes[i])
    && (id in t.trail.writes ==> DueBy(t.calls, id, t.trail.writes[id]))
    && (p in s.calls ==> forall i :: i != id ==> !Deletes(s.calls[p], i))
  }

  lemma AllDueKept(s: State, t: State, p: Pid, id: Uuid)
    requires DueOk(s) && CallsMoved(s, t, p) && DueKeptBut(s, t, p, id)
    ensures DueOk(t)
  {
    forall i | i in t.trail.writes ensures DueBy(t.calls, i, t.trail.writes[i]) {
      if i != id { DueKept(s, t, p, i); }
    }
  }

  lemma ReadersKept(s: State, t: State, p: Pid)
    requires ReadersOk(s) && CallsMoved(s, t, p) && s.step <= t.step
    requires p in t.calls ==> ReaderOk(t, t.calls[p])
    requires forall o: Order, n: nat | Copy(s.db, s.trail, o, n) && n < s.step :: Copy(t.db, t.trail, o, n)
    requires forall o: Order | WasHeld(s.trail, o) :: WasHeld(t.trail, o)
    ensures ReadersOk(t)
  {
    hide Copy, WasHeld;
    forall q | q in t.calls && q != p && !t.calls[q].Paying? ensures ReaderOk(t, t.calls[q]) {
      assert ReaderOk(s, s.calls[q]);
    }
  }

  lemma EntriesOutliveWrite(s: State, t: State, id: Uuid)
    requires EntriesOk(s) && RowWritten(s, t, id) && t.cache == s.cache
    requires t.trail.writes[id].sweep.Swept? ==> id !in s.cache
    ensures EntriesOk(t)
  {
  }

  /** A step that writes row `id`. */
  lemma WriteKeeps(s: State, t: State, p: Pid, id: Uuid)
    requires Explained(s) && CallsMoved(s, t, p) && RowWritten(s, t, id)
    requires t.cache == s.cache && t.step == s.step + 1
    requires p in s.calls && p in t.calls && !t.calls[p].Getting?
    requires DueKeptBut(s, t, p, id)
    requires forall i :: i in t.db.orders && i !in s.db.orders ==> i == id
    requires id in t.db.orders ==> WasHeld(t.trail, t.db.orders[id])
    requires t.trail.writes[id].sweep.Swept? ==> id !in s.cache
    ensures Explained(t)
  {
    AllDueKept(s, t, p, id);
    EntriesOutliveWrite(s, t, id);
    forall o: Order, n: nat | Copy(s.db, s.trail, o, n) && n < s.step ensures Copy(t.db, t.trail, o, n) {
      CopySurvivesWrite(s, t, id, o, n);
    }
    assert ReaderOk(t, t.calls[p]);
    ReadersKept(s, t, p);
    hide DueOk, ReadersOk, EntriesOk, Copy;
  }

  lemma EntriesOutliveDelete(s: State, t: State, p: Pid, id: Uuid, gone: bool)
    requires EntriesOk(s) && t.db.orders == s.db.orders && s.step <= t.step
    requires t.trail.held == s.trail.held && t.trail.writes == Tag(s.trail, id, p, if gone then Swept else Missed).writes
    requires t.cache == if gone then s.cache - {id} else s.cache
    ensures EntriesOk(t)
  {
  }

  /** A step that pays, or fails to pay, the deletion call p owes for row `id`. */
  lemma DeleteKeeps(s: State, t: State, p: Pid, id: Uuid, gone: bool)
    requires Explained(s) && CallsMoved(s, t, p)
    requires t.db.orders == s.db.orders
    requires t.trail.held == s.trail.held && t.trail.writes == Tag(s.trail, id, p, if gone then Swept else Missed).writes
    requires t.cache == if gone then s.cache - {id} else s.cache
    requires t.step == s.step + 1
    requires p in s.calls && Deletes(s.calls[p], id)
    requires p in t.calls ==> !t.calls[p].Getting?
    ensures Explained(t)
  {
    EntriesOutliveDelete(s, t, p, id, gone);
    DueOutlivesDelete(s, t, p, id, gone);
    assert p in t.calls ==> ReaderOk(t, t.calls[p]);
    forall o: Order, n: nat | Copy(s.db, s.trail, o, n) ensures Copy(t.db, t.trail, o, n) {
    }
    ReadersKept(s, t, p);
    hide DueOk, ReadersOk, EntriesOk, Copy, CallsMoved;
  }

  lemma DueOutlivesDelete(s: State, t: State, p: Pid, id: Uuid, gone: bool)
    requires DueOk(s) && CallsMoved(s, t, p)
    requires t.trail.writes == Tag(s.trail, id, p, if gone then Swept else Missed).writes
    requires p in s.calls && Deletes(s.calls[p], id)
    ensures DueOk(t)
  {
    forall i | i in t.trail.writes ensures DueBy(t.calls, i, t.trail.writes[i]) {
      assert DueBy(s.calls, i, s.trail.writes[i]);
    }
  }

  /** A reader's Set. */
  lemma EntryAdded(t: State, e: Entry)
    requires Explained(t) && Copy(t.db, t.trail, e.order, e.readAt) && e.readAt < e.setAt == t.step - 1
    requires e.order.id in t.trail.writes ==> t.trail.writes[e.order.id].at < e.setAt
    ensures Explained(t.(cache := t.cache[e.order.id := e]))
  {
  }

  lemma FillKeeps(s: State, t: State, p: Pid, e: Entry)
    requires Explained(s) && CallsMoved(s, t, p)
    requires t.db.orders == s.db.orders && t.trail == s.trail && t.step == s.step + 1
    requires Copy(s.db, s.trail, e.order, e.readAt) && e.readAt < e.setAt == s.step
    requires t.cache == s.cache[e.order.id := e] || t.cache == s.cache
    requires p in s.calls && s.calls[p].Getting?
    requires p in t.calls && ReaderOk(t, t.calls[p])
    ensures Explained(t)
  {
    var u := t.(cache := s.cache);
    assert CallsMoved(s, u, p) && ReaderOk(u, u.calls[p]) && Copy(u.db, u.trail, e.order, e.readAt);
    assert forall id :: !Deletes(s.calls[p], id);
    assert RowsOk(s) && e.order.id in s.db.orders;
    assert s.trail.writes[e.order.id].at < s.step;
    hide *;
    QuietKeeps(s, u, p);
    EntryAdded(u, e);
    assert t == u.(cache := t.cache);
  }

  // ----- one lemma per operation -----

  lemma MoveFacts(s: State, p: Pid, e: Env)
    requires Inv(s) && p in s.calls
    ensures CallsMoved(s, Tick(Advance(s, p, s.calls[p], e)), p)
  {
    FrameMove(s, p, e);
    if Server(p) in s.calls {
      CallFacts(s, Server(p));
    }
    hide Advance, Inv;
  }

  /** The new row is written in step s.step, by a call that owes no deletion. */
  lemma RowInserted(s: State, p: Pid, o: Order, e: Env)
    requires RowsOk(s) && OrdersOk(s.db) && o.id !in s.db.orders && o.status.Pending?
    requires !e.fault.Lost? && OrderFits(s.db.orders, o) && p in s.calls && s.calls[p] == Creating(Insert(o))
    ensures var t := Tick(DoInsert(s, p, o, e));
            && RowWritten(s, t, o.id) && DueKeptBut(s, t, p, o.id)
            && t.cache == s.cache && t.step == s.step + 1 && p in t.calls && !t.calls[p].Getting?
            && (forall i :: i in t.db.orders && i !in s.db.orders ==> i == o.id)
            && o.id in t.db.orders && WasHeld(t.trail, t.db.orders[o.id])
  {
    hide OrderFits;
  }

  lemma InsertLanded(s: State, p: Pid, o: Order, e: Env)
    requires Inv(s) && Explained(s) && p in s.calls && s.calls[p] == Creating(Insert(o))
    requires !e.fault.Lost? && OrderFits(s.db.orders, o) && CallsMoved(s, Tick(DoInsert(s, p, o, e)), p)
    ensures Explained(Tick(DoInsert(s, p, o, e)))
  {
    CallFacts(s, p);
    assert o.id !in s.cache by { CacheFacts(s); }
    assert RowsOk(s) && o.id !in s.db.orders && o.status.Pending?;
    hide *;
    RowInserted(s, p, o, e);
    WriteKeeps(s, Tick(DoInsert(s, p, o, e)), p, o.id);
  }

  lemma InsertFailed(s: State, p: Pid, o: Order, e: Env)
    requires Explained(s) && p in s.calls && s.calls[p] == Creating(Insert(o))
    requires (e.fault.Lost? || !OrderFits(s.db.orders, o)) && CallsMoved(s, Tick(DoInsert(s, p, o, e)), p)
    ensures Explained(Tick(DoInsert(s, p, o, e)))
  {
    hide Explained, CallsMoved, OrderFits;
    QuietKeeps(s, Tick(DoInsert(s, p, o, e)), p);
  }

  lemma InsertExplained(s: State, p: Pid, o: Order, e: Env)
    requires Inv(s) && Explained(s) && p in s.calls && s.calls[p] == Creating(Insert(o))
    requires Advance(s, p, s.calls[p], e) == DoInsert(s, p, o, e)
    ensures Explained(Tick(DoInsert(s, p, o, e)))
  {
    hide *;
    MoveFacts(s, p, e);
    if !e.fault.Lost? && OrderFits(s.db.orders, o) {
      InsertLanded(s, p, o, e);
    } else {
      InsertFailed(s, p, o, e);
    }
  }

  /** What SetStatus and Record do together. */
  lemma StatusWritten(s: State, t: State, p: Pid, id: Uuid, st: OrderStatus, sweep: Sweep, f: Fault)
    requires id in s.db.orders && !f.Lost? && t.step == s.step + 1
    requires t.db.orders == SetStatus(s.db.orders, id, st, f).0
    requires t.trail.held == Record(s.trail, s.step, p, id, st, sweep).held
    requires t.trail.writes == Record(s.trail, s.step, p, id, st, sweep).writes
    requires OrdersOk(s.db)
    ensures RowWritten(s, t, id) && id in t.db.orders && WasHeld(t.trail, t.db.orders[id])
    ensures t.trail.writes[id] == Write(s.step, p, sweep)
    ensures forall i :: i in t.db.orders ==> i in s.db.orders
    ensures forall i :: i in t.trail.writes && i != id ==> i in s.trail.writes && t.trail.writes[i] == s.trail.writes[i]
  {
  }

  /** A status update of row o.id by call p: done or not, its copies stay explained. */
  lemma StatusDone(s: State, t: State, p: Pid, o: Order, st: OrderStatus, f: Fault)
    requires Inv(s) && Explained(s) && CallsMoved(s, t, p) && o.id in s.db.orders && !f.Lost?
    requires p in s.calls && (forall id :: !Deletes(s.calls[p], id)) && p in t.calls && !t.calls[p].Getting?
    requires t.step == s.step + 1 && t.cache == s.cache
    requires t.db.orders == SetStatus(s.db.orders, o.id, st, f).0
    requires var h := Record(s.trail, s.step, p, o.id, st, if f.Acked? then Due else Missed);
             t.trail.held == h.held && t.trail.writes == h.writes
    requires f.Acked? ==> Deletes(t.calls[p], o.id)
    ensures Explained(t)
  {
    var sweep := if f.Acked? then Due else Missed;
    CacheFacts(s);
    hide *;
    StatusWritten(s, t, p, o.id, st, sweep, f);
    assert DueKeptBut(s, t, p, o.id) by { WriterOwes(s, t, p, o.id, sweep); }
    WriteKeeps(s, t, p, o.id);
  }

  lemma WriterOwes(s: State, t: State, p: Pid, id: Uuid, sweep: Sweep)
    requires forall i :: i in t.trail.writes && i != id ==> i in s.trail.writes && t.trail.writes[i] == s.trail.writes[i]
    requires id in t.trail.writes && t.trail.writes[id] == Write(s.step, p, sweep)
    requires sweep.Due? ==> p in t.calls && Deletes(t.calls[p], id)
    requires p in s.calls && forall i :: !Deletes(s.calls[p], i)
    ensures DueKeptBut(s, t, p, id)
  {
    hide Deletes;
  }

  lemma StatusExplained(s: State, t: State, p: Pid, o: Order, st: OrderStatus, f: Fault)
    requires Inv(s) && Explained(s) && CallsMoved(s, t, p) && o.id in s.db.orders
    requires p in s.calls && (forall id :: !Deletes(s.calls[p], id)) && p in t.calls && !t.calls[p].Getting?
    requires t.step == s.step + 1 && t.cache == s.cache
    requires t.db.orders == SetStatus(s.db.orders, o.id, st, f).0
    requires var h := if f.Lost? then s.trail else Record(s.trail, s.step, p, o.id, st, if f.Acked? then Due else Missed);
             t.trail.held == h.held && t.trail.writes == h.writes
    requires f.Acked? ==> Deletes(t.calls[p], o.id)
    ensures Explained(t)
  {
    hide Inv, Explained, CallsMoved, Deletes, Record;
    if f.Lost? {
      assert ReaderOk(t, t.calls[p]);
      hide SetStatus;
      QuietKeeps(s, t, p);
    } else {
      hide SetStatus;
      StatusDone(s, t, p, o, st, f);
    }
  }

  lemma UpdateExplained(s: State, p: Pid, o: Order, st: OrderStatus, failed: bool, e: Env)
    requires Inv(s) && Explained(s) && p in s.calls && s.calls[p] == Creating(Update(o, st, failed))
    requires Advance(s, p, s.calls[p], e) == DoUpdate(s, p, o, st, failed, e)
    ensures Explained(Tick(DoUpdate(s, p, o, st, failed, e)))
  {
    MoveFacts(s, p, e);
    CallFacts(s, p);
    hide Inv, Advance, Explained, CallsMoved, PaymentsOk, NoticesOk, Charged, OrdersOk, Record;
    StatusExplained(s, Tick(DoUpdate(s, p, o, st, failed, e)), p, o, st, e.fault);
  }

  lemma CancelWriteExplained(s: State, p: Pid, o: Order, e: Env)
    requires Inv(s) && Explained(s) && p in s.calls && s.calls[p] == Cancelling(CancelWrite(o))
    requires Advance(s, p, s.calls[p], e) == DoCancelWrite(s, p, o, e)
    ensures Explained(Tick(DoCancelWrite(s, p, o, e)))
  {
    MoveFacts(s, p, e);
    CallFacts(s, p);
    hide Inv, Advance, Explained, CallsMoved, PaymentsOk, NoticesOk, OrdersOk, Record;
    StatusExplained(s, Tick(DoCancelWrite(s, p, o, e)), p, o, Cancelled, e.fault);
  }

  lemma DeleteExplained(s: State, p: Pid, id: Uuid, e: Env, c: Call)
    requires Inv(s) && Explained(s) && p in s.calls && Deletes(s.calls[p], id) && !c.Getting?
    requires Advance(s, p, s.calls[p], e) == DoDelete(s, p, id, e, c)
    ensures Explained(Tick(DoDelete(s, p, id, e, c)))
  {
    MoveFacts(s, p, e);
    hide Inv, Explained, Advance;
    DeleteKeeps(s, Tick(DoDelete(s, p, id, e, c)), p, id, !e.fault.Lost?);
  }

  /** Nothing this step does bears on rows, entries or readers. */
  ghost predicate Irrelevant(s: State, t: State, p: Pid) {
    && t.db.orders == s.db.orders && t.cache == s.cache && t.step == s.step
    && t.trail.held == s.trail.held && t.trail.writes == s.trail.writes
    && p in t.calls && !t.calls[p].Getting?
  }

  lemma IrrelevantExplained(s: State, p: Pid, e: Env)
    requires Inv(s) && Explained(s) && p in s.calls
    requires Irrelevant(s, Advance(s, p, s.calls[p], e), p)
    requires forall id :: !Deletes(s.calls[p], id)
    ensures Explained(Tick(Advance(s, p, s.calls[p], e)))
  {
    MoveFacts(s, p, e);
    hide Inv, Explained, Advance;
    QuietKeeps(s, Tick(Advance(s, p, s.calls[p], e)), p);
  }

  predicate Relevant(c: CreateAt) {
    c.Insert? || c.Update? || c.Evict?
  }

  lemma MostOfTheSaga(s: State, p: Pid, c: CreateAt, e: Env)
    requires p in s.calls && s.calls[p] == Creating(c) && !Relevant(c)
    ensures Irrelevant(s, AdvanceCreate(s, p, c, e), p)
  {
    hide ByKey;
  }

  lemma PayingIsIrrelevant(s: State, p: Pid, y: PayAt, e: Env)
    requires p in s.calls && s.calls[p] == Paying(y)
    ensures Irrelevant(s, AdvancePay(s, p, y, e), p)
  {
    hide HasPayment, PaymentFits, InsertPayment;
  }

  lemma CreateExplained(s: State, p: Pid, c: CreateAt, e: Env)
    requires Inv(s) && Explained(s) && p in s.calls && s.calls[p] == Creating(c)
    ensures Explained(Tick(Advance(s, p, s.calls[p], e)))
  {
    hide Inv, Explained, DoLookup, DoInsert, DoNotify, DoDial, DoAwait, DoUpdate, DoDelete, Irrelevant, Tick;
    match c
    case Insert(o) => InsertExplained(s, p, o, e);
    case Update(o, st, failed) => UpdateExplained(s, p, o, st, failed, e);
    case Evict(o, st, failed) => DeleteExplained(s, p, o.id, e, Creating(AfterWrite(o, st, failed)));
    case _ =>
      MostOfTheSaga(s, p, c, e);
      IrrelevantExplained(s, p, e);
  }

  lemma CancelExplained(s: State, p: Pid, k: CancelAt, e: Env)
    requires Inv(s) && Explained(s) && p in s.calls && s.calls[p] == Cancelling(k)
    ensures Explained(Tick(Advance(s, p, s.calls[p], e)))
  {
    hide Inv, Explained, DoCancelWrite, DoDelete, Tick;
    match k
    case CancelWrite(o) => CancelWriteExplained(s, p, o, e);
    case CancelEvict(o) => DeleteExplained(s, p, o.id, e, Cancelling(CancelNotify(o.(status := Cancelled))));
    case _ => IrrelevantExplained(s, p, e);
  }

  lemma ReaderFacts(s: State, p: Pid, id: Uuid)
    requires Explained(s) && p in s.calls
    ensures ReaderOk(s, s.calls[p])
    ensures id in s.cache ==> s.cache[id].order.id == id && WasHeld(s.trail, s.cache[id].order)
    ensures id in s.db.orders && s.db.orders[id].id == id ==> Copy(s.db, s.trail, s.db.orders[id], s.step)
  {
  }

  /** What the reader holds next is a copy as good as what it read. */
  lemma NextReaderOk(s: State, p: Pid, g: GetAt, e: Env)
    requires Inv(s) && Explained(s) && p in s.calls && s.calls[p] == Getting(g)
    ensures var t := Tick(AdvanceGet(s, p, g, e)); p in t.calls && ReaderOk(t, t.calls[p])
  {
    CacheFacts(s);
    ReaderFacts(s, p, match g case ReadCache(id) => id case ReadTable(id) => id case Fill(o, _) => o.id case Got(id, _) => id);
    hide Inv, Explained, WasHeld, CacheOk, Row;
  }

  lemma ReaderLeaves(s: State, p: Pid, g: GetAt, e: Env)
    ensures var t := Tick(AdvanceGet(s, p, g, e));
            && t.db.orders == s.db.orders && t.trail == s.trail && t.step == s.step + 1
            && (!g.Fill? ==> t.cache == s.cache)
            && (g.Fill? ==> t.cache == s.cache
                            || t.cache == s.cache[g.order.id := Entry(g.order, g.readAt, s.step, s.clock + e.ttl)])
  {
  }

  lemma GetExplained(s: State, p: Pid, g: GetAt, e: Env)
    requires Inv(s) && Explained(s) && p in s.calls && s.calls[p] == Getting(g)
    ensures Explained(Tick(AdvanceGet(s, p, g, e)))
  {
    var t := Tick(AdvanceGet(s, p, g, e));
    assert Advance(s, p, s.calls[p], e) == AdvanceGet(s, p, g, e);
    ReaderFacts(s, p, Text(""));
    assert g.Fill? ==> Copy(s.db, s.trail, g.order, g.readAt) && g.readAt < s.step;
    assert forall id :: !Deletes(s.calls[p], id);
    hide *;
    MoveFacts(s, p, e);
    NextReaderOk(s, p, g, e);
    ReaderLeaves(s, p, g, e);
    match g {
      case Fill(o, readAt) => FillKeeps(s, t, p, Entry(o, readAt, s.step, s.clock + e.ttl));
      case _ => QuietKeeps(s, t, p);
    }
  }

  lemma MoveExplained(s: State, p: Pid, e: Env)
    requires Inv(s) && Explained(s) && p in s.calls
    ensures Explained(Tick(Advance(s, p, s.calls[p], e)))
  {
    hide Inv, Explained, AdvanceCreate, AdvanceCancel, AdvanceGet, AdvancePay, Tick, Irrelevant;
    match s.calls[p]
    case Creating(c) => CreateExplained(s, p, c, e);
    case Cancelling(k) => CancelExplained(s, p, k, e);
    case Getting(g) => GetExplained(s, p, g, e);
    case Paying(y) =>
      PayingIsIrrelevant(s, p, y, e);
      IrrelevantExplained(s, p, e);
  }

  /** A call that dies before its deletion leaves it missed. */
  lemma DiesBeforeDelete(s: State, p: Pid, id: Uuid)
    requires p in s.calls && Deletes(s.calls[p], id)
    ensures var t := Tick(Die(s, p, s.calls[p]));
            && CallsMoved(s, t, p) && p !in t.calls
            && t.db.orders == s.db.orders && t.cache == s.cache && t.step == s.step + 1
            && t.trail.held == s.trail.held && t.trail.writes == Tag(s.trail, id, p, Missed).writes
  {
  }

  lemma DiesElsewhere(s: State, p: Pid)
    requires p in s.calls && forall id :: !Deletes(s.calls[p], id)
    ensures var t := Tick(Die(s, p, s.calls[p]));
            && CallsMoved(s, t, p) && p !in t.calls
            && t.db.orders == s.db.orders && t.cache == s.cache && t.step == s.step + 1
            && t.trail.held == s.trail.held && t.trail.writes == s.trail.writes
  {
    hide Tag;
    assert forall o, t, failed :: s.calls[p] == Creating(Evict(o, t, failed)) ==> Deletes(s.calls[p], o.id);
    assert forall o :: s.calls[p] == Cancelling(CancelEvict(o)) ==> Deletes(s.calls[p], o.id);
  }

  lemma CrashExplained(s: State, p: Pid)
    requires Inv(s) && Explained(s) && p in s.calls
    ensures Explained(Tick(Die(s, p, s.calls[p])))
  {
    var t := Tick(Die(s, p, s.calls[p]));
    hide *;
    if id :| Deletes(s.calls[p], id) {
      DiesBeforeDelete(s, p, id);
      DeleteKeeps(s, t, p, id, false);
    } else {
      DiesElsewhere(s, p);
      QuietKeeps(s, t, p);
    }
  }

  lemma StartExplained(s: State, c: Call)
    requires Inv(s) && Explained(s)
    ensures Explained(Next(s, Start(c)))
  {
    assert Client(s.step) !in s.calls by {
      assert Born(Client(s.step)) == s.step;
    }
    hide Inv, Explained;
    if Opening(c) {
      QuietKeeps(s, Next(s, Start(c)), Client(s.step));
    } else {
      IdleExplained(s);
    }
  }

  lemma IdleExplained(s: State)
    requires Explained(s)
    ensures Explained(Tick(s))
  {
  }

  lemma DropExplained(s: State, id: Uuid)
    requires Explained(s)
    ensures Explained(Tick(s.(cache := s.cache - {id})))
  {
  }

  lemma PassExplained(s: State, d: nat)
    requires Explained(s)
    ensures Explained(Tick(s.(clock := s.clock + d)))
  {
  }

  lemma StepExplained(s: State, a: Action)
    requires Inv(s) && Explained(s)
    ensures Explained(Next(s, a))
  {
    hide Inv, Explained, Advance, Die, Tick;
    match a
    case Start(c) => StartExplained(s, c);
    case Move(p, e) => if p in s.calls { MoveExplained(s, p, e); } else { IdleExplained(s); }
    case Crash(p) => if p in s.calls { CrashExplained(s, p); } IdleExplained(s);
    case Pass(d) => PassExplained(s, d);
    case Drop(id) => DropExplained(s, id);
  }

  lemma {:induction false} ExplainedFrom(s: State, actions: seq<Action>)
    requires Inv(s) && Explained(s)
    ensures Explained(Run(s, actions))
    decreases |actions|
  {
    if actions != [] {
      StepKeeps(s, actions[0]);
      StepExplained(s, actions[0]);
      hide Inv, Explained, Next;
      ExplainedFrom(Next(s, actions[0]), actions[1..]);
    }
  }

  // ----- the results -----

  /** Whatever GetOrder answers is a version its row really had, and agrees with
      the row of this moment in every column but the status. */
  lemma {:induction false} AnswersAreRealVersions(actions: seq<Action>, p: Pid, id: Uuid, o: Order)
    requires var s := Reached(actions); p in s.calls && s.calls[p] == Getting(Got(id, Some(o)))
    ensures var s := Reached(actions);
            && o.id == id && id in s.db.orders && SameBody(o, s.db.orders[id])
            && id in s.trail.held && o.status in s.trail.held[id]
  {
    ReachedIsSound(actions);
    ReachedIsExplained(actions);
    hide Reached;
    AnswerIsReal(Reached(actions), p, id, o);
  }

  lemma ReachedIsExplained(actions: seq<Action>)
    ensures Explained(Reached(actions))
  {
    ExplainedFrom(Init(), actions);
  }

  lemma AnswerIsReal(s: State, p: Pid, id: Uuid, o: Order)
    requires Inv(s) && Explained(s) && p in s.calls && s.calls[p] == Getting(Got(id, Some(o)))
    ensures o.id == id && id in s.db.orders && SameBody(o, s.db.orders[id])
    ensures id in s.trail.held && o.status in s.trail.held[id]
  {
    CallFacts(s, p);
    hide Inv, OrdersOk, PaymentsOk, NoticesOk;
    assert ReaderOk(s, s.calls[p]);
  }

  /** A writer has written row `id` and not yet reached its cache deletion. */
  ghost predicate WriterBetween(s: State, id: Uuid) {
    exists p :: p in s.calls && Deletes(s.calls[p], id)
  }

  /** A cached order differs from its row only if it was read before the row's
      last write, and the writer is still between UpdateStatus and Delete, or that
      deletion failed or never came, or the reader's Set came after the write. */
  lemma {:induction false} StaleEntryHasACause(actions: seq<Action>, id: Uuid)
    requires var s := Reached(actions);
             id in s.cache && id in s.db.orders && s.cache[id].order != s.db.orders[id]
    ensures var s := Reached(actions);
            var e := s.cache[id];
            && id in s.trail.writes && e.readAt < s.trail.writes[id].at
            && ((s.trail.writes[id].sweep.Due? && WriterBetween(s, id))
                || s.trail.writes[id].sweep.Missed?
                || s.trail.writes[id].at < e.setAt)
  {
    ReachedIsExplained(actions);
    var s := Reached(actions);
    hide Reached;
    assert Entered(s.db, s.trail, s.cache[id]);
    assert DueBy(s.calls, id, s.trail.writes[id]);
  }

  // ----- expiry -----

  /** An entry is never prolonged: it stays as it was Set, is replaced, or is gone. */
  lemma {:induction false} EntriesAreNotProlonged(s: State, actions: seq<Action>, id: Uuid)
    requires id in s.cache
    ensures var t := Run(s, actions);
            id in t.cache ==> t.cache[id] == s.cache[id] || t.cache[id].setAt >= s.step
    decreases |actions|
  {
    if actions != [] {
      EntryAfterStep(s, actions[0], id);
      hide Next;
      if id in Next(s, actions[0]).cache {
        EntriesAreNotProlonged(Next(s, actions[0]), actions[1..], id);
      } else {
        EntriesAppearLater(Next(s, actions[0]), actions[1..], id);
      }
    }
  }

  lemma {:induction false} EntriesAppearLater(s: State, actions: seq<Action>, id: Uuid)
    requires id !in s.cache
    ensures var t := Run(s, actions); id in t.cache ==> t.cache[id].setAt >= s.step
    decreases |actions|
  {
    if actions != [] {
      EntryAfterStep(s, actions[0], id);
      hide Next;
      if id in Next(s, actions[0]).cache {
        EntriesAreNotProlonged(Next(s, actions[0]), actions[1..], id);
      } else {
        EntriesAppearLater(Next(s, actions[0]), actions[1..], id);
      }
    }
  }

  lemma EntryAfterCreate(s: State, p: Pid, c: CreateAt, e: Env)
    ensures AdvanceCreate(s, p, c, e).step == s.step
    ensures forall id :: id in AdvanceCreate(s, p, c, e).cache ==> id in s.cache && AdvanceCreate(s, p, c, e).cache[id] == s.cache[id]
  {
    hide ByKey, InsertOrder, OrderFits, SetStatus, Record, Blame, Tag, NewOrder;
  }

  lemma EntryAfterOther(s: State, p: Pid, e: Env, id: Uuid)
    requires p in s.calls && !s.calls[p].Creating?
    ensures var t := Advance(s, p, s.calls[p], e);
            && t.step == s.step
            && (id in t.cache ==> (id in s.cache && t.cache[id] == s.cache[id]) || t.cache[id].setAt == s.step)
  {
    hide AdvanceCreate, CancelVerdict, SetStatus, InsertPayment, HasPayment, PaymentFits, Record, Blame, Tag;
  }

  lemma EntryAfterMove(s: State, p: Pid, e: Env, id: Uuid)
    requires p in s.calls
    ensures var t := Advance(s, p, s.calls[p], e);
            && t.step == s.step
            && (id in t.cache ==> (id in s.cache && t.cache[id] == s.cache[id]) || t.cache[id].setAt == s.step)
  {
    hide AdvanceCreate, AdvanceCancel, AdvanceGet, AdvancePay;
    match s.calls[p]
    case Creating(c) => EntryAfterCreate(s, p, c, e);
    case _ => EntryAfterOther(s, p, e, id);
  }

  lemma EntryAfterStep(s: State, a: Action, id: Uuid)
    ensures var t := Next(s, a);
            && t.step == s.step + 1
            && (id in t.cache ==> (id in s.cache && t.cache[id] == s.cache[id]) || t.cache[id].setAt == s.step)
  {
    hide Advance, TrailOfDeath;
    if a.Move? && a.p in s.calls {
      EntryAfterMove(s, a.p, a.e, id);
    }
  }

  /** ttl after its Set, no GetOrder is answered from the entry: from then on a
      cache read of it goes on to the table. */
  lemma {:induction false} EntryIsGoneAfterTtl(s: State, p: Pid, o: Order, readAt: nat, e: Env, actions: seq<Action>, q: Pid, e': Env)
    requires p in s.calls && s.calls[p] == Getting(Fill(o, readAt)) && !e.fault.Lost?
    requires var t := Run(Next(s, Move(p, e)), actions);
             && t.clock >= s.clock + e.ttl
             && q in t.calls && t.calls[q] == Getting(ReadCache(o.id))
             && o.id in t.cache && t.cache[o.id].setAt <= s.step
    ensures var t := Run(Next(s, Move(p, e)), actions);
            Next(t, Move(q, e')).calls[q] == Getting(ReadTable(o.id))
  {
    var s1 := Next(s, Move(p, e));
    assert s1.cache[o.id] == Entry(o, readAt, s.step, s.clock + e.ttl) && s1.step == s.step + 1;
    EntriesAreNotProlonged(s1, actions, o.id);
  }
}
