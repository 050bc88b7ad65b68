// Between whole calls the cache never shows: GetOrder answers as the
// repository would.

module CacheAside {
  import opened Domain
  import opened Gateway
  import opened Tables
  import opened Saga
  import opened WholeCalls

  /** A whole call, entries that expire or are lost, or time that passes. */
  datatype Op =
    | CreateOrder(req: Request, create: CreateEnv)
    | CancelOrder(id: Uuid, cancel: CancelEnv)
    | GetOrder(id: Uuid, get: GetEnv)
    | Expire(ids: set<Uuid>)
    | Wait(d: nat)

  datatype Answer =
    | ToCreate(result: CreateResult)
    | ToCancel(error: Option<CancelError>)
    | ToGet(order: Option<Order>)
    | Silence

  ghost function Serve(m: Stores, n: nat, op: Op): (Stores, Answer) {
    match op
    case CreateOrder(req, env) => var (m1, r) := CreateWhole(m, Client(n), req, env); (m1, ToCreate(r))
    case CancelOrder(id, env) => var (m1, e) := CancelWhole(m, id, env); (m1, ToCancel(e))
    case GetOrder(id, env) => var (m1, o) := GetWhole(m, id, env); (m1, ToGet(o))
    case Expire(ids) => (m.(cache := m.cache - ids), Silence)
    case Wait(d) => (m.(now := m.now + d), Silence)
  }

  /** The same with no cache: GetOrder is the repository's GetByID. */
  ghost function ServePlain(m: Stores, n: nat, op: Op): (Stores, Answer) {
    match op
    case GetOrder(id, env) =>
      (m, ToGet(if env.read.Acked? && id in m.orders then Some(m.orders[id]) else None))
    case _ => var (m1, a) := Serve(m, n, op); (Bare(m1), a)
  }

  function Bare(m: Stores): Stores {
    m.(cache := map[])
  }

  ghost function Answers(m: Stores, n: nat, script: seq<Op>): seq<Answer>
    decreases |script|
  {
    if script == [] then [] else
      var (m1, a) := Serve(m, n, script[0]); [a] + Answers(m1, n + 1, script[1..])
  }

  ghost function PlainAnswers(m: Stores, n: nat, script: seq<Op>): seq<Answer>
    decreases |script|
  {
    if script == [] then [] else
      var (m1, a) := ServePlain(m, n, script[0]); [a] + PlainAnswers(m1, n + 1, script[1..])
  }

  /** Every entry, expired or not, is the row it was read from. */
  ghost predicate Coherent(m: Stores) {
    && (forall id :: id in m.orders ==> m.orders[id].id == id)
    && (forall id :: id in m.cache ==> id in m.orders && m.cache[id].order == m.orders[id])
  }

  /** A cancel whose write failed changed nothing, and whose write succeeded got its deletion through. */
  predicate Clean(op: Op) {
    op.CancelOrder? ==> CleanWrite(op.cancel.write)
  }

  predicate CleanWrite(env: WriteEnv) {
    env.update.Lost? || (env.update.Acked? && !env.delete.Lost?)
  }

  // ----- the cache plays no part in writing -----

  lemma AuthorizeIgnoresCache(m: Stores, p: Pid, o: Order, env: RpcEnv)
    ensures var (m1, r) := AuthorizeWhole(m, p, o, env);
            && AuthorizeWhole(Bare(m), p, o, env) == (Bare(m1), r)
            && m1.orders == m.orders && m1.cache == m.cache
  {
    hide HasPayment, InsertPayment, NewPayment, AuthorizePayment, EventOf;
  }

  lemma PayForIgnoresCache(m: Stores, p: Pid, o: Order, env: CreateEnv)
    ensures var (m1, r) := PayForWhole(m, p, o, env);
            var (m2, r2) := PayForWhole(Bare(m), p, o, env);
            r2 == r && Bare(m2) == Bare(m1)
  {
    AuthorizeIgnoresCache(m, p, o, env.rpc);
    hide AuthorizeWhole, SetStatus;
  }

  lemma CreateIgnoresCache(m: Stores, p: Pid, req: Request, env: CreateEnv)
    ensures var (m1, r) := CreateWhole(m, p, req, env);
            var (m2, r2) := CreateWhole(Bare(m), p, req, env);
            r2 == r && Bare(m2) == Bare(m1)
  {
    var o := NewOrder(p, req, m.now);
    PayForIgnoresCache(Notified(m.(orders := InsertOrder(m.orders, o, env.insert).0), o), p, o, env);
    hide ByKey, InsertOrder, PayForWhole;
  }

  lemma WriteStaysCoherent(m: Stores, id: Uuid, st: OrderStatus, env: WriteEnv)
    requires Coherent(m) && (id !in m.cache || CleanWrite(env))
    ensures Coherent(WriteWhole(m, id, st, env).0)
  {
  }

  lemma PayForStaysCoherent(m: Stores, p: Pid, o: Order, env: CreateEnv)
    requires Coherent(m) && o.id !in m.cache
    ensures Coherent(PayForWhole(m, p, o, env).0)
  {
    AuthorizeIgnoresCache(m, p, o, env.rpc);
    var (m1, verdict) := AuthorizeWhole(m, p, o, env.rpc);
    assert Coherent(m1);
    match verdict {
      case Err =>
        WriteStaysCoherent(m1, o.id, Failed, env.write);
      case Ok(v) =>
        WriteStaysCoherent(m1, o.id, StatusFor(v), env.write);
    }
    hide AuthorizeWhole, WriteWhole;
  }

  /** A new order's identifier is in no table and no cache, so none of its faults can make the cache stale. */
  lemma CreateStaysCoherent(m: Stores, p: Pid, req: Request, env: CreateEnv)
    requires Coherent(m)
    ensures Coherent(CreateWhole(m, p, req, env).0)
  {
    var o := NewOrder(p, req, m.now);
    var (orders, ok) := InsertOrder(m.orders, o, env.insert);
    var m1 := Notified(m.(orders := orders), o);
    assert Coherent(m1);
    if ok {
      PayForStaysCoherent(m1, p, o, env);
    }
    hide ByKey, PayForWhole;
  }

  lemma CancelStaysCoherent(m: Stores, id: Uuid, env: CancelEnv)
    requires Coherent(m) && CleanWrite(env.write)
    ensures Coherent(CancelWhole(m, id, env).0)
  {
  }

  /** For a cached Pending order the condition is exact. */
  lemma CleanWriteIsNeeded(m: Stores, id: Uuid, env: CancelEnv)
    requires Coherent(m) && id in m.cache && m.orders[id].status.Pending? && env.read.Acked?
    ensures Coherent(CancelWhole(m, id, env).0) <==> CleanWrite(env.write)
  {
  }

  /** The cached answer is the plain one, unless the table cannot be read: then
      it may be the current row where the repository has only an error. */
  predicate Alike(tables: Stores, op: Op, answer: Answer, plain: Answer) {
    || answer == plain
    || (op.GetOrder? && !op.get.read.Acked? && plain == ToGet(None)
        && op.id in tables.orders && answer == ToGet(Some(tables.orders[op.id])))
  }

  /** One call: the cache stays equal to the table, the tables change alike, and so do the answers. */
  ghost predicate Agree(m: Stores, n: nat, op: Op) {
    var (m1, a) := Serve(m, n, op);
    var (m2, plain) := ServePlain(Bare(m), n, op);
    Coherent(m1) && m2 == Bare(m1) && Alike(Bare(m), op, a, plain)
  }

  lemma CreateAgrees(m: Stores, n: nat, req: Request, env: CreateEnv)
    requires Coherent(m)
    ensures Agree(m, n, CreateOrder(req, env))
  {
    CreateIgnoresCache(m, Client(n), req, env);
    CreateStaysCoherent(m, Client(n), req, env);
    hide CreateWhole, Coherent;
  }

  lemma CancelAgrees(m: Stores, n: nat, id: Uuid, env: CancelEnv)
    requires Coherent(m) && CleanWrite(env.write)
    ensures Agree(m, n, CancelOrder(id, env))
  {
    CancelStaysCoherent(m, id, env);
    hide Coherent;
  }

  lemma GetAgrees(m: Stores, n: nat, id: Uuid, env: GetEnv)
    requires Coherent(m)
    ensures Agree(m, n, GetOrder(id, env))
  {
  }

  lemma StepAgrees(m: Stores, n: nat, op: Op)
    requires Coherent(m) && Clean(op)
    ensures Agree(m, n, op)
  {
    match op
    case CreateOrder(req, env) => hide *; CreateAgrees(m, n, req, env);
    case CancelOrder(id, env) => hide Agree, Coherent; CancelAgrees(m, n, id, env);
    case GetOrder(id, env) => hide *; GetAgrees(m, n, id, env);
    case _ =>
  }

  /** The tables after the calls of the script, served without a cache. */
  ghost function PlainAfter(m: Stores, n: nat, script: seq<Op>): Stores
    decreases |script|
  {
    if script == [] then m else PlainAfter(ServePlain(m, n, script[0]).0, n + 1, script[1..])
  }

  lemma {:induction false} AsManyAnswers(m: Stores, n: nat, script: seq<Op>)
    ensures |Answers(m, n, script)| == |script| && |PlainAnswers(m, n, script)| == |script|
    decreases |script|
  {
    hide Serve, ServePlain;
    if script != [] {
      AsManyAnswers(Serve(m, n, script[0]).0, n + 1, script[1..]);
      AsManyAnswers(ServePlain(m, n, script[0]).0, n + 1, script[1..]);
    }
  }

  /** The i-th answer, seen from the tables of that moment. */
  ghost predicate AlikeAt(m: Stores, n: nat, script: seq<Op>, i: nat)
    requires i < |script|
  {
    AsManyAnswers(m, n, script);
    AsManyAnswers(Bare(m), n, script);
    Alike(PlainAfter(Bare(m), n, script[..i]), script[i], Answers(m, n, script)[i], PlainAnswers(Bare(m), n, script)[i])
  }

  /** Whatever expires, whichever cache reads and Sets fail, every answer of
      every call is the one that the plain tables would have given, or the
      current row where the table could not be read. */
  lemma {:induction false} CacheIsTransparent(m: Stores, n: nat, script: seq<Op>, i: nat)
    requires Coherent(m) && (forall k :: 0 <= k < |script| ==> Clean(script[k])) && i < |script|
    ensures AlikeAt(m, n, script, i)
    decreases |script|
  {
    AsManyAnswers(m, n, script);
    AsManyAnswers(Bare(m), n, script);
    StepAgrees(m, n, script[0]);
    hide Serve, ServePlain, Coherent, Alike, Clean;
    var m1 := Serve(m, n, script[0]).0;
    if i > 0 {
      CacheIsTransparent(m1, n + 1, script[1..], i - 1);
      AsManyAnswers(m1, n + 1, script[1..]);
      AsManyAnswers(Bare(m1), n + 1, script[1..]);
      assert script[..i][1..] == script[1..][..i - 1];
    }
  }

  /** With a table that can be read, the two services cannot be told apart. */
  lemma {:induction false} NothingShows(m: Stores, n: nat, script: seq<Op>)
    requires Coherent(m) && forall k :: 0 <= k < |script| ==> Clean(script[k])
    requires forall k :: 0 <= k < |script| && script[k].GetOrder? ==> script[k].get.read.Acked?
    ensures Answers(m, n, script) == PlainAnswers(Bare(m), n, script)
  {
    AsManyAnswers(m, n, script);
    AsManyAnswers(Bare(m), n, script);
    hide Answers, PlainAnswers, PlainAfter, Coherent;
    forall i | 0 <= i < |script| ensures Answers(m, n, script)[i] == PlainAnswers(Bare(m), n, script)[i] {
      CacheIsTransparent(m, n, script, i);
    }
  }
}
