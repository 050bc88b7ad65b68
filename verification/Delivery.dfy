// From notify to the stream: which updates a subscription gets, through a
// channel that holds one and drops the rest, when what the channel holds are the
// orders themselves and a saga goes on writing to the one it has sent.

module Delivery {
  import opened Domain
  import opened Registry
  import Saga
  import SagaTheorems
  import opened Stream

  // ----- one subscription -----

  /** Where its stream is: in the select, holding an order it has not read yet, with
      an update built and sent and the terminal check still to come, or returned. */
  datatype Where = Selecting | Building(obj: nat) | Checking(obj: nat, built: Order) | Over(end: End)

  /** `objs` are the orders that notify and GetOrder hand out, as they are now.  `taken`
      is what was received, `sent` the updates, `feed` what the turns of the loop found. */
  datatype Sub = Sub(
    id: Uuid,
    objs: seq<Order>,
    buf: seq<nat>,
    at: Where,
    taken: seq<nat>,
    sent: seq<Progress>,
    feed: seq<Wake>)

  /** One send of a notify for any order; the assignment to an order's status; one
      step of the stream, whose Send succeeds or not; its context is done. */
  datatype Touch = Offer(obj: nat) | Write(obj: nat, st: OrderStatus) | Turn(ok: bool) | Leave

  /** The stream is working on an order. */
  predicate InHand(s: Sub) {
    s.at.Building? || s.at.Checking?
  }

  /** An order that this subscription's channel may carry. */
  predicate Mine(s: Sub, k: nat) {
    k < |s.objs| && s.objs[k].id == s.id
  }

  predicate Proper(s: Sub) {
    |s.buf| <= 1 && (s.buf != [] ==> Mine(s, s.buf[0])) && (InHand(s) ==> Mine(s, s.at.obj))
  }

  function Step(s: Sub, t: Touch): (r: Sub)
    requires Proper(s)
    ensures Proper(r) && r.id == s.id && |r.objs| == |s.objs|
    ensures forall k :: 0 <= k < |s.objs| ==> SameBody(r.objs[k], s.objs[k])
  {
    match t
    case Offer(k) =>
      if Mine(s, k) && s.buf == [] then s.(buf := [k]) else s
    case Write(k, st) =>
      if k < |s.objs| then s.(objs := s.objs[k := s.objs[k].(status := st)]) else s
    case Leave =>
      if s.at.Selecting? then s.(at := Over(Canceled), feed := s.feed + [ClientGone]) else s
    case Turn(ok) =>
      match s.at
      case Selecting =>
        if s.buf == [] then s
        else s.(buf := s.buf[1..], at := Building(s.buf[0]), taken := s.taken + [s.buf[0]])
      case Building(k) =>
        if ok then s.(at := Checking(k, s.objs[k]), sent := s.sent + [ToProgress(s.objs[k])])
        else s.(at := Over(Internal), feed := s.feed + [Item(s.objs[k], s.objs[k].status, false)])
      case Checking(k, built) =>
        s.(at := if Terminal(s.objs[k].status) then Over(Nil) else Selecting,
           feed := s.feed + [Item(built, s.objs[k].status, true)])
      case Over(_) => s
  }

  function Play(s: Sub, touches: seq<Touch>): (r: Sub)
    requires Proper(s)
    ensures Proper(r) && r.id == s.id && |r.objs| == |s.objs|
    ensures forall k :: 0 <= k < |s.objs| ==> SameBody(r.objs[k], s.objs[k])
  {
    if touches == [] then s else Step(Play(s, touches[..|touches| - 1]), touches[|touches| - 1])
  }

  lemma {:induction false} PlayOn(s: Sub, a: seq<Touch>, b: seq<Touch>)
    requires Proper(s)
    ensures Play(s, a + b) == Play(Play(s, a), b)
  {
    if b == [] {
      assert a + b == a;
    } else {
      var n := |b| - 1;
      PlayOn(s, a, b[..n]);
      assert (a + b)[..|a + b| - 1] == a + b[..n];
    }
  }

  lemma PlayOne(s: Sub, t: Touch)
    requires Proper(s)
    ensures Play(s, [t]) == Step(s, t)
  {
    assert [t][..0] == [];
  }

  // ----- the channel -----

  /** The offers that found the buffer empty. */
  function Accepted(s: Sub, touches: seq<Touch>): seq<nat>
    requires Proper(s)
  {
    if touches == [] then [] else
      var n := |touches| - 1;
      var b, r := Play(s, touches[..n]), Accepted(s, touches[..n]);
      match touches[n]
      case Offer(k) => if Mine(b, k) && b.buf == [] then r + [k] else r
      case _ => r
  }

  lemma StepConserves(b: Sub, t: Touch)
    requires Proper(b)
    ensures var e := Step(b, t);
            e.taken + e.buf == b.taken + b.buf + if t.Offer? && Mine(b, t.obj) && b.buf == [] then [t.obj] else []
  {
    if b.buf != [] {
      assert b.taken + [b.buf[0]] + b.buf[1..] == b.taken + b.buf;
    }
  }

  /** Nothing is lost once accepted, nothing is invented, and the order is kept. */
  lemma {:induction false} Conservation(s: Sub, touches: seq<Touch>)
    requires Proper(s)
    ensures var e := Play(s, touches);
            e.taken + e.buf == s.taken + s.buf + Accepted(s, touches)
  {
    if touches != [] {
      var n := |touches| - 1;
      var b, t, a := Play(s, touches[..n]), touches[n], Accepted(s, touches[..n]);
      var more := if t.Offer? && Mine(b, t.obj) && b.buf == [] then [t.obj] else [];
      assert Play(s, touches) == Step(b, t) && Accepted(s, touches) == a + more;
      Conservation(s, touches[..n]);
      StepConserves(b, t);
      hide *;
      Regroup(s.taken + s.buf, a, more);
    }
  }

  /** An offer that finds the buffer full, or is for another order, does nothing at all. */
  lemma DroppedWithoutTrace(s: Sub, before: seq<Touch>, k: nat, after: seq<Touch>)
    requires Proper(s) && (Play(s, before).buf != [] || !Mine(s, k))
    ensures Play(s, before + [Offer(k)] + after) == Play(s, before + after)
  {
    PlayOn(s, before, [Offer(k)]);
    PlayOne(Play(s, before), Offer(k));
    PlayOn(s, before + [Offer(k)], after);
    PlayOn(s, before, after);
  }

  /** What was accepted is the next to be received. */
  lemma {:induction false} ReceivedNext(s: Sub, k: nat, after: seq<Touch>)
    requires Proper(s) && s.buf == [] && Mine(s, k)
    ensures var e := Play(s, [Offer(k)] + after);
            (e.taken == s.taken && e.buf == [k]) || s.taken + [k] <= e.taken
  {
    PlayOn(s, [Offer(k)], after);
    PlayOne(s, Offer(k));
    Conservation(Step(s, Offer(k)), after);
    var e, x := Play(s, [Offer(k)] + after), Step(s, Offer(k));
    hide Play, Accepted;
    TakenGrows(x, after);
    assert s.taken + [k] <= e.taken + e.buf;
  }

  lemma StepTakes(b: Sub, t: Touch)
    requires Proper(b)
    ensures b.taken <= Step(b, t).taken
    ensures Step(b, t).taken == b.taken && b.buf != [] ==> Step(b, t).buf == b.buf
  {
  }

  lemma {:induction false} TakenGrows(s: Sub, touches: seq<Touch>)
    requires Proper(s)
    ensures s.taken <= Play(s, touches).taken
    ensures Play(s, touches).taken == s.taken && s.buf != [] ==> Play(s, touches).buf == s.buf
  {
    if touches != [] {
      var n := |touches| - 1;
      assert Play(s, touches) == Step(Play(s, touches[..n]), touches[n]);
      TakenGrows(s, touches[..n]);
      hide *;
      StepTakes(Play(s, touches[..n]), touches[n]);
    }
  }

  // ----- how it ends -----

  predicate Now(s: Sub, k: nat) {
    k < |s.objs| && Terminal(s.objs[k].status)
  }

  /** The stream has ended with nil, or what it holds or will receive next is terminal by now. */
  predicate Ends(s: Sub) {
    if s.at.Over? then s.at.end.Nil? else (InHand(s) && Now(s, s.at.obj)) || (s.buf != [] && Now(s, s.buf[0]))
  }

  /** Ended with nil, though no terminal status was told. */
  predicate Untold(s: Sub) {
    s.at == Over(Nil) && (s.sent == [] || !IsTerminal(s.sent[|s.sent| - 1].status))
  }

  /** The order in hand was told as not terminal, and is terminal by now. */
  predicate Caught(s: Sub) {
    s.at.Checking? && !Terminal(s.at.built.status) && Now(s, s.at.obj)
  }

  /** What the stream has built is what it sent last. */
  predicate Tidy(s: Sub) {
    s.at.Checking? ==> s.sent != [] && s.sent[|s.sent| - 1] == ToProgress(s.at.built)
  }

  function Turns(n: nat): seq<Touch> {
    seq(n, _ => Turn(true))
  }

  lemma TurnKeepsEnds(s: Sub)
    requires Proper(s)
    ensures Ends(Step(s, Turn(true))) <==> Ends(s)
  {
  }

  /** The order was not terminal when the stream read it, and is made so before it is read again. */
  predicate Between(s: Sub, t: Touch) {
    && s.at.Checking? && !Terminal(s.at.built.status)
    && t.Write? && t.obj == s.at.obj && Terminal(t.st)
  }

  lemma StepIsTidy(b: Sub, t: Touch)
    requires Proper(b) && Tidy(b)
    ensures Tidy(Step(b, t))
  {
  }

  lemma UntoldByStep(b: Sub, t: Touch)
    requires Proper(b) && Tidy(b)
    requires t.Write? && Now(b, t.obj) ==> Terminal(t.st)
    ensures Untold(Step(b, t)) || Caught(Step(b, t)) <==> Untold(b) || Caught(b) || Between(b, t)
  {
  }

  /** The turns until it has nothing to do. */
  function Left(s: Sub): nat {
    match s.at
    case Selecting => 3 * |s.buf|
    case Building(_) => 2 + 3 * |s.buf|
    case Checking(_, _) => 1 + 3 * |s.buf|
    case Over(_) => 0
  }

  lemma NoTurn(s: Sub)
    requires Proper(s)
    ensures Play(s, Turns(0)) == s
  {
  }

  lemma NextTurn(s: Sub, n: nat)
    requires Proper(s)
    ensures Play(s, Turns(n + 1)) == Step(Play(s, Turns(n)), Turn(true))
  {
    assert Turns(n + 1) == Turns(n) + [Turn(true)];
    hide *;
    Then(s, Turns(n), Turn(true));
  }

  lemma {:induction false} SomeTurns(s: Sub, n: nat)
    requires Proper(s) && Tidy(s)
    ensures var e := Play(s, Turns(n));
            && Tidy(e) && (Ends(e) <==> Ends(s)) && (Left(e) == 0 || Left(e) + n <= Left(s))
            && (s.at.Over? ==> e.at == s.at) && (e.at.Over? ==> s.at.Over? || e.at.end.Nil?)
            && (Untold(e) || Caught(e) <==> Untold(s) || Caught(s))
  {
    if n > 0 {
      NextTurn(s, n - 1);
      SomeTurns(s, n - 1);
      var b := Play(s, Turns(n - 1));
      TurnKeepsEnds(b);
      StepIsTidy(b, Turn(true));
      UntoldByStep(b, Turn(true));
      hide Play, Ends, Untold, Caught, Tidy;
    }
  }

  /** From any moment on after which the order is neither notified nor written again,
      and whatever led to it: a stream that goes on ends with nil if and only if what
      it holds or will receive next is terminal by then, and otherwise waits for ever.
      It ends so without having told it exactly if the status had been read before. */
  lemma {:induction false} StreamEndsIff(s: Sub, n: nat)
    requires Proper(s) && Tidy(s) && n >= 5
    ensures var e := Play(s, Turns(n));
            && (e.at == Over(Nil) <==> Ends(s))
            && (!Ends(s) ==> if s.at.Over? then e.at == s.at else e.at.Selecting? && e.buf == [])
            && (Untold(e) <==> Untold(s) || Caught(s))
  {
    SomeTurns(s, n);
  }

  lemma ByOffer(b: Sub, k: nat)
    requires Proper(b) && Tidy(b) && Mine(b, k) && Now(b, k)
    ensures var x := Step(b, Offer(k));
            && x.at == b.at && Tidy(x) && (Caught(x) <==> Caught(b)) && (Untold(x) <==> Untold(b))
            && (b.at.Over? ==> (Ends(x) <==> Ends(b))) && (!b.at.Over? ==> (Ends(x) <==> b.buf == [] || Ends(b)))
  {
  }

  /** So with the last update, of a terminal status: the stream ends with nil if and only
      if that update finds the buffer empty, or the order in the buffer or in the stream's
      hands is terminal by then too, as it is when it is the one that is notified. */
  lemma {:induction false} LastUpdateIff(s: Sub, before: seq<Touch>, k: nat, n: nat)
    requires Proper(s) && Tidy(s) && n >= 5
    requires Mine(s, k) && Now(Play(s, before), k)
    ensures var b, e := Play(s, before), Play(s, before + [Offer(k)] + Turns(n));
            if b.at.Over? then e.at == b.at else
              && (e.at == Over(Nil) <==> b.buf == [] || Ends(b))
              && (e.at != Over(Nil) ==> e.at.Selecting? && e.buf == [])
              && (Untold(e) <==> Caught(b))
  {
    var b := Play(s, before);
    PlayIsTidy(s, before);
    PlayOn(s, before, [Offer(k)]);
    PlayOne(b, Offer(k));
    PlayOn(s, before + [Offer(k)], Turns(n));
    hide Play, Turns;
    ByOffer(b, k);
    hide Step;
    StreamEndsIff(Step(b, Offer(k)), n);
  }

  lemma {:induction false} PlayIsTidy(s: Sub, touches: seq<Touch>)
    requires Proper(s) && Tidy(s)
    ensures Tidy(Play(s, touches))
  {
    if touches != [] {
      var n := |touches| - 1;
      assert Play(s, touches) == Step(Play(s, touches[..n]), touches[n]);
      PlayIsTidy(s, touches[..n]);
      hide *;
      StepIsTidy(Play(s, touches[..n]), touches[n]);
    }
  }

  /** No terminal status is taken back by a write. */
  ghost predicate OneWay(s: Sub, touches: seq<Touch>)
    requires Proper(s)
  {
    forall i :: 0 <= i < |touches| && touches[i].Write? && Now(Play(s, touches[..i]), touches[i].obj)
                ==> Terminal(touches[i].st)
  }

  lemma OneWaySoFar(s: Sub, touches: seq<Touch>, t: Touch)
    requires Proper(s) && OneWay(s, touches + [t])
    ensures OneWay(s, touches)
    ensures t.Write? && Now(Play(s, touches), t.obj) ==> Terminal(t.st)
  {
    var all := touches + [t];
    assert forall i :: 0 <= i <= |touches| ==> all[..i] == touches[..i];
    assert all[|touches|] == t && touches[..|touches|] == touches;
    hide Play, Now;
  }

  /** An order became terminal between the two reads of its status. */
  ghost predicate TurnedBetween(s: Sub, touches: seq<Touch>)
    requires Proper(s)
  {
    exists i :: 0 <= i < |touches| && Between(Play(s, touches[..i]), touches[i])
  }

  lemma TurnedAtLast(s: Sub, touches: seq<Touch>, t: Touch)
    requires Proper(s)
    ensures TurnedBetween(s, touches + [t]) <==> TurnedBetween(s, touches) || Between(Play(s, touches), t)
  {
    var all := touches + [t];
    assert forall i :: 0 <= i <= |touches| ==> all[..i] == touches[..i];
    assert all[|touches|] == t && touches[..|touches|] == touches;
    hide Play, Between;
    if TurnedBetween(s, touches) {
      var i :| 0 <= i < |touches| && Between(Play(s, touches[..i]), touches[i]);
      assert Between(Play(s, all[..i]), all[i]);
    }
  }

  /** A stream that is over has ended with nil and without having told so if and
      only if an order became terminal between the two reads of its status; if it
      is not over yet when that happens, it is caught and ends so with its next step. */
  lemma {:induction false} EndsUntoldIff(s: Sub, touches: seq<Touch>)
    requires Proper(s) && s.at.Selecting? && OneWay(s, touches)
    ensures var e := Play(s, touches);
            && Tidy(e) && (Untold(e) || Caught(e) <==> TurnedBetween(s, touches))
            && (e.at.Over? ==> (Untold(e) <==> TurnedBetween(s, touches)))
  {
    if touches != [] {
      var n := |touches| - 1;
      var init, t := touches[..n], touches[n];
      var b := Play(s, init);
      assert touches == init + [t] && Play(s, touches) == Step(b, t);
      assert Caught(Step(b, t)) ==> !Step(b, t).at.Over?;
      hide *;
      OneWaySoFar(s, init, t);
      EndsUntoldIff(s, init);
      StepIsTidy(b, t);
      UntoldByStep(b, t);
      TurnedAtLast(s, init, t);
    }
  }

  // ----- what can happen -----

  /** A subscription right after its registration. */
  function Fresh(id: Uuid, objs: seq<Order>): (r: Sub)
    ensures Proper(r)
  {
    Sub(id, objs, [], Selecting, [], [], [])
  }

  lemma Then(s: Sub, touches: seq<Touch>, t: Touch)
    requires Proper(s)
    ensures Play(s, touches + [t]) == Step(Play(s, touches), t)
  {
    assert (touches + [t])[..|touches|] == touches;
  }

  /** Received, sent and looked at again. */
  lemma ThreeSteps(s: Sub)
    requires Proper(s) && s.at.Selecting? && s.buf != []
    ensures Step(Step(Step(s, Turn(true)), Turn(true)), Turn(true)) == AfterUpdate(s)
  {
    assert s.buf == [s.buf[0]];
  }

  function AfterUpdate(s: Sub): Sub
    requires Proper(s) && s.buf != []
  {
    var o := s.objs[s.buf[0]];
    s.(buf := [], at := if Terminal(o.status) then Over(Nil) else Selecting, taken := s.taken + s.buf,
       sent := s.sent + [ToProgress(o)], feed := s.feed + [Item(o, o.status, true)])
  }

  lemma NothingLeft(s: Sub)
    requires Proper(s) && s.buf != []
    ensures Proper(AfterUpdate(s)) && Step(AfterUpdate(s), Turn(true)) == AfterUpdate(s)
  {
  }

  lemma {:induction false} OneUpdate(s: Sub, n: nat)
    requires Proper(s) && s.at.Selecting? && s.buf != [] && n >= 3
    ensures Play(s, Turns(n)) == AfterUpdate(s)
  {
    hide *;
    if n == 3 {
      NoTurn(s);
      NextTurn(s, 0);
      NextTurn(s, 1);
      NextTurn(s, 2);
      ThreeSteps(s);
    } else {
      OneUpdate(s, n - 1);
      NextTurn(s, n - 1);
      NothingLeft(s);
    }
  }

  /** The saga notifies order k, and it is then written, with the stream asleep or slow. */
  lemma OfferThenPaid(s: Sub, k: nat, j: nat)
    requires Proper(s) && s.buf == [] && Mine(s, k) && j < |s.objs|
    ensures Play(s, [Offer(k), Write(j, Paid)]) == s.(buf := [k], objs := s.objs[j := s.objs[j].(status := Paid)])
  {
    Then(s, [], Offer(k));
    Then(s, [Offer(k)], Write(j, Paid));
    assert [] + [Offer(k)] == [Offer(k)] && [Offer(k)] + [Write(j, Paid)] == [Offer(k), Write(j, Paid)];
  }

  lemma SecondOffer(s: Sub, k: nat, j: nat, n: nat)
    requires Proper(s) && s.at.Selecting? && s.buf == [] && n >= 3
    requires Mine(s, k) && j < |s.objs|
    ensures var x := s.(buf := [k], objs := s.objs[j := s.objs[j].(status := Paid)]);
            Play(s, [Offer(k), Write(j, Paid), Offer(j)] + Turns(n)) == Play(x, Turns(n))
  {
    var two := [Offer(k), Write(j, Paid)];
    OfferThenPaid(s, k, j);
    assert two + [Offer(j)] == [Offer(k), Write(j, Paid), Offer(j)];
    DroppedWithoutTrace(s, two, j, Turns(n));
    PlayOn(s, two, Turns(n));
  }

  /** GetOrder's Pending answer is still in the buffer when the saga's order is Paid: the
      update is dropped, and the stream waits for ever, however often it receives. */
  lemma PaidIsMissed(o: Order, n: nat)
    requires o.status.Pending? && n >= 3
    ensures var e := Play(Fresh(o.id, [o, o]), [Offer(0), Write(1, Paid), Offer(1)] + Turns(n));
            e.at.Selecting? && e.buf == [] && e.objs[1].status.Paid? && e.sent == [ToProgress(o)]
  {
    var s, x := Fresh(o.id, [o, o]), Fresh(o.id, [o, o.(status := Paid)]).(buf := [0]);
    assert x == s.(buf := [0], objs := s.objs[1 := s.objs[1].(status := Paid)]);
    SecondOffer(s, 0, 1, n);
    OneUpdate(x, n);
    hide Play, Turns, Step;
  }

  /** With the saga's own order in the buffer the update is dropped too, but the
      next receive reads Paid, and the stream tells it and ends. */
  lemma ADroppedUpdateIsTold(o: Order, n: nat)
    requires o.status.Pending? && n >= 3
    ensures var e := Play(Fresh(o.id, [o]), [Offer(0), Write(0, Paid), Offer(0)] + Turns(n));
            e.at == Over(Nil) && e.sent == [ToProgress(o.(status := Paid))]
  {
    var s, x := Fresh(o.id, [o]), Fresh(o.id, [o.(status := Paid)]).(buf := [0]);
    assert x == s.(buf := [0], objs := s.objs[0 := s.objs[0].(status := Paid)]);
    SecondOffer(s, 0, 0, n);
    OneUpdate(x, n);
    hide Play, Turns, Step;
  }

  /** The stream has told the order, and has still to look at its status again. */
  function Telling(o: Order): Sub {
    Fresh(o.id, [o]).(at := Checking(0, o), taken := [0], sent := [ToProgress(o)])
  }

  lemma ToldAsPending(o: Order)
    ensures Play(Fresh(o.id, [o]), [Offer(0), Turn(true), Turn(true)]) == Telling(o)
  {
    var s := Fresh(o.id, [o]);
    PlayThree(s, Offer(0), Turn(true), Turn(true));
    var s1, s2 := s.(buf := [0]), s.(at := Building(0), taken := [0]);
    assert Step(s, Offer(0)) == s1;
    assert Step(s1, Turn(true)) == s2;
    assert Step(s2, Turn(true)) == Telling(o);
    hide Play, Step;
  }

  lemma ThenPaid(o: Order)
    ensures var e := Play(Telling(o), [Write(0, Paid), Turn(true), Offer(0)]);
            e.at == Over(Nil) && e.objs == [o.(status := Paid)] && e.sent == [ToProgress(o)] && e.buf == [0]
  {
    var s := Telling(o);
    PlayThree(s, Write(0, Paid), Turn(true), Offer(0));
    var s1 := s.(objs := [o.(status := Paid)]);
    var s2 := s1.(at := Over(Nil), feed := [Item(o, Paid, true)]);
    assert Step(s, Write(0, Paid)) == s1;
    assert Step(s1, Turn(true)) == s2;
    assert Step(s2, Offer(0)) == s2.(buf := [0]);
    hide Play, Step;
  }

  /** The saga's order is told as Pending and Paid before it is looked at again: the
      stream ends, and the notify of Paid that comes next is never received. */
  lemma PaidIsNotTold(o: Order)
    requires o.status.Pending?
    ensures var e := Play(Fresh(o.id, [o]), [Offer(0), Turn(true), Turn(true), Write(0, Paid), Turn(true), Offer(0)]);
            Untold(e) && e.objs[0].status.Paid? && e.sent == [ToProgress(o)] && e.buf == [0]
  {
    var told, paid := [Offer(0), Turn(true), Turn(true)], [Write(0, Paid), Turn(true), Offer(0)];
    ToldAsPending(o);
    ThenPaid(o);
    PlayOn(Fresh(o.id, [o]), told, paid);
    assert told + paid == [Offer(0), Turn(true), Turn(true), Write(0, Paid), Turn(true), Offer(0)];
    hide Play, Step;
  }

  lemma PlayThree(s: Sub, a: Touch, b: Touch, c: Touch)
    requires Proper(s)
    ensures Play(s, [a, b, c]) == Step(Step(Step(s, a), b), c)
  {
    hide *;
    PlayOne(s, a);
    Then(s, [a], b);
    Then(s, [a] + [b], c);
    assert [a] + [b] + [c] == [a, b, c];
  }

  // ----- the loop of the handler, and the running system -----

  /** The feed tells the loop of the handler what was sent and how the stream ended. */
  predicate Fits(s: Sub) {
    && Sent(s.feed) + (if s.at.Checking? then [ToProgress(s.at.built)] else []) == s.sent
    && EndOf(s.feed) == (if s.at.Over? then s.at.end else StillWaiting)
    && (!s.at.Over? ==> forall i :: 0 <= i < |s.feed| ==> GoesOn(s.feed[i]))
  }

  lemma FedOnce(feed: seq<Wake>, w: Wake)
    requires forall i :: 0 <= i < |feed| ==> GoesOn(feed[i])
    ensures Sent(feed + [w]) == Sent(feed) + if w.Item? && w.sent then [ToProgress(w.order)] else []
    ensures EndOf(feed + [w]) == if GoesOn(w) then StillWaiting else EndAt(w)
  {
    assert EndOf([]) == StillWaiting && [w] + [] == [w] && (!w.Item? ==> !GoesOn(w));
    hide *;
    AfterGoingOn(feed, [w]);
    SentOfOne([w], w);
    if GoesOn(w) {
      Unread(w, []);
    }
  }

  lemma TurnFits(b: Sub, ok: bool)
    requires Proper(b) && Fits(b)
    ensures Fits(Step(b, Turn(ok)))
  {
    if InHand(b) {
      var o := b.objs[b.at.obj];
      if b.at.Checking? {
        FedOnce(b.feed, Item(b.at.built, o.status, true));
      } else {
        FedOnce(b.feed, Item(o, o.status, false));
      }
    }
    hide Sent, EndOf, Proper;
  }

  lemma StepFits(b: Sub, t: Touch)
    requires Proper(b) && Fits(b)
    ensures Fits(Step(b, t))
  {
    if t.Turn? {
      hide *;
      TurnFits(b, t.ok);
    } else if t.Leave? && b.at.Selecting? {
      FedOnce(b.feed, ClientGone);
      hide Sent, EndOf;
    } else {
      hide Sent, EndOf;
    }
  }

  /** What the subscription sends, and its end, are what the loop of the
      handler makes of the feed. */
  lemma {:induction false} TheLoopFollows(id: Uuid, objs: seq<Order>, touches: seq<Touch>)
    ensures Fits(Play(Fresh(id, objs), touches))
  {
    var s := Fresh(id, objs);
    if touches != [] {
      var n := |touches| - 1;
      assert Play(s, touches) == Step(Play(s, touches[..n]), touches[n]);
      TheLoopFollows(id, objs, touches[..n]);
      hide *;
      StepFits(Play(s, touches[..n]), touches[n]);
    }
  }

  /** The only writes to an order that others hold: the saga's, from Pending to its result. */
  ghost predicate SagaWrites(s: Sub, touches: seq<Touch>)
    requires Proper(s)
  {
    forall i :: 0 <= i < |touches| && touches[i].Write? && touches[i].obj < |s.objs|
                ==> Play(s, touches[..i]).objs[touches[i].obj].status.Pending? && Terminal(touches[i].st)
  }

  predicate Became(o: Order, now: Order) {
    SameBody(o, now) && SharedReads(o.status, now.status)
  }

  /** Everything that was read is one of these orders, some time on. */
  ghost predicate FromThese(objs: seq<Order>, s: Sub) {
    && |objs| == |s.objs| && (forall k :: 0 <= k < |objs| ==> Became(objs[k], s.objs[k]))
    && (s.at.Checking? ==> s.at.obj < |objs| && Became(objs[s.at.obj], s.at.built) && Became(s.at.built, s.objs[s.at.obj]))
    && (forall i :: 0 <= i < |s.feed| ==> Known(objs, s.feed[i]))
  }

  ghost predicate Known(objs: seq<Order>, w: Wake) {
    w.Item? ==> exists k :: 0 <= k < |objs| && ReadOf(w, objs[k])
  }

  lemma StepFromThese(objs: seq<Order>, b: Sub, t: Touch)
    requires Proper(b) && FromThese(objs, b)
    requires t.Write? && t.obj < |b.objs| ==> b.objs[t.obj].status.Pending? && Terminal(t.st)
    ensures FromThese(objs, Step(b, t))
  {
    var e := Step(b, t);
    if e.feed != b.feed && InHand(b) {
      var w := e.feed[|b.feed|];
      assert ReadOf(w, objs[b.at.obj]);
    }
  }

  lemma {:induction false} AllFromThese(id: Uuid, objs: seq<Order>, touches: seq<Touch>)
    requires SagaWrites(Fresh(id, objs), touches)
    ensures FromThese(objs, Play(Fresh(id, objs), touches))
  {
    var s := Fresh(id, objs);
    if touches != [] {
      var n := |touches| - 1;
      assert forall i :: 0 <= i <= n ==> touches[..n][..i] == touches[..i];
      assert Play(s, touches) == Step(Play(s, touches[..n]), touches[n]);
      AllFromThese(id, objs, touches[..n]);
      hide Play, Step, FromThese, Proper;
      StepFromThese(objs, Play(s, touches[..n]), touches[n]);
    }
  }

  /** With the check of the last update done, if it is still to come. */
  function Checked(s: Sub): Sub
    requires Proper(s)
  {
    if s.at.Checking? then Step(s, Turn(true)) else s
  }

  lemma WhenChecked(objs: seq<Order>, s: Sub)
    requires Proper(s) && Fits(s) && FromThese(objs, s)
    ensures var f := Checked(s);
            && f.sent == s.sent && Sent(f.feed) == f.sent && (EndOf(f.feed).Nil? ==> f.at == Over(Nil))
            && forall i :: 0 <= i < |f.feed| ==> Known(objs, f.feed[i])
  {
    StepFits(s, Turn(true));
    StepFromThese(objs, s, Turn(true));
    hide Sent, EndOf, Known;
  }

  /** Every subscription of a running system, whatever is notified before and after its
      first push, however the saga's writes, the receives and the reads fall, and
      whenever the stream is left: some Pending updates, then at most one terminal
      update, after which the stream ends without error. */
  lemma {:induction false} EverySubscriptionHasTheShape(
      actions: seq<Saga.Action>, id: Uuid, objs: seq<Order>, touches: seq<Touch>)
    requires forall k :: 0 <= k < |objs| ==> Told(SagaTheorems.Reached(actions), objs[k])
    requires SagaWrites(Fresh(id, objs), touches)
    ensures var e := Play(Fresh(id, objs), touches);
            && PendingThenTerminal(e.sent)
            && (e.sent != [] && IsTerminal(e.sent[|e.sent| - 1].status) ==> Checked(e).at == Over(Nil))
  {
    var e := Play(Fresh(id, objs), touches);
    hide *;
    AllFromThese(id, objs, touches);
    TheLoopFollows(id, objs, touches);
    WhenChecked(objs, e);
    var feed := Checked(e).feed;
    forall i | 0 <= i < |feed| ensures Fed(SagaTheorems.Reached(actions), feed[i]) {
      KnownIsFed(SagaTheorems.Reached(actions), objs, feed[i]);
    }
    EveryStreamHasTheShape(actions, feed);
  }

  lemma KnownIsFed(s: Saga.State, objs: seq<Order>, w: Wake)
    requires Known(objs, w) && forall k :: 0 <= k < |objs| ==> Told(s, objs[k])
    ensures Fed(s, w)
  {
  }

  // ----- the code -----

  /** Where the handler is, with the order it has received. */
  datatype Pc = AtSelect | AtSend(order: OrderRef) | AtCheck(order: OrderRef) | Returned(end: End)

  ghost function Contents(objs: seq<OrderRef>): (r: seq<Order>)
    reads objs
    ensures |r| == |objs| && forall i :: 0 <= i < |objs| ==> r[i] == objs[i].Now()
  {
    seq(|objs|, i requires 0 <= i < |objs| reads objs => objs[i].Now())
  }

  /** The channel and the orders are as the subscription has them. */
  ghost predicate Shows(s: Sub, ch: Chan, objs: seq<OrderRef>)
    reads ch, objs
  {
    && Proper(s) && s.id == ch.topic && s.objs == Contents(objs)
    && (forall i, j :: 0 <= i < j < |objs| ==> objs[i] != objs[j])
    && |ch.buf| == |s.buf| && (s.buf != [] ==> ch.buf[0] == objs[s.buf[0]])
  }

  ghost predicate StandsAt(pc: Pc, at: Where, objs: seq<OrderRef>) {
    match at
    case Selecting => pc.AtSelect?
    case Building(k) => k < |objs| && pc == AtSend(objs[k])
    case Checking(k, _) => k < |objs| && pc == AtCheck(objs[k])
    case Over(end) => pc == Returned(end)
  }

  method TurnOnce(subs: Subscribers, ch: Chan, pc: Pc, ok: bool, objs: seq<OrderRef>, ghost s: Sub)
    returns (next: Pc, update: seq<Progress>)
    requires subs.Valid() && Shows(s, ch, objs) && StandsAt(pc, s.at, objs)
    modifies ch`buf
    ensures subs.Valid()
    ensures var e := Step(s, Turn(ok)); Shows(e, ch, objs) && StandsAt(next, e.at, objs) && e.sent == s.sent + update
  {
    next, update := pc, [];
    match pc {
      case AtSelect =>
        var o := subs.Take(ch);
        if o.Some? {
          next := AtSend(o.value);
        }
      case AtSend(order) =>
        if !ok {
          next := Returned(Internal);
        } else {
          next, update := AtCheck(order), [ToProgress(order.Now())];
        }
      case AtCheck(order) =>
        if order.status.Paid? || order.status.Failed? || order.status.Cancelled? {
          next := Returned(Nil);
        } else {
          next := AtSelect;
        }
      case Returned(_) =>
    }
  }

  method OfferOnce(subs: Subscribers, ch: Chan, k: nat, objs: seq<OrderRef>, ghost s: Sub)
    requires subs.Valid() && ch in subs.all && Shows(s, ch, objs)
    modifies subs.all
    ensures subs.Valid() && Shows(Step(s, Offer(k)), ch, objs)
  {
    if k < |objs| {
      subs.NotifyOne(objs[k], ch);
      assert objs[k].id == s.objs[k].id;
    }
  }

  /** order.Status = ... */
  method WriteOnce(subs: Subscribers, ch: Chan, k: nat, st: OrderStatus, objs: seq<OrderRef>, ghost s: Sub)
    requires subs.Valid() && Shows(s, ch, objs)
    modifies objs
    ensures subs.Valid() && Shows(Step(s, Write(k, st)), ch, objs)
  {
    hide Subscribers.Valid;
    if k < |objs| {
      objs[k].status := st;
      assert s.objs[k := s.objs[k].(status := st)] == Contents(objs);
    }
  }

  method TouchOnce(subs: Subscribers, ch: Chan, pc: Pc, t: Touch, objs: seq<OrderRef>, ghost s: Sub)
    returns (next: Pc, update: seq<Progress>)
    requires subs.Valid() && ch in subs.all && Shows(s, ch, objs) && StandsAt(pc, s.at, objs)
    modifies subs.all, objs
    ensures subs.Valid()
    ensures var e := Step(s, t); Shows(e, ch, objs) && StandsAt(next, e.at, objs) && e.sent == s.sent + update
  {
    next, update := pc, [];
    hide Subscribers.Valid;
    assert Proper(s);
    match t {
      case Offer(k) =>
        OfferOnce(subs, ch, k, objs, s);
      case Write(k, st) =>
        WriteOnce(subs, ch, k, st, objs, s);
      case Turn(ok) =>
        hide StandsAt, Step, Shows;
        next, update := TurnOnce(subs, ch, pc, ok, objs, s);
      case Leave =>
        if pc.AtSelect? {
          next := Returned(Canceled);
        }
    }
  }

  /** notify calls, writes, steps of the stream and its end, in any order, from a stream that is in its select. */
  method Follow(subs: Subscribers, ch: Chan, objs: seq<OrderRef>, touches: seq<Touch>, ghost s: Sub)
    returns (sent: seq<Progress>, pc: Pc)
    requires subs.Valid() && ch in subs.all && Shows(s, ch, objs) && s.at.Selecting? && s.sent == []
    modifies subs.all, objs
    ensures subs.Valid()
    ensures var e := Play(s, touches); Shows(e, ch, objs) && StandsAt(pc, e.at, objs) && sent == e.sent
  {
    sent, pc := [], AtSelect;
    var i := 0;
    ghost var now := s;
    assert Proper(s) && StandsAt(pc, s.at, objs) && Play(s, touches[..0]) == s;
    hide *;
    while i < |touches|
      invariant 0 <= i <= |touches| && subs.Valid() && now == Play(s, touches[..i])
      invariant Shows(now, ch, objs) && StandsAt(pc, now.at, objs) && sent == now.sent
    {
      Then(s, touches[..i], touches[i]);
      assert touches[..i + 1] == touches[..i] + [touches[i]];
      var update: seq<Progress>;
      pc, update := TouchOnce(subs, ch, pc, touches[i], objs, now);
      sent := sent + update;
      now := Step(now, touches[i]);
      i := i + 1;
    }
    assert touches[..i] == touches;
  }

  /** `early` is what is notified and written before the first push. */
  ghost predicate Early(early: seq<Touch>) {
    forall i :: 0 <= i < |early| ==> early[i].Offer? || early[i].Write?
  }

  /** With no step of the stream, the channel takes the first notify for its order. */
  lemma {:induction false} BeforeTheStream(s: Sub, early: seq<Touch>)
    requires Proper(s) && s.at.Selecting? && Early(early)
    ensures var e := Play(s, early);
            && e.at.Selecting? && e.sent == s.sent
            && (e.buf == [] <==> s.buf == [] && forall i :: 0 <= i < |early| && early[i].Offer? ==> !Mine(s, early[i].obj))
  {
    if early != [] {
      var n := |early| - 1;
      assert Play(s, early) == Step(Play(s, early[..n]), early[n]);
      BeforeTheStream(s, early[..n]);
      hide Play, Proper;
    }
  }

  function Pushed(answer: Option<nat>): seq<Touch> {
    match answer
    case Some(k) => [Offer(k)]
    case None => []
  }

  /** One of them is a notify for this order. */
  ghost predicate Notified(early: seq<Touch>, objs: seq<OrderRef>, id: Uuid) {
    exists i :: 0 <= i < |early| && early[i].Offer? && early[i].obj < |objs| && objs[early[i].obj].id == id
  }

  /** ch <- order */
  method Push(subs: Subscribers, ch: Chan, k: nat, objs: seq<OrderRef>, ghost e: Sub) returns (done: bool)
    requires subs.Valid() && ch in subs.all && Shows(e, ch, objs) && Mine(e, k)
    modifies ch`buf
    ensures subs.Valid() && (done <==> e.buf == []) && (done ==> Shows(Step(e, Offer(k)), ch, objs))
  {
    assert !ch.closed;
    assert objs[k].id == e.objs[k].id;
    hide Subscribers.Valid;
    done := subs.FirstPush(ch, objs[k]);
  }

  lemma NotifiedIffFull(early: seq<Touch>, objs: seq<OrderRef>, s: Sub)
    requires Early(early) && s.at.Selecting? && s.buf == [] && |s.objs| == |objs|
    requires forall k :: 0 <= k < |objs| ==> objs[k].id == s.objs[k].id
    ensures Proper(s)
    ensures var e := Play(s, early); e.at.Selecting? && e.sent == s.sent && (Notified(early, objs, s.id) <==> e.buf != [])
  {
    BeforeTheStream(s, early);
  }

  /** SubscribeToOrder, with GetOrder's answer. */
  method Begin(subs: Subscribers, ch: Chan, spare: nat, objs: seq<OrderRef>, early: seq<Touch>, answer: Option<nat>, ghost s: Sub)
    returns (blocked: bool)
    requires subs.Valid() && ch !in subs.made && !ch.closed && Early(early)
    requires s == Fresh(ch.topic, Contents(objs)) && Shows(s, ch, objs)
    requires answer.Some? ==> answer.value < |objs| && objs[answer.value].id == ch.topic
    modifies subs, subs.arrays, subs.all, ch, objs
    ensures subs.Valid() && subs.all == old(subs.all) + {ch} && fresh(subs.arrays - old(subs.arrays))
    ensures blocked <==> answer.Some? && Notified(early, objs, ch.topic)
    ensures var e := Play(Play(s, early), Pushed(answer));
            !blocked ==> Shows(e, ch, objs) && e.at.Selecting? && e.sent == []
  {
    assert forall k :: 0 <= k < |objs| ==> objs[k].id == s.objs[k].id;
    assert answer.Some? ==> Mine(s, answer.value);
    NotifiedIffFull(early, objs, s);
    ghost var e := Play(s, early);
    if answer.Some? {
      PlayOne(e, Offer(answer.value));
    }
    hide Subscribers.Valid, Play, Notified, Early, Contents;
    subs.Register(ch.topic, ch, spare);
    assert Shows(s, ch, objs);
    hide Shows;
    var sent, pc := Follow(subs, ch, objs, early, s);
    blocked := false;
    if answer.Some? {
      var done := Push(subs, ch, answer.value, objs, e);
      blocked := !done;
    }
  }

  /** A subscription from its registration to the end of its stream. */
  method Subscription(subs: Subscribers, ch: Chan, spare: nat, objs: seq<OrderRef>, early: seq<Touch>,
                      answer: Option<nat>, touches: seq<Touch>)
    returns (blocked: bool, sent: seq<Progress>, pc: Pc)
    requires subs.Valid() && ch !in subs.made && !ch.closed && ch.buf == []
    requires Early(early) && forall i, j :: 0 <= i < j < |objs| ==> objs[i] != objs[j]
    requires answer.Some? ==> answer.value < |objs| && objs[answer.value].id == ch.topic
    modifies subs, subs.arrays, subs.all, ch, objs
    ensures subs.Valid() && (ch in subs.all <==> !pc.Returned?)
    ensures blocked <==> answer.Some? && Notified(early, objs, ch.topic)
    ensures blocked ==> sent == [] && pc.AtSelect?
    ensures var s := Fresh(ch.topic, old(Contents(objs)));
            !blocked ==> var e := Play(s, early + Pushed(answer) + touches);
                         sent == e.sent && StandsAt(pc, e.at, objs)
  {
    ghost var s := Fresh(ch.topic, Contents(objs));
    assert Shows(s, ch, objs);
    hide Subscribers.Valid, Shows, Notified, Early;
    blocked := Begin(subs, ch, spare, objs, early, answer, s);
    sent, pc := [], AtSelect;
    if !blocked {
      PlayOn(s, early, Pushed(answer));
      PlayOn(s, early + Pushed(answer), touches);
      hide Play, StandsAt;
      sent, pc := Follow(subs, ch, objs, touches, Play(Play(s, early), Pushed(answer)));
      if pc.Returned? {
        subs.Cleanup(ch.topic, ch);
      }
    }
  }
}
