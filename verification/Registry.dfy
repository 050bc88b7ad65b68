// The in-process publish/subscribe registry: slices of channels that are
// appended to and shifted in place, non-blocking sends, and channel closing.
// Registering and cleaning up hold the write lock from beginning to end.  notify
// holds the read lock only, so its single sends (SendTo) mix with those of other
// calls, with first pushes and with receives, while the lists stay as they are.

module Registry {
  import opened Domain

  /** *domain.Order: an order that all its holders share.  Of its fields only the
      status is ever assigned again. */
  class OrderRef {
    const made: Order
    const id: Uuid := made.id
    var status: OrderStatus

    constructor (o: Order)
      ensures made == o && status == o.status
    {
      made, status := o, o.status;
    }

    /** What a holder reads at this moment. */
    function Now(): Order
      reads this
    {
      made.(status := status)
    }
  }

  /** make(chan *domain.Order, 1) */
  class Chan {
    const topic: Uuid   // the order id its subscriber captured
    var buf: seq<OrderRef>
    var closed: bool

    constructor (topic: Uuid)
      ensures this.topic == topic && buf == [] && !closed
    {
      this.topic := topic;
      buf, closed := [], false;
    }

    ghost predicate Sound()
      reads this
    {
      |buf| <= 1 && forall o :: o in buf ==> o.id == topic
    }

    /** select { case ch <- order: default: } */
    method TrySend(o: OrderRef)
      requires !closed  // a send on a closed channel panics
      modifies this`buf
      ensures buf == if old(buf) == [] then [o] else old(buf)
      ensures old(Sound()) && o.id == topic ==> Sound()
    {
      if |buf| < 1 {
        buf := buf + [o];
      }
    }

    /** case order, ok := <-ch; a receive that would block is not taken. */
    method TryReceive() returns (o: Option<OrderRef>)
      modifies this`buf
      ensures o == if old(buf) == [] then None else Some(old(buf)[0])
      ensures buf == if old(buf) == [] then [] else old(buf)[1..]
    {
      if buf == [] {
        o := None;
      } else {
        o, buf := Some(buf[0]), buf[1..];
      }
    }
  }

  /** A Go slice that starts its backing array. */
  datatype Slice = Slice(arr: array<Chan?>, len: nat)

  /** The slice reads as this list. */
  ghost predicate Reads(s: Slice, list: seq<Chan>)
    reads s.arr
  {
    s.len <= s.arr.Length && s.arr[..s.len] == list
  }

  // ----- the abstract list -----

  function Without(s: seq<Chan>, x: Chan): seq<Chan> {
    if s == [] then [] else if s[0] == x then s[1..] else [s[0]] + Without(s[1..], x)
  }

  predicate Distinct(s: seq<Chan>) {
    forall i, j :: 0 <= i < j < |s| ==> s[i] != s[j]
  }

  /** Exactly x goes; what stood before and after it stays, in order. */
  lemma {:induction false} WithoutCutsOut(a: seq<Chan>, x: Chan, b: seq<Chan>)
    requires x !in a
    ensures Without(a + [x] + b, x) == a + b
  {
    var s := a + [x] + b;
    if a == [] {
      assert s[1..] == b && a + b == b;
    } else {
      assert s[1..] == a[1..] + [x] + b;
      WithoutCutsOut(a[1..], x, b);
      assert [a[0]] + (a[1..] + b) == a + b;
    }
  }

  lemma {:induction false} WithoutAbsent(s: seq<Chan>, x: Chan)
    requires x !in s
    ensures Without(s, x) == s
  {
    if s != [] {
      WithoutAbsent(s[1..], x);
    }
  }

  lemma DistinctAround(a: seq<Chan>, x: Chan, b: seq<Chan>)
    requires Distinct(a + [x] + b)
    ensures Distinct(a + b) && x !in a && x !in b
  {
    var s, n := a + [x] + b, |a|;
    assert s[n] == x;
    assert forall i :: 0 <= i < n ==> a[i] == s[i];
    assert forall i :: 0 <= i < |b| ==> b[i] == s[n + 1 + i];
  }

  function Dropped(lists: map<Uuid, seq<Chan>>, id: Uuid, x: Chan): map<Uuid, seq<Chan>> {
    if id in lists then lists[id := Without(lists[id], x)] else lists
  }

  /** The channels of `all` that belong to an order, in the order in which they were made. */
  function Waiting(made: seq<Chan>, all: set<Chan>, id: Uuid): seq<Chan> {
    if made == [] then [] else
      var n := |made| - 1;
      var before := Waiting(made[..n], all, id);
      if made[n].topic == id && made[n] in all then before + [made[n]] else before
  }

  lemma {:induction false} WaitingAreMade(made: seq<Chan>, all: set<Chan>, id: Uuid)
    ensures forall k :: 0 <= k < |Waiting(made, all, id)| ==>
              var c := Waiting(made, all, id)[k]; c in made && c in all && c.topic == id
  {
    if made != [] {
      WaitingAreMade(made[..|made| - 1], all, id);
    }
  }

  lemma {:induction false} WaitingOf(made: seq<Chan>, all: set<Chan>, other: set<Chan>, id: Uuid)
    requires forall k :: 0 <= k < |made| ==> (made[k] in all <==> made[k] in other)
    ensures Waiting(made, all, id) == Waiting(made, other, id)
  {
    if made != [] {
      WaitingOf(made[..|made| - 1], all, other, id);
    }
  }

  lemma {:induction false} WithoutSnoc(s: seq<Chan>, y: Chan, x: Chan)
    requires x != y
    ensures Without(s + [y], x) == Without(s, x) + [y]
  {
    if s == [] {
      assert (s + [y])[1..] == [];
    } else {
      assert (s + [y])[1..] == s[1..] + [y];
      WithoutSnoc(s[1..], y, x);
    }
  }

  /** Taking x off its list is the same as not counting it among the waiting. */
  lemma {:induction false} WaitingWithout(made: seq<Chan>, all: set<Chan>, x: Chan, id: Uuid)
    requires Distinct(made)
    ensures Waiting(made, all - {x}, id) == Without(Waiting(made, all, id), x)
  {
    if made == [] {
    } else {
      var n := |made| - 1;
      var init, last := made[..n], made[n];
      var before := Waiting(init, all, id);
      assert made == init + [last] + [];
      DistinctAround(init, last, []);
      assert init + [] == init;
      hide Without, Distinct;
      if last == x {
        WaitingOf(init, all - {x}, all, id);
        WaitingAreMade(init, all, id);
        WithoutAbsent(before, x);
        WithoutCutsOut(before, x, []);
        assert before + [x] + [] == before + [x];
        assert before + [] == before;
      } else {
        WaitingWithout(init, all, x, id);
        WithoutSnoc(before, last, x);
      }
    }
  }

  lemma {:induction false} WaitingIsDistinct(made: seq<Chan>, all: set<Chan>, id: Uuid)
    requires Distinct(made)
    ensures Distinct(Waiting(made, all, id))
  {
    if made != [] {
      var n := |made| - 1;
      assert made[n] !in made[..n];
      WaitingIsDistinct(made[..n], all, id);
      WaitingAreMade(made[..n], all, id);
    }
  }

  lemma {:induction false} WaitingHas(made: seq<Chan>, all: set<Chan>, x: Chan)
    requires x in made && x in all
    ensures x in Waiting(made, all, x.topic)
  {
    var n := |made| - 1;
    if made[n] != x {
      WaitingHas(made[..n], all, x);
    }
  }

  /** Every order lists its own channels that are registered, each once, oldest first. */
  ghost predicate Ordered(lists: map<Uuid, seq<Chan>>, all: set<Chan>, made: seq<Chan>) {
    && Distinct(made)
    && (forall c :: c in all ==> c in made)
    && (forall id :: (if id in lists then lists[id] else []) == Waiting(made, all, id))
  }

  /** Each registered channel is listed once, and under its own order only. */
  ghost predicate Filed(lists: map<Uuid, seq<Chan>>, all: set<Chan>) {
    && (forall id :: id in lists ==> Distinct(lists[id]))
    && (forall id, k :: id in lists && 0 <= k < |lists[id]| ==> lists[id][k].topic == id && lists[id][k] in all)
    && (forall c :: c in all ==> c.topic in lists && c in lists[c.topic])
  }

  lemma OrderedIsFiled(lists: map<Uuid, seq<Chan>>, all: set<Chan>, made: seq<Chan>)
    requires Ordered(lists, all, made)
    ensures Filed(lists, all)
  {
    forall id | id in lists
      ensures Distinct(lists[id])
      ensures forall k :: 0 <= k < |lists[id]| ==> lists[id][k].topic == id && lists[id][k] in all
    {
      WaitingIsDistinct(made, all, id);
      WaitingAreMade(made, all, id);
    }
    forall c | c in all ensures c.topic in lists && c in lists[c.topic] {
      WaitingHas(made, all, c);
    }
  }

  lemma OrderedAfterAdding(lists: map<Uuid, seq<Chan>>, all: set<Chan>, made: seq<Chan>, list: seq<Chan>, x: Chan)
    requires Ordered(lists, all, made) && x !in made
    requires list == if x.topic in lists then lists[x.topic] else []
    ensures Ordered(lists[x.topic := list + [x]], all + {x}, made + [x])
  {
    assert (made + [x])[..|made|] == made;
    var after := lists[x.topic := list + [x]];
    forall id
      ensures (if id in after then after[id] else []) == Waiting(made + [x], all + {x}, id)
    {
      WaitingOf(made, all, all + {x}, id);
    }
  }

  lemma OrderedAfterDropping(lists: map<Uuid, seq<Chan>>, all: set<Chan>, made: seq<Chan>, x: Chan)
    requires Ordered(lists, all, made)
    ensures Ordered(Dropped(lists, x.topic, x), all - {x}, made)
  {
    var after := Dropped(lists, x.topic, x);
    forall id
      ensures (if id in after then after[id] else []) == Waiting(made, all - {x}, id)
    {
      hide Waiting, Distinct;
      WaitingWithout(made, all, x, id);
      WaitingAreMade(made, all, id);
      if id != x.topic {
        WithoutAbsent(Waiting(made, all, id), x);
      }
    }
  }

  /** The channels are open, and hold at most one value each, that of their own order. */
  ghost predicate Open(all: set<Chan>)
    reads all
  {
    forall c :: c in all ==> !c.closed && c.Sound()
  }

  // ----- slices -----

  /** append(s, x): into the spare capacity of the backing array if there is any,
      else into a larger array with `spare` free slots. */
  method Append(s: Slice, x: Chan, spare: nat) returns (r: Slice)
    requires s.len <= s.arr.Length
    modifies s.arr
    ensures r.len == s.len + 1 <= r.arr.Length
    ensures r.arr == s.arr || fresh(r.arr)
    ensures r.arr[..r.len] == old(s.arr[..s.len]) + [x]
  {
    if s.len < s.arr.Length {
      s.arr[s.len] := x;
      r := Slice(s.arr, s.len + 1);
    } else {
      var arr := new Chan?[s.len + 1 + spare](_ => null);
      var k := 0;
      while k < s.len
        invariant 0 <= k <= s.len
        invariant unchanged(s.arr)
        invariant arr[..k] == s.arr[..k]
      {
        arr[k] := s.arr[k];
        k := k + 1;
      }
      arr[s.len] := x;
      r := Slice(arr, s.len + 1);
    }
  }

  /** The search loop of cleanup. */
  method Find(s: Slice, x: Chan) returns (i: nat)
    requires s.len <= s.arr.Length
    ensures i <= s.len && x !in s.arr[..i] && (i < s.len ==> s.arr[i] == x)
  {
    i := 0;
    while i < s.len && s.arr[i] != x
      invariant i <= s.len && x !in s.arr[..i]
    {
      i := i + 1;
    }
  }

  /** append(s[:i], s[i+1:]...): the rest of the backing array moves down in place. */
  method CutOut(s: Slice, i: nat) returns (r: Slice)
    requires i < s.len <= s.arr.Length
    modifies s.arr
    ensures r == Slice(s.arr, s.len - 1)
    ensures r.arr[..r.len] == old(s.arr[..i] + s.arr[i + 1..s.len])
  {
    ghost var was := s.arr[..s.len];
    var k := i;
    while k + 1 < s.len
      invariant i <= k < s.len
      invariant forall j :: 0 <= j < i ==> s.arr[j] == was[j]
      invariant forall j :: i <= j < k ==> s.arr[j] == was[j + 1]
      invariant forall j :: k <= j < s.len ==> s.arr[j] == was[j]
    {
      s.arr[k] := s.arr[k + 1];
      k := k + 1;
    }
    r := Slice(s.arr, s.len - 1);
  }

  method Shrink(s: Slice, ch: Chan, ghost list: seq<Chan>) returns (r: Slice)
    requires Reads(s, list)
    modifies s.arr
    ensures r.arr == s.arr && Reads(r, Without(list, ch))
  {
    hide Without;
    var i := Find(s, ch);
    if i == s.len {
      WithoutAbsent(list, ch);
      r := s;
    } else {
      ghost var a, b := s.arr[..i], s.arr[i + 1..s.len];
      assert list == a + [ch] + b;
      WithoutCutsOut(a, ch, b);
      r := CutOut(s, i);
    }
  }

  /** for _, ch := range subs: a non-blocking send to each. */
  method Broadcast(s: Slice, ghost list: seq<Chan>, o: OrderRef)
    requires Reads(s, list) && Distinct(list)
    requires forall c :: c in list ==> !c.closed && c.Sound() && c.topic == o.id
    modifies set c | c in list
    ensures forall c :: c in list ==>
              !c.closed && c.Sound() && c.buf == if old(c.buf) == [] then [o] else old(c.buf)
  {
    var k := 0;
    while k < s.len
      invariant k <= s.len
      invariant forall j :: 0 <= j < |list| ==> !list[j].closed && list[j].Sound()
      invariant forall j :: 0 <= j < k ==> list[j].buf == if old(list[j].buf) == [] then [o] else old(list[j].buf)
      invariant forall j :: k <= j < |list| ==> list[j].buf == old(list[j].buf)
    {
      var ch := s.arr[k];
      assert ch == list[k];
      ch.TrySend(o);
      k := k + 1;
    }
  }

  /** The first of these orders that is for `id`. */
  function FirstFor(orders: seq<OrderRef>, id: Uuid): seq<OrderRef> {
    if orders == [] then [] else if orders[0].id == id then [orders[0]] else FirstFor(orders[1..], id)
  }

  lemma {:induction false} FirstForSnoc(orders: seq<OrderRef>, o: OrderRef, id: Uuid)
    ensures FirstFor(orders + [o], id) == if FirstFor(orders, id) == [] && o.id == id then [o] else FirstFor(orders, id)
    ensures FirstFor(orders, id) == [] <==> forall i :: 0 <= i < |orders| ==> orders[i].id != id
  {
    if orders == [] {
      assert [o][1..] == [] && orders + [o] == [o];
    } else {
      assert (orders + [o])[1..] == orders[1..] + [o];
      FirstForSnoc(orders[1..], o, id);
      assert forall i :: 0 < i < |orders| ==> orders[i] == orders[1..][i - 1];
    }
  }

  class Subscribers {
    var subs: map<Uuid, Slice>
    ghost var lists: map<Uuid, seq<Chan>>   // the subscribers of each order, oldest first
    ghost var all: set<Chan>                // the channels that are registered now
    ghost var made: seq<Chan>               // all that ever were, in that order
    ghost var arrays: set<array<Chan?>>     // every backing array ever used

    /** The slices hold the lists, and no two orders share a backing array. */
    ghost predicate Holds()
      reads `subs, `lists, `arrays, arrays
    {
      && subs.Keys == lists.Keys
      && (forall id :: id in subs ==> subs[id].arr in arrays && Reads(subs[id], lists[id]))
      && (forall i, j :: i in subs && j in subs && i != j ==> subs[i].arr != subs[j].arr)
    }

    ghost predicate Valid()
      reads this, arrays, all
    {
      Holds() && Ordered(lists, all, made) && Open(all)
    }

    /** The list of an order; a key that is not in the map reads as nil. */
    ghost function List(id: Uuid): seq<Chan>
      reads `lists
    {
      if id in lists then lists[id] else []
    }

    constructor ()
      ensures Valid() && made == [] && fresh(arrays)
    {
      subs, lists, all, made, arrays := map[], map[], {}, [], {};
    }

    /** The slices hold the lists, but for that of `id`; nobody else has the array of r. */
    ghost predicate HoldsBut(id: Uuid, r: Slice)
      reads `subs, `lists, `arrays, arrays
    {
      && subs.Keys == lists.Keys
      && (forall i :: i in subs && i != id ==>
            subs[i].arr in arrays && Reads(subs[i], lists[i]) && subs[i].arr != r.arr)
      && (forall i, j :: i in subs && j in subs && i != j ==> subs[i].arr != subs[j].arr)
    }

    /** u.subscribers[orderID] = r */
    method Store(id: Uuid, r: Slice, ghost list: seq<Chan>, ghost rest: set<Chan>,
                 ghost grown: seq<Chan>)
      requires HoldsBut(id, r) && Reads(r, list)
      modifies this
      ensures Holds() && all == rest && made == grown && lists == old(lists)[id := list]
      ensures arrays == old(arrays) + {r.arr}
    {
      hide Reads;
      subs, lists := subs[id := r], lists[id := list];
      all, made, arrays := rest, grown, arrays + {r.arr};
      forall i | i in subs ensures subs[i].arr in arrays && Reads(subs[i], lists[i]) {
        if i != id {
          assert old(Reads(subs[i], lists[i]));
        }
      }
    }

    /** u.subscribers[orderID] = append(u.subscribers[orderID], ch) */
    method Subscribe(id: Uuid, ch: Chan, spare: nat)
      requires Holds()
      modifies this, arrays
      ensures Holds() && lists == old(lists)[id := old(List(id)) + [ch]]
      ensures all == old(all) + {ch} && made == old(made) + [ch]
      ensures fresh(arrays - old(arrays))
    {
      var s: Slice;
      if id in subs {
        s := subs[id];
        assert Reads(s, lists[id]);
      } else {
        var nil := new Chan?[0];
        s := Slice(nil, 0);
      }
      var r := Append(s, ch, spare);
      assert Reads(r, List(id) + [ch]);
      hide Reads;
      Store(id, r, List(id) + [ch], all + {ch}, made + [ch]);
    }

    /** The registration of SubscribeToOrder, with a channel of its own making. */
    method Register(id: Uuid, ch: Chan, spare: nat)
      requires Valid() && ch.topic == id && !ch.closed && ch.Sound() && ch !in made
      modifies this, arrays
      ensures Valid() && all == old(all) + {ch} && made == old(made) + [ch]
      ensures fresh(arrays - old(arrays))
    {
      OrderedAfterAdding(lists, all, made, List(id), ch);
      assert Open(all + {ch});
      hide Holds, Ordered, Open, List;
      Subscribe(id, ch, spare);
    }

    /** ch <- order, the first push of SubscribeToOrder: it blocks while the buffer
        is full, and nobody can have taken the channel from there yet. */
    method FirstPush(ch: Chan, o: OrderRef) returns (done: bool)
      requires Valid() && !ch.closed && o.id == ch.topic
      modifies ch`buf
      ensures Valid() && done == (old(ch.buf) == [])
      ensures ch.buf == if done then [o] else old(ch.buf)
    {
      done := |ch.buf| < 1;
      if done {
        ch.buf := ch.buf + [o];
      }
    }

    /** A receive by the stream loop. */
    method Take(ch: Chan) returns (o: Option<OrderRef>)
      requires Valid()
      modifies ch`buf
      ensures Valid() && (ch in all && o.Some? ==> o.value.id == ch.topic)
      ensures o == if old(ch.buf) == [] then None else Some(old(ch.buf)[0])
      ensures ch.buf == if old(ch.buf) == [] then [] else old(ch.buf)[1..]
    {
      o := ch.TryReceive();
    }

    /** One non-blocking send of a notify call that is under way, to the k-th
        subscriber of the order if there are so many. */
    method SendTo(o: OrderRef, k: nat)
      requires Valid()
      modifies all
      ensures Valid()
      ensures forall c :: c in all ==>
                c.buf == if k < |List(o.id)| && c == List(o.id)[k] && old(c.buf) == [] then [o] else old(c.buf)
    {
      if o.id in subs && k < subs[o.id].len {
        ListedAreRegistered(o.id);
        assert Reads(subs[o.id], lists[o.id]);
        var ch := subs[o.id].arr[k];
        assert ch == List(o.id)[k] && ch in all;
        ch.TrySend(o);
      } else {
        assert o.id in lists ==> Reads(subs[o.id], lists[o.id]);
      }
    }

    /** Under the read lock, every subscriber of the order is offered the update;
        this is the call when nothing comes between its sends. */
    method Notify(o: OrderRef)
      requires Valid()
      modifies set c | c in List(o.id)
      ensures Valid()
      ensures forall c :: c in List(o.id) ==> c.buf == if old(c.buf) == [] then [o] else old(c.buf)
    {
      if o.id !in subs {
        return;
      }
      ghost var list := lists[o.id];
      WaitingIsDistinct(made, all, o.id);
      WaitingAreMade(made, all, o.id);
      assert Reads(subs[o.id], list) && Distinct(list);
      assert forall c :: c in list ==> c in all && c.topic == o.id;
      hide Reads, Holds, Ordered, Distinct, Waiting, Chan.Sound;
      Broadcast(subs[o.id], list, o);
      assert forall c :: c in all && c !in list ==> c.buf == old(c.buf) && c.closed == old(c.closed);
    }

    /** A registered channel is among those that notify offers its order's updates to. */
    lemma Listed(ch: Chan)
      requires Ordered(lists, all, made) && ch in all
      ensures ch in List(ch.topic)
    {
      WaitingHas(made, all, ch);
    }

    lemma ListedAreRegistered(id: Uuid)
      requires Ordered(lists, all, made)
      ensures forall c :: c in List(id) ==> c in all && c.topic == id
    {
      WaitingAreMade(made, all, id);
    }

    /** notify(o) for some order, as seen by one registered channel. */
    method NotifyOne(o: OrderRef, ch: Chan)
      requires Valid() && ch in all
      modifies all
      ensures Valid()
      ensures ch.buf == if o.id == ch.topic && old(ch.buf) == [] then [o] else old(ch.buf)
    {
      Listed(ch);
      ListedAreRegistered(o.id);
      hide Valid;
      Notify(o);
    }

    /** SubscribeToOrder with a channel of its own making.  `between` are the notify
        calls that come after the registration and before the push, `answer` is
        GetOrder's.  With no receiver yet, the push blocks for good exactly if one
        of those calls was for this order, and the channel then holds the first. */
    method SubscribeToOrder(ch: Chan, spare: nat, between: seq<OrderRef>, answer: Option<OrderRef>) returns (blocked: bool)
      requires Valid() && ch !in made && !ch.closed && ch.buf == []
      requires answer.Some? ==> answer.value.id == ch.topic
      modifies this, arrays, all, ch
      ensures Valid() && all == old(all) + {ch} && made == old(made) + [ch]
      ensures blocked <==> answer.Some? && exists i :: 0 <= i < |between| && between[i].id == ch.topic
      ensures ch.buf == FirstFor(between + (if answer.Some? then [answer.value] else []), ch.topic)
    {
      Register(ch.topic, ch, spare);
      hide Valid;
      var i := 0;
      while i < |between|
        invariant 0 <= i <= |between| && Valid()
        invariant all == old(all) + {ch} && made == old(made) + [ch]
        invariant ch.buf == FirstFor(between[..i], ch.topic)
      {
        NotifyOne(between[i], ch);
        FirstForSnoc(between[..i], between[i], ch.topic);
        assert between[..i + 1] == between[..i] + [between[i]];
        i := i + 1;
      }
      assert between[..i] == between && between + [] == between;
      blocked := false;
      if answer.Some? {
        FirstForSnoc(between, answer.value, ch.topic);
        var done := FirstPush(ch, answer.value);
        blocked := !done;
      }
    }

    /** The body of cleanup's loop and its break. */
    method Unsubscribe(id: Uuid, ch: Chan)
      requires Holds() && (id !in lists ==> ch !in all)
      modifies this, arrays
      ensures made == old(made) && Holds() && all == old(all) - {ch} && lists == Dropped(old(lists), id, ch)
      ensures arrays == old(arrays)
    {
      if id !in subs {
        assert all == all - {ch};
        return;
      }
      var s := subs[id];
      ghost var list := lists[id];
      var r := Shrink(s, ch, list);
      hide Reads;
      Store(id, r, Without(list, ch), all - {ch}, made);
    }

    /** The function SubscribeToOrder returns, called once. */
    method Cleanup(id: Uuid, ch: Chan)
      requires Valid() && ch.topic == id && ch in all
      modifies this, ch`closed, arrays
      ensures Valid() && ch.closed && all == old(all) - {ch} && made == old(made)
      ensures arrays == old(arrays)
    {
      OrderedAfterDropping(lists, all, made, ch);
      assert !ch.closed && Open(all - {ch});
      assert id in lists by { WaitingHas(made, all, ch); }
      hide Holds, Dropped, Ordered, Open;
      Unsubscribe(id, ch);
      ch.closed := true;
    }
  }

  // ----- every interleaving -----

  /** A critical section of the write lock, or one channel operation.  A number is
      that of a call of SubscribeToOrder, or of a subscriber in its list. */
  datatype Op =
    | Subscribing(id: Uuid, spare: nat)
    | Sending(order: OrderRef, to: nat)
    | Pushing(order: OrderRef, call: nat)
    | Receiving(call: nat)
    | Cleaning(call: nat)

  /** The calls so far have these channels, and those in `cleaned` are over. */
  ghost predicate Tracks(subs: Subscribers, chans: seq<Chan>, cleaned: set<nat>)
    reads subs, subs.arrays, subs.all
  {
    && subs.Valid() && subs.made == chans
    && forall k :: 0 <= k < |chans| ==> (chans[k] in subs.all <==> k !in cleaned)
  }

  method Perform(op: Op, subs: Subscribers, chans: seq<Chan>, cleaned: set<nat>) returns (after: seq<Chan>, over: set<nat>)
    requires Tracks(subs, chans, cleaned) && forall k :: k in cleaned ==> k < |chans|
    modifies subs, subs.arrays, chans
    ensures Tracks(subs, after, over) && fresh(subs.arrays - old(subs.arrays))
    ensures after == chans || exists ch :: fresh(ch) && after == chans + [ch]
    ensures forall k :: k in over ==> k in cleaned || (op == Cleaning(k) && k < |after|)
  {
    assert forall c :: c in subs.all ==> c in chans;
    assert forall k, j :: 0 <= k < j < |chans| ==> chans[k] != chans[j];
    after, over := chans, cleaned;
    hide Subscribers.Valid;
    match op {
      case Subscribing(id, spare) =>
        var ch := new Chan(id);
        subs.Register(id, ch, spare);
        after := chans + [ch];
      case Sending(order, to) =>
        subs.SendTo(order, to);
      case Pushing(order, call) =>
        if call < |chans| && call !in cleaned && order.id == chans[call].topic {
          var ok := subs.FirstPush(chans[call], order);
        }
      case Receiving(call) =>
        if call < |chans| {
          var o := subs.Take(chans[call]);
        }
      case Cleaning(call) =>
        if call < |chans| && call !in cleaned {
          subs.Cleanup(chans[call].topic, chans[call]);
          over := cleaned + {call};
        }
    }
  }

  /** Any such operations in any order; those that cannot come are passed over. */
  method Drive(script: seq<Op>) returns (subs: Subscribers, chans: seq<Chan>, cleaned: set<nat>)
    ensures Tracks(subs, chans, cleaned)
    ensures forall k :: k in cleaned ==> Cleaning(k) in script
  {
    subs := new Subscribers();
    chans, cleaned := [], {};
    var i := 0;
    while i < |script|
      invariant 0 <= i <= |script| && fresh(subs) && fresh(subs.arrays)
      invariant Tracks(subs, chans, cleaned) && forall k :: 0 <= k < |chans| ==> fresh(chans[k])
      invariant forall k :: k in cleaned ==> k < |chans| && Cleaning(k) in script
    {
      hide Tracks;
      chans, cleaned := Perform(script[i], subs, chans, cleaned);
      i := i + 1;
    }
  }
}
