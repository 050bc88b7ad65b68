// The server-side stream of order updates: a loop over a subscriber's channel
// that ends at the first terminal status.

module Stream {
  import opened Domain
  import opened Saga
  import opened SagaTheorems

  datatype PbOrderStatus = UnspecifiedPb | PendingPb | PaidPb | FailedPb | CancelledPb

  datatype Progress = Progress(
    id: Uuid,
    customerId: string,
    itemName: string,
    amount: int,
    status: PbOrderStatus,
    createdAt: nat,
    key: string)

  /** What the select of one turn finds.  The channel carries a reference, so the
      status is read twice: when the update is built, and again (later) when
      the loop decides whether to go on. */
  datatype Wake =
    | ClientGone
    | ChannelClosed
    | Item(order: Order, later: OrderStatus, sent: bool)

  datatype Lookup = Found | OrderNotFound | OtherError

  datatype End = StillWaiting | InvalidArgument | NoSuchOrder | Canceled | Internal | Nil

  function StatusToPb(st: OrderStatus): PbOrderStatus {
    match st
    case Pending => PendingPb
    case Paid => PaidPb
    case Failed => FailedPb
    case Cancelled => CancelledPb
    case OtherStatus(_) => UnspecifiedPb
  }

  function ToProgress(o: Order): Progress {
    Progress(o.id, o.customerId, o.itemName, o.amount, StatusToPb(o.status), o.createdAt, o.key)
  }

  // ----- what a feed is answered with -----

  predicate GoesOn(w: Wake) {
    w.Item? && w.sent && !Terminal(w.later)
  }

  /** The updates sent for the part of the feed that the loop reads. */
  function Sent(feed: seq<Wake>): seq<Progress> {
    if feed == [] then []
    else if !feed[0].Item? || !feed[0].sent then []
    else [ToProgress(feed[0].order)] + if GoesOn(feed[0]) then Sent(feed[1..]) else []
  }

  function EndAt(w: Wake): End {
    match w
    case ClientGone => Canceled
    case ChannelClosed => Nil
    case Item(_, _, sent) => if sent then Nil else Internal
  }

  function EndOf(feed: seq<Wake>): End {
    if feed == [] then StillWaiting
    else if GoesOn(feed[0]) then EndOf(feed[1..])
    else EndAt(feed[0])
  }

  lemma Unread(w: Wake, rest: seq<Wake>)
    requires GoesOn(w)
    ensures Sent([w] + rest) == [ToProgress(w.order)] + Sent(rest) && EndOf([w] + rest) == EndOf(rest)
  {
    assert ([w] + rest)[1..] == rest;
  }

  lemma {:induction false} AfterGoingOn(read: seq<Wake>, rest: seq<Wake>)
    requires forall i :: 0 <= i < |read| ==> GoesOn(read[i])
    ensures |Sent(read)| == |read| && Sent(read + rest) == Sent(read) + Sent(rest) && EndOf(read + rest) == EndOf(rest)
  {
    if read == [] {
      assert read + rest == rest;
    } else {
      AfterGoingOn(read[1..], rest);
      OneGoesOn(read[0], read[1..], rest);
      assert read == [read[0]] + read[1..];
    }
  }

  lemma Regroup<T>(a: seq<T>, b: seq<T>, c: seq<T>)
    ensures a + (b + c) == a + b + c
  {
  }

  lemma OneGoesOn(w: Wake, tail: seq<Wake>, rest: seq<Wake>)
    requires GoesOn(w)
    requires |Sent(tail)| == |tail| && Sent(tail + rest) == Sent(tail) + Sent(rest) && EndOf(tail + rest) == EndOf(rest)
    ensures var read := [w] + tail;
            |Sent(read)| == |read| && Sent(read + rest) == Sent(read) + Sent(rest) && EndOf(read + rest) == EndOf(rest)
  {
    assert w.Item?;
    hide *;
    Unread(w, tail);
    Unread(w, tail + rest);
    Regroup([w], tail, rest);
    Regroup([ToProgress(w.order)], Sent(tail), Sent(rest));
  }

  lemma SentOfOne(rest: seq<Wake>, w: Wake)
    requires rest != [] && rest[0] == w
    ensures GoesOn(w) ==> Sent([w]) == [ToProgress(w.order)]
    ensures !GoesOn(w) ==> Sent(rest) == (if w.Item? && w.sent then [ToProgress(w.order)] else []) && EndOf(rest) == EndAt(w)
  {
    assert [w][1..] == [];
  }

  lemma Cut<T>(feed: seq<T>, i: nat)
    requires i < |feed|
    ensures feed[..i] + feed[i..] == feed && feed[..i + 1] == feed[..i] + [feed[i]] && feed[i..][0] == feed[i]
  {
  }

  lemma ReadsOn(feed: seq<Wake>, i: nat)
    requires i < |feed| && forall j :: 0 <= j < i ==> GoesOn(feed[j])
    ensures GoesOn(feed[i]) ==> Sent(feed[..i + 1]) == Sent(feed[..i]) + [ToProgress(feed[i].order)]
    ensures !GoesOn(feed[i]) ==>
              && Sent(feed) == Sent(feed[..i]) + (if feed[i].Item? && feed[i].sent then [ToProgress(feed[i].order)] else [])
              && EndOf(feed) == EndAt(feed[i])
  {
    var read, w, rest := feed[..i], feed[i], feed[i..];
    assert GoesOn(w) ==> w.Item?;
    hide *;
    Cut(feed, i);
    AfterGoingOn(read, rest);
    AfterGoingOn(read, [w]);
    SentOfOne(rest, w);
  }

  /** Whatever is fed, an update carries the columns of its order, and its own of the
      five codes for the status that was read. */
  lemma {:induction false} SentSaysTheOrder(feed: seq<Wake>)
    ensures |Sent(feed)| <= |feed|
    ensures forall i :: 0 <= i < |Sent(feed)| ==>
              && feed[i].Item?
              && var (u, o) := (Sent(feed)[i], feed[i].order);
                 && u.id == o.id && u.customerId == o.customerId && u.itemName == o.itemName
                 && u.amount == o.amount && u.createdAt == o.createdAt && u.key == o.key
                 && (u.status.PendingPb? <==> o.status.Pending?) && (u.status.PaidPb? <==> o.status.Paid?)
                 && (u.status.FailedPb? <==> o.status.Failed?) && (u.status.CancelledPb? <==> o.status.Cancelled?)
  {
    if feed != [] && GoesOn(feed[0]) {
      SentSaysTheOrder(feed[1..]);
    }
  }

  /** SubscribeToOrderUpdates, fed with any finite run of wake-ups. */
  method SubscribeToOrderUpdates(orderId: string, lookup: Lookup, feed: seq<Wake>)
    returns (sent: seq<Progress>, end: End)
    ensures orderId == "" ==> end.InvalidArgument?
    ensures orderId != "" && !lookup.Found? ==> end == if lookup.OrderNotFound? then NoSuchOrder else Internal
    ensures !(orderId != "" && lookup.Found?) ==> sent == []
    ensures orderId != "" && lookup.Found? ==> sent == Sent(feed) && end == EndOf(feed)
    // each update is its order, column for column and status for status
    ensures |sent| <= |feed|
    ensures forall i :: 0 <= i < |sent| ==>
              && feed[i].Item?
              && var (u, o) := (sent[i], feed[i].order);
                 && u.id == o.id && u.customerId == o.customerId && u.itemName == o.itemName
                 && u.amount == o.amount && u.createdAt == o.createdAt && u.key == o.key
                 && (u.status.PendingPb? <==> o.status.Pending?) && (u.status.PaidPb? <==> o.status.Paid?)
                 && (u.status.FailedPb? <==> o.status.Failed?) && (u.status.CancelledPb? <==> o.status.Cancelled?)
    // and the first wake-up that does not let the loop go on says how it ends
    ensures orderId != "" && lookup.Found? ==>
              forall k :: 0 <= k <= |feed|
                          && (forall j :: 0 <= j < k ==> feed[j].Item? && feed[j].sent && !Terminal(feed[j].later))
                          && (k < |feed| ==> !(feed[k].Item? && feed[k].sent && !Terminal(feed[k].later)))
                ==> end == if k == |feed| then StillWaiting
                           else if feed[k].ClientGone? then Canceled
                           else if feed[k].ChannelClosed? then Nil
                           else if feed[k].sent then Nil else Internal
  {
    SentSaysTheOrder(feed);
    sent := [];
    if orderId == "" {
      return sent, InvalidArgument;
    }
    if !lookup.Found? {
      return sent, if lookup.OrderNotFound? then NoSuchOrder else Internal;
    }
    var i := 0;
    while i < |feed|
      invariant 0 <= i <= |feed| && forall j :: 0 <= j < i ==> GoesOn(feed[j])
      invariant sent == Sent(feed[..i])
    {
      ReadsOn(feed, i);
      hide Sent, EndOf;
      match feed[i] {
        case ClientGone =>
          return sent, Canceled;
        case ChannelClosed =>
          return sent, Nil;
        case Item(order, later, ok) =>
          var update := ToProgress(order);
          if !ok {
            return sent, Internal;
          }
          sent := sent + [update];
          if later.Paid? || later.Failed? || later.Cancelled? {
            return sent, Nil;
          }
      }
      i := i + 1;
    }
    assert feed + [] == feed && feed[..i] == feed;
    AfterGoingOn(feed, []);
    end := StillWaiting;
  }

  // ----- the shape of a stream -----

  /** The two reads of one shared order: the only writes to it move it from
      Pending to the saga's result, or to Cancelled. */
  predicate SharedReads(first: OrderStatus, later: OrderStatus) {
    later == first || (first.Pending? && Terminal(later))
  }

  predicate Healthy(w: Wake) {
    w.Item? ==> KnownStatus(w.order.status) && SharedReads(w.order.status, w.later)
  }

  predicate IsTerminal(st: PbOrderStatus) {
    st.PaidPb? || st.FailedPb? || st.CancelledPb?
  }

  /** Some updates with Pending, then at most one with a terminal status. */
  predicate PendingThenTerminal(sent: seq<Progress>) {
    forall i :: 0 <= i < |sent| ==>
      if i < |sent| - 1 then sent[i].status.PendingPb? else sent[i].status.PendingPb? || IsTerminal(sent[i].status)
  }

  /** After a terminal update the stream has ended, with no error; and the
      updates are the first orders of the feed, none left out. */
  lemma {:induction false} ShapeOfStream(feed: seq<Wake>)
    requires forall i :: 0 <= i < |feed| ==> Healthy(feed[i])
    ensures PendingThenTerminal(Sent(feed))
    ensures Sent(feed) != [] && IsTerminal(Sent(feed)[|Sent(feed)| - 1].status) ==> EndOf(feed).Nil?
    ensures |Sent(feed)| <= |feed|
    ensures forall i :: 0 <= i < |Sent(feed)| ==> feed[i].Item? && Sent(feed)[i] == ToProgress(feed[i].order)
    ensures EndOf(feed).StillWaiting? <==> |Sent(feed)| == |feed| && forall i :: 0 <= i < |feed| ==> GoesOn(feed[i])
  {
    if feed != [] {
      ShapeOfStream(feed[1..]);
    }
  }

  /** The wake-up delivers this order, whose status may move on while it is read. */
  predicate ReadOf(w: Wake, o: Order) {
    && w.Item? && SameBody(w.order, o)
    && SharedReads(o.status, w.order.status) && SharedReads(w.order.status, w.later)
  }

  /** The order was passed to notify or answered by GetOrder. */
  ghost predicate Told(s: State, o: Order) {
    || o in s.notices
    || exists p :: p in s.calls && s.calls[p].Getting? && s.calls[p].g.Got? && s.calls[p].g.answer == Some(o)
  }

  ghost predicate Fed(s: State, w: Wake) {
    w.Item? ==> exists o :: Told(s, o) && ReadOf(w, o)
  }

  /** In every reachable state, whatever was notified and answered so far. */
  lemma {:induction false} EveryStreamHasTheShape(actions: seq<Action>, feed: seq<Wake>)
    requires forall i :: 0 <= i < |feed| ==> Fed(Reached(actions), feed[i])
    ensures PendingThenTerminal(Sent(feed))
    ensures Sent(feed) != [] && IsTerminal(Sent(feed)[|Sent(feed)| - 1].status) ==> EndOf(feed).Nil?
  {
    OnlyKnownStatuses(actions);
    hide Run, Sent, EndOf;
    forall i | 0 <= i < |feed| ensures Healthy(feed[i]) {
      assert Fed(Reached(actions), feed[i]);
      if feed[i].Item? {
        var o :| Told(Reached(actions), o) && ReadOf(feed[i], o);
        ToldIsKnown(actions, o);
      }
    }
    ShapeOfStream(feed);
  }

  lemma ToldIsKnown(actions: seq<Action>, o: Order)
    requires Told(Reached(actions), o)
    ensures KnownStatus(o.status)
  {
    OnlyKnownStatuses(actions);
    hide Run;
  }
}
