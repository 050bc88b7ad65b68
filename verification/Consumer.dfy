// The dispatcher loop of the consumer and its workers: a semaphore of two, a
// wait group, and one settlement per delivery, under every schedule.

module Consumer {

  const CAPACITY := 2

  type Tag = nat

  /** Where the dispatcher goroutine is. */
  datatype Dispatcher =
    | Selecting
    | Holding(tag: Tag)    // received, waiting for the semaphore
    | Adding(tag: Tag)     // token taken, before wg.Add
    | Spawning(tag: Tag)   // counted, before go
    | Draining             // context cancelled, in wg.Wait
    | Returned
    | Closed               // the delivery channel was closed: the loop just returns

  /** A worker that holds its token: processing, about to settle, or settled. */
  datatype Stage = Working | Judged(ok: bool) | Settled

  datatype Settlement = Acked | Nacked

  /** What a schedule may do next. */
  datatype Turn =
    | Receive(tag: Tag)
    | Acquire
    | Add
    | Spawn
    | Cancel
    | Wait
    | CloseChannel
    | Finish(tag: Tag, ok: bool)   // ProcessPaymentCompleted returns, nil or an error
    | Settle(tag: Tag)
    | Release(tag: Tag)            // deferred: <-sem
    | Leave(tag: Tag)              // deferred: wg.Done()

  class Loop {
    var dispatcher: Dispatcher
    var sem: nat                        // tokens held
    var wg: nat                         // wait group counter
    var busy: map<Tag, Stage>           // workers holding a token
    var leaving: set<Tag>               // workers that gave their token back
    var received: set<Tag>              // deliveries the dispatcher has taken
    var verdicts: map<Tag, bool>        // what processing returned
    var settled: map<Tag, Settlement>   // what the broker was told
    var settlements: nat                // how often it was told anything

    /** Tokens are held by unfinished workers, and by the dispatcher for the one it is about to start. */
    ghost predicate TokensOk()
      reads this
    {
      && sem == |busy| + (if dispatcher.Adding? || dispatcher.Spawning? then 1 else 0)
      && sem <= CAPACITY
      && wg == |busy| + |leaving| + (if dispatcher.Spawning? then 1 else 0)
    }

    /** The delivery the dispatcher has in its hand. */
    ghost function InHand(): set<Tag>
      reads this
    {
      if dispatcher.Holding? || dispatcher.Adding? || dispatcher.Spawning? then {dispatcher.tag} else {}
    }

    /** Every delivery taken is in the dispatcher's hand, with a worker, or settled;
        it was settled once, and as processing said. */
    ghost predicate SettlementsOk()
      reads this
    {
      && busy.Keys !! leaving && busy.Keys !! InHand() && leaving !! InHand()
      && InHand() <= received && busy.Keys <= received
      && (forall t :: t in received && t !in InHand() && t !in busy ==> t in settled)
      && (forall t :: t in settled ==> t in received && t !in InHand())
      && (forall t :: t in busy ==> (t in settled <==> busy[t].Settled?))
      && (forall t :: t in busy && busy[t].Judged? ==> t in verdicts && verdicts[t] == busy[t].ok)
      && (forall t :: t in settled ==> t in verdicts && (settled[t].Acked? <==> verdicts[t]))
      && leaving <= settled.Keys
      && settlements == |settled|
      && (dispatcher.Returned? ==> wg == 0)
    }

    ghost predicate Valid()
      reads this
    {
      TokensOk() && SettlementsOk()
    }

    constructor ()
      ensures Valid() && dispatcher.Selecting? && received == {} && sem == 0 && wg == 0
    {
      dispatcher, sem, wg, busy, leaving := Selecting, 0, 0, map[], {};
      received, verdicts, settled, settlements := {}, map[], map[], 0;
    }

    // ----- the dispatcher -----

    /** case msg := <-msgs */
    method Receive(tag: Tag)
      requires Valid() && dispatcher.Selecting? && tag !in received
      modifies this`dispatcher, this`received
      ensures Valid() && dispatcher == Holding(tag) && received == old(received) + {tag}
    {
      dispatcher, received := Holding(tag), received + {tag};
    }

    /** sem <- struct{}{} blocks while two tokens are held. */
    method Acquire() returns (passed: bool)
      requires Valid() && dispatcher.Holding?
      modifies this`dispatcher, this`sem
      ensures Valid() && passed == (old(sem) < 2)
      ensures passed ==> dispatcher == Adding(old(dispatcher.tag)) && sem == old(sem) + 1
      ensures !passed ==> dispatcher == old(dispatcher) && sem == old(sem)
    {
      passed := sem < CAPACITY;
      if passed {
        dispatcher, sem := Adding(dispatcher.tag), sem + 1;
      }
    }

    method Add()
      requires Valid() && dispatcher.Adding?
      modifies this`dispatcher, this`wg
      ensures Valid() && dispatcher == Spawning(old(dispatcher.tag)) && wg == old(wg) + 1
    {
      dispatcher, wg := Spawning(dispatcher.tag), wg + 1;
    }

    method Spawn()
      requires Valid() && dispatcher.Spawning?
      modifies this`dispatcher, this`busy
      ensures Valid() && dispatcher.Selecting? && busy == old(busy)[old(dispatcher.tag) := Working]
    {
      dispatcher, busy := Selecting, busy[dispatcher.tag := Working];
    }

    method Cancel()
      requires Valid() && dispatcher.Selecting?
      modifies this`dispatcher
      ensures Valid() && dispatcher.Draining?
    {
      dispatcher := Draining;
    }

    /** wg.Wait() lets the loop return only when the counter is back at zero. */
    method Wait() returns (passed: bool)
      requires Valid() && dispatcher.Draining?
      modifies this`dispatcher
      ensures Valid() && passed == (wg == 0)
      ensures dispatcher == if passed then Returned else Draining
    {
      passed := wg == 0;
      if passed {
        dispatcher := Returned;
      }
    }

    method CloseChannel()
      requires Valid() && dispatcher.Selecting?
      modifies this`dispatcher
      ensures Valid() && dispatcher.Closed?
    {
      dispatcher := Closed;
    }

    // ----- a worker -----

    method Finish(tag: Tag, ok: bool)
      requires Valid() && tag in busy && busy[tag].Working?
      modifies this`busy, this`verdicts
      ensures Valid() && busy == old(busy)[tag := Judged(ok)] && verdicts == old(verdicts)[tag := ok]
    {
      busy, verdicts := busy[tag := Judged(ok)], verdicts[tag := ok];
    }

    /** m.Ack(false) after a nil error, m.Nack(false, false) otherwise. */
    method Settle(tag: Tag)
      requires Valid() && tag in busy && busy[tag].Judged?
      modifies this`busy, this`settled, this`settlements
      ensures Valid() && busy == old(busy)[tag := Settled]
      ensures settled == old(settled)[tag := if old(busy[tag].ok) then Acked else Nacked] && tag !in old(settled)
      ensures settlements == old(settlements) + 1
    {
      settled := settled[tag := if busy[tag].ok then Acked else Nacked];
      busy, settlements := busy[tag := Settled], settlements + 1;
    }

    /** The deferred calls run last in, first out: the token goes back before wg.Done. */
    method Release(tag: Tag)
      requires Valid() && tag in busy && busy[tag].Settled?
      modifies this`busy, this`leaving, this`sem
      ensures Valid() && busy == old(busy) - {tag} && leaving == old(leaving) + {tag} && sem == old(sem) - 1
    {
      RemoveOne(busy, tag);
      busy, leaving, sem := busy - {tag}, leaving + {tag}, sem - 1;
    }

    method Leave(tag: Tag)
      requires Valid() && tag in leaving
      modifies this`leaving, this`wg
      ensures Valid() && leaving == old(leaving) - {tag} && wg == old(wg) - 1
    {
      leaving, wg := leaving - {tag}, wg - 1;
    }

    // ----- any schedule -----

    predicate Enabled(turn: Turn)
      reads this
    {
      match turn
      case Receive(t) => dispatcher.Selecting? && t !in received
      case Acquire => dispatcher.Holding?
      case Add => dispatcher.Adding?
      case Spawn => dispatcher.Spawning?
      case Cancel => dispatcher.Selecting?
      case Wait => dispatcher.Draining?
      case CloseChannel => dispatcher.Selecting?
      case Finish(t, _) => t in busy && busy[t].Working?
      case Settle(t) => t in busy && busy[t].Judged?
      case Release(t) => t in busy && busy[t].Settled?
      case Leave(t) => t in leaving
    }

    method Take(turn: Turn)
      requires Valid() && Enabled(turn)
      modifies this
      ensures Valid()
      ensures old(settled.Keys) <= settled.Keys && forall t :: t in old(settled) ==> settled[t] == old(settled[t])
    {
      hide TokensOk, SettlementsOk;
      match turn
      case Receive(t) => Receive(t);
      case Acquire => var _ := Acquire();
      case Add => Add();
      case Spawn => Spawn();
      case Cancel => Cancel();
      case Wait => var _ := Wait();
      case CloseChannel => CloseChannel();
      case Finish(t, ok) => Finish(t, ok);
      case Settle(t) => Settle(t);
      case Release(t) => Release(t);
      case Leave(t) => Leave(t);
    }

    /** The goroutine of Start under an arbitrary schedule; turns that are not
        enabled are passed over. */
    method Start(schedule: seq<Turn>)
      requires Valid() && dispatcher.Selecting? && received == {}
      modifies this
      ensures Valid()
      // tokens never exceed two, and are those of the unfinished workers and the one being started
      ensures sem <= 2 && |busy| <= sem
      // a settled delivery was settled exactly once, and acked exactly if processing returned nil
      ensures settlements == |settled|
      ensures forall t :: t in settled ==> t in verdicts && (settled[t].Acked? <==> verdicts[t])
      // on the cancellation path everything taken has been settled before the loop returns
      ensures dispatcher.Returned? ==> busy == map[] && leaving == {} && settled.Keys == received
    {
      var i := 0;
      while i < |schedule|
        invariant 0 <= i <= |schedule|
        invariant Valid()
      {
        if Enabled(schedule[i]) {
          Take(schedule[i]);
        }
        i := i + 1;
      }
      if dispatcher.Returned? {
        assert |busy| == 0 && |leaving| == 0;
      }
    }
  }

  lemma RemoveOne<K, V>(m: map<K, V>, k: K)
    requires k in m
    ensures |m - {k}| == |m| - 1
  {
    assert (m - {k})[k := m[k]] == m;
  }
}
