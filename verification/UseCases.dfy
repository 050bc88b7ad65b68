// The two use cases as they are written, statement by statement, over the
// stores; p is the call, env what the environment does to each statement.

module UseCases {
  import opened Domain
  import opened Gateway
  import opened Tables
  import opened Saga
  import opened WholeCalls
  import opened Repositories
  import opened CacheAside

  datatype PayResult = Processed(payment: Payment) | PaymentExists(existing: Payment) | RepositoryError

  class PaymentUseCase {
    const repo: PostgresPayment
    const broker: Broker

    constructor (repo: PostgresPayment, broker: Broker)
      ensures this.repo == repo && this.broker == broker
    {
      this.repo, this.broker := repo, broker;
    }

    method ProcessPayment(p: Pid, orderId: Uuid, amount: int, env: PayEnv) returns (r: PayResult)
      requires repo.Valid()
      modifies repo, broker
      ensures repo.Valid()
      ensures r.PaymentExists? <==> env.lookup.Acked? && HasPayment(old(repo.payments), orderId)
      ensures r.PaymentExists? ==>
                && r.existing.orderId == orderId && r.existing in old(repo.payments).Values
                && repo.payments == old(repo.payments)
      ensures !r.PaymentExists? ==>
                && (repo.payments, r.Processed?) == InsertPayment(old(repo.payments), NewPayment(p, orderId, amount), env.insert)
      ensures r.Processed? ==> r.payment == NewPayment(p, orderId, amount)
      // the row: over 100000 declined and without a transaction id, otherwise authorised and with one
      ensures r.Processed? <==> env.insert.Acked? && Minted(p, 0) !in old(repo.payments) && !HasPayment(old(repo.payments), orderId)
      ensures r.Processed? ==>
                && r.payment.id == Minted(p, 0) && r.payment.orderId == orderId && r.payment.amount == amount
                && (amount > 100000 ==> r.payment.status == Declined && r.payment.transactionId.None?)
                && (amount <= 100000 ==> r.payment.status == Authorized && r.payment.transactionId.Some?)
                && repo.payments == old(repo.payments)[r.payment.id := r.payment]
      // the event: of that row, for that order's customer, under a message id of its own
      ensures !(r.Processed? && !env.publish.Lost?) ==> broker.queue == old(broker.queue)
      ensures r.Processed? && !env.publish.Lost? ==>
                && |broker.queue| == |old(broker.queue)| + 1 && old(broker.queue) <= broker.queue
                && var e := broker.queue[|old(broker.queue)|];
                   && e.orderId == orderId && e.amount == amount && e.status == r.payment.status
                   && e.customerEmail == UserAtExample(orderId)
                   && e.messageId != r.payment.id && Some(e.messageId) != r.payment.transactionId
      ensures broker.queue == if r.Processed? && !env.publish.Lost? then old(broker.queue) + [EventOf(p, r.payment)]
                              else old(broker.queue)
    {
      var existing := repo.GetByOrderID(orderId, env.lookup);
      if existing.Some? {
        return PaymentExists(existing.value);
      }
      var status, txId := Authorized, None;
      if amount > 100000 {
        status := Declined;
      } else {
        txId := Some(Minted(p, 1));
      }
      var payment := Payment(Minted(p, 0), orderId, txId, amount, status);
      var ok := repo.Create(payment, env.insert);
      if !ok {
        return RepositoryError;
      }
      var event := Event(payment.orderId, payment.amount, UserAtExample(payment.orderId), payment.status, Minted(p, 2));
      broker.PublishPaymentCompleted(event, env.publish);
      return Processed(payment);
    }

    /** The gRPC handler: the guards, the use case, and the reply. */
    method Handle(p: Pid, orderId: Uuid, amount: int, env: PayEnv) returns (reply: Reply)
      requires repo.Valid()
      modifies repo, broker
      ensures repo.Valid()
      ensures orderId == Text("") ==>
                reply == RpcError && repo.payments == old(repo.payments) && broker.queue == old(broker.queue)
      ensures orderId != Text("") ==>
                forall m: Stores :: m.payments == old(repo.payments) && m.queue == old(broker.queue) ==>
                  var (m1, paid) := PayWhole(m, p, Job(orderId, amount, true), env);
                  m1 == m.(payments := repo.payments, queue := broker.queue) && reply == HandlerReply(paid)
      // a reply with a status is about a new row, and says Declined exactly over 100000
      ensures reply.RpcReply? <==> orderId != Text("") && amount > 0 && env.insert.Acked?
                                   && Minted(p, 0) !in old(repo.payments) && !HasPayment(old(repo.payments), orderId)
      ensures reply.RpcReply? ==> reply.status == if amount > 100000 then DeclinedPb else AuthorizedPb
      ensures amount <= 0 ==> repo.payments == old(repo.payments) && broker.queue == old(broker.queue)
    {
      if orderId == Text("") {
        return RpcError;
      }
      if amount <= 0 {
        return RpcError;
      }
      var r := ProcessPayment(p, orderId, amount, env);
      if !r.Processed? {
        return RpcError;
      }
      return RpcReply(MapStatusToPb(r.payment.status));
    }
  }

  class OrderUseCase {
    const repo: PostgresOrder
    const payments: PaymentUseCase   // at the other end of the wire
    const cache: RedisOrderCache
    var notices: seq<Order>          // everything passed to notify

    constructor (repo: PostgresOrder, payments: PaymentUseCase, cache: RedisOrderCache)
      requires repo.Valid() && payments.repo.Valid()
      ensures Valid() && this.repo == repo && this.payments == payments && this.cache == cache && notices == []
    {
      this.repo, this.payments, this.cache, notices := repo, payments, cache, [];
    }

    ghost predicate Valid()
      reads repo, payments.repo
    {
      repo.Valid() && payments.repo.Valid()
    }

    ghost function View(): Stores
      reads this, repo, payments.repo, payments.broker, cache
    {
      Stores(repo.orders, payments.repo.payments, cache.entries, payments.broker.queue, notices, cache.now)
    }

    method Notify(o: Order)
      modifies this
      ensures notices == old(notices) + [o]
    {
      notices := notices + [o];
    }

    /** The payment client: one rpc, and the reading of its reply. */
    method AuthorizePayment(p: Pid, o: Order, env: RpcEnv) returns (r: Result<PaymentStatus>)
      requires Valid() && o.id != Text("")
      modifies payments.repo, payments.broker
      ensures Valid() && (View(), r) == AuthorizeWhole(old(View()), p, o, env)
      ensures r.Ok? <==> !env.dial.Lost? && env.reply.Acked? && o.amount > 0 && env.pay.insert.Acked?
                         && Minted(Server(p), 0) !in old(payments.repo.payments) && !HasPayment(old(payments.repo.payments), o.id)
      ensures r.Ok? ==> r.value == if o.amount > 100000 then Declined else Authorized
    {
      if env.dial.Lost? {
        return Err;
      }
      var reply := payments.Handle(Server(p), o.id, o.amount, env.pay);
      hide PayWhole;
      if !env.reply.Acked? {
        return Err;
      }
      match reply {
        case RpcError => return Err;
        case RpcReply(status) =>
          match status {
            case AuthorizedPb => return Ok(Authorized);
            case DeclinedPb => return Ok(Declined);
            case UnspecifiedPb => return Err;
          }
      }
    }

    /** UpdateStatus, then the cache deletion if that succeeded. */
    method Write(id: Uuid, st: OrderStatus, env: WriteEnv) returns (ok: bool)
      requires Valid()
      modifies repo, cache
      ensures Valid() && (View(), ok) == WriteWhole(old(View()), id, st, env)
      ensures repo.orders == if env.update.Lost? || id !in old(repo.orders) then old(repo.orders)
                             else old(repo.orders)[id := old(repo.orders)[id].(status := st)]
      ensures cache.entries == if env.update.Acked? && !env.delete.Lost? then old(cache.entries) - {id} else old(cache.entries)
    {
      ok := repo.UpdateStatus(id, st, env.update);
      if ok {
        cache.Delete(id, env.delete);
      }
    }

    /** The rest of CreateOrder, once the row is there and told. */
    method PayFor(p: Pid, o: Order, env: CreateEnv) returns (r: CreateResult)
      requires Valid() && o.id == Minted(p, 0) && o.id in repo.orders && repo.orders[o.id] == o && o.status.Pending?
      modifies this, repo, cache, payments.repo, payments.broker
      ensures Valid() && (View(), r) == PayForWhole(old(View()), p, o, env)
      ensures r.Created? <==> !env.rpc.dial.Lost? && env.rpc.reply.Acked? && env.rpc.pay.insert.Acked?
                              && Minted(Server(p), 0) !in old(payments.repo.payments) && !HasPayment(old(payments.repo.payments), o.id)
      ensures if r.Created? then r.order == o.(status := if o.amount > 100000 then Failed else Paid) else r.PaymentUnavailable?
      ensures repo.orders == old(repo.orders)[o.id := o.(status :=
                if env.write.update.Lost? then Pending else if r.Created? then r.order.status else Failed)]
      ensures cache.entries == if env.write.update.Acked? && !env.write.delete.Lost? then old(cache.entries) - {o.id}
                               else old(cache.entries)
      ensures notices == old(notices) + if r.Created? then [r.order] else []
    {
      assert o.amount > 0;
      hide AuthorizeWhole, WriteWhole, HasPayment, Coherent, Valid;
      var paymentStatus := AuthorizePayment(p, o, env.rpc);
      if paymentStatus.Err? {
        var _ := Write(o.id, Failed, env.write);
        return PaymentUnavailable;
      }
      var newStatus := Paid;
      if paymentStatus.value == Declined {
        newStatus := Failed;
      } else if paymentStatus.value == Authorized {
        newStatus := Paid;
      }
      var _ := Write(o.id, newStatus, env.write);
      var order := o.(status := newStatus);
      Notify(order);
      return Created(order);
    }

    method CreateOrder(p: Pid, req: Request, env: CreateEnv) returns (r: CreateResult)
      requires Valid()
      modifies this, repo, cache, payments.repo, payments.broker
      ensures Valid() && (View(), r) == CreateWhole(old(View()), p, req, env)
      // a row with the key answers, and nothing happens
      ensures r.Replay? <==> env.lookup.Acked? && exists i :: i in old(repo.orders) && old(repo.orders)[i].key == req.key
      ensures r.Replay? ==> r.order.key == req.key && r.order in old(repo.orders).Values && View() == old(View())
      // an order that was answered is the request's, Paid up to 100000 and Failed beyond
      ensures r.Created? ==>
                && r.order.customerId == req.customerId && r.order.itemName == req.itemName && r.order.amount == req.amount
                && r.order.key == req.key && r.order.createdAt == old(cache.now) && r.order.id == Minted(p, 0)
                && r.order.status == if req.amount > 100000 then Failed else Paid
      // its row, unless the update was lost, has that status; if payment is unavailable, Failed
      ensures r.Created? || r.PaymentUnavailable? ==>
                && Minted(p, 0) in repo.orders && repo.orders == old(repo.orders)[Minted(p, 0) := repo.orders[Minted(p, 0)]]
                && var o := repo.orders[Minted(p, 0)];
                   && o.customerId == req.customerId && o.itemName == req.itemName && o.amount == req.amount
                   && o.key == req.key && o.createdAt == old(cache.now) && o.id == Minted(p, 0)
                   && o.status == if env.write.update.Lost? then Pending else if r.Created? then r.order.status else Failed
      ensures r.Created? || r.PaymentUnavailable? ==>
                (r.Created? <==> !env.rpc.dial.Lost? && env.rpc.reply.Acked? && env.rpc.pay.insert.Acked?
                                 && Minted(Server(p), 0) !in old(payments.repo.payments)
                                 && !HasPayment(old(payments.repo.payments), Minted(p, 0)))
      ensures r.Created? || r.PaymentUnavailable? ==>
                cache.entries == if env.write.update.Acked? && !env.write.delete.Lost? then old(cache.entries) - {Minted(p, 0)}
                                 else old(cache.entries)
      ensures r.InsertError? ==>
                && View() == old(View()).(orders := repo.orders)
                && (env.insert.Unacked? || repo.orders == old(repo.orders))
      ensures r.InsertError? <==>
                !r.Replay? && !(env.insert.Acked? && req.amount > 0 && Minted(p, 0) !in old(repo.orders)
                                && forall i :: i in old(repo.orders) ==> old(repo.orders)[i].key != req.key)
      // the subscribers hear of the new order, and then of the answer
      ensures r.Created? ==> notices == old(notices) + [r.order.(status := Pending), r.order]
      ensures r.PaymentUnavailable? ==>
                notices == old(notices) + [repo.orders[Minted(p, 0)].(status := Pending)]
      ensures r.Replay? || r.InsertError? ==> notices == old(notices)
    {
      hide InsertOrder, PayForWhole, ByKey, HasPayment, OrderFits, Coherent, PostgresOrder.Valid, PostgresPayment.Valid;
      var existing := repo.GetByIdempotencyKey(req.key, env.lookup);
      if existing.Some? {
        return Replay(existing.value);
      }
      var order := Order(Minted(p, 0), req.customerId, req.itemName, req.amount, Pending, cache.now, req.key);
      var ok := repo.Create(order, env.insert);
      if !ok {
        return InsertError;
      }
      Notify(order);
      r := PayFor(p, order, env);
    }

    method CancelOrder(id: Uuid, env: CancelEnv) returns (err: Option<CancelError>)
      requires Valid()
      modifies this, repo, cache
      ensures Valid() && (View(), err) == CancelWhole(old(View()), id, env)
      ensures err == Some(NotFound) <==> !(env.read.Acked? && id in old(repo.orders))
      ensures err == Some(CannotCancelPaid) <==>
                env.read.Acked? && id in old(repo.orders) && old(repo.orders)[id].status.Paid?
      ensures err == Some(InvalidState) <==>
                env.read.Acked? && id in old(repo.orders) && !old(repo.orders)[id].status.Paid? && !old(repo.orders)[id].status.Pending?
      ensures err == Some(WriteError) <==>
                env.read.Acked? && id in old(repo.orders) && old(repo.orders)[id].status.Pending? && !env.write.update.Acked?
      ensures err == None <==>
                env.read.Acked? && id in old(repo.orders) && old(repo.orders)[id].status.Pending? && env.write.update.Acked?
      // a refused cancel changes nothing; one whose write failed may have written
      ensures err.Some? && !err.value.WriteError? ==> View() == old(View())
      ensures err == Some(WriteError) ==>
                && View() == old(View()).(orders := repo.orders)
                && (env.write.update.Lost? ==> repo.orders == old(repo.orders))
      // a cancelled order is told, and its cache entry is gone unless the deletion was lost
      ensures err == None || (err == Some(WriteError) && env.write.update.Unacked?) ==>
                repo.orders == old(repo.orders)[id := old(repo.orders)[id].(status := Cancelled)]
      ensures err == None ==>
                && notices == old(notices) + [old(repo.orders)[id].(status := Cancelled)]
                && cache.entries == if env.write.delete.Lost? then old(cache.entries) else old(cache.entries) - {id}
    {
      var found := repo.GetByID(id, env.read);
      if found.None? {
        return Some(NotFound);
      }
      var order := found.value;
      if order.status == Paid {
        return Some(CannotCancelPaid);
      }
      if order.status != Pending {
        return Some(InvalidState);
      }
      hide WriteWhole;
      var ok := Write(id, Cancelled, env.write);
      if !ok {
        return Some(WriteError);
      }
      order := order.(status := Cancelled);
      Notify(order);
      return None;
    }

    /** After whole calls only, the answer is the repository's. */
    method GetOrder(id: Uuid, env: GetEnv) returns (r: Option<Order>)
      requires Valid()
      modifies cache`entries
      ensures Valid() && (View(), r) == GetWhole(old(View()), id, env)
      // a live entry answers, and nothing changes; otherwise the table does, and its row is cached for ttl
      ensures env.cache.Acked? && id in old(cache.entries) && cache.now < old(cache.entries)[id].expires ==>
                r == Some(old(cache.entries)[id].order) && cache.entries == old(cache.entries)
      ensures !(env.cache.Acked? && id in old(cache.entries) && cache.now < old(cache.entries)[id].expires) ==>
                && r == (if env.read.Acked? && id in repo.orders then Some(repo.orders[id]) else None)
                && cache.entries == if r.Some? && !env.fill.Lost? then old(cache.entries)[id := Cached(r.value, cache.now + env.ttl)]
                                    else old(cache.entries)
      ensures old(Coherent(View())) ==> Coherent(View())
      ensures old(Coherent(View())) && env.read.Acked? ==> r == if id in repo.orders then Some(repo.orders[id]) else None
    {
      var cached := cache.Get(id, env.cache);
      if cached.Some? {
        return cached;
      }
      r := repo.GetByID(id, env.read);
      if r.None? {
        return None;
      }
      cache.Set(r.value, env.ttl, env.fill);
    }
  }
}
