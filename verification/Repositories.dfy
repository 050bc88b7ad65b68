// The stores the services write: the two tables, the Redis cache and the
// broker's queue.  Each method is one statement or command; f says how it ends.

module Repositories {
  import opened Domain
  import opened Tables
  import opened WholeCalls

  class PostgresOrder {
    var orders: Orders

    /** The primary key, the UNIQUE key and the CHECK hold. */
    ghost predicate Valid()
      reads this
    {
      && (forall id :: id in orders ==> orders[id].id == id && orders[id].amount > 0)
      && (forall i, j :: i in orders && j in orders && orders[i].key == orders[j].key ==> i == j)
    }

    constructor ()
      ensures Valid() && orders == map[]
    {
      orders := map[];
    }

    method Create(o: Order, f: Fault) returns (ok: bool)
      requires Valid()
      modifies this
      ensures Valid() && (orders, ok) == InsertOrder(old(orders), o, f)
      ensures ok <==> f.Acked? && o.amount > 0 && forall i :: i in old(orders) ==> i != o.id && old(orders)[i].key != o.key
      ensures orders == old(orders) || (orders == old(orders)[o.id := o] && (ok || f.Unacked?))
      ensures f.Acked? ==> (ok <==> orders != old(orders))
    {
      if f.Lost? || o.id in orders || o.amount <= 0 || exists i :: i in orders && orders[i].key == o.key {
        return false;
      }
      orders := orders[o.id := o];
      return f.Acked?;
    }

    method GetByID(id: Uuid, f: Fault) returns (r: Option<Order>)
      requires Valid()
      ensures r == if f.Acked? && id in orders then Some(orders[id]) else None
      ensures r.Some? ==> r.value.id == id
    {
      if f.Acked? && id in orders {
        return Some(orders[id]);
      }
      return None;
    }

    /** The only row with that key, if there is one. */
    method GetByIdempotencyKey(key: string, f: Fault) returns (r: Option<Order>)
      requires Valid()
      ensures r == if f.Acked? then ByKey(orders, key) else None
      ensures r.Some? ==> r.value.key == key && r.value.id in orders && orders[r.value.id] == r.value
    {
      if !f.Acked? {
        return None;
      }
      if i :| i in orders && orders[i].key == key {
        return Some(orders[i]);
      }
      return None;
    }

    method UpdateStatus(id: Uuid, st: OrderStatus, f: Fault) returns (ok: bool)
      requires Valid()
      modifies this
      ensures Valid() && (orders, ok) == SetStatus(old(orders), id, st, f)
      ensures ok <==> f.Acked?
      ensures f.Lost? ==> orders == old(orders)
      ensures orders.Keys == old(orders).Keys && forall i :: i in orders && i != id ==> orders[i] == old(orders)[i]
      ensures !f.Lost? && id in orders ==> orders[id].status == st && SameBody(orders[id], old(orders)[id])
    {
      if f.Lost? {
        return false;
      }
      if id in orders {
        orders := orders[id := orders[id].(status := st)];
      }
      return f.Acked?;
    }
  }

  class PostgresPayment {
    var payments: Payments

    /** The primary key and the unique index on order_id hold. */
    ghost predicate Valid()
      reads this
    {
      && (forall i :: i in payments ==> payments[i].id == i)
      && (forall i, j :: i in payments && j in payments && payments[i].orderId == payments[j].orderId ==> i == j)
    }

    constructor ()
      ensures Valid() && payments == map[]
    {
      payments := map[];
    }

    method Create(p: Payment, f: Fault) returns (ok: bool)
      requires Valid()
      modifies this
      ensures Valid() && (payments, ok) == InsertPayment(old(payments), p, f)
      ensures ok <==> f.Acked? && forall i :: i in old(payments) ==> i != p.id && old(payments)[i].orderId != p.orderId
      ensures payments == old(payments) || (payments == old(payments)[p.id := p] && (ok || f.Unacked?))
      ensures f.Acked? ==> (ok <==> payments != old(payments))
    {
      if f.Lost? || p.id in payments || exists i :: i in payments && payments[i].orderId == p.orderId {
        return false;
      }
      payments := payments[p.id := p];
      return f.Acked?;
    }

    /** The only payment of that order, if there is one. */
    method GetByOrderID(orderId: Uuid, f: Fault) returns (r: Option<Payment>)
      requires Valid()
      ensures r.Some? <==> f.Acked? && HasPayment(payments, orderId)
      ensures r.Some? ==> r.value.orderId == orderId && r.value.id in payments && payments[r.value.id] == r.value
    {
      if !f.Acked? {
        return None;
      }
      if i :| i in payments && payments[i].orderId == orderId {
        return Some(payments[i]);
      }
      return None;
    }
  }

  // ----- what a reader of the cache sees -----

  type Entries = map<Uuid, Cached>

  /** The order that a successful GET at time `now` yields. */
  function Lookup(entries: Entries, id: Uuid, now: nat): Option<Order> {
    if id in entries && now < entries[id].expires then Some(entries[id].order) else None
  }

  function Stored(entries: Entries, o: Order, expires: nat): Entries {
    entries[o.id := Cached(o, expires)]
  }

  /** After a Set at time `now`, a read d later gets the order if and only if d
      is less than ttl, whatever was cached before; other orders read as before. */
  lemma ReadAfterSet(entries: Entries, o: Order, ttl: nat, now: nat, id: Uuid, d: nat)
    ensures Lookup(Stored(entries, o, now + ttl), o.id, now + d) == if d < ttl then Some(o) else None
    ensures id != o.id ==> Lookup(Stored(entries, o, now + ttl), id, now + d) == Lookup(entries, id, now + d)
  {
  }

  /** After a Delete no read gets the order; other orders read as before. */
  lemma ReadAfterDelete(entries: Entries, id: Uuid, other: Uuid, now: nat)
    ensures Lookup(entries - {id}, id, now) == None
    ensures other != id ==> Lookup(entries - {id}, other, now) == Lookup(entries, other, now)
  {
  }

  /** A command that got through, or time that passed. */
  datatype Command = SetOf(order: Order, ttl: nat) | DeleteOf(id: Uuid) | Elapse(d: nat)

  /** The keys and the clock after the commands, from an empty cache at time 0. */
  function Played(commands: seq<Command>): (Entries, nat) {
    if commands == [] then (map[], 0) else
      var n := |commands| - 1;
      var (entries, now) := Played(commands[..n]);
      match commands[n]
      case SetOf(o, ttl) => (Stored(entries, o, now + ttl), now)
      case DeleteOf(id) => (entries - {id}, now)
      case Elapse(d) => (entries, now + d)
  }

  /** Looking back over the commands, `waited` ago: the last Set of this order,
      if its ttl has not run out and no Delete came after it. */
  function LastSet(commands: seq<Command>, id: Uuid, waited: nat): Option<Order> {
    if commands == [] then None else
      var n := |commands| - 1;
      match commands[n]
      case SetOf(o, ttl) => if o.id == id then (if waited < ttl then Some(o) else None) else LastSet(commands[..n], id, waited)
      case DeleteOf(other) => if other == id then None else LastSet(commands[..n], id, waited)
      case Elapse(d) => LastSet(commands[..n], id, waited + d)
  }

  /** A Get that gets through answers exactly that. */
  lemma {:induction false} ReadsTheLastSet(commands: seq<Command>, id: Uuid, waited: nat)
    ensures var (entries, now) := Played(commands);
            Lookup(entries, id, now + waited) == LastSet(commands, id, waited)
  {
    if commands != [] {
      var n := |commands| - 1;
      var (entries, now) := Played(commands[..n]);
      match commands[n] {
        case SetOf(o, ttl) =>
          ReadAfterSet(entries, o, ttl, now, id, waited);
          ReadsTheLastSet(commands[..n], id, waited);
        case DeleteOf(other) =>
          ReadAfterDelete(entries, other, id, now + waited);
          ReadsTheLastSet(commands[..n], id, waited);
        case Elapse(d) =>
          ReadsTheLastSet(commands[..n], id, waited + d);
      }
    }
  }

  /** Keys "order:<id>" with their expiry.  Every failure is logged and dropped. */
  class RedisOrderCache {
    var entries: Entries
    var now: nat

    constructor ()
      ensures entries == map[] && now == 0
    {
      entries, now := map[], 0;
    }

    /** A missing or expired key, an unreachable server and a value that does
        not parse (f is not Acked) all read as no order. */
    method Get(id: Uuid, f: Fault) returns (r: Option<Order>)
      ensures f.Acked? ==> r == Lookup(entries, id, now)
      ensures !f.Acked? ==> r == None
    {
      if !f.Acked? || id !in entries || now >= entries[id].expires {
        return None;
      }
      return Some(entries[id].order);
    }

    method Set(o: Order, ttl: nat, f: Fault)
      modifies `entries
      ensures entries == if f.Lost? then old(entries) else Stored(old(entries), o, now + ttl)
      ensures !f.Lost? ==> forall at: nat :: at >= now ==>
                Lookup(entries, o.id, at) == if at < now + ttl then Some(o) else None
      ensures forall id, at: nat :: id != o.id ==> Lookup(entries, id, at) == Lookup(old(entries), id, at)
    {
      if !f.Lost? {
        entries := entries[o.id := Cached(o, now + ttl)];
      }
    }

    method Delete(id: Uuid, f: Fault)
      modifies `entries
      ensures entries == if f.Lost? then old(entries) else old(entries) - {id}
      ensures !f.Lost? ==> forall at: nat :: Lookup(entries, id, at) == None
      ensures forall other, at: nat :: other != id ==> Lookup(entries, other, at) == Lookup(old(entries), other, at)
    {
      if !f.Lost? {
        entries := entries - {id};
      }
    }
  }

  class Broker {
    var queue: seq<Event>

    constructor ()
      ensures queue == []
    {
      queue := [];
    }

    method PublishPaymentCompleted(e: Event, f: Fault)
      modifies this
      ensures queue == if f.Lost? then old(queue) else old(queue) + [e]
    {
      if !f.Lost? {
        queue := queue + [e];
      }
    }
  }
}
