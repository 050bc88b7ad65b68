// RateLimitMiddleware as it is written, over the counters in Redis.

module Middleware {
  import opened Domain
  import opened RateLimiter

  /** The address has a counter, and it has not expired. */
  predicate Runs(counters: map<Ip, Counter>, now: nat, ip: Ip) {
    ip in counters && (counters[ip].expires.Some? ==> now < counters[ip].expires.value)
  }

  class RateLimitMiddleware {
    const limit: nat
    const window: nat
    var now: nat
    var counters: map<Ip, Counter>
    ghost var trace: seq<Action>
    ghost var state: State   // what the trace makes of it, with every hit on record

    ghost predicate Valid()
      reads this
    {
      && state == Run(Init(limit, window), trace)
      && state.now == now && state.counters == counters && state.limit == limit && state.window == window
      && forall ip :: ip in counters ==> counters[ip].count >= 1
    }

    constructor (limit: nat, window: nat)
      ensures Valid() && this.limit == limit && this.window == window && trace == []
    {
      this.limit, this.window, now, counters := limit, window, 0, map[];
      trace, state := [], Init(limit, window);
    }

    ghost method Note(a: Action)
      requires state == Run(Init(limit, window), trace)
      modifies `trace, `state
      ensures trace == old(trace) + [a] && state == Next(old(state), a) && state == Run(Init(limit, window), trace)
    {
      RunSnoc(Init(limit, window), trace, a);
      trace, state := trace + [a], Next(state, a);
    }

    method Elapse(d: nat)
      requires Valid()
      modifies this
      ensures Valid() && now == old(now) + d && counters == old(counters) && state.hits == old(state).hits
    {
      now := now + d;
      Note(Pass(d));
    }

    method Incr(ip: Ip) returns (count: nat)
      requires Valid()
      modifies this
      ensures Valid() && now == old(now)
      ensures count == if Runs(old(counters), now, ip) then old(counters)[ip].count + 1 else 1
      ensures counters == old(counters)[ip := Counter(count, if Runs(old(counters), now, ip) then old(counters)[ip].expires else None)]
      ensures exists life :: state.hits == old(state).hits + [Hit(ip, now, count, life)]
      ensures count == 1 <==> !Live(old(state), ip)
      ensures count == 1 ==> old(state).next in state.opening && state.opening[old(state).next] == ip
    {
      if ip in counters && (counters[ip].expires.Some? ==> now < counters[ip].expires.value) {
        count := counters[ip].count + 1;
        counters := counters[ip := counters[ip].(count := count)];
      } else {
        count := 1;
        counters := counters[ip := Counter(1, None)];
      }
      Note(Action.Incr(ip));
    }

    /** EXPIRE key window, by request number r. */
    method Expire(ip: Ip, ok: bool, ghost r: nat)
      requires Valid() && r in state.opening && state.opening[r] == ip
      modifies this
      ensures Valid() && now == old(now) && state.hits == old(state).hits
      ensures counters == if ok && Runs(old(counters), now, ip)
                          then old(counters)[ip := Counter(old(counters)[ip].count, Some(now + window))] else old(counters)
    {
      if ok && ip in counters && (counters[ip].expires.Some? ==> now < counters[ip].expires.value) {
        counters := counters[ip := counters[ip].(expires := Some(now + window))];
      }
      Note(Action.Expire(r, ok));
    }

    /** A request from clientIp passes when its hit is within the limit, and
        always when INCR fails. */
    method Handle(clientIp: string, incrOk: bool, expireOk: bool) returns (passed: bool)
      requires Valid()
      modifies this
      ensures Valid() && now == old(now)
      // a counter goes on to its expiry; a new one expires a window from now, unless EXPIRE fails
      ensures incrOk ==>
                var ip := if clientIp == "" then "unknown" else clientIp;
                if Runs(old(counters), now, ip) then
                  && counters == old(counters)[ip := Counter(old(counters)[ip].count + 1, old(counters)[ip].expires)]
                  && passed == (old(counters)[ip].count + 1 <= limit)
                else
                  && counters == old(counters)[ip := Counter(1, if expireOk then Some(now + window) else None)]
                  && passed == (1 <= limit)
      ensures !incrOk ==> passed && state == old(state)
      ensures incrOk ==>
                && |state.hits| == |old(state).hits| + 1 && old(state).hits <= state.hits
                && var h := state.hits[|old(state).hits|];
                   h.ip == (if clientIp == "" then "unknown" else clientIp) && h.at == now && (passed <==> Admitted(limit, h))
    {
      var ip := clientIp;
      if ip == "" {
        ip := "unknown";
      }
      if !incrOk {
        return true;
      }
      ghost var r := state.next;
      hide Run, Next, Live;
      var count := Incr(ip);
      if count == 1 {
        Expire(ip, expireOk, r);
      }
      if count > limit {
        return false;
      }
      return true;
    }
  }
  /** Two requests d apart from an address with no counter, whenever that is: the
      second gets a counter of its own exactly if d is at least the window, and
      otherwise shares the first one's, and its expiry. */
  method TwoRequests(m: RateLimitMiddleware, clientIp: string, d: nat) returns (first: bool, second: bool)
    requires m.Valid() && clientIp != "" && !Runs(m.counters, m.now, clientIp)
    modifies m
    ensures m.Valid() && m.now == old(m.now) + d && first == (1 <= m.limit)
    ensures clientIp in m.counters
    ensures d >= m.window ==> second == first && m.counters[clientIp] == Counter(1, Some(old(m.now) + d + m.window))
    ensures d < m.window ==> second == (2 <= m.limit) && m.counters[clientIp] == Counter(2, Some(old(m.now) + m.window))
  {
    first := m.Handle(clientIp, true, true);
    m.Elapse(d);
    second := m.Handle(clientIp, true, true);
  }
}
