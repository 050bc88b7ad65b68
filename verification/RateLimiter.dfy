// The fixed-window limiter: INCR, then EXPIRE by the request that created the
// counter, then the comparison; requests of any number of clients interleave.

module RateLimiter {
  import opened Domain

  type Ip = string

  /** A Redis counter; expires is None until somebody sets it. */
  datatype Counter = Counter(count: nat, expires: Option<nat>)

  /** A request that has done its INCR: when, the count it got, and which
      lifetime of the counter that was (numbered per address). */
  datatype Hit = Hit(ip: Ip, at: nat, count: nat, life: int)

  datatype State = State(
    limit: nat,
    window: nat,
    now: nat,
    counters: map<Ip, Counter>,
    opening: map<nat, Ip>,        // requests that got 1 and have not done their EXPIRE
    next: nat,                    // fresh request number
    // bookkeeping
    hits: seq<Hit>,
    starts: map<Ip, seq<nat>>)    // when each lifetime of an address's counter started

  datatype Action =
    | Incr(ip: Ip)
    | Expire(r: nat, ok: bool)
    | Pass(d: nat)

  function Init(limit: nat, window: nat): State {
    State(limit, window, 0, map[], map[], 0, [], map[])
  }

  predicate Live(s: State, ip: Ip) {
    ip in s.counters && (s.counters[ip].expires.Some? ==> s.now < s.counters[ip].expires.value)
  }

  function Next(s: State, a: Action): State {
    match a
    case Incr(ip) => if Live(s, ip) then Again(s, ip) else First(s, ip)
    case Expire(r, ok) =>
      if r !in s.opening then s
      else
        var ip := s.opening[r];
        s.(opening := s.opening - {r},
        counters := if ok && Live(s, ip)
                    then s.counters[ip := s.counters[ip].(expires := Some(s.now + s.window))]
                    else s.counters)
    case Pass(d) => s.(now := s.now + d)
  }

  function Starts(s: State, ip: Ip): seq<nat> {
    if ip in s.starts then s.starts[ip] else []
  }

  /** INCR on a missing or expired key makes a new one, without expiry. */
  function First(s: State, ip: Ip): State {
    s.(counters := s.counters[ip := Counter(1, None)],
    opening := s.opening[s.next := ip],
    next := s.next + 1,
    hits := s.hits + [Hit(ip, s.now, 1, |Starts(s, ip)|)],
    starts := s.starts[ip := Starts(s, ip) + [s.now]])
  }

  function Again(s: State, ip: Ip): State
    requires ip in s.counters
  {
    var count := s.counters[ip].count + 1;
    s.(counters := s.counters[ip := s.counters[ip].(count := count)],
    next := s.next + 1,
    hits := s.hits + [Hit(ip, s.now, count, |Starts(s, ip)| - 1)])
  }

  function Run(s: State, actions: seq<Action>): State
    decreases |actions|
  {
    if actions == [] then s else Run(Next(s, actions[0]), actions[1..])
  }

  /** The request goes through: its count is within the limit. */
  predicate Admitted(limit: nat, h: Hit) {
    h.count <= limit
  }

  // ----- counting -----

  function InLife(limit: nat, hits: seq<Hit>, ip: Ip, life: int): nat {
    if hits == [] then 0
    else
      var h := hits[|hits| - 1];
      InLife(limit, hits[..|hits| - 1], ip, life) + if h.ip == ip && h.life == life && Admitted(limit, h) then 1 else 0
  }

  /** Requests of one address admitted in [from, till), by the time of their INCR. */
  function InInterval(limit: nat, hits: seq<Hit>, ip: Ip, from: nat, till: nat): nat {
    if hits == [] then 0
    else
      var h := hits[|hits| - 1];
      InInterval(limit, hits[..|hits| - 1], ip, from, till)
      + if h.ip == ip && from <= h.at < till && Admitted(limit, h) then 1 else 0
  }

  // ----- the invariant -----

  ghost predicate HitOk(s: State, h: Hit) {
    var starts := Starts(s, h.ip);
    && 0 <= h.life < |starts|
    && starts[h.life] <= h.at <= s.now
    && (h.life + 1 < |starts| ==> h.at <= starts[h.life + 1])
  }

  ghost predicate StartsOk(starts: seq<nat>, window: nat, now: nat) {
    && |starts| > 0
    && (forall k :: 0 <= k < |starts| ==> starts[k] <= now)
    && (forall k, l :: 0 <= k < l < |starts| ==> starts[k] + window <= starts[l])
  }

  /** Lifetimes start at least a window apart, and a counter that may expire will
      not do so within a window of its start. */
  ghost predicate LivesOk(s: State) {
    && s.starts.Keys == s.counters.Keys
    && (forall ip :: ip in s.starts ==> StartsOk(s.starts[ip], s.window, s.now))
    && (forall ip :: ip in s.counters && s.counters[ip].expires.Some? ==>
          s.starts[ip][|s.starts[ip]| - 1] + s.window <= s.counters[ip].expires.value)
  }

  /** A request still to do its EXPIRE opened the present lifetime of its address. */
  ghost predicate OpeningOk(s: State) {
    && (forall r :: r in s.opening ==>
          r < s.next && s.opening[r] in s.counters && s.counters[s.opening[r]].expires.None?)
    && (forall r, q :: r in s.opening && q in s.opening && s.opening[r] == s.opening[q] ==> r == q)
  }

  /** No lifetime has admitted more than the limit, nor the present one more than
      its counter says; lifetimes to come have admitted nothing. */
  ghost predicate CountOk(s: State, ip: Ip, life: int) {
    var n := InLife(s.limit, s.hits, ip, life);
    && n <= s.limit
    && (ip in s.counters && life == |Starts(s, ip)| - 1 ==> n <= s.counters[ip].count)
    && (life >= |Starts(s, ip)| ==> n == 0)
  }

  /** Every lifetime was opened by a request that got 1. */
  ghost predicate OpenersOk(s: State) {
    forall ip, life :: 0 <= life < |Starts(s, ip)| ==> Hit(ip, Starts(s, ip)[life], 1, life) in s.hits
  }

  ghost predicate Inv(s: State) {
    && LivesOk(s) && OpeningOk(s) && OpenersOk(s)
    && (forall h :: h in s.hits ==> HitOk(s, h))
    && (forall ip, life :: CountOk(s, ip, life))
  }

  lemma InLifeSnoc(limit: nat, hits: seq<Hit>, h: Hit, ip: Ip, life: int)
    ensures InLife(limit, hits + [h], ip, life)
            == InLife(limit, hits, ip, life) + if h.ip == ip && h.life == life && Admitted(limit, h) then 1 else 0
  {
    assert (hits + [h])[..|hits|] == hits;
  }

  /** A key that is gone has lived for at least a window. */
  lemma NewStart(s: State, ip: Ip)
    requires LivesOk(s) && !Live(s, ip)
    ensures StartsOk(Starts(s, ip) + [s.now], s.window, s.now)
  {
    if ip in s.counters {
      var starts := s.starts[ip];
      assert starts[|starts| - 1] + s.window <= s.now;
    }
  }

  lemma FirstLives(s: State, ip: Ip)
    requires LivesOk(s) && !Live(s, ip)
    ensures LivesOk(First(s, ip))
  {
    NewStart(s, ip);
    hide StartsOk, Live;
  }

  lemma FirstOpening(s: State, ip: Ip)
    requires OpeningOk(s) && !Live(s, ip)
    ensures OpeningOk(First(s, ip))
  {
  }

  lemma FirstHits(s: State, ip: Ip, h: Hit)
    requires HitOk(s, h)
    ensures HitOk(First(s, ip), h)
  {
  }

  lemma OpenersStay(s: State, t: State)
    requires OpenersOk(s) && t.starts == s.starts && s.hits <= t.hits
    ensures OpenersOk(t)
  {
    forall ip, life | 0 <= life < |Starts(t, ip)| ensures Hit(ip, Starts(t, ip)[life], 1, life) in t.hits {
      assert Hit(ip, Starts(s, ip)[life], 1, life) in s.hits;
    }
  }

  lemma FirstOpeners(s: State, ip: Ip)
    requires OpenersOk(s)
    ensures OpenersOk(First(s, ip))
  {
    var t := First(s, ip);
    assert t.hits[|s.hits|] == Hit(ip, s.now, 1, |Starts(s, ip)|);
    forall i, life | 0 <= life < |Starts(t, i)| ensures Hit(i, Starts(t, i)[life], 1, life) in t.hits {
      if life < |Starts(s, i)| {
        assert Hit(i, Starts(s, i)[life], 1, life) in s.hits;
      }
    }
  }

  lemma FirstCounts(s: State, ip: Ip, i: Ip, life: int)
    requires LivesOk(s) && CountOk(s, i, life) && !Live(s, ip)
    ensures CountOk(First(s, ip), i, life)
  {
    InLifeSnoc(s.limit, s.hits, Hit(ip, s.now, 1, |Starts(s, ip)|), i, life);
    hide InLife, LivesOk;
  }

  lemma AgainCounts(s: State, ip: Ip, i: Ip, life: int)
    requires LivesOk(s) && CountOk(s, i, life) && Live(s, ip)
    ensures CountOk(Again(s, ip), i, life)
  {
    InLifeSnoc(s.limit, s.hits, Hit(ip, s.now, s.counters[ip].count + 1, |Starts(s, ip)| - 1), i, life);
    hide InLife;
  }

  lemma FirstKeeps(s: State, ip: Ip)
    requires Inv(s) && !Live(s, ip)
    ensures Inv(First(s, ip))
  {
    var t := First(s, ip);
    FirstLives(s, ip);
    FirstOpening(s, ip);
    var h := Hit(ip, s.now, 1, |Starts(s, ip)|);
    forall g | g in s.hits ensures HitOk(t, g) { FirstHits(s, ip, g); }
    assert HitOk(t, h) by { assert StartsOk(t.starts[ip], s.window, s.now); }
    FirstOpeners(s, ip);
    hide LivesOk, OpeningOk, HitOk, OpenersOk, CountOk;
    forall i, life ensures CountOk(t, i, life) {
      assert CountOk(s, i, life);
      FirstCounts(s, ip, i, life);
    }
    assert forall g :: g in t.hits ==> g in s.hits || g == h;
  }

  lemma AgainFits(s: State, ip: Ip)
    requires LivesOk(s) && OpeningOk(s) && Live(s, ip)
    ensures LivesOk(Again(s, ip)) && OpeningOk(Again(s, ip))
    ensures HitOk(Again(s, ip), Hit(ip, s.now, s.counters[ip].count + 1, |Starts(s, ip)| - 1))
  {
  }

  lemma AgainHits(s: State, ip: Ip)
    requires Inv(s) && Live(s, ip)
    ensures forall g :: g in Again(s, ip).hits ==> HitOk(Again(s, ip), g)
  {
    var t := Again(s, ip);
    AgainFits(s, ip);
    forall g | g in t.hits ensures HitOk(t, g) {
      if g in s.hits {
        assert HitOk(s, g);
      }
    }
  }

  lemma AgainKeeps(s: State, ip: Ip)
    requires Inv(s) && Live(s, ip)
    ensures Inv(Again(s, ip))
  {
    var t := Again(s, ip);
    OpenersStay(s, t);
    AgainFits(s, ip);
    AgainHits(s, ip);
    hide OpenersOk, LivesOk, OpeningOk, CountOk, HitOk, Again, Live;
    forall i, life ensures CountOk(t, i, life) {
      assert CountOk(s, i, life);
      AgainCounts(s, ip, i, life);
    }
  }

  lemma QuietKeeps(s: State, a: Action)
    requires Inv(s) && !a.Incr?
    ensures Inv(Next(s, a))
  {
    OpenersStay(s, Next(s, a));
    hide OpenersOk;
    forall i, life ensures CountOk(Next(s, a), i, life) {
      assert CountOk(s, i, life);
    }
  }

  lemma {:induction false} RunKeeps(s: State, actions: seq<Action>)
    requires Inv(s)
    ensures Inv(Run(s, actions)) && Run(s, actions).limit == s.limit && Run(s, actions).window == s.window
    decreases |actions|
  {
    if actions != [] {
      var a := actions[0];
      if !a.Incr? {
        QuietKeeps(s, a);
      } else if Live(s, a.ip) {
        AgainKeeps(s, a.ip);
      } else {
        FirstKeeps(s, a.ip);
      }
      hide Inv, Live;
      RunKeeps(Next(s, a), actions[1..]);
    }
  }

  // ----- the sliding bound -----

  predicate Within(h: Hit, ip: Ip, from: nat, till: nat) {
    h.ip == ip && from <= h.at < till
  }

  /** All hits in the interval are of the lifetimes lo to hi. */
  ghost predicate LivesWithin(hits: seq<Hit>, ip: Ip, from: nat, till: nat, lo: int, hi: int) {
    forall h :: h in hits && Within(h, ip, from, till) ==> lo <= h.life <= hi
  }

  /** Hits of one address less than a window apart are of one lifetime or of two neighbouring ones. */
  lemma NeighbouringLives(s: State, g: Hit, h: Hit, from: nat, till: nat)
    requires till == from + s.window
    requires Inv(s) && g in s.hits && h in s.hits
    requires Within(g, g.ip, from, till) && Within(h, g.ip, from, till) && g.life <= h.life
    ensures h.life <= g.life + 1
  {
  }

  lemma {:induction false} LowestLife(hits: seq<Hit>, ip: Ip, from: nat, till: nat) returns (life: int)
    ensures forall h :: h in hits && Within(h, ip, from, till) ==> life <= h.life
    ensures (exists h :: h in hits && Within(h, ip, from, till) && h.life == life)
            || (forall h :: h in hits ==> !Within(h, ip, from, till))
  {
    if hits == [] {
      life := 0;
    } else {
      var h, rest := hits[0], hits[1..];
      life := LowestLife(rest, ip, from, till);
      assert forall g :: g in hits <==> g == h || g in rest;
      if Within(h, ip, from, till) && (h.life < life || forall g :: g in rest ==> !Within(g, ip, from, till)) {
        life := h.life;
      }
    }
  }

  lemma {:induction false} OneLifeCoversIt(limit: nat, hits: seq<Hit>, ip: Ip, from: nat, till: nat, life: int)
    requires LivesWithin(hits, ip, from, till, life, life)
    ensures InInterval(limit, hits, ip, from, till) <= InLife(limit, hits, ip, life)
  {
    if hits != [] {
      assert hits[|hits| - 1] in hits;
      OneLifeCoversIt(limit, hits[..|hits| - 1], ip, from, till, life);
    }
  }

  lemma {:induction false} TwoLivesCoverIt(limit: nat, hits: seq<Hit>, ip: Ip, from: nat, till: nat, life: int)
    requires LivesWithin(hits, ip, from, till, life, life + 1)
    ensures InInterval(limit, hits, ip, from, till) <= InLife(limit, hits, ip, life) + InLife(limit, hits, ip, life + 1)
  {
    if hits != [] {
      assert hits[|hits| - 1] in hits;
      TwoLivesCoverIt(limit, hits[..|hits| - 1], ip, from, till, life);
    }
  }

  /** ... with one to spare, if a request of the first lifetime came before the interval. */
  lemma {:induction false} OneIsOutside(limit: nat, hits: seq<Hit>, ip: Ip, from: nat, till: nat, life: int, g: Hit)
    requires LivesWithin(hits, ip, from, till, life, life + 1)
    requires g in hits && g.ip == ip && g.life == life && Admitted(limit, g) && !Within(g, ip, from, till)
    ensures InInterval(limit, hits, ip, from, till) < InLife(limit, hits, ip, life) + InLife(limit, hits, ip, life + 1)
  {
    var n := |hits| - 1;
    assert hits[n] in hits && hits == hits[..n] + [hits[n]];
    if hits[n] == g {
      TwoLivesCoverIt(limit, hits[..n], ip, from, till, life);
    } else {
      OneIsOutside(limit, hits[..n], ip, from, till, life, g);
    }
  }

  /** However requests interleave, and whether or not an EXPIRE succeeds, no
      half-open interval of one window length admits twice the limit: the
      request that opened the earlier of two lifetimes came before it. */
  lemma {:induction false} SlidingBound(limit: nat, window: nat, actions: seq<Action>, ip: Ip, from: nat)
    ensures InInterval(limit, Run(Init(limit, window), actions).hits, ip, from, from + window)
            <= if limit == 0 then 0 else 2 * limit - 1
  {
    RunKeeps(Init(limit, window), actions);
    hide Run, InInterval;
    InvBounds(Run(Init(limit, window), actions), ip, from, from + window);
  }

  lemma InvBounds(s: State, ip: Ip, from: nat, till: nat)
    requires Inv(s) && till == from + s.window
    ensures InInterval(s.limit, s.hits, ip, from, till) <= if s.limit == 0 then 0 else 2 * s.limit - 1
  {
    hide InInterval, InLife;
    var life := LowestLife(s.hits, ip, from, till);
    if g :| g in s.hits && Within(g, ip, from, till) && g.life == life {
      assert HitOk(s, g);
      hide CountOk, LivesOk, OpeningOk, OpenersOk;
      forall h | h in s.hits && Within(h, ip, from, till) ensures h.life == life || h.life == life + 1 {
        NeighbouringLives(s, g, h, from, till);
      }
      Cover(s, ip, from, till, life);
    } else {
      hide Inv;
      CountsOf(s, ip, |Starts(s, ip)|);
      OneLifeCoversIt(s.limit, s.hits, ip, from, from + s.window, |Starts(s, ip)|);
    }
  }

  /** No more than the limit from one lifetime, and one less from the earlier of two. */
  lemma Cover(s: State, ip: Ip, from: nat, till: nat, life: nat)
    requires Inv(s) && till == from + s.window
    requires LivesWithin(s.hits, ip, from, till, life, life + 1)
    ensures InInterval(s.limit, s.hits, ip, from, till) <= if s.limit == 0 then 0 else 2 * s.limit - 1
  {
    hide *;
    CountsOf(s, ip, life);
    CountsOf(s, ip, life + 1);
    if s.limit == 0 {
      TwoLivesCoverIt(s.limit, s.hits, ip, from, from + s.window, life);
    } else if !LivesWithin(s.hits, ip, from, till, life, life) {
      CoverTwo(s, ip, from, till, life);
    } else {
      OneLifeCoversIt(s.limit, s.hits, ip, from, from + s.window, life);
    }
  }

  lemma CoverTwo(s: State, ip: Ip, from: nat, till: nat, life: nat)
    requires Inv(s) && s.limit > 0 && till == from + s.window
    requires LivesWithin(s.hits, ip, from, till, life, life + 1)
    requires !LivesWithin(s.hits, ip, from, till, life, life)
    ensures InInterval(s.limit, s.hits, ip, from, till)
            < InLife(s.limit, s.hits, ip, life) + InLife(s.limit, s.hits, ip, life + 1)
  {
    hide InLife, InInterval, Inv;
    var h :| h in s.hits && Within(h, ip, from, till) && h.life != life;
    var opener := OpenerIsBefore(s, ip, from, till, life, h);
    OneIsOutside(s.limit, s.hits, ip, from, from + s.window, life, opener);
  }

  lemma CountsOf(s: State, ip: Ip, life: int)
    requires Inv(s)
    ensures InLife(s.limit, s.hits, ip, life) <= s.limit
    ensures life >= |Starts(s, ip)| ==> InLife(s.limit, s.hits, ip, life) == 0
  {
    assert CountOk(s, ip, life);
    hide LivesOk, OpeningOk, OpenersOk, HitOk, InLife;
  }

  lemma OpenerIsBefore(s: State, ip: Ip, from: nat, till: nat, life: nat, h: Hit) returns (opener: Hit)
    requires Inv(s) && till == from + s.window && h in s.hits && Within(h, ip, from, till) && h.life == life + 1
    ensures opener in s.hits && opener.ip == ip && opener.life == life && opener.count == 1 && opener.at < from
  {
    var starts := Starts(s, ip);
    assert HitOk(s, h);
    opener := Hit(ip, starts[life], 1, life);
    assert StartsOk(starts, s.window, s.now);
  }

  // ----- the bound is reached -----

  lemma InIntervalSnoc(limit: nat, hits: seq<Hit>, h: Hit, ip: Ip, from: nat, till: nat)
    ensures InInterval(limit, hits + [h], ip, from, till)
            == InInterval(limit, hits, ip, from, till) + if Within(h, ip, from, till) && Admitted(limit, h) then 1 else 0
  {
    assert (hits + [h])[..|hits|] == hits;
  }

  /** n requests of this address have been admitted in the interval; its counter is as given. */
  ghost predicate Scene(s: State, ip: Ip, from: nat, till: nat, n: nat, counter: Counter) {
    && ip in s.counters && s.counters[ip] == counter && Live(s, ip)
    && InInterval(s.limit, s.hits, ip, from, till) == n
  }

  lemma OneMore(s: State, ip: Ip, from: nat, till: nat, n: nat, counter: Counter)
    requires Scene(s, ip, from, till, n, counter) && counter.count < s.limit && from <= s.now < till
    ensures var t := Next(s, Incr(ip));
            && Scene(t, ip, from, till, n + 1, counter.(count := counter.count + 1))
            && t.now == s.now && t.limit == s.limit && t.window == s.window
  {
    InIntervalSnoc(s.limit, s.hits, Hit(ip, s.now, counter.count + 1, |Starts(s, ip)| - 1), ip, from, till);
  }

  /** k requests in one moment, as many as the counter has room for. */
  lemma {:induction false} Burst(s: State, before: seq<Action>, ip: Ip, from: nat, till: nat, n: nat, counter: Counter, k: nat)
    returns (actions: seq<Action>)
    requires var t := Run(s, before);
             Scene(t, ip, from, till, n, counter) && counter.count + k <= t.limit && from <= t.now < till
    ensures var t, u := Run(s, before), Run(s, actions);
            && Scene(u, ip, from, till, n + k, counter.(count := counter.count + k))
            && u.now == t.now && u.limit == t.limit && u.window == t.window
    decreases k
  {
    hide Next, Run, Scene;
    if k == 0 {
      actions := before;
    } else {
      OneMore(Run(s, before), ip, from, till, n, counter);
      RunSnoc(s, before, Incr(ip));
      actions := Burst(s, before + [Incr(ip)], ip, from, till, n + 1, counter.(count := counter.count + 1), k - 1);
    }
  }

  /** The first request, at time 0, and then the last moment of its window. */
  lemma Opens(limit: nat, window: nat, ip: Ip) returns (actions: seq<Action>)
    requires limit >= 1 && window >= 2
    ensures var t := Run(Init(limit, window), actions);
            && t.now == window - 1 && t.limit == limit && t.window == window
            && Scene(t, ip, 1, 1 + window, 0, Counter(1, Some(window)))
  {
    var s := Init(limit, window);
    var s1 := Next(s, Incr(ip));
    var s2 := Next(s1, Expire(0, true));
    var s3 := Next(s2, Pass(window - 1));
    assert s1.opening == map[0 := ip] && s1.counters == map[ip := Counter(1, None)] && s1.hits == [] + [Hit(ip, 0, 1, 0)];
    InIntervalSnoc(limit, [], Hit(ip, 0, 1, 0), ip, 1, 1 + window);
    assert Scene(s3, ip, 1, 1 + window, 0, Counter(1, Some(window)));
    hide Next, Scene;
    RunSnoc(s, [], Incr(ip));
    RunSnoc(s, [] + [Incr(ip)], Expire(0, true));
    RunSnoc(s, [] + [Incr(ip)] + [Expire(0, true)], Pass(window - 1));
    actions := [] + [Incr(ip)] + [Expire(0, true)] + [Pass(window - 1)];
  }

  /** The window is over; the next request opens another. */
  lemma Reopens(s: State, ip: Ip, n: nat, counter: Counter)
    requires Scene(s, ip, 1, 1 + s.window, n, counter) && counter.expires == Some(s.window)
    requires s.now == s.window - 1 >= 1 && s.limit >= 1
    ensures var t := Next(Next(s, Pass(1)), Incr(ip));
            && Scene(t, ip, 1, 1 + s.window, n + 1, Counter(1, None))
            && t.now == s.window && t.limit == s.limit && t.window == s.window
  {
    var u := Next(s, Pass(1));
    InIntervalSnoc(u.limit, u.hits, Hit(ip, u.now, 1, |Starts(u, ip)|), ip, 1, 1 + s.window);
  }

  /** For every limit, and every window of at least two ticks, the bound is
      reached: one request at time 0, limit - 1 at the end of its window, and limit
      right after it. */
  lemma {:induction false} BoundIsReached(limit: nat, window: nat, ip: Ip) returns (actions: seq<Action>)
    requires limit >= 1 && window >= 2
    ensures InInterval(limit, Run(Init(limit, window), actions).hits, ip, 1, 1 + window) == 2 * limit - 1
  {
    var s := Init(limit, window);
    actions := Opens(limit, window, ip);
    hide Next, Run, Scene, InInterval;
    actions := Burst(s, actions, ip, 1, 1 + window, 0, Counter(1, Some(window)), limit - 1);
    Reopens(Run(s, actions), ip, limit - 1, Counter(limit, Some(window)));
    RunSnoc(s, actions, Pass(1));
    RunSnoc(s, actions + [Pass(1)], Incr(ip));
    actions := Burst(s, actions + [Pass(1)] + [Incr(ip)], ip, 1, 1 + window, limit, Counter(1, None), limit - 1);
    SceneCounts(Run(s, actions), ip, 1, 1 + window, 2 * limit - 1, Counter(limit, None));
  }

  lemma SceneCounts(s: State, ip: Ip, from: nat, till: nat, n: nat, counter: Counter)
    requires Scene(s, ip, from, till, n, counter)
    ensures InInterval(s.limit, s.hits, ip, from, till) == n
  {
  }

  lemma {:induction false} RunSnoc(s: State, actions: seq<Action>, a: Action)
    ensures Run(s, actions + [a]) == Next(Run(s, actions), a)
    decreases |actions|
  {
    hide Next;
    if actions == [] {
      assert ([] + [a])[1..] == [];
    } else {
      assert (actions + [a])[1..] == actions[1..] + [a];
      RunSnoc(Next(s, actions[0]), actions[1..], a);
    }
  }

  /** A lifetime of a counter admits at most the limit, and the next one starts at least a window later. */
  lemma {:induction false} LifetimeBound(limit: nat, window: nat, actions: seq<Action>, ip: Ip, life: nat)
    ensures var s := Run(Init(limit, window), actions);
            && InLife(limit, s.hits, ip, life) <= limit
            && (life + 1 < |Starts(s, ip)| ==> Starts(s, ip)[life] + window <= Starts(s, ip)[life + 1])
  {
    RunKeeps(Init(limit, window), actions);
    assert CountOk(Run(Init(limit, window), actions), ip, life);
  }

  // ----- how long a counter lives -----

  /** A request that opened this counter has its EXPIRE still to do. */
  predicate BeingOpened(s: State, ip: Ip) {
    exists r :: r in s.opening && s.opening[r] == ip
  }

  /** The lifetime of this address that is number `life` has this expiry, or it is over
      and the next one began no earlier than that. */
  ghost predicate EndsAt(s: State, ip: Ip, life: nat, deadline: nat) {
    if |Starts(s, ip)| == life + 1 then
      ip in s.counters && s.counters[ip].expires == Some(deadline) && !BeingOpened(s, ip)
    else |Starts(s, ip)| > life + 1 && Starts(s, ip)[life + 1] >= deadline
  }

  lemma StartsGrow(s: State, a: Action, ip: Ip)
    ensures Starts(s, ip) <= Starts(Next(s, a), ip)
  {
  }

  lemma StepEndsAt(s: State, a: Action, ip: Ip, life: nat, deadline: nat)
    requires LivesOk(s) && EndsAt(s, ip, life, deadline)
    ensures EndsAt(Next(s, a), ip, life, deadline)
  {
    StartsGrow(s, a, ip);
    var t := Next(s, a);
    if |Starts(s, ip)| == life + 1 {
      if a.Incr? && a.ip == ip && !Live(s, ip) {
        assert Starts(t, ip)[life + 1] == s.now >= deadline;
      } else if a.Incr? && !Live(s, a.ip) {
        assert t.opening == s.opening[s.next := a.ip];
      }
    }
  }

  lemma {:induction false} RunEndsAt(s: State, actions: seq<Action>, ip: Ip, life: nat, deadline: nat)
    requires Inv(s) && EndsAt(s, ip, life, deadline)
    ensures EndsAt(Run(s, actions), ip, life, deadline)
    decreases |actions|
  {
    if actions != [] {
      StepEndsAt(s, actions[0], ip, life, deadline);
      RunKeeps(s, [actions[0]]);
      assert [actions[0]][1..] == [] && Run(s, [actions[0]]) == Next(s, actions[0]);
      hide Inv, EndsAt, Next;
      RunEndsAt(Next(s, actions[0]), actions[1..], ip, life, deadline);
    }
  }

  lemma OpenerSetsTheEnd(s: State, r: nat)
    requires Inv(s) && r in s.opening
    ensures var ip := s.opening[r];
            |Starts(s, ip)| > 0 && EndsAt(Next(s, Expire(r, true)), ip, |Starts(s, ip)| - 1, s.now + s.window)
  {
  }

  lemma EndsAtMeans(u: State, ip: Ip, life: nat, deadline: nat)
    requires Inv(u) && EndsAt(u, ip, life, deadline)
    ensures |Starts(u, ip)| == life + 1 ==> (Live(u, ip) <==> u.now < deadline)
    ensures |Starts(u, ip)| != life + 1 ==> |Starts(u, ip)| > life + 1 && Starts(u, ip)[life + 1] >= deadline
    ensures u.now < deadline ==> |Starts(u, ip)| == life + 1
  {
    assert LivesOk(u);
    hide Inv, OpeningOk, OpenersOk, CountOk, HitOk, InLife;
  }

  lemma InitIsOk(limit: nat, window: nat)
    ensures Inv(Init(limit, window)) && Init(limit, window).window == window
  {
  }

  /** Once the request that opened a counter has set its expiry, at time t, the counter
      lives at a later time u of any run exactly if u < t + window; from then on
      the next request of the address opens a new one, with count 1. */
  lemma {:induction false} LivesExactlyAWindow(limit: nat, window: nat, before: seq<Action>, r: nat, after: seq<Action>)
    requires r in Run(Init(limit, window), before).opening
    ensures var s := Run(Init(limit, window), before);
            var u, ip := Run(Next(s, Expire(r, true)), after), s.opening[r];
            // no other lifetime has begun: it is still this counter
            && (|Starts(u, ip)| == |Starts(s, ip)| ==> (Live(u, ip) <==> u.now < s.now + window))
            // a next one has begun, after a window
            && (|Starts(u, ip)| != |Starts(s, ip)| ==>
                  |Starts(u, ip)| > |Starts(s, ip)| && Starts(u, ip)[|Starts(s, ip)|] >= s.now + window)
            && (u.now < s.now + window ==> |Starts(u, ip)| == |Starts(s, ip)|)
  {
    InitIsOk(limit, window);
    hide *;
    RunKeeps(Init(limit, window), before);
    var s := Run(Init(limit, window), before);
    var s1, ip := Next(s, Expire(r, true)), s.opening[r];
    OpenerSetsTheEnd(s, r);
    QuietKeeps(s, Expire(r, true));
    RunEndsAt(s1, after, ip, |Starts(s, ip)| - 1, s.now + window);
    RunKeeps(s1, after);
    EndsAtMeans(Run(s1, after), ip, |Starts(s, ip)| - 1, s.now + window);
  }

  /** And the first request at or after t + window is admitted. */
  lemma {:induction false} AdmittedAfterAWindow(limit: nat, window: nat, before: seq<Action>, r: nat, after: seq<Action>)
    requires limit >= 1 && r in Run(Init(limit, window), before).opening
    requires var s := Run(Init(limit, window), before);
             var u, ip := Run(Next(s, Expire(r, true)), after), s.opening[r];
             u.now >= s.now + window && |Starts(u, ip)| == |Starts(s, ip)|
    ensures var s := Run(Init(limit, window), before);
            var u, ip := Run(Next(s, Expire(r, true)), after), s.opening[r];
            var hits := Next(u, Incr(ip)).hits;
            |hits| == |u.hits| + 1 && hits[|u.hits|] == Hit(ip, u.now, 1, |Starts(s, ip)|) && Admitted(limit, hits[|u.hits|])
  {
    LivesExactlyAWindow(limit, window, before, r, after);
    hide Run;
  }

  // ----- when an address can be admitted again -----

  /** Some request of this address is admitted in some continuation. */
  ghost predicate MayBeAdmitted(s: State, ip: Ip) {
    exists actions :: AdmitsMore(s, Run(s, actions), ip)
  }

  ghost predicate AdmitsMore(s: State, t: State, ip: Ip) {
    exists i :: |s.hits| <= i < |t.hits| && t.hits[i].ip == ip && Admitted(s.limit, t.hits[i])
  }

  /** The counter is over the limit for good: no expiry, and nobody to set one. */
  predicate ShutOut(s: State, ip: Ip) {
    && ip in s.counters && s.counters[ip].count >= s.limit && s.counters[ip].expires.None?
    && !BeingOpened(s, ip)
  }

  lemma StaysShutOut(s: State, a: Action, ip: Ip)
    requires ShutOut(s, ip)
    ensures var t := Next(s, a);
            && ShutOut(t, ip) && t.limit == s.limit && s.hits <= t.hits
            && forall i :: |s.hits| <= i < |t.hits| && t.hits[i].ip == ip ==> !Admitted(s.limit, t.hits[i])
  {
    var t := Next(s, a);
    if a.Incr? && !Live(s, a.ip) {
      assert a.ip != ip;
      assert t.opening == s.opening[s.next := a.ip];
    }
  }

  lemma {:induction false} NeverAgain(s: State, actions: seq<Action>, ip: Ip)
    requires ShutOut(s, ip)
    ensures var t := Run(s, actions); s.hits <= t.hits && !AdmitsMore(s, t, ip)
    decreases |actions|
  {
    if actions != [] {
      StaysShutOut(s, actions[0], ip);
      hide Next, ShutOut;
      NeverAgain(Next(s, actions[0]), actions[1..], ip);
    }
  }

  /** The next request of the address is admitted. */
  lemma AdmittedNext(s: State, before: seq<Action>, ip: Ip)
    requires var t := Run(s, before);
             && t.limit == s.limit >= 1 && t.hits == s.hits
             && (Live(t, ip) ==> t.counters[ip].count < s.limit)
    ensures MayBeAdmitted(s, ip)
  {
    var t := Run(s, before);
    RunSnoc(s, before, Incr(ip));
    var u := Next(t, Incr(ip));
    assert |u.hits| == |s.hits| + 1 && u.hits[|s.hits|].ip == ip && Admitted(s.limit, u.hits[|s.hits|]);
    hide Next, Run;
    assert AdmitsMore(s, Run(s, before + [Incr(ip)]), ip);
  }

  lemma ExpiresFirst(s: State, ip: Ip)
    requires s.limit >= 1 && ip in s.counters && s.counters[ip].expires.Some?
    ensures MayBeAdmitted(s, ip)
  {
    var wait := Pass(if s.now < s.counters[ip].expires.value then s.counters[ip].expires.value - s.now else 0);
    RunSnoc(s, [], wait);
    AdmittedNext(s, [] + [wait], ip);
  }

  lemma ExpiryIsSetFirst(s: State, ip: Ip, r: nat)
    requires s.limit >= 1 && r in s.opening && s.opening[r] == ip
    ensures MayBeAdmitted(s, ip)
  {
    RunSnoc(s, [], Expire(r, true));
    RunSnoc(s, [] + [Expire(r, true)], Pass(s.window));
    var t := Next(Next(s, Expire(r, true)), Pass(s.window));
    assert !Live(t, ip);
    AdmittedNext(s, [] + [Expire(r, true)] + [Pass(s.window)], ip);
  }

  /** With a limit of at least 1, an address can be admitted again if and only if
      it has no live counter, or its counter is under the limit, has an expiry, or
      is still being opened. */
  lemma {:induction false} AdmittedAgainIff(s: State, ip: Ip)
    requires s.limit >= 1
    ensures MayBeAdmitted(s, ip) <==>
              !Live(s, ip) || s.counters[ip].count < s.limit || s.counters[ip].expires.Some? || BeingOpened(s, ip)
  {
    if ip in s.counters && s.counters[ip].expires.Some? {
      ExpiresFirst(s, ip);
    } else if r :| r in s.opening && s.opening[r] == ip {
      ExpiryIsSetFirst(s, ip, r);
    } else if !Live(s, ip) || s.counters[ip].count < s.limit {
      AdmittedNext(s, [], ip);
    } else {
      forall actions ensures !AdmitsMore(s, Run(s, actions), ip) {
        NeverAgain(s, actions, ip);
      }
    }
  }

  /** One failed EXPIRE is enough: after limit requests the address is refused for ever. */
  lemma {:induction false} AFailedExpireShutsOut(limit: nat, window: nat, ip: Ip) returns (actions: seq<Action>)
    requires limit >= 1
    ensures !MayBeAdmitted(Run(Init(limit, window), actions), ip)
  {
    var s := Init(limit, window);
    var s1 := Next(s, Incr(ip));
    var s2 := Next(s1, Expire(0, false));
    RunSnoc(s, [], Incr(ip));
    RunSnoc(s, [] + [Incr(ip)], Expire(0, false));
    assert s1.opening == map[0 := ip] && s2.opening == map[];
    actions := Refills(s, [] + [Incr(ip)] + [Expire(0, false)], ip, limit - 1);
    var t := Run(s, actions);
    hide Run, Next;
    AdmittedAgainIff(t, ip);
  }

  lemma {:induction false} Refills(s: State, before: seq<Action>, ip: Ip, k: nat) returns (actions: seq<Action>)
    requires var t := Run(s, before); ip in t.counters && t.counters[ip].expires.None? && !BeingOpened(t, ip)
    ensures var t, u := Run(s, before), Run(s, actions);
            && ip in u.counters && u.counters[ip] == Counter(t.counters[ip].count + k, None)
            && !BeingOpened(u, ip) && u.limit == t.limit
    decreases k
  {
    if k == 0 {
      actions := before;
    } else {
      RunSnoc(s, before, Incr(ip));
      assert Next(Run(s, before), Incr(ip)).opening == Run(s, before).opening;
      actions := Refills(s, before + [Incr(ip)], ip, k - 1);
    }
  }
}
