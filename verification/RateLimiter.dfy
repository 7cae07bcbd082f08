/** `BtpsSimpleRateLimiter`: fixed one-second windows per key, with a garbage collector
    (src/server/libs/btpsSimpleRateLimiter.ts). Times are in whole milliseconds. */
module RateLimiter {
  import opened OrderedMap

  datatype Counter = Counter(count: int, windowStart: int)

  type Counters = map<string, Counter>

  datatype Kind = IpAddress | FromIdentity

  datatype Limits = Limits(ip: int, identity: int)

  datatype Limiter = Limiter(ip: Counters, identity: Counters)

  datatype Event = Request(key: string, kind: Kind, at: int) | Cleanup(at: int)

  const WINDOW := 1000
  const FRESH := Limiter(map[], map[])

  function LimitOf(limits: Limits, kind: Kind): int {
    if kind.IpAddress? then limits.ip else limits.identity
  }

  function CountersOf(l: Limiter, kind: Kind): Counters {
    if kind.IpAddress? then l.ip else l.identity
  }

  function WithCounters(l: Limiter, kind: Kind, counters: Counters): Limiter {
    if kind.IpAddress? then l.(ip := counters) else l.(identity := counters)
  }

  function Current(l: Limiter, kind: Kind, key: string): Option<Counter> {
    if key in CountersOf(l, kind) then Some(CountersOf(l, kind)[key]) else None
  }

  /** One request against one counter: the new counter and the decision. */
  function Decide(current: Option<Counter>, limit: int, now: int): (Counter, bool) {
    if current.None? || current.value.windowStart < now - WINDOW then (Counter(1, now), true)
    else if current.value.count >= limit then (current.value, false)
    else (current.value.(count := current.value.count + 1), true)
  }

  function IsAllowedStep(limits: Limits, l: Limiter, key: string, kind: Kind, now: int): (Limiter, bool) {
    var (counter, allowed) := Decide(Current(l, kind, key), LimitOf(limits, kind), now);
    (WithCounters(l, kind, CountersOf(l, kind)[key := counter]), allowed)
  }

  function KeepRecent(counters: Counters, now: int): Counters {
    map k | k in counters && !(counters[k].windowStart < now - WINDOW) :: counters[k]
  }

  function CleanupStep(l: Limiter, now: int): Limiter {
    Limiter(KeepRecent(l.ip, now), KeepRecent(l.identity, now))
  }

  // ---------- runs ----------

  function Run(limits: Limits, l: Limiter, events: seq<Event>): (Limiter, seq<bool>)
    decreases |events|
  {
    if events == [] then (l, [])
    else match events[0]
      case Cleanup(at) => Run(limits, CleanupStep(l, at), events[1..])
      case Request(key, kind, at) =>
        var (l', allowed) := IsAllowedStep(limits, l, key, kind, at);
        var (l'', decisions) := Run(limits, l', events[1..]);
        (l'', [allowed] + decisions)
  }

  /** The decisions of a run that concern one key of one counter type. */
  function DecisionsFor(limits: Limits, l: Limiter, events: seq<Event>, kind: Kind, key: string): seq<bool>
    decreases |events|
  {
    if events == [] then []
    else match events[0]
      case Cleanup(at) => DecisionsFor(limits, CleanupStep(l, at), events[1..], kind, key)
      case Request(k, d, at) =>
        var (l', allowed) := IsAllowedStep(limits, l, k, d, at);
        (if k == key && d == kind then [allowed] else []) + DecisionsFor(limits, l', events[1..], kind, key)
  }

  function TimesFor(events: seq<Event>, kind: Kind, key: string): seq<int> {
    if events == [] then []
    else
      (if events[0].Request? && events[0].key == key && events[0].kind == kind then [events[0].at] else [])
      + TimesFor(events[1..], kind, key)
  }

  function WithoutCleanups(events: seq<Event>): seq<Event> {
    if events == [] then []
    else (if events[0].Cleanup? then [] else [events[0]]) + WithoutCleanups(events[1..])
  }

  /** The limiter of one key alone: no other key, no other type, no collector. */
  function RunKey(limit: int, current: Option<Counter>, times: seq<int>): seq<bool>
    decreases |times|
  {
    if times == [] then []
    else
      var (counter, allowed) := Decide(current, limit, times[0]);
      [allowed] + RunKey(limit, Some(counter), times[1..])
  }

  predicate ClockFrom(events: seq<Event>, start: int) {
    events != [] ==> start <= events[0].at && ClockFrom(events[1..], events[0].at)
  }

  predicate Ascending(times: seq<int>) {
    forall i, j | 0 <= i < j < |times| :: times[i] <= times[j]
  }

  function Allowed(decisions: seq<bool>): nat {
    if decisions == [] then 0 else (if decisions[0] then 1 else 0) + Allowed(decisions[1..])
  }

  /** A limit below one still lets the first request of a window through. */
  function Cap(limit: int): (cap: int)
    ensures cap >= 1
  {
    if limit < 1 then 1 else limit
  }

  // ---------- the collector and the other keys are invisible ----------

  /** Two views of one counter that no request from `now` on can tell apart. */
  predicate Alike(a: Option<Counter>, b: Option<Counter>, now: int) {
    a == b || ((a.None? || a.value.windowStart < now - WINDOW) && (b.None? || b.value.windowStart < now - WINDOW))
  }

  ghost predicate AllAlike(a: Limiter, b: Limiter, now: int) {
    forall kind, key :: Alike(Current(a, kind, key), Current(b, kind, key), now)
  }

  lemma AlikeDecide(a: Option<Counter>, b: Option<Counter>, limit: int, now: int, t: int)
    requires Alike(a, b, now) && now <= t
    ensures Decide(a, limit, t).1 == Decide(b, limit, t).1
    ensures Alike(Some(Decide(a, limit, t).0), Some(Decide(b, limit, t).0), t)
  {
  }

  lemma CleanupAlike(l: Limiter, now: int)
    ensures AllAlike(CleanupStep(l, now), l, now)
  {
  }

  lemma RequestAlike(limits: Limits, a: Limiter, b: Limiter, now: int, key: string, kind: Kind, t: int)
    requires AllAlike(a, b, now) && now <= t
    ensures IsAllowedStep(limits, a, key, kind, t).1 == IsAllowedStep(limits, b, key, kind, t).1
    ensures AllAlike(IsAllowedStep(limits, a, key, kind, t).0, IsAllowedStep(limits, b, key, kind, t).0, t)
  {
    AlikeDecide(Current(a, kind, key), Current(b, kind, key), LimitOf(limits, kind), now, t);
    var a', b' := IsAllowedStep(limits, a, key, kind, t).0, IsAllowedStep(limits, b, key, kind, t).0;
    forall d, k
      ensures Alike(Current(a', d, k), Current(b', d, k), t)
    {
      assert Alike(Current(a, d, k), Current(b, d, k), now);
    }
  }

  lemma {:induction false} CleanupsInvisible(limits: Limits, a: Limiter, b: Limiter, now: int, events: seq<Event>)
    requires AllAlike(a, b, now) && ClockFrom(events, now)
    ensures Run(limits, a, events).1 == Run(limits, b, WithoutCleanups(events)).1
    decreases |events|
  {
    if events != [] {
      var rest := events[1..];
      match events[0]
      case Cleanup(at) =>
        CleanupAlike(a, at);
        forall d, k
          ensures Alike(Current(CleanupStep(a, at), d, k), Current(b, d, k), at)
        {
          assert Alike(Current(a, d, k), Current(b, d, k), now);
          assert Alike(Current(CleanupStep(a, at), d, k), Current(a, d, k), at);
        }
        CleanupsInvisible(limits, CleanupStep(a, at), b, at, rest);
        assert WithoutCleanups(events) == WithoutCleanups(rest);
      case Request(key, kind, at) =>
        RequestAlike(limits, a, b, now, key, kind, at);
        CleanupsInvisible(limits, IsAllowedStep(limits, a, key, kind, at).0, IsAllowedStep(limits, b, key, kind, at).0, at, rest);
        assert WithoutCleanups(events) == [events[0]] + WithoutCleanups(rest);
        assert WithoutCleanups(events)[1..] == WithoutCleanups(rest);
    }
  }

  /** Inserting collections anywhere in a run changes no decision. */
  lemma CollectorTransparent(limits: Limits, l: Limiter, start: int, events: seq<Event>)
    requires ClockFrom(events, start)
    ensures Run(limits, l, events).1 == Run(limits, l, WithoutCleanups(events)).1
  {
    CleanupsInvisible(limits, l, l, start, events);
  }

  /** Decisions for a key are those of a limiter that only ever saw that key. */
  lemma {:induction false} KeysIndependent(limits: Limits, l: Limiter, events: seq<Event>, kind: Kind, key: string,
                                           current: Option<Counter>, now: int)
    requires Alike(Current(l, kind, key), current, now) && ClockFrom(events, now)
    ensures DecisionsFor(limits, l, events, kind, key) == RunKey(LimitOf(limits, kind), current, TimesFor(events, kind, key))
    decreases |events|
  {
    if events != [] {
      var rest := events[1..];
      match events[0]
      case Cleanup(at) =>
        assert TimesFor(events, kind, key) == TimesFor(rest, kind, key);
        KeysIndependent(limits, CleanupStep(l, at), rest, kind, key, current, at);
      case Request(k, d, at) =>
        var l' := IsAllowedStep(limits, l, k, d, at).0;
        if k == key && d == kind {
          var limit := LimitOf(limits, kind);
          AlikeDecide(Current(l, kind, key), current, limit, now, at);
          KeysIndependent(limits, l', rest, kind, key, Some(Decide(current, limit, at).0), at);
          assert TimesFor(events, kind, key) == [at] + TimesFor(rest, kind, key);
          assert TimesFor(events, kind, key)[1..] == TimesFor(rest, kind, key);
        } else {
          assert Current(l', kind, key) == Current(l, kind, key);
          KeysIndependent(limits, l', rest, kind, key, current, at);
          assert TimesFor(events, kind, key) == TimesFor(rest, kind, key);
          assert DecisionsFor(limits, l, events, kind, key) == DecisionsFor(limits, l', rest, kind, key);
        }
    }
  }

  // ---------- the rate bound ----------

  /** Counter values a run can reach. */
  predicate Reached(current: Option<Counter>, limit: int, now: int) {
    current.Some? ==> 1 <= current.value.count <= Cap(limit) && current.value.windowStart <= now
  }

  lemma Windows(cap: int, width: int, rest: int)
    requires cap >= 1 && rest >= 0 && width >= rest + WINDOW + 1
    ensures cap + cap * (rest / (WINDOW + 1)) <= cap * (width / (WINDOW + 1))
  {
    var q, p := rest / (WINDOW + 1), width / (WINDOW + 1);
    assert q + 1 <= p;
    assert cap * (q + 1) <= cap * p;
    assert cap * (q + 1) == cap * q + cap;
  }

  lemma MoreWindows(cap: int, a: int, b: int)
    requires cap >= 1 && 0 <= a <= b
    ensures 0 <= cap * (a / (WINDOW + 1)) <= cap * (b / (WINDOW + 1))
  {
    var q, p := a / (WINDOW + 1), b / (WINDOW + 1);
    assert 0 <= q <= p;
    assert 0 <= cap * q;
    assert cap * (p - q) >= 0;
    assert cap * p == cap * q + cap * (p - q);
  }

  /** What is left of the open window, plus a full cap for each later window that fits. */
  lemma {:induction false} OpenWindowBound(limit: int, c: Counter, times: seq<int>)
    requires Ascending(times) && times != [] && c.windowStart <= times[0]
    requires 1 <= c.count <= Cap(limit)
    ensures Allowed(RunKey(limit, Some(c), times))
         <= Cap(limit) - c.count + Cap(limit) * ((times[|times| - 1] - c.windowStart) / (WINDOW + 1))
    decreases |times|
  {
    var cap, t, last := Cap(limit), times[0], times[|times| - 1];
    var (c', allowed) := Decide(Some(c), limit, t);
    var rest := times[1..];
    var decisions := RunKey(limit, Some(c'), rest);
    assert RunKey(limit, Some(c), times) == [allowed] + decisions;
    assert ([allowed] + decisions)[1..] == decisions;
    MoreWindows(cap, 0, last - c.windowStart);
    if rest != [] {
      assert rest[|rest| - 1] == last && rest[0] == times[1];
      assert Ascending(rest);
      OpenWindowBound(limit, c', rest);
    }
    if c.windowStart < t - WINDOW {
      Windows(cap, last - c.windowStart, last - t);
      MoreWindows(cap, 0, last - t);
    }
  }

  lemma OneMore(cap: int, q: int)
    ensures cap * (1 + q) == cap + cap * q
  {
  }

  /** One cap for each window begun within this time. */
  function Quota(limit: int, elapsed: nat): int {
    if elapsed <= WINDOW then Cap(limit) else Cap(limit) + Quota(limit, elapsed - (WINDOW + 1))
  }

  lemma {:induction false} QuotaIsProduct(limit: int, elapsed: nat)
    ensures Quota(limit, elapsed) == Cap(limit) * (1 + elapsed / (WINDOW + 1))
  {
    OneMore(Cap(limit), elapsed / (WINDOW + 1));
    if elapsed > WINDOW {
      QuotaIsProduct(limit, elapsed - (WINDOW + 1));
      assert 1 + (elapsed - (WINDOW + 1)) / (WINDOW + 1) == elapsed / (WINDOW + 1);
    }
  }

  lemma LaterBound(limit: int, t: int, last: int, rest: seq<int>)
    requires t <= last && Ascending(rest)
    requires rest != [] ==> t <= rest[0] && rest[|rest| - 1] == last
    ensures 1 + Allowed(RunKey(limit, Some(Counter(1, t)), rest)) <= Quota(limit, last - t)
  {
    QuotaIsProduct(limit, last - t);
    OneMore(Cap(limit), (last - t) / (WINDOW + 1));
    if rest == [] {
      MoreWindows(Cap(limit), 0, last - t);
    } else {
      OpenWindowBound(limit, Counter(1, t), rest);
    }
  }

  lemma RestAscends(times: seq<int>)
    requires Ascending(times) && times != []
    ensures var rest := times[1..];
            Ascending(rest) && times[0] <= times[|times| - 1]
            && (rest != [] ==> times[0] <= rest[0] && rest[|rest| - 1] == times[|times| - 1])
  {
  }

  lemma FirstDecision(limit: int, current: Option<Counter>, times: seq<int>, later: nat)
    requires times != [] && later == Allowed(RunKey(limit, Some(Counter(1, times[0])), times[1..]))
    requires current.None? || current.value.windowStart < times[0] - WINDOW
    ensures Allowed(RunKey(limit, current, times)) == 1 + later
  {
    var decisions := RunKey(limit, Some(Counter(1, times[0])), times[1..]);
    assert RunKey(limit, current, times) == [true] + decisions;
    assert ([true] + decisions)[1..] == decisions;
  }

  lemma FirstRequestBound(limit: int, current: Option<Counter>, times: seq<int>)
    requires Ascending(times) && times != []
    requires current.None? || current.value.windowStart < times[0] - WINDOW
    ensures Allowed(RunKey(limit, current, times)) <= Quota(limit, times[|times| - 1] - times[0])
  {
    RestAscends(times);
    var t, last := times[0], times[|times| - 1];
    LaterBound(limit, t, last, times[1..]);
    FirstDecision(limit, current, times, Allowed(RunKey(limit, Some(Counter(1, t)), times[1..])));
  }

  lemma {:induction false} TimesAscend(events: seq<Event>, kind: Kind, key: string, start: int)
    requires ClockFrom(events, start)
    ensures Ascending(TimesFor(events, kind, key))
    ensures forall t | t in TimesFor(events, kind, key) :: start <= t
  {
    if events != [] {
      TimesAscend(events[1..], kind, key, events[0].at);
      var rest := TimesFor(events[1..], kind, key);
      var all := TimesFor(events, kind, key);
      forall i, j | 0 <= i < j < |all|
        ensures all[i] <= all[j]
      {
        if all != rest {
          assert all == [events[0].at] + rest;
          assert all[j] in rest;
        }
      }
    }
  }

  /** Over a whole run from a fresh limiter an address gets at most `limits.ip` through, and an
      identity `limits.identity`, per started 1001 ms, but always one. */
  lemma RateBound(limits: Limits, events: seq<Event>, start: int, kind: Kind, key: string)
    requires ClockFrom(events, start) && TimesFor(events, kind, key) != []
    ensures var times := TimesFor(events, kind, key);
            Allowed(DecisionsFor(limits, FRESH, events, kind, key))
              <= Cap(if kind.IpAddress? then limits.ip else limits.identity) * (1 + (times[|times| - 1] - times[0]) / 1001)
  {
    TimesAscend(events, kind, key, start);
    KeysIndependent(limits, FRESH, events, kind, key, None, start);
    var times := TimesFor(events, kind, key);
    FirstRequestBound(LimitOf(limits, kind), None, times);
    QuotaIsProduct(LimitOf(limits, kind), times[|times| - 1] - times[0]);
  }

  ghost predicate AllReached(limits: Limits, l: Limiter, now: int) {
    forall kind, key :: Reached(Current(l, kind, key), LimitOf(limits, kind), now)
  }

  lemma RequestReached(limits: Limits, l: Limiter, now: int, key: string, kind: Kind, t: int)
    requires AllReached(limits, l, now) && now <= t
    ensures AllReached(limits, IsAllowedStep(limits, l, key, kind, t).0, t)
  {
    var l' := IsAllowedStep(limits, l, key, kind, t).0;
    forall d, k
      ensures Reached(Current(l', d, k), LimitOf(limits, d), t)
    {
      assert Reached(Current(l, d, k), LimitOf(limits, d), now);
    }
  }

  lemma CleanupReached(limits: Limits, l: Limiter, now: int, t: int)
    requires AllReached(limits, l, now) && now <= t
    ensures AllReached(limits, CleanupStep(l, t), t)
  {
    var l' := CleanupStep(l, t);
    forall d, k
      ensures Reached(Current(l', d, k), LimitOf(limits, d), t)
    {
      assert Reached(Current(l, d, k), LimitOf(limits, d), now);
    }
  }

  lemma {:induction false} RunReached(limits: Limits, l: Limiter, now: int, before: seq<Event>, after: seq<Event>)
      returns (now': int)
    requires AllReached(limits, l, now) && ClockFrom(before + after, now)
    ensures AllReached(limits, Run(limits, l, before).0, now') && ClockFrom(after, now')
    decreases |before|
  {
    if before == [] {
      assert before + after == after;
      now' := now;
    } else {
      assert (before + after)[1..] == before[1..] + after;
      match before[0]
      case Cleanup(at) =>
        CleanupReached(limits, l, now, at);
        now' := RunReached(limits, CleanupStep(l, at), at, before[1..], after);
      case Request(key, kind, at) =>
        RequestReached(limits, l, now, key, kind, at);
        now' := RunReached(limits, IsAllowedStep(limits, l, key, kind, at).0, at, before[1..], after);
    }
  }

  lemma OneMoreWindow(width: int)
    requires 0 <= width <= 2 * WINDOW + 1
    ensures width / (WINDOW + 1) <= 1
  {
  }

  lemma SpanOfKey(limit: int, current: Option<Counter>, times: seq<int>)
    requires Ascending(times) && times != [] && Reached(current, limit, times[0])
    requires times[|times| - 1] - times[0] <= WINDOW + 1
    ensures Allowed(RunKey(limit, current, times)) <= 2 * Cap(limit)
  {
    var cap, t, last := Cap(limit), times[0], times[|times| - 1];
    if current.None? || current.value.windowStart < t - WINDOW {
      FirstRequestBound(limit, current, times);
      assert Quota(limit, last - t) <= 2 * cap;
    } else {
      OpenWindowBound(limit, current.value, times);
      OneMoreWindow(last - current.value.windowStart);
      var q := (last - current.value.windowStart) / (WINDOW + 1);
      assert cap * q <= cap * 1;
    }
  }

  /** Any span of at most 1001 ms in any reachable run lets at most twice the cap through. */
  lemma SpanBound(limits: Limits, before: seq<Event>, span: seq<Event>, start: int, kind: Kind, key: string)
    requires ClockFrom(before + span, start)
    requires var times := TimesFor(span, kind, key); times != [] && times[|times| - 1] - times[0] <= 1001
    ensures Allowed(DecisionsFor(limits, Run(limits, FRESH, before).0, span, kind, key))
              <= 2 * Cap(if kind.IpAddress? then limits.ip else limits.identity)
  {
    var now := RunReached(limits, FRESH, start, before, span);
    var l := Run(limits, FRESH, before).0;
    var times := TimesFor(span, kind, key);
    TimesAscend(span, kind, key, now);
    KeysIndependent(limits, l, span, kind, key, Current(l, kind, key), now);
    assert times[0] in times;
    SpanOfKey(LimitOf(limits, kind), Current(l, kind, key), times);
  }

  // ---------- every decision, without counters ----------

  /** The place of each request in its window, refused ones counted; a window is opened by the
      first request more than 1000 ms after the opening of the one before. */
  function Places(begun: int, place: nat, times: seq<int>): (places: seq<nat>)
    ensures |places| == |times|
    decreases |times|
  {
    if times == [] then []
    else if times[0] - begun > 1000 then [1] + Places(times[0], 1, times[1..])
    else [place + 1] + Places(begun, place + 1, times[1..])
  }

  lemma {:induction false} DecidesByPlace(limit: int, begun: int, place: nat, times: seq<int>)
    requires place >= 1
    ensures var c := Counter(if place < Cap(limit) then place else Cap(limit), begun);
            && |RunKey(limit, Some(c), times)| == |times|
            && forall i | 0 <= i < |times| :: RunKey(limit, Some(c), times)[i] <==> Places(begun, place, times)[i] <= Cap(limit)
    decreases |times|
  {
    if times != [] {
      if times[0] - begun > 1000 {
        DecidesByPlace(limit, times[0], 1, times[1..]);
      } else {
        DecidesByPlace(limit, begun, place + 1, times[1..]);
      }
    }
  }

  /** Every decision of every run: a request passes exactly if its place in its key's window is
      within the limit of its kind, or is the first. */
  lemma DecidedByPlace(limits: Limits, events: seq<Event>, start: int, kind: Kind, key: string)
    requires ClockFrom(events, start) && TimesFor(events, kind, key) != []
    ensures var times, decisions := TimesFor(events, kind, key), DecisionsFor(limits, FRESH, events, kind, key);
            && |decisions| == |times|
            && forall i | 0 <= i < |times| ::
                 decisions[i] <==> Places(times[0], 0, times)[i] <= Cap(if kind.IpAddress? then limits.ip else limits.identity)
  {
    var times := TimesFor(events, kind, key);
    KeysIndependent(limits, FRESH, events, kind, key, None, start);
    DecidesByPlace(LimitOf(limits, kind), times[0], 1, times[1..]);
    assert Places(times[0], 0, times) == [1] + Places(times[0], 1, times[1..]);
    var limit := LimitOf(limits, kind);
    assert RunKey(limit, None, times) == [true] + RunKey(limit, Some(Counter(1, times[0])), times[1..]);
  }

  // ---------- both bounds are attained ----------

  function Burst(at: int, n: nat): (times: seq<int>)
    ensures |times| == n && forall t | t in times :: t == at
  {
    if n == 0 then [] else [at] + Burst(at, n - 1)
  }

  /** A full burst every 1001 ms. */
  function Bursts(cap: nat, start: int, windows: nat): seq<int>
    decreases windows
  {
    if windows == 0 then [] else Burst(start, cap) + Bursts(cap, start + WINDOW + 1, windows - 1)
  }

  lemma {:induction false} BurstAllowed(limit: int, c: Counter, n: nat, later: seq<int>)
    requires 1 <= c.count && c.count + n == Cap(limit)
    ensures Allowed(RunKey(limit, Some(c), Burst(c.windowStart, n) + later))
         == n + Allowed(RunKey(limit, Some(Counter(Cap(limit), c.windowStart)), later))
    decreases n
  {
    var times := Burst(c.windowStart, n) + later;
    if n == 0 {
      assert times == later;
    } else {
      var c' := c.(count := c.count + 1);
      assert times[1..] == Burst(c.windowStart, n - 1) + later;
      var decisions := RunKey(limit, Some(c'), times[1..]);
      assert RunKey(limit, Some(c), times) == [true] + decisions && ([true] + decisions)[1..] == decisions;
      BurstAllowed(limit, c', n - 1, later);
    }
  }

  lemma FirstOfBurst(start: int, cap: nat, later: seq<int>)
    requires cap >= 1
    ensures var times := Burst(start, cap) + later;
            times[0] == start && times[1..] == Burst(start, cap - 1) + later
  {
  }

  lemma {:induction false} BurstsAllowed(limit: int, current: Option<Counter>, start: int, windows: nat)
    requires current.None? || current.value.windowStart < start - WINDOW
    ensures Allowed(RunKey(limit, current, Bursts(Cap(limit), start, windows)))
         == if windows == 0 then 0 else Quota(limit, (windows - 1) * (WINDOW + 1))
    decreases windows
  {
    if windows > 0 {
      var cap := Cap(limit);
      var later := Bursts(cap, start + WINDOW + 1, windows - 1);
      var rest := Allowed(RunKey(limit, Some(Counter(cap, start)), later));
      BurstsAllowed(limit, Some(Counter(cap, start)), start + WINDOW + 1, windows - 1);
      BurstAllowed(limit, Counter(1, start), cap - 1, later);
      FirstOfBurst(start, cap, later);
      FirstDecision(limit, current, Bursts(cap, start, windows), cap - 1 + rest);
    }
  }

  lemma AscendingJoin(first: seq<int>, at: int, later: seq<int>)
    requires forall t | t in first :: t == at
    requires forall t | t in later :: at <= t
    requires Ascending(later)
    ensures Ascending(first + later)
  {
    var times := first + later;
    forall i, j | 0 <= i < j < |times|
      ensures times[i] <= times[j]
    {
      if i < |first| {
        assert times[i] == first[i] && first[i] in first;
        assert if j < |first| then times[j] == first[j] && first[j] in first
               else times[j] == later[j - |first|] && later[j - |first|] in later;
      } else {
        assert times[i] == later[i - |first|] && times[j] == later[j - |first|];
      }
    }
  }

  lemma {:induction false} BurstsShape(cap: nat, start: int, windows: nat)
    requires cap >= 1 && windows >= 1
    ensures var times := Bursts(cap, start, windows);
            && times != [] && times[0] == start
            && times[|times| - 1] == start + (windows - 1) * (WINDOW + 1)
    ensures forall t | t in Bursts(cap, start, windows) :: start <= t
    ensures Ascending(Bursts(cap, start, windows))
    decreases windows
  {
    var first := Burst(start, cap);
    assert first[0] in first && first[cap - 1] in first;
    var later := Bursts(cap, start + WINDOW + 1, windows - 1);
    if windows == 1 {
      assert later == [];
      assert first + later == first;
    } else {
      BurstsShape(cap, start + WINDOW + 1, windows - 1);
      assert (first + later)[|first + later| - 1] == later[|later| - 1];
    }
    AscendingJoin(first, start, later);
  }

  /** One request for the key at each of these times. */
  function RequestsAt(kind: Kind, key: string, times: seq<int>): seq<Event> {
    if times == [] then [] else [Request(key, kind, times[0])] + RequestsAt(kind, key, times[1..])
  }

  lemma {:induction false} RequestsShape(kind: Kind, key: string, times: seq<int>, start: int)
    requires Ascending(times) && (times != [] ==> start <= times[0])
    ensures ClockFrom(RequestsAt(kind, key, times), start)
    ensures TimesFor(RequestsAt(kind, key, times), kind, key) == times
    decreases |times|
  {
    if times != [] {
      var events := RequestsAt(kind, key, times);
      assert events[1..] == RequestsAt(kind, key, times[1..]);
      RestAscends(times);
      RequestsShape(kind, key, times[1..], times[0]);
      assert times == [times[0]] + times[1..];
    }
  }

  lemma BurstRequests(limits: Limits, kind: Kind, key: string, windows: nat) returns (events: seq<Event>)
    requires windows >= 1
    ensures ClockFrom(events, 0) && TimesFor(events, kind, key) != []
    ensures var times := TimesFor(events, kind, key);
            && times[|times| - 1] - times[0] == (windows - 1) * (WINDOW + 1)
            && Allowed(DecisionsFor(limits, FRESH, events, kind, key)) == Quota(LimitOf(limits, kind), times[|times| - 1] - times[0])
  {
    var limit := LimitOf(limits, kind);
    var times := Bursts(Cap(limit), 0, windows);
    BurstsShape(Cap(limit), 0, windows);
    BurstsAllowed(limit, None, 0, windows);
    events := RequestsAt(kind, key, times);
    RequestsShape(kind, key, times, 0);
    KeysIndependent(limits, FRESH, events, kind, key, None, 0);
  }

  /** The rate bound is attained: for every limit and number of windows some run of a fresh
      limiter lets exactly the bound through. */
  lemma RateBoundAttained(limits: Limits, kind: Kind, key: string, windows: nat) returns (events: seq<Event>)
    requires windows >= 1
    ensures ClockFrom(events, 0) && TimesFor(events, kind, key) != []
    ensures var times := TimesFor(events, kind, key);
            && times[|times| - 1] - times[0] == (windows - 1) * 1001
            && Allowed(DecisionsFor(limits, FRESH, events, kind, key))
                 == Cap(if kind.IpAddress? then limits.ip else limits.identity) * (1 + (times[|times| - 1] - times[0]) / 1001)
  {
    events := BurstRequests(limits, kind, key, windows);
    var times := TimesFor(events, kind, key);
    QuotaIsProduct(LimitOf(limits, kind), times[|times| - 1] - times[0]);
  }

  /** The span bound is attained: twice the cap passes within 1001 ms. */
  lemma SpanBoundAttained(limits: Limits, kind: Kind, key: string) returns (before: seq<Event>, span: seq<Event>)
    ensures ClockFrom(before + span, 0) && TimesFor(span, kind, key) != []
    ensures var times := TimesFor(span, kind, key);
            && times[|times| - 1] - times[0] <= 1001
            && Allowed(DecisionsFor(limits, Run(limits, FRESH, before).0, span, kind, key))
                 == 2 * Cap(if kind.IpAddress? then limits.ip else limits.identity)
  {
    before := [];
    span := BurstRequests(limits, kind, key, 2);
    assert before + span == span;
  }

  // ---------- the class ----------

  class SimpleRateLimiter {
    const limits: Limits
    var ipCounters: Counters
    var identityCounters: Counters

    ghost function View(): Limiter
      reads this
    {
      Limiter(ipCounters, identityCounters)
    }

    constructor (limits: Limits)
      ensures View() == FRESH && this.limits == limits
    {
      this.limits := limits;
      ipCounters, identityCounters := map[], map[];
    }

    method IsAllowed(identity: string, kind: Kind, now: int) returns (allowed: bool)
      modifies this
      ensures (View(), allowed) == IsAllowedStep(limits, old(View()), identity, kind, now)
    {
      var counters := if kind.IpAddress? then ipCounters else identityCounters;
      var limit := if kind.IpAddress? then limits.ip else limits.identity;
      if identity !in counters || counters[identity].windowStart < now - WINDOW {
        counters := counters[identity := Counter(1, now)];
        allowed := true;
      } else if counters[identity].count >= limit {
        assert counters[identity := counters[identity]] == counters;
        allowed := false;
      } else {
        counters := counters[identity := counters[identity].(count := counters[identity].count + 1)];
        allowed := true;
      }
      if kind.IpAddress? {
        ipCounters := counters;
      } else {
        identityCounters := counters;
      }
    }

    /** The loop deletes from the map it walks over. */
    static method FilterOld(counters: Counters, now: int) returns (kept: Counters)
      ensures kept == KeepRecent(counters, now)
    {
      kept := counters;
      var todo := counters.Keys;
      while todo != {}
        invariant todo <= counters.Keys
        invariant forall k :: k in kept <==> k in counters && (k in todo || !(counters[k].windowStart < now - WINDOW))
        invariant forall k | k in kept :: kept[k] == counters[k]
        decreases |todo|
      {
        var k :| k in todo;
        if counters[k].windowStart < now - WINDOW {
          kept := kept - {k};
        }
        todo := todo - {k};
      }
    }

    method Cleanup(now: int)
      modifies this
      ensures View() == CleanupStep(old(View()), now)
      ensures AllAlike(View(), old(View()), now)
    {
      ipCounters := FilterOld(ipCounters, now);
      identityCounters := FilterOld(identityCounters, now);
      CleanupAlike(old(View()), now);
    }
  }
}
