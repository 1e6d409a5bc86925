/** The two rate limiters, for callers that come one after another. */
module SlidingWindow {

  /** No two admissions are out of order, and any `max` + 1 in a row span at least a second. */
  predicate Spread(h: seq<real>, max: nat)
  {
    && (forall i, j :: 0 <= i < j < |h| ==> h[i] <= h[j])
    && (forall i :: 0 <= i && i + max < |h| ==> h[i + max] - h[i] >= 1.0)
  }

  /** The queue is the end of the history, at most one longer than `max`, and what it dropped is a second old. */
  predicate Queues(t: seq<real>, h: seq<real>, max: nat)
  {
    && |t| <= |h| && t == h[|h| - |t|..] && |t| <= max + 1
    && (|t| == max + 1 ==> t[max] - t[0] >= 1.0)
    && forall i :: 0 <= i < |h| - |t| ==> h[i] <= h[|h| - 1] - 1.0
  }

  /** The queue once everything a second old at `now` is gone. */
  predicate Fresh(t: seq<real>, h: seq<real>, max: nat, now: real)
  {
    && |t| <= |h| && t == h[|h| - |t|..] && |t| <= max && (t != [] ==> t[0] > now - 1.0)
    && (forall i :: 0 <= i < |h| - |t| ==> h[i] <= now - 1.0)
    && (h != [] ==> h[|h| - 1] <= now)
  }

  /** The queue while old tokens are being dropped. */
  predicate Draining(t: seq<real>, h: seq<real>, max: nat, now: real)
  {
    && |t| <= |h| && t == h[|h| - |t|..] && |t| <= max + 1
    && (|t| == max + 1 ==> t[max] - t[0] >= 1.0)
    && forall i :: 0 <= i < |h| - |t| ==> h[i] <= now - 1.0
  }

  lemma StartDraining(t: seq<real>, h: seq<real>, max: nat, now: real)
    requires Queues(t, h, max) && (h != [] ==> h[|h| - 1] <= now)
    ensures Draining(t, h, max, now)
  {
  }

  lemma DropOne(t: seq<real>, h: seq<real>, max: nat, now: real)
    requires Draining(t, h, max, now) && t != [] && t[0] <= now - 1.0
    ensures Draining(t[1..], h, max, now)
  {
    assert h[|h| - |t|] == t[0];
    assert h[|h| - |t[1..]|..] == t[1..];
  }

  lemma Drained(t: seq<real>, h: seq<real>, max: nat, now: real)
    requires Draining(t, h, max, now) && (t != [] ==> t[0] > now - 1.0) && (h != [] ==> h[|h| - 1] <= now)
    ensures Fresh(t, h, max, now)
  {
    assert t != [] ==> t[|t| - 1] == h[|h| - 1];
  }

  /** How long a caller waits once the queue is full. */
  function Wait(t: seq<real>, max: nat, now: real): real
  {
    if |t| >= max && t != [] && t[0] - (now - 1.0) > 0.0 then t[0] - (now - 1.0) else 0.0
  }

  lemma WaitIsShort(t: seq<real>, h: seq<real>, max: nat, now: real)
    requires Spread(h, max) && Fresh(t, h, max, now)
    ensures 0.0 <= Wait(t, max, now) <= 1.0
  {
    if t != [] {
      assert t[0] == h[|h| - |t|] <= h[|h| - 1];
    }
  }

  /** When the next caller may pass: once the admission `max` places back is a second old, or at once. */
  ghost function Earliest(h: seq<real>, max: nat, now: real): real
  {
    if |h| >= max > 0 && h[|h| - max] > now - 1.0 then h[|h| - max] + 1.0 else now
  }

  lemma WaitIsEarliest(t: seq<real>, h: seq<real>, max: nat, now: real)
    requires Fresh(t, h, max, now) && max > 0
    ensures now + Wait(t, max, now) == Earliest(h, max, now)
  {
    if |t| == max {
      assert t[0] == h[|h| - max];
    } else if |h| >= max {
      assert h[|h| - max] <= now - 1.0;
    }
  }

  /** Nobody waits without need: passing earlier would break the spread. */
  lemma EarlierIsTooEarly(h: seq<real>, max: nat, now: real, earlier: real)
    requires max > 0 && now <= earlier < Earliest(h, max, now)
    ensures !Spread(h + [earlier], max)
  {
    var h', i := h + [earlier], |h| - max;
    assert h'[i + max] - h'[i] < 1.0;
  }

  /** Appending an admission keeps the spread: the one `max` places back was dropped or waited for. */
  lemma AdmitKeepsSpread(t: seq<real>, h: seq<real>, max: nat, now: real, later: real)
    requires Spread(h, max) && Fresh(t, h, max, now) && max > 0 && later >= now + Wait(t, max, now)
    ensures Spread(h + [later], max)
  {
    var h' := h + [later];
    forall i | 0 <= i && i + max < |h'| ensures h'[i + max] - h'[i] >= 1.0 {
      if i + max < |h| {
        assert h'[i + max] - h'[i] == h[i + max] - h[i];
      } else if |t| == max {
        assert t[0] == h[i];
      }
    }
  }

  lemma AdmitKeepsQueue(t: seq<real>, h: seq<real>, max: nat, now: real, later: real)
    requires Spread(h, max) && Fresh(t, h, max, now) && max > 0 && later >= now + Wait(t, max, now)
    ensures Queues(t + [later], h + [later], max)
  {
    assert (h + [later])[|h| - |t|..] == t + [later];
  }

  /**
   * Sliding window over the last second. `history` is the ghost record of all admissions.
   */
  class RateLimiter {
    const maxPerSecond: nat
    var tokens: seq<real>
    ghost var history: seq<real>

    ghost predicate Valid()
      reads this
    {
      maxPerSecond > 0 && Spread(history, maxPerSecond) && Queues(tokens, history, maxPerSecond)
    }

    constructor (maxPerSecond: nat)
      requires maxPerSecond > 0
      ensures Valid() && history == [] && this.maxPerSecond == maxPerSecond
    {
      this.maxPerSecond, tokens, history := maxPerSecond, [], [];
    }

    /** Drops tokens at least a second old, one by one. */
    method Expire(now: real)
      requires Valid() && (history != [] ==> history[|history| - 1] <= now)
      modifies this`tokens
      ensures Fresh(tokens, history, maxPerSecond, now)
    {
      StartDraining(tokens, history, maxPerSecond, now);
      while tokens != [] && tokens[0] <= now - 1.0
        invariant Draining(tokens, history, maxPerSecond, now)
        decreases |tokens|
      {
        DropOne(tokens, history, maxPerSecond, now);
        tokens := tokens[1..];
      }
      Drained(tokens, history, maxPerSecond, now);
    }

    /**
     * `now` is the clock on entry; the sleep lasts as requested or longer, by `overshoot`. The admission is
     * recorded at the clock afterwards, and the whole history stays spread out. A caller with room passes at once.
     */
    method Acquire(now: real, overshoot: real) returns (later: real)
      requires Valid() && overshoot >= 0.0 && (history != [] ==> history[|history| - 1] <= now)
      modifies this
      ensures Valid() && history == old(history) + [later]
      ensures now <= later <= now + 1.0 + overshoot
      ensures later == Earliest(old(history), maxPerSecond, now) + overshoot
    {
      Expire(now);
      WaitIsShort(tokens, history, maxPerSecond, now);
      WaitIsEarliest(tokens, history, maxPerSecond, now);
      later := now + Wait(tokens, maxPerSecond, now) + overshoot;
      AdmitKeepsSpread(tokens, history, maxPerSecond, now, later);
      AdmitKeepsQueue(tokens, history, maxPerSecond, now, later);
      tokens := tokens + [later];
      history := history + [later];
    }
  }

  /** Any second holds at most `max` admissions: two that are `max` or more apart are a second apart. */
  lemma AtMostMaxInASecond(h: seq<real>, max: nat, i: nat, j: nat)
    requires Spread(h, max) && i + max <= j < |h|
    ensures h[j] - h[i] >= 1.0
  {
    assert h[i + max] <= h[j];
  }
}

module FixedWindow {

  const LIMIT := 60
  const TTL := 120

  /** A stored counter and the second at which the store forgets it. */
  datatype Counter = Counter(count: nat, expires: int)

  /** The counter a store still holds at this second; zero when it has none. */
  function Stored(store: map<int, Counter>, window: int, now: int): nat
  {
    if window in store && now < store[window].expires then store[window].count else 0
  }

  function Window(now: int): int { now / 60 }

  /** How many of these admission times are in a window. */
  ghost function InWindow(times: seq<int>, window: int): nat
  {
    if times == [] then 0
    else InWindow(times[..|times| - 1], window) + if Window(times[|times| - 1]) == window then 1 else 0
  }

  /** How many of these admission times are in the sixty seconds from `a`. */
  ghost function InMinute(times: seq<int>, a: int): nat
  {
    if times == [] then 0
    else InMinute(times[..|times| - 1], a) + if a <= times[|times| - 1] < a + 60 then 1 else 0
  }

  datatype State = State(store: map<int, Counter>, admitted: seq<int>)

  /** One request: refused at sixty, else counted for another two minutes. */
  function Request(s: State, now: int): State
  {
    var w := Window(now);
    var count := Stored(s.store, w, now);
    if count >= LIMIT then s
    else State(s.store[w := Counter(count + 1, now + TTL)], s.admitted + [now])
  }

  function Serve(requests: seq<int>): State
  {
    if requests == [] then State(map[], [])
    else Request(Serve(requests[..|requests| - 1]), requests[|requests| - 1])
  }

  predicate InOrder(requests: seq<int>) { forall i, j :: 0 <= i < j < |requests| ==> requests[i] <= requests[j] }

  /** The stored count of the current window, and of every later one, is the number of its admissions. */
  ghost predicate Counts(s: State, now: int)
  {
    && (forall w, t :: w >= Window(now) && now <= t && Window(t) == w ==>
          Stored(s.store, w, t) == InWindow(s.admitted, w))
    && (forall w :: InWindow(s.admitted, w) <= LIMIT)
    && (forall i :: 0 <= i < |s.admitted| ==> s.admitted[i] <= now)
  }

  lemma RequestCounts(s: State, now: int)
    requires Counts(s, now)
    ensures Counts(Request(s, now), now)
  {
    var s' := Request(s, now);
    if s' != s {
      assert s'.admitted[..|s.admitted|] == s.admitted;
      assert Stored(s.store, Window(now), now) == InWindow(s.admitted, Window(now));
    }
  }

  lemma LaterCounts(s: State, now: int, later: int)
    requires Counts(s, now) && now <= later
    ensures Counts(s, later)
  {
  }

  lemma {:induction false} ServeCounts(requests: seq<int>)
    requires requests != [] && InOrder(requests)
    ensures Counts(Serve(requests), requests[|requests| - 1])
  {
    var n := |requests| - 1;
    if n == 0 {
      assert requests[..0] == [];
      assert Counts(State(map[], []), requests[0]);
    } else {
      ServeCounts(requests[..n]);
      LaterCounts(Serve(requests[..n]), requests[n - 1], requests[n]);
    }
    RequestCounts(Serve(requests[..n]), requests[n]);
  }

  /** At most sixty requests pass in a window, and what the store counts there is what passed. */
  lemma AtMostSixtyPerWindow(requests: seq<int>, window: int)
    requires InOrder(requests)
    ensures InWindow(Serve(requests).admitted, window) <= 60
  {
    if requests != [] {
      ServeCounts(requests);
    }
  }

  lemma {:induction false} MinuteSpansTwoWindows(times: seq<int>, a: int)
    ensures InMinute(times, a) <= InWindow(times, Window(a)) + InWindow(times, Window(a) + 1)
    ensures a % 60 == 0 ==> InMinute(times, a) == InWindow(times, Window(a))
  {
    if times != [] {
      MinuteSpansTwoWindows(times[..|times| - 1], a);
    }
  }

  /** At most a hundred and twenty pass in any sixty seconds. */
  lemma AtMostTwiceInAMinute(requests: seq<int>, a: int)
    requires InOrder(requests)
    ensures InMinute(Serve(requests).admitted, a) <= 120
  {
    MinuteSpansTwoWindows(Serve(requests).admitted, a);
    AtMostSixtyPerWindow(requests, Window(a));
    AtMostSixtyPerWindow(requests, Window(a) + 1);
  }

  // ---------------------------------------------------------------- sixty per minute, and where it fails

  /** No sequence of requests gets more than sixty through in the sixty seconds from `a`. */
  ghost predicate SixtyFrom(a: int)
  {
    forall requests :: InOrder(requests) ==> InMinute(Serve(requests).admitted, a) <= 60
  }

  function Burst(t: int, n: nat): seq<int> { seq(n, _ => t) }

  /** What the store holds for the window of the next request is what passed in it. */
  lemma StoredIsCount(before: seq<int>, t: int)
    requires InOrder(before + [t])
    ensures Stored(Serve(before).store, Window(t), t) == InWindow(Serve(before).admitted, Window(t))
  {
    if before != [] {
      var n := |before|;
      assert (before + [t])[n] == t && forall i :: 0 <= i < n ==> (before + [t])[i] == before[i];
      ServeCounts(before);
      LaterCounts(Serve(before), before[n - 1], t);
    }
  }

  lemma OneMorePasses(before: seq<int>, t: int)
    requires InOrder(before + [t]) && InWindow(Serve(before).admitted, Window(t)) < LIMIT
    ensures Serve(before + [t]).admitted == Serve(before).admitted + [t]
  {
    StoredIsCount(before, t);
    OneMore(before, t);
  }

  /** A request passes if and only if fewer than sixty passed before it in its minute of the clock. */
  lemma PassesIff(before: seq<int>, t: int)
    requires InOrder(before + [t])
    ensures Serve(before + [t]).admitted
         == Serve(before).admitted + if InWindow(Serve(before).admitted, t / 60) < 60 then [t] else []
  {
    StoredIsCount(before, t);
    OneMore(before, t);
  }

  lemma OneMore(before: seq<int>, t: int)
    ensures Serve(before + [t]) == Request(Serve(before), t)
  {
    assert (before + [t])[..|before|] == before;
  }

  /** The store keeps a counter for two minutes from its last request and then forgets it. */
  lemma CounterIsKept(s: State, now: int, later: int)
    requires Stored(s.store, Window(now), now) < 60 && now <= later
    ensures Stored(Request(s, now).store, Window(now), later)
         == if later < now + 120 then Stored(s.store, Window(now), now) + 1 else 0
  {
  }

  lemma BurstGrows(before: seq<int>, t: int, n: nat)
    requires n > 0
    ensures before + Burst(t, n) == before + Burst(t, n - 1) + [t]
  {
    assert Burst(t, n) == Burst(t, n - 1) + [t];
  }

  lemma {:induction false} BurstPasses(before: seq<int>, t: int, n: nat)
    requires n <= LIMIT && InOrder(before) && (forall i :: 0 <= i < |before| ==> before[i] <= t)
    requires InWindow(Serve(before).admitted, Window(t)) == 0
    ensures Serve(before + Burst(t, n)).admitted == Serve(before).admitted + Burst(t, n)
  {
    if n == 0 {
      assert before + Burst(t, 0) == before;
      assert Serve(before).admitted + Burst(t, 0) == Serve(before).admitted;
    } else {
      BurstPasses(before, t, n - 1);
      WindowOfBurst(Serve(before).admitted, t, n - 1, Window(t));
      BurstGrows(before, t, n);
      BurstGrows(Serve(before).admitted, t, n);
      OneMorePasses(before + Burst(t, n - 1), t);
    }
  }

  lemma {:induction false} WindowOfBurst(before: seq<int>, t: int, n: nat, w: int)
    ensures InWindow(before + Burst(t, n), w) == InWindow(before, w) + if Window(t) == w then n else 0
  {
    if n == 0 {
      assert before + Burst(t, 0) == before;
    } else {
      WindowOfBurst(before, t, n - 1, w);
      BurstGrows(before, t, n);
      var rest := before + Burst(t, n - 1);
      assert (rest + [t])[..|rest|] == rest;
    }
  }

  lemma {:induction false} MinuteOfBurst(before: seq<int>, t: int, n: nat, a: int)
    requires a <= t < a + 60
    ensures InMinute(before + Burst(t, n), a) == InMinute(before, a) + n
  {
    if n == 0 {
      assert before + Burst(t, 0) == before;
    } else {
      MinuteOfBurst(before, t, n - 1, a);
      BurstGrows(before, t, n);
      var rest := before + Burst(t, n - 1);
      assert (rest + [t])[..|rest|] == rest;
    }
  }

  lemma OneBurstPasses(t: int, n: nat, a: int, w: int)
    requires n <= LIMIT && a <= t < a + 60 && w != Window(t)
    ensures Serve(Burst(t, n)).admitted == Burst(t, n)
    ensures InWindow(Burst(t, n), w) == 0 && InMinute(Burst(t, n), a) == n
  {
    assert [] + Burst(t, n) == Burst(t, n);
    BurstPasses([], t, n);
    WindowOfBurst([], t, n, w);
    MinuteOfBurst([], t, n, a);
  }

  lemma WindowEdge(a: int, last: int)
    requires a % 60 != 0 && last == 60 * Window(a) + 59
    ensures a <= last < last + 1 < a + 60 && Window(last) != Window(last + 1)
  {
  }

  /** A full burst in the last second of a window and one in the first second of the next all pass. */
  lemma TwoBurstsPass(a: int, last: int, n: nat)
    requires a <= last < last + 1 < a + 60 && Window(last) != Window(last + 1) && n <= LIMIT
    ensures InOrder(Burst(last, n) + Burst(last + 1, n))
    ensures InMinute(Serve(Burst(last, n) + Burst(last + 1, n)).admitted, a) == 2 * n
  {
    OneBurstPasses(last, n, a, Window(last + 1));
    BurstPasses(Burst(last, n), last + 1, n);
    MinuteOfBurst(Burst(last, n), last + 1, n, a);
  }

  /** Sixty per minute is guaranteed for exactly those minutes that start with a window. */
  lemma SixtyPerMinuteIff(a: int)
    ensures SixtyFrom(a) <==> a % 60 == 0
  {
    if a % 60 == 0 {
      forall requests | InOrder(requests) ensures InMinute(Serve(requests).admitted, a) <= 60 {
        MinuteSpansTwoWindows(Serve(requests).admitted, a);
        AtMostSixtyPerWindow(requests, Window(a));
      }
    } else {
      var n: nat := LIMIT;
      var last := 60 * Window(a) + 59;
      WindowEdge(a, last);
      TwoBurstsPass(a, last, n);
      assert InMinute(Serve(Burst(last, n) + Burst(last + 1, n)).admitted, a) > 60;
    }
  }

  /** The middleware's counter logic on its store. */
  class RequestLimiter {
    var store: map<int, Counter>
    ghost var admitted: seq<int>

    ghost function Now(): State
      reads this
    {
      State(store, admitted)
    }

    constructor ()
      ensures Now() == Serve([])
    {
      store, admitted := map[], [];
    }

    method Dispatch(now: int) returns (pass: bool)
      modifies this
      ensures Now() == Request(old(Now()), now) && pass == (admitted != old(admitted))
    {
      var window := now / 60;
      var count := if window in store && now < store[window].expires then store[window].count else 0;
      if count >= LIMIT {
        return false;
      }
      store := store[window := Counter(count + 1, now + TTL)];
      admitted := admitted + [now];
      return true;
    }
  }
}
