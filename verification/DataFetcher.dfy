/** Candles fetched page by page from a venue that may fail, against one scan of its history. */
module CandleFetching {
  import opened Collections

  datatype Candle = Candle(timestamp: int, close: real)

  predicate Ordered(h: seq<Candle>) { forall i, j :: 0 <= i < j < |h| ==> h[i].timestamp < h[j].timestamp }

  /** The first candle at or after a time. */
  function Start(h: seq<Candle>, since: int): (k: nat)
    ensures k <= |h| && (forall i :: 0 <= i < k ==> h[i].timestamp < since) && (k < |h| ==> h[k].timestamp >= since)
  {
    if h == [] || h[0].timestamp >= since then 0 else 1 + Start(h[1..], since)
  }

  /** One scan: everything from a time on. */
  function From(h: seq<Candle>, since: int): seq<Candle> { h[Start(h, since)..] }

  /** The first candles from a time on, at most `size` of them. */
  function Page(h: seq<Candle>, since: int, size: nat): seq<Candle>
  {
    var k := Start(h, since);
    if |h| - k <= size then h[k..] else h[k..k + size]
  }

  /** A venue answers at most `limit` candles, and never more than its own `cap`. */
  function PageSize(limit: nat, cap: nat): nat { if cap < limit then cap else limit }

  /** Keeps the last of the candles that share a timestamp. */
  function KeepLast(cs: seq<Candle>): seq<Candle>
  {
    if cs == [] then []
    else if exists i :: 1 <= i < |cs| && cs[i].timestamp == cs[0].timestamp then KeepLast(cs[1..])
    else [cs[0]] + KeepLast(cs[1..])
  }

  /** The candles at or after a time, picked one by one. */
  function Selected(h: seq<Candle>, since: int): seq<Candle>
  {
    if h == [] then [] else (if h[0].timestamp >= since then [h[0]] else []) + Selected(h[1..], since)
  }

  /** The scan is exactly the candles of the history that are not earlier, in the history's order. */
  lemma {:induction false} ScanIsExact(h: seq<Candle>, since: int)
    requires Ordered(h)
    ensures From(h, since) == Selected(h, since)
  {
    if h != [] {
      ScanIsExact(h[1..], since);
      if h[0].timestamp >= since {
        assert Start(h[1..], since) == 0;
        assert [h[0]] + h[1..] == h;
      } else {
        assert h[1..][Start(h[1..], since)..] == h[Start(h, since)..];
      }
    }
  }

  /** Asking again from just after the last candle of a page continues where the page ended. */
  lemma NextPageContinues(h: seq<Candle>, pos: nat)
    requires Ordered(h) && 0 < pos <= |h|
    ensures Start(h, h[pos - 1].timestamp + 1) == pos
  {
  }

  lemma PageIsSlice(h: seq<Candle>, since: int, size: nat)
    ensures var k, p := Start(h, since), Page(h, since, size);
            |p| <= size && k + |p| <= |h| && p == h[k..k + |p|] && (|p| < size ==> k + |p| == |h|)
  {
  }

  lemma SliceOfOrdered(h: seq<Candle>, i: nat, j: nat)
    requires Ordered(h) && i <= j <= |h|
    ensures Ordered(h[i..j]) && h[i..j] <= h[i..] && (j == |h| ==> h[i..j] == h[i..])
  {
  }

  lemma SlicesJoin(h: seq<Candle>, i: nat, j: nat, k: nat)
    requires i <= j <= k <= |h|
    ensures h[i..j] + h[j..k] == h[i..k]
  {
  }

  /** One page more: the collected candles stay a slice, and the next request starts where it ends. */
  lemma PageExtends(h: seq<Candle>, current: int, size: nat, first: nat, pos: nat, p: seq<Candle>)
    requires Ordered(h) && first <= pos == Start(h, current) && p == Page(h, current, size) && p != []
    ensures pos + |p| <= |h| && h[first..pos] + p == h[first..pos + |p|]
    ensures |p| <= size && (|p| < size ==> pos + |p| == |h|)
    ensures Start(h, p[|p| - 1].timestamp + 1) == pos + |p|
  {
    PageIsSlice(h, current, size);
    var end := pos + |p|;
    assert p[|p| - 1] == h[end - 1];
    SlicesJoin(h, first, pos, end);
    NextPageContinues(h, end);
  }

  lemma {:induction false} KeepLastOfOrdered(cs: seq<Candle>)
    requires Ordered(cs)
    ensures KeepLast(cs) == cs
  {
    if cs != [] {
      KeepLastOfOrdered(cs[1..]);
    }
  }

  /** The last candle of its time stands at `i`. */
  predicate LastOfItsTime(cs: seq<Candle>, i: int)
  {
    0 <= i < |cs| && forall j :: i < j < |cs| ==> cs[j].timestamp != cs[i].timestamp
  }

  ghost predicate Kept(cs: seq<Candle>, c: Candle) { exists i :: LastOfItsTime(cs, i) && cs[i] == c }

  lemma KeptLater(cs: seq<Candle>, c: Candle)
    requires cs != []
    ensures Kept(cs, c) <==> (LastOfItsTime(cs, 0) && cs[0] == c) || Kept(cs[1..], c)
  {
    if Kept(cs, c) {
      var i :| LastOfItsTime(cs, i) && cs[i] == c;
      if i > 0 {
        assert LastOfItsTime(cs[1..], i - 1) && cs[1..][i - 1] == c;
      }
    }
    if Kept(cs[1..], c) {
      var i :| LastOfItsTime(cs[1..], i) && cs[1..][i] == c;
      assert forall j :: i + 1 < j < |cs| ==> cs[j] == cs[1..][j - 1];
      assert LastOfItsTime(cs, i + 1) && cs[i + 1] == c;
    }
  }

  /** Whatever was collected, exactly the last candle of each time is kept. */
  lemma {:induction false} KeepLastIs(cs: seq<Candle>, c: Candle)
    ensures c in KeepLast(cs) <==> Kept(cs, c)
  {
    hide Kept;
    if cs != [] {
      KeepLastIs(cs[1..], c);
      KeptLater(cs, c);
    } else {
      NoneKept(c);
    }
  }

  lemma NoneKept(c: Candle)
    ensures !Kept([], c)
  {
  }

  /** And no time is kept twice. */
  lemma {:induction false} KeptOnce(cs: seq<Candle>)
    ensures forall i, j :: 0 <= i < j < |KeepLast(cs)| ==> KeepLast(cs)[i].timestamp != KeepLast(cs)[j].timestamp
  {
    if cs != [] {
      var kept := KeepLast(cs[1..]);
      KeptOnce(cs[1..]);
      forall i | 0 <= i < |kept| && |KeepLast(cs)| > |kept| ensures kept[i].timestamp != cs[0].timestamp {
        KeepLastIs(cs[1..], kept[i]);
        var k :| LastOfItsTime(cs[1..], k) && cs[1..][k] == kept[i];
        assert cs[k + 1] == kept[i];
      }
    }
  }

  const MAX_RETRIES := 3

  class DataFetcher {
    const history: seq<Candle>
    /** Whether the venue answers the n-th attempt. */
    const up: nat -> bool
    /** The most candles the venue puts on a page. */
    const cap: nat
    var attempts: nat

    constructor (history: seq<Candle>, up: nat -> bool, cap: nat)
      ensures this.history == history && this.up == up && this.cap == cap && attempts == 0
    {
      this.history, this.up, this.cap, attempts := history, up, cap, 0;
    }

    /** No page is lost for good: of any three attempts in a row the venue answers one. */
    ghost predicate NeverThreeFailures() { forall n: nat :: up(n) || up(n + 1) || up(n + 2) }

    method Fetch(since: int, limit: nat) returns (page: Option<seq<Candle>>)
      modifies this
      ensures page.Some? ==> page.value == Page(history, since, PageSize(limit, cap)) && page.value != []
      ensures page.None? && NeverThreeFailures() ==> Page(history, since, PageSize(limit, cap)) == []
      ensures old(attempts) < attempts <= old(attempts) + 3
      ensures Page(history, since, PageSize(limit, cap)) != [] ==>
                (page.Some? <==> up(old(attempts)) || up(old(attempts) + 1) || up(old(attempts) + 2))
    {
      ghost var first := attempts;
      for attempt := 0 to MAX_RETRIES
        invariant attempts == first + attempt
        invariant Page(history, since, PageSize(limit, cap)) == [] || forall n :: first <= n < attempts ==> !up(n)
      {
        var ok := up(attempts);
        attempts := attempts + 1;
        if ok {
          var result := Page(history, since, PageSize(limit, cap));
          if result != [] {
            return Some(result);
          }
        }
      }
      assert up(first) || up(first + 1) || up(first + 2) || !NeverThreeFailures();
      return None;
    }

    /** Page after page until one is short or missing; under a cap below the limit the first one is short. */
    method CollectPages(since: int, limit: nat) returns (all: seq<Candle>, ghost pos: nat)
      requires Ordered(history)
      modifies this
      ensures Start(history, since) <= pos <= |history| && all == history[Start(history, since)..pos]
      ensures !(0 < limit <= cap) ==> pos <= Start(history, since) + PageSize(limit, cap)
      ensures NeverThreeFailures() ==>
        pos == |history| || (!(0 < limit <= cap) && pos == Start(history, since) + PageSize(limit, cap))
    {
      hide Page, Start, Ordered;
      all := [];
      var current := since;
      ghost var first, size := Start(history, since), PageSize(limit, cap);
      pos := first;
      while true
        invariant first <= pos <= |history| && Start(history, current) == pos
        invariant all == history[first..pos]
        invariant 0 < limit <= cap || pos == first
        decreases |history| - pos
      {
        var page := Fetch(current, limit);
        if page == None {
          PageIsSlice(history, current, size);
          break;
        }
        var ohlcv := page.value;
        PageExtends(history, current, size, first, pos, ohlcv);
        all := all + ohlcv;
        pos := pos + |ohlcv|;
        if |ohlcv| < limit {
          break;
        }
        current := ohlcv[|ohlcv| - 1].timestamp + 1;
      }
    }

    /**
     * The result is always a beginning of the scan, ordered and without gap or duplicate because the scan is.
     * When no page is lost for good it is all of it if and only if the venue's cap is no lower than the limit
     * asked for or the scan fits one page; otherwise the loop ends with that first page.
     */
    method FetchOhlcvSince(since: int, limit: nat) returns (frame: Option<seq<Candle>>)
      requires Ordered(history)
      modifies this
      ensures frame.Some? ==> frame.value != []
      ensures var got, scan := if frame.Some? then frame.value else [], From(history, since);
              && got <= scan
              && (!(0 < limit <= cap) ==> |got| <= PageSize(limit, cap))
              && (NeverThreeFailures() ==>
                    && (got == scan <==> 0 < limit <= cap || |scan| <= PageSize(limit, cap))
                    && (got != scan ==> got == Page(history, since, PageSize(limit, cap))))
    {
      var all;
      ghost var pos;
      all, pos := CollectPages(since, limit);
      SliceOfOrdered(history, Start(history, since), pos);
      KeepLastOfOrdered(all);
      if all == [] {
        return None;
      }
      return Some(KeepLast(all));
    }
  }
}
