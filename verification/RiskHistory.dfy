/**
 * The risk manager keeps a handful of fields; this module defines what each of them should be from the
 * whole history of calls and proves that the fields, and the verdicts read off them, agree with it.
 */
module RiskHistory {
  import opened Arithmetic
  import opened Collections
  import opened RiskRules

  datatype Event =
    | Observed(balance: real, now: real)
    | Asked(symbol: string, open: set<string>, now: real)
    | Traded(symbol: string, now: real)
    | Status(name: string, recommendation: string, now: real)

  function Apply(r: Risk, e: Event): Risk
  {
    match e
    case Observed(balance, now) => UpdateBalance(r, balance, Day(now))
    case Asked(symbol, open, now) => CanTrade(r, symbol, open, now).0
    case Traded(symbol, now) => RecordTrade(r, symbol, now)
    case Status(name, recommendation, _) => SetMarketStatus(r, name, recommendation)
  }

  function Replay(r: Risk, h: seq<Event>): Risk
  {
    if h == [] then r else Apply(Replay(r, h[..|h| - 1]), h[|h| - 1])
  }

  /** The calls that check the date. */
  predicate Dated(e: Event) { e.Observed? || e.Asked? }

  predicate DatesOrdered(h: seq<Event>)
  {
    forall i, j :: 0 <= i < j < |h| && Dated(h[i]) && Dated(h[j]) ==> Day(h[i].now) <= Day(h[j].now)
  }

  /** Every date checked so far is at most this one. */
  predicate NoneLater(h: seq<Event>, today: int)
  {
    forall i :: 0 <= i < |h| && Dated(h[i]) ==> Day(h[i].now) <= today
  }

  // ---------------------------------------------------------------- the history's own account

  function Peak(initial: real, h: seq<Event>): real
  {
    if h == [] then initial else
      var p := Peak(initial, h[..|h| - 1]);
      var e := h[|h| - 1];
      if e.Observed? && e.balance > p then e.balance else p
  }

  function LastSeen(h: seq<Event>): Option<real>
  {
    if h == [] then None else
      var e := h[|h| - 1];
      if e.Observed? then Some(e.balance) else LastSeen(h[..|h| - 1])
  }

  /** The first balance observed on a date. */
  function FirstOn(h: seq<Event>, day: int): Option<real>
  {
    if h == [] then None else
      var first := FirstOn(h[..|h| - 1], day);
      var e := h[|h| - 1];
      if first == None && e.Observed? && Day(e.now) == day then Some(e.balance) else first
  }

  /** The highest balance observed on a date. */
  function PeakOn(h: seq<Event>, day: int): Option<real>
  {
    if h == [] then None else
      var peak := PeakOn(h[..|h| - 1], day);
      var e := h[|h| - 1];
      if e.Observed? && Day(e.now) == day && (peak == None || e.balance > peak.value) then Some(e.balance) else peak
  }

  function LastTrade(h: seq<Event>, symbol: string): Option<real>
  {
    if h == [] then None else
      var e := h[|h| - 1];
      if e.Traded? && e.symbol == symbol then Some(e.now) else LastTrade(h[..|h| - 1], symbol)
  }

  const LEVEL_NAMES := {"GREEN", "YELLOW", "ORANGE", "RED"}

  /** A status with a known name. */
  predicate Sets(e: Event) { e.Status? && e.name in LEVEL_NAMES }

  /** The name of the latest status with a known one. */
  function NameAfter(h: seq<Event>): string
  {
    if h == [] then "GREEN" else
      var e := h[|h| - 1];
      if Sets(e) then e.name else NameAfter(h[..|h| - 1])
  }

  /** What the latest such status recommended. */
  function RecommendationAfter(h: seq<Event>): string
  {
    if h == [] then "normal" else
      var e := h[|h| - 1];
      if Sets(e) then e.recommendation else RecommendationAfter(h[..|h| - 1])
  }

  function NameOf(level: Level): string
  {
    match level
    case Green => "GREEN"
    case Yellow => "YELLOW"
    case Orange => "ORANGE"
    case Red => "RED"
  }

  // ---------------------------------------------------------------- what the account means

  predicate SeenOn(e: Event, day: int) { e.Observed? && Day(e.now) == day }

  /** The highest of the initial balance and every balance observed. */
  predicate IsHighest(p: real, initial: real, h: seq<Event>)
  {
    && p >= initial && (forall i :: 0 <= i < |h| && h[i].Observed? ==> p >= h[i].balance)
    && (p == initial || exists i :: 0 <= i < |h| && h[i].Observed? && p == h[i].balance)
  }

  /** The balance observed before any other on the day, when there is one. */
  predicate IsFirstOn(first: Option<real>, h: seq<Event>, day: int)
  {
    match first
    case None => forall i :: 0 <= i < |h| ==> !SeenOn(h[i], day)
    case Some(b) => exists i :: 0 <= i < |h| && SeenOn(h[i], day) && h[i].balance == b
                                && forall j :: 0 <= j < i ==> !SeenOn(h[j], day)
  }

  /** The highest balance observed on the day, when there is one. */
  predicate IsHighestOn(peak: Option<real>, h: seq<Event>, day: int)
  {
    match peak
    case None => forall i :: 0 <= i < |h| ==> !SeenOn(h[i], day)
    case Some(b) => && (exists i :: 0 <= i < |h| && SeenOn(h[i], day) && h[i].balance == b)
                    && (forall i :: 0 <= i < |h| && SeenOn(h[i], day) ==> h[i].balance <= b)
  }

  /** The latest balance observed, when there is one. */
  predicate IsLatest(last: Option<real>, h: seq<Event>)
  {
    match last
    case None => forall i :: 0 <= i < |h| ==> !h[i].Observed?
    case Some(b) => exists i :: 0 <= i < |h| && h[i].Observed? && h[i].balance == b
                                && forall j :: i < j < |h| ==> !h[j].Observed?
  }

  /** The latest trade in a symbol, when there is one. */
  predicate IsLatestTrade(t: Option<real>, h: seq<Event>, symbol: string)
  {
    match t
    case None => forall i :: 0 <= i < |h| ==> !Trades(h[i], symbol)
    case Some(at) => exists i :: 0 <= i < |h| && Trades(h[i], symbol) && h[i].now == at
                                 && forall j :: i < j < |h| ==> !Trades(h[j], symbol)
  }

  predicate Trades(e: Event, symbol: string) { e.Traded? && e.symbol == symbol }

  /** The name of the latest status with a known one, or GREEN. */
  predicate IsLatestName(name: string, h: seq<Event>)
  {
    || (name == "GREEN" && forall i :: 0 <= i < |h| ==> !Sets(h[i]))
    || exists i :: 0 <= i < |h| && Sets(h[i]) && h[i].name == name && forall j :: i < j < |h| ==> !Sets(h[j])
  }

  lemma {:induction false} PeakIsHighest(initial: real, h: seq<Event>)
    ensures IsHighest(Peak(initial, h), initial, h)
  {
    if h != [] {
      var n := |h| - 1;
      PeakIsHighest(initial, h[..n]);
      var p := Peak(initial, h[..n]);
      if p != initial {
        var i :| 0 <= i < n && h[..n][i].Observed? && p == h[..n][i].balance;
        assert h[i].balance == p;
      }
      assert forall i :: 0 <= i < n ==> h[..n][i] == h[i];
    }
  }

  lemma {:induction false} FirstIsFirst(h: seq<Event>, day: int)
    ensures IsFirstOn(FirstOn(h, day), h, day)
  {
    if h != [] {
      var n := |h| - 1;
      FirstIsFirst(h[..n], day);
      assert forall i :: 0 <= i < n ==> h[..n][i] == h[i];
      if FirstOn(h[..n], day).Some? {
        var i :| 0 <= i < n && SeenOn(h[..n][i], day) && h[..n][i].balance == FirstOn(h[..n], day).value
                 && forall j :: 0 <= j < i ==> !SeenOn(h[..n][j], day);
        assert SeenOn(h[i], day) && forall j :: 0 <= j < i ==> !SeenOn(h[j], day);
      } else if SeenOn(h[n], day) {
        assert forall j :: 0 <= j < n ==> !SeenOn(h[j], day);
      }
    }
  }

  lemma {:induction false} PeakOnIsHighest(h: seq<Event>, day: int)
    ensures IsHighestOn(PeakOn(h, day), h, day)
  {
    if h != [] {
      var n := |h| - 1;
      PeakOnIsHighest(h[..n], day);
      assert forall i :: 0 <= i < n ==> h[..n][i] == h[i];
      if PeakOn(h[..n], day).Some? {
        var i :| 0 <= i < n && SeenOn(h[..n][i], day) && h[..n][i].balance == PeakOn(h[..n], day).value;
        assert SeenOn(h[i], day);
      }
      if SeenOn(h[n], day) {
        assert PeakOn(h, day).Some?;
      }
    }
  }

  lemma {:induction false} LastIsLatest(h: seq<Event>)
    ensures IsLatest(LastSeen(h), h)
  {
    if h != [] {
      var n := |h| - 1;
      LastIsLatest(h[..n]);
      assert forall i :: 0 <= i < n ==> h[..n][i] == h[i];
      if !h[n].Observed? && LastSeen(h).Some? {
        var i :| 0 <= i < n && h[..n][i].Observed? && h[..n][i].balance == LastSeen(h).value
                 && forall j :: i < j < n ==> !h[..n][j].Observed?;
        assert h[i].Observed? && forall j :: i < j < |h| ==> !h[j].Observed?;
      }
    }
  }

  lemma {:induction false} LastTradeIsLatest(h: seq<Event>, symbol: string)
    ensures IsLatestTrade(LastTrade(h, symbol), h, symbol)
  {
    if h != [] {
      var n := |h| - 1;
      LastTradeIsLatest(h[..n], symbol);
      assert forall i :: 0 <= i < n ==> h[..n][i] == h[i];
      if Trades(h[n], symbol) {
        assert LastTrade(h, symbol) == Some(h[n].now);
      } else if LastTrade(h, symbol).Some? {
        var i :| 0 <= i < n && Trades(h[..n][i], symbol) && h[..n][i].now == LastTrade(h, symbol).value
                 && forall j :: i < j < n ==> !Trades(h[..n][j], symbol);
        assert Trades(h[i], symbol) && forall j :: i < j < |h| ==> !Trades(h[j], symbol);
      }
    }
  }

  lemma {:induction false} NameIsLatest(h: seq<Event>)
    ensures IsLatestName(NameAfter(h), h)
  {
    if h != [] {
      var n := |h| - 1;
      NameIsLatest(h[..n]);
      assert forall i :: 0 <= i < n ==> h[..n][i] == h[i];
      if !Sets(h[n]) && exists i :: 0 <= i < n && Sets(h[..n][i]) {
        var i :| 0 <= i < n && Sets(h[..n][i]) && h[..n][i].name == NameAfter(h[..n])
                 && forall j :: i < j < n ==> !Sets(h[..n][j]);
        assert Sets(h[i]) && forall j :: i < j < |h| ==> !Sets(h[j]);
      }
    }
  }

  /** The last balance is no more than the peak less the percentage. */
  predicate OnOrUnderLine(last: Option<real>, peak: real, pct: real)
  {
    last.Some? && last.value <= peak - peak * (pct / 100.0)
  }

  predicate BelowBreakerLine(limits: Limits, initial: real, h: seq<Event>)
  {
    OnOrUnderLine(LastSeen(h), Peak(initial, h), limits.breakerPct)
  }

  /** How much of the first balance of a day may be lost on it. */
  function DayLine(first: real, maxPct: real): real { first * (1.0 - maxPct / 100.0) }

  /** The last balance lies beyond the line of the day, on the far side of it when the first balance is negative. */
  predicate FellTooFar(first: real, last: real, maxPct: real)
  {
    (first > 0.0 && last < DayLine(first, maxPct)) || (first < 0.0 && last > DayLine(first, maxPct))
  }

  /** Two symbols that one correlation group names. */
  predicate Together(x: string, y: string)
  {
    || (x in BTC_ETH && y in BTC_ETH) || (x in MAJOR_L1 && y in MAJOR_L1) || (x in DEFI && y in DEFI)
    || (x in MEME && y in MEME) || (x in INFRA && y in INFRA)
  }

  /** The verdict a reader of the whole history would give. */
  function ReferenceVerdict(limits: Limits, initial: real, h: seq<Event>, symbol: string, open: set<string>,
                            now: real): Verdict
  {
    var first, last := FirstOn(h, Day(now)), LastSeen(h);
    var t := LastTrade(h, symbol);
    if NameAfter(h) in {"ORANGE", "RED"} then LevelBlocks
    else if BelowBreakerLine(limits, initial, h) then BreakerBlocks
    else if first == Some(0.0) then DivisionError
    else if first.Some? && last.Some? && FellTooFar(first.value, last.value, limits.maxDailyDrawdownPct) then
      DrawdownBlocks
    else if t.Some? && now - t.value < limits.cooldown then CooldownBlocks
    else if limits.maxCorrelated > 0 && |set x | x in open && Together(x, symbol)| >= limits.maxCorrelated then
      CorrelationBlocks
    else Allowed
  }

  // ---------------------------------------------------------------- refinement

  ghost predicate Matches(r: Risk, limits: Limits, initial: real, h: seq<Event>)
  {
    && r.limits == limits
    && r.peak == Peak(initial, h)
    && r.last == LastSeen(h)
    && r.breaker == BelowBreakerLine(limits, initial, h)
    && NameOf(r.level) == NameAfter(h) && r.recommendation == RecommendationAfter(h)
    && CooldownsMatch(r, h)
    && DayFields(r, h) && DayReached(r, h)
  }

  ghost predicate CooldownsMatch(r: Risk, h: seq<Event>)
  {
    forall s :: if s in r.cooldowns then LastTrade(h, s) == Some(r.cooldowns[s]) else LastTrade(h, s) == None
  }

  /** The daily fields are those of the latest date checked. */
  ghost predicate DayFields(r: Risk, h: seq<Event>)
  {
    r.day.Some? ==> r.dayStart == FirstOn(h, r.day.value) && r.dayPeak == PeakOn(h, r.day.value)
  }

  /** That date is one of the history, and no observation is later. */
  ghost predicate DayReached(r: Risk, h: seq<Event>)
  {
    && (r.day.Some? ==> exists i :: 0 <= i < |h| && Dated(h[i]) && r.day.value == Day(h[i].now))
    && (forall i :: 0 <= i < |h| && h[i].Observed? ==> r.day.Some? && Day(h[i].now) <= r.day.value)
  }

  /** A date without observations has no first balance and no peak. */
  lemma {:induction false} NothingSeenYet(h: seq<Event>, day: int)
    requires forall i :: 0 <= i < |h| && h[i].Observed? ==> Day(h[i].now) != day
    ensures FirstOn(h, day) == None && PeakOn(h, day) == None
  {
    if h != [] {
      NothingSeenYet(h[..|h| - 1], day);
    }
  }

  lemma DateCheck(r: Risk, h: seq<Event>, today: int)
    requires DayFields(r, h) && DayReached(r, h) && NoneLater(h, today)
    ensures DayFields(CheckDateReset(r, today), h)
  {
    if r.day != Some(today) {
      NothingSeenYet(h, today);
    }
  }

  /** How the account of a day changes when one event is added. */
  lemma ExtendDay(h: seq<Event>, e: Event, day: int)
    ensures FirstOn(h + [e], day)
         == if FirstOn(h, day) == None && SeenOn(e, day) then Some(e.balance) else FirstOn(h, day)
    ensures PeakOn(h + [e], day)
         == if SeenOn(e, day) && (PeakOn(h, day) == None || e.balance > PeakOn(h, day).value)
            then Some(e.balance) else PeakOn(h, day)
  {
    assert (h + [e])[..|h|] == h;
  }

  lemma NoneIsLater(h: seq<Event>, e: Event)
    requires DatesOrdered(h + [e]) && Dated(e)
    ensures NoneLater(h, Day(e.now))
  {
    forall i | 0 <= i < |h| && Dated(h[i]) ensures Day(h[i].now) <= Day(e.now) {
      assert (h + [e])[i] == h[i] && (h + [e])[|h|] == e;
    }
  }

  lemma StepFields(r: Risk, h: seq<Event>, e: Event)
    requires DayFields(r, h) && DayReached(r, h) && DatesOrdered(h + [e])
    ensures DayFields(Apply(r, e), h + [e])
  {
    var r' := Apply(r, e);
    if Dated(e) {
      NoneIsLater(h, e);
      DateCheck(r, h, Day(e.now));
    }
    if r'.day.Some? {
      ExtendDay(h, e, r'.day.value);
    }
  }

  lemma StepReached(r: Risk, h: seq<Event>, e: Event)
    requires DayReached(r, h) && DatesOrdered(h + [e])
    ensures DayReached(Apply(r, e), h + [e])
  {
    var h', r' := h + [e], Apply(r, e);
    if Dated(e) {
      NoneIsLater(h, e);
    }
    assert h'[|h|] == e && forall i :: 0 <= i < |h| ==> h'[i] == h[i];
    if r'.day != r.day {
      assert r'.day == Some(Day(h'[|h|].now));
    } else if r.day.Some? {
      var i :| 0 <= i < |h| && Dated(h[i]) && r.day.value == Day(h[i].now);
      assert r'.day.value == Day(h'[i].now);
    }
  }

  /** How each account of the history changes when one event is added. */
  lemma Extend(initial: real, h: seq<Event>, e: Event)
    ensures var h' := h + [e];
            && Peak(initial, h') == (if e.Observed? && e.balance > Peak(initial, h)
                                     then e.balance else Peak(initial, h))
            && LastSeen(h') == (if e.Observed? then Some(e.balance) else LastSeen(h))
            && NameAfter(h') == (if Sets(e) then e.name else NameAfter(h))
            && RecommendationAfter(h') == (if Sets(e) then e.recommendation else RecommendationAfter(h))
  {
    assert (h + [e])[..|h|] == h;
  }

  lemma StepCooldowns(r: Risk, h: seq<Event>, e: Event)
    requires CooldownsMatch(r, h)
    ensures CooldownsMatch(Apply(r, e), h + [e])
  {
    assert (h + [e])[..|h|] == h;
    forall s ensures LastTrade(h + [e], s) == if e.Traded? && e.symbol == s then Some(e.now) else LastTrade(h, s) {
    }
  }

  lemma LineIs(peak: real, pct: real)
    ensures BreakerLine(peak, pct) == peak - peak * (pct / 100.0)
  {
  }

  lemma StepLevel(r: Risk, e: Event)
    ensures NameOf(Apply(r, e).level) == if Sets(e) then e.name else NameOf(r.level)
    ensures Apply(r, e).recommendation == if Sets(e) then e.recommendation else r.recommendation
  {
  }

  lemma StepBreaker(r: Risk, e: Event)
    ensures var r' := Apply(r, e);
            r'.breaker == if e.Observed? then OnOrUnderLine(r'.last, r'.peak, r.limits.breakerPct) else r.breaker
  {
    LineIs(Apply(r, e).peak, r.limits.breakerPct);
  }

  lemma StepTotals(r: Risk, e: Event)
    ensures var r' := Apply(r, e);
            && r'.limits == r.limits && r'.peak == (if e.Observed? && e.balance > r.peak then e.balance else r.peak)
            && r'.last == if e.Observed? then Some(e.balance) else r.last
  {
  }

  lemma Step(r: Risk, limits: Limits, initial: real, h: seq<Event>, e: Event)
    requires Matches(r, limits, initial, h)
    requires DatesOrdered(h + [e])
    ensures Matches(Apply(r, e), limits, initial, h + [e])
  {
    hide Apply, NameOf, Sets, OnOrUnderLine, DatesOrdered, CooldownsMatch, DayFields, DayReached;
    StepFields(r, h, e);
    StepReached(r, h, e);
    StepCooldowns(r, h, e);
    StepLevel(r, e);
    StepBreaker(r, e);
    StepTotals(r, e);
    Extend(initial, h, e);
  }

  /** Every field the risk manager keeps is what the history of calls says it should be. */
  lemma {:induction false} StateRefinesHistory(limits: Limits, initial: real, h: seq<Event>)
    requires DatesOrdered(h)
    ensures Matches(Replay(Initial(limits, initial), h), limits, initial, h)
  {
    if h != [] {
      var n := |h| - 1;
      StateRefinesHistory(limits, initial, h[..n]);
      assert h[..n] + [h[n]] == h;
      Step(Replay(Initial(limits, initial), h[..n]), limits, initial, h[..n], h[n]);
    }
  }

  /** In the words of the history: each field is the highest, the latest or the first of what was recorded. */
  ghost predicate FieldsMeanHistory(r: Risk, initial: real, h: seq<Event>)
  {
    && IsHighest(r.peak, initial, h) && IsLatest(r.last, h) && IsLatestName(NameOf(r.level), h)
    && (r.breaker <==> OnOrUnderLine(r.last, r.peak, r.limits.breakerPct))
    && (forall s :: IsLatestTrade(if s in r.cooldowns then Some(r.cooldowns[s]) else None, h, s))
    && (r.day.Some? ==> IsFirstOn(r.dayStart, h, r.day.value) && IsHighestOn(r.dayPeak, h, r.day.value))
    && (forall i :: 0 <= i < |h| && h[i].Observed? ==> r.day.Some? && Day(h[i].now) <= r.day.value)
  }

  lemma HistoryIsKept(limits: Limits, initial: real, h: seq<Event>)
    requires DatesOrdered(h)
    ensures FieldsMeanHistory(Replay(Initial(limits, initial), h), initial, h)
  {
    var r := Replay(Initial(limits, initial), h);
    StateRefinesHistory(limits, initial, h);
    PeakIsHighest(initial, h);
    LastIsLatest(h);
    NameIsLatest(h);
    forall s ensures IsLatestTrade(if s in r.cooldowns then Some(r.cooldowns[s]) else None, h, s) {
      LastTradeIsLatest(h, s);
    }
    if r.day.Some? {
      FirstIsFirst(h, r.day.value);
      PeakOnIsHighest(h, r.day.value);
    }
  }

  // ---------------------------------------------------------------- the verdict

  /** The daily change in percent is below the limit exactly beyond the line of the day. */
  lemma DrawdownMeans(last: real, first: real, maxPct: real)
    ensures Drawdown(Some(last), Some(first), maxPct)
         == if first == 0.0 then Some(DivisionError)
            else if FellTooFar(first, last, maxPct) then Some(DrawdownBlocks) else None
  {
    if first != 0.0 {
      var n, x := (last - first) / first, -maxPct / 100.0;
      assert DailyPct(last, first) < -maxPct <==> n < x;
      QuotientTimes(last - first, first);
      assert DayLine(first, maxPct) == first + x * first;
      LessTimes(n, x, first);
    }
  }

  /** Counting a symbol's group is counting the symbols it is together with. */
  lemma GroupIsTogether(open: set<string>, symbol: string)
    ensures match GroupOf(symbol)
            case Some(g) => Members(open, g) == set x | x in open && Together(x, symbol)
            case None => (set x | x in open && Together(x, symbol)) == {}
  {
    forall x | x in open
      ensures Together(x, symbol) <==> GroupOf(symbol).Some? && GroupOf(x) == GroupOf(symbol)
    {
      TogetherIsSameGroup(x, symbol);
    }
  }

  lemma TogetherIsSameGroup(x: string, y: string)
    ensures Together(x, y) <==> GroupOf(y).Some? && GroupOf(x) == GroupOf(y)
  {
    OneGroup(x);
    OneGroup(y);
  }

  /** The verdict read off the incremental state is the verdict of the whole history. */
  lemma VerdictRefinesHistory(limits: Limits, initial: real, h: seq<Event>, symbol: string, open: set<string>,
                              now: real)
    requires DatesOrdered(h + [Asked(symbol, open, now)])
    ensures CanTrade(Replay(Initial(limits, initial), h), symbol, open, now).1
         == ReferenceVerdict(limits, initial, h, symbol, open, now)
  {
    var h' := h + [Asked(symbol, open, now)];
    assert forall i :: 0 <= i < |h| ==> h'[i] == h[i];
    NoneIsLater(h, Asked(symbol, open, now));
    StateRefinesHistory(limits, initial, h);
    VerdictOfFields(Replay(Initial(limits, initial), h), limits, initial, h, symbol, open, now);
  }

  /** Fields that match the history give its verdict. */
  lemma VerdictOfFields(r: Risk, limits: Limits, initial: real, h: seq<Event>, symbol: string, open: set<string>,
                        now: real)
    requires Matches(r, limits, initial, h) && NoneLater(h, Day(now))
    ensures CanTrade(r, symbol, open, now).1 == ReferenceVerdict(limits, initial, h, symbol, open, now)
  {
    hide BelowBreakerLine, FellTooFar, Together, GroupOf, Peak, DailyPct, Day, Drawdown;
    DateCheck(r, h, Day(now));
    var first, last := FirstOn(h, Day(now)), LastSeen(h);
    if first.Some? {
      FirstMeansLast(h, Day(now));
      DrawdownMeans(last.value, first.value, limits.maxDailyDrawdownPct);
    } else {
      NoDrawdown(last, limits.maxDailyDrawdownPct);
    }
    GroupIsTogether(open, symbol);
    if open == {} {
      assert (set x | x in open && Together(x, symbol)) == {};
    }
  }

  lemma NoDrawdown(last: Option<real>, maxPct: real)
    ensures Drawdown(last, None, maxPct) == None
  {
  }

  lemma {:induction false} FirstMeansLast(h: seq<Event>, day: int)
    requires FirstOn(h, day).Some?
    ensures LastSeen(h).Some?
  {
    if !h[|h| - 1].Observed? {
      FirstMeansLast(h[..|h| - 1], day);
    }
  }

  lemma {:induction false} NameIsKnown(h: seq<Event>)
    ensures NameAfter(h) in {"GREEN", "YELLOW", "ORANGE", "RED"}
  {
    if h != [] && !Sets(h[|h| - 1]) {
      NameIsKnown(h[..|h| - 1]);
    }
  }

  lemma NamesDiffer(name: string)
    requires name in {"GREEN", "YELLOW", "ORANGE", "RED"}
    ensures name in {"ORANGE", "RED"} <==> name !in {"GREEN", "YELLOW"}
  {
  }

  /**
   * With an open level, the breaker off and a positive first balance of the day, asking is refused for the daily
   * drawdown if and only if the last balance is below the first one less the percentage allowed.
   */
  lemma DrawdownGateIff(limits: Limits, initial: real, h: seq<Event>, first: real, last: real,
                        symbol: string, open: set<string>, now: real)
    requires DatesOrdered(h + [Asked(symbol, open, now)])
    requires NameAfter(h) in {"GREEN", "YELLOW"} && !BelowBreakerLine(limits, initial, h)
    requires FirstOn(h, Day(now)) == Some(first) && LastSeen(h) == Some(last) && first > 0.0
    ensures CanTrade(Replay(Initial(limits, initial), h), symbol, open, now).1 == DrawdownBlocks
       <==> last < first * (1.0 - limits.maxDailyDrawdownPct / 100.0)
  {
    hide CanTrade, Together, BelowBreakerLine, FirstOn, LastSeen, NameAfter, Replay, DatesOrdered, Day;
    NamesDiffer(NameAfter(h));
    VerdictRefinesHistory(limits, initial, h, symbol, open, now);
  }

  /** A reading of the clock is on the day whose 86400 seconds contain it. */
  lemma DayIs(now: real, day: int)
    ensures Day(now) == day <==> (day as real) * 86400.0 <= now < (day as real + 1.0) * 86400.0
  {
  }
}
