/**
 * When a BUY signal buys, and how much it asks for, in every reachable state: from the calls the run made to the
 * risk manager and not from the fields it keeps.
 */
module SessionEntry {
  import opened Collections
  import opened Arithmetic
  import opened Signals
  import opened PaperBook
  import opened PositionLedger
  import opened RiskRules
  import opened TradingSession
  import opened SessionLaws
  import opened SessionGates
  import H = RiskHistory

  /** The balance a signal is judged and sized by: holdings at their entry prices, its own symbol at its price. */
  ghost function Found(s: Session, symbol: string, price: real): real
  {
    Equity(s.book, EntryPrices(s)[symbol := price])
  }

  /** Nothing is asked for a HOLD, by a barred user, or in a full session. */
  predicate Heard(s: Session, action: Action) { action != HOLD && !s.barred && !Full(s) }

  /** The calls a step makes to the risk manager. */
  ghost function Calls(s: Session, step: Step): seq<H.Event>
  {
    match step
    case Signal(symbol, action, price, now) =>
      if !Heard(s, action) then []
      else [H.Observed(Found(s, symbol, price), now), H.Asked(symbol, s.ledger.open.Keys, now)]
           + if Next(s, step).buys != s.buys then [H.Traded(symbol, now)] else []
    case MarketStatus(level, recommendation) => [H.Status(level, recommendation, 0.0)]
    case ObserveBalance(now) => [H.Observed(Equity(s.book, EntryPrices(s)), now)]
    case Tick(_, _) => []
    case GuardianClose(_, _) => []
  }

  /** The calls a run has made so far. */
  ghost function History(s: Session, steps: seq<Step>): seq<H.Event>
  {
    if steps == [] then []
    else History(s, steps[..|steps| - 1]) + Calls(Run(s, steps[..|steps| - 1]), steps[|steps| - 1])
  }

  lemma ReplayOne(r: Risk, e: H.Event)
    ensures H.Replay(r, [e]) == H.Apply(r, e)
  {
    assert [e][..0] == [] && H.Replay(r, []) == r;
  }

  lemma {:induction false} ReplayAppend(r: Risk, a: seq<H.Event>, b: seq<H.Event>)
    ensures H.Replay(r, a + b) == H.Replay(H.Replay(r, a), b)
  {
    hide H.Apply;
    if b == [] {
      assert a + b == a;
    } else {
      var n := |b| - 1;
      assert (a + b)[..|a + b| - 1] == a + b[..n];
      ReplayAppend(r, a, b[..n]);
    }
  }

  lemma ReplayTwo(r: Risk, d: H.Event, e: H.Event)
    ensures H.Replay(r, [d, e]) == H.Apply(H.Apply(r, d), e)
  {
    assert [d, e] == [d] + [e];
    ReplayAppend(r, [d], [e]);
    ReplayOne(r, d);
    ReplayOne(H.Apply(r, d), e);
  }

  /** What being heard does to the risk state, before anything is bought. */
  lemma AskingIsTwoCalls(s: Session, symbol: string, price: real, now: real)
    ensures var open := s.ledger.open.Keys;
            AskRisk(s, symbol, price, now).0.risk
            == H.Apply(H.Apply(s.risk, H.Observed(Found(s, symbol, price), now)), H.Asked(symbol, open, now))
  {
  }

  /** A heard signal leaves the risk state of asking, and a recorded trade when it bought. */
  lemma SignalRisk(s: Session, symbol: string, action: Action, price: real, now: real)
    requires Heard(s, action)
    ensures var s', asked := Next(s, Signal(symbol, action, price, now)), AskRisk(s, symbol, price, now).0.risk;
            s'.risk == if s'.buys != s.buys then RecordTrade(asked, symbol, now) else asked
  {
    hide Equity, UpdateBalance, CanTrade, BuyQuantity, CreateOrder;
    var (s1, v) := AskRisk(s, symbol, price, now);
  }

  /** A step changes the risk state by its calls. */
  lemma StepReplays(s: Session, step: Step)
    ensures Next(s, step).risk == H.Replay(s.risk, Calls(s, step))
  {
    hide UpdateBalance, CanTrade, H.Replay, Act;
    match step
    case Signal(symbol, action, price, now) =>
      if Heard(s, action) {
        var two := [H.Observed(Found(s, symbol, price), now), H.Asked(symbol, s.ledger.open.Keys, now)];
        SignalRisk(s, symbol, action, price, now);
        AskingIsTwoCalls(s, symbol, price, now);
        ReplayTwo(s.risk, two[0], two[1]);
        var asked := AskRisk(s, symbol, price, now).0.risk;
        ReplayAppend(s.risk, two, [H.Traded(symbol, now)]);
        ReplayOne(asked, H.Traded(symbol, now));
        assert two + [] == two;
      } else {
        ReplayNothing(s.risk);
      }
    case MarketStatus(level, recommendation) => ReplayOne(s.risk, H.Status(level, recommendation, 0.0));
    case ObserveBalance(now) => ReplayOne(s.risk, H.Observed(Equity(s.book, EntryPrices(s)), now));
    case Tick(_, _) => ReplayNothing(s.risk);
    case GuardianClose(_, _) => ReplayNothing(s.risk);
  }

  lemma ReplayNothing(r: Risk)
    ensures H.Replay(r, []) == r
  {
  }

  /** The risk state of a session is what its calls make of a new one. */
  lemma {:induction false} RiskIsReplayed(s: Session, steps: seq<Step>)
    ensures Run(s, steps).risk == H.Replay(s.risk, History(s, steps))
  {
    hide Next, Calls, H.Apply;
    if steps == [] {
      ReplayNothing(s.risk);
    } else {
      var before := steps[..|steps| - 1];
      RiskIsReplayed(s, before);
      StepReplays(Run(s, before), steps[|steps| - 1]);
      ReplayAppend(s.risk, History(s, before), Calls(Run(s, before), steps[|steps| - 1]));
    }
  }

  // ---------------------------------------------------------------- the verdict on a signal

  /** The clock does not go back to an earlier date by the time of this signal. */
  ghost predicate OnTime(h: seq<H.Event>, now: real) { H.DatesOrdered(h) && H.NoneLater(h, Day(now)) }

  lemma OneMoreOnTime(h: seq<H.Event>, e: H.Event)
    requires OnTime(h, e.now)
    ensures OnTime(h + [e], e.now)
  {
    var h' := h + [e];
    forall i, j | 0 <= i < j < |h'| && H.Dated(h'[i]) && H.Dated(h'[j]) ensures Day(h'[i].now) <= Day(h'[j].now) {
      if j < |h| {
        assert h'[i] == h[i] && h'[j] == h[j];
      }
    }
  }

  /** What a signal is told is the verdict on the whole history of calls, with the balance just found. */
  lemma VerdictOfSignal(maxPairs: nat, barred: bool, maxPosition: real, steps: seq<Step>,
                        symbol: string, price: real, now: real)
    requires OnTime(History(NewSession(maxPairs, barred, maxPosition), steps), now)
    ensures var s0 := NewSession(maxPairs, barred, maxPosition);
            var s, h := Run(s0, steps), History(s0, steps);
            AskRisk(s, symbol, price, now).1
            == H.ReferenceVerdict(SessionLimits(maxPosition), START_BALANCE,
                                  h + [H.Observed(Found(s, symbol, price), now)], symbol, s.ledger.open.Keys, now)
  {
    var s0 := NewSession(maxPairs, barred, maxPosition);
    var s, h := Run(s0, steps), History(s0, steps);
    var e, asked := H.Observed(Found(s, symbol, price), now), H.Asked(symbol, s.ledger.open.Keys, now);
    RiskIsReplayed(s0, steps);
    OneMoreOnTime(h, e);
    OneMoreOnTime(h + [e], asked);
    VerdictOfCalls(s0.risk, h, e, asked, SessionLimits(maxPosition));
    VerdictIsAsked(s, symbol, price, now);
  }

  lemma VerdictOfCalls(r: Risk, h: seq<H.Event>, e: H.Event, asked: H.Event, limits: Limits)
    requires r == Initial(limits, START_BALANCE) && asked.Asked? && H.DatesOrdered(h + [e] + [asked])
    ensures CanTrade(H.Apply(H.Replay(r, h), e), asked.symbol, asked.open, asked.now).1
         == H.ReferenceVerdict(limits, START_BALANCE, h + [e], asked.symbol, asked.open, asked.now)
  {
    hide CanTrade, H.Apply, H.ReferenceVerdict, H.DatesOrdered;
    H.VerdictRefinesHistory(limits, START_BALANCE, h + [e], asked.symbol, asked.open, asked.now);
    ReplayAppend(r, h, [e]);
    ReplayOne(H.Replay(r, h), e);
  }

  lemma VerdictIsAsked(s: Session, symbol: string, price: real, now: real)
    ensures AskRisk(s, symbol, price, now).1
         == CanTrade(H.Apply(s.risk, H.Observed(Found(s, symbol, price), now)), symbol, s.ledger.open.Keys, now).1
  {
    hide CanTrade;
  }

  /**
   * What lets a signal pass: the last status GREEN or YELLOW; a balance above nine tenths of the highest one ever
   * observed; at least 95% of the first balance of the day, which is positive; no trade of the symbol in the last
   * 300 seconds; and fewer than two open symbols of its correlation group.
   */
  ghost predicate Permitted(h: seq<H.Event>, balance: real, symbol: string, open: set<string>, now: real)
  {
    && H.NameAfter(h) in {"GREEN", "YELLOW"}
    && balance > 0.9 * H.Peak(10000.0, h)
    && (match H.FirstOn(h, Day(now)) case None => true case Some(first) => first > 0.0 && balance >= 0.95 * first)
    && (match H.LastTrade(h, symbol) case None => true case Some(t) => now - t >= 300.0)
    && |set x | x in open && H.Together(x, symbol)| < 2
  }

  lemma AllowedIff(h: seq<H.Event>, balance: real, maxPosition: real, symbol: string, open: set<string>, now: real)
    ensures var h' := h + [H.Observed(balance, now)];
            H.ReferenceVerdict(SessionLimits(maxPosition), 10000.0, h', symbol, open, now) == Allowed
            <==> Permitted(h, balance, symbol, open, now)
  {
    hide H.Together, Day, H.Sets;
    var e := H.Observed(balance, now);
    var h' := h + [e];
    H.Extend(10000.0, h, e);
    H.ExtendDay(h, e, Day(now));
    assert h'[..|h|] == h;
    assert H.LastTrade(h', symbol) == H.LastTrade(h, symbol);
    H.PeakIsHighest(10000.0, h);
    H.NameIsKnown(h);
    H.NamesDiffer(H.NameAfter(h));
    NotASet(e);
  }

  lemma NotASet(e: H.Event)
    requires e.Observed?
    ensures !H.Sets(e)
  {
  }

  // ---------------------------------------------------------------- when a BUY buys, and how much

  /** The smaller of the limit and a tenth of the balance, and half of that after a YELLOW status. */
  ghost function FullSize(limit: real, balance: real, name: string): real
  {
    var full := if balance / 10.0 < limit then balance / 10.0 else limit;
    if name == "YELLOW" then full / 2.0 else full
  }

  /** A signal to BUY at these prices passes every gate. */
  ghost predicate Enters(s: Session, h: seq<H.Event>, limit: real, symbol: string, price: real, now: real)
  {
    && !s.barred && |s.ledger.open| < s.maxPairs && |s.ledger.open| < 50 && symbol !in s.ledger.open && price > 0.0
    && Permitted(h, Found(s, symbol, price), symbol, s.ledger.open.Keys, now)
    && FullSize(limit, Found(s, symbol, price), H.NameAfter(h)) >= 5.0
  }

  /** The size a BUY asks for after an open status. */
  lemma SizeIs(r: Risk, limit: real, balance: real, name: string)
    requires r.limits.maxPosition == limit && H.NameOf(r.level) == name && name in {"GREEN", "YELLOW"}
    ensures OrderSize(limit, balance, r.level) == FullSize(limit, balance, name)
  {
  }

  /** Once a signal is allowed, it buys exactly when price and size are right and there is room. */
  lemma AllowedBuys(s: Session, symbol: string, price: real, now: real, size: real)
    requires Heard(s, BUY) && symbol !in s.ledger.open && AskRisk(s, symbol, price, now).1 == Allowed
    requires s.book.feeRate == 0.001
    requires size == OrderSize(s.risk.limits.maxPosition, Found(s, symbol, price), s.risk.level)
    ensures Next(s, Signal(symbol, BUY, price, now)).buys != s.buys
       <==> price > 0.0 && size >= 5.0 && |s.ledger.open| < 50
  {
    hide Equity, UpdateBalance, CanTrade, OrderSize, CreateOrder;
    var step := Signal(symbol, BUY, price, now);
    var s1 := AskRisk(s, symbol, price, now).0;
    AskingKeeps(s, symbol, price, now);
    assert Next(s, step) == Enter(s1, symbol, price, now);
    if price != 0.0 {
      var q := size / price;
      QuotientTimes(size, price);
      assert BuyQuantity(s1, symbol, price) == Some(q) && Cost(q, price) == size;
      SignOfQuotient(q, price, size);
      if price > 0.0 && size >= 5.0 && |s.ledger.open| < 50 {
        FillsOrRejects(s1.book, BuyOrder(symbol, q, price));
      }
    }
  }

  lemma SignOfQuotient(q: real, price: real, size: real)
    requires q * price == size
    ensures price > 0.0 && size > 0.0 ==> q > 0.0
    ensures q > 0.0 && size > 0.0 ==> price > 0.0
  {
  }

  lemma FillsOrRejects(b: Book, o: Order)
    requires o.side == Buy && o.kind == Market && b.feeRate == 0.001 && o.quantity > 0.0 && o.price > 0.0
    ensures CreateOrder(b, o).Done?
  {
  }

  lemma AskingKeeps(s: Session, symbol: string, price: real, now: real)
    ensures var s1 := AskRisk(s, symbol, price, now).0;
            && s1 == s.(risk := s1.risk) && s1.risk.limits == s.risk.limits && s1.risk.level == s.risk.level
            && EntryPrices(s1) == EntryPrices(s)
  {
  }

  lemma StepKeepsFeeRate(s: Session, step: Step)
    ensures Next(s, step).book.feeRate == s.book.feeRate && Next(s, step).barred == s.barred
    ensures Next(s, step).risk.limits == s.risk.limits && Next(s, step).maxPairs == s.maxPairs
  {
    hide Equity, EntryPrices, GroupOf, Members, Drawdown, BuyQuantity;
    match step
    case Signal(symbol, action, price, now) =>
      var (s', v) := AskRisk(s, symbol, price, now);
    case _ =>
  }

  lemma {:induction false} RunKeepsFeeRate(s: Session, steps: seq<Step>)
    ensures Run(s, steps).book.feeRate == s.book.feeRate && Run(s, steps).barred == s.barred
    ensures Run(s, steps).risk.limits == s.risk.limits && Run(s, steps).maxPairs == s.maxPairs
  {
    hide Next;
    if steps != [] {
      RunKeepsFeeRate(s, steps[..|steps| - 1]);
      StepKeepsFeeRate(Run(s, steps[..|steps| - 1]), steps[|steps| - 1]);
    }
  }

  lemma LevelOfRun(maxPairs: nat, barred: bool, maxPosition: real, steps: seq<Step>)
    requires H.DatesOrdered(History(NewSession(maxPairs, barred, maxPosition), steps))
    ensures var s0 := NewSession(maxPairs, barred, maxPosition);
            H.NameOf(Run(s0, steps).risk.level) == H.NameAfter(History(s0, steps))
  {
    hide History, H.NameOf, Run, H.CooldownsMatch, H.DayFields, H.DayReached, H.BelowBreakerLine;
    var s0 := NewSession(maxPairs, barred, maxPosition);
    RiskIsReplayed(s0, steps);
    H.StateRefinesHistory(SessionLimits(maxPosition), START_BALANCE, History(s0, steps));
  }

  /**
   * In every reachable state a BUY signal buys if and only if the user is not barred, fewer pairs are open than the
   * plan allows and fewer than 50, the symbol is not one of them, its price is positive, the calls made so far and
   * the balance found permit it, and the size comes to at least 5.
   */
  lemma BuyIff(maxPairs: nat, barred: bool, maxPosition: real, steps: seq<Step>, symbol: string, price: real, now: real)
    requires OnTime(History(NewSession(maxPairs, barred, maxPosition), steps), now)
    ensures var s0 := NewSession(maxPairs, barred, maxPosition);
            var s := Run(s0, steps);
            Next(s, Signal(symbol, BUY, price, now)).buys != s.buys
            <==> Enters(s, History(s0, steps), maxPosition, symbol, price, now)
  {
    hide History, Run, Found, H.ReferenceVerdict, FullSize, Permitted, OrderSize, AskRisk, H.NameAfter, H.NameOf;
    var s0 := NewSession(maxPairs, barred, maxPosition);
    var s, h, found := Run(s0, steps), History(s0, steps), Found(Run(s0, steps), symbol, price);
    RunKeepsFeeRate(s0, steps);
    var step := Signal(symbol, BUY, price, now);
    if Next(s, step).buys != s.buys {
      BuyStep(s, step);
    }
    if Heard(s, BUY) && symbol !in s.ledger.open {
      VerdictOfSignal(maxPairs, barred, maxPosition, steps, symbol, price, now);
      AllowedIff(h, found, maxPosition, symbol, s.ledger.open.Keys, now);
      if Permitted(h, found, symbol, s.ledger.open.Keys, now) {
        LevelOfRun(maxPairs, barred, maxPosition, steps);
        OpenName(h, found, symbol, s.ledger.open.Keys, now);
        SizeIs(s.risk, maxPosition, found, H.NameAfter(h));
        AllowedBuys(s, symbol, price, now, OrderSize(maxPosition, found, s.risk.level));
      }
    }
  }

  lemma OpenName(h: seq<H.Event>, balance: real, symbol: string, open: set<string>, now: real)
    requires Permitted(h, balance, symbol, open, now)
    ensures H.NameAfter(h) in {"GREEN", "YELLOW"}
  {
  }

  /** What a BUY is recorded as: its quantity is worth the size, with the stop 1.5% below and the target 5% above. */
  ghost predicate Recorded(s': Session, bought: Purchase, symbol: string, price: real, now: real, size: real)
  {
    && bought.symbol == symbol && bought.time == now && bought.requested * price == size
    && bought.order.stopLoss == Some(0.985 * price) && bought.order.takeProfit == Some(1.05 * price)
    && symbol in s'.ledger.open && s'.ledger.open[symbol].quantity == bought.requested
    && s'.ledger.open[symbol].side == Buy && s'.ledger.open[symbol].entry == bought.order.avgPrice
    && s'.ledger.open[symbol].stopLoss == Some(0.985 * price)
    && s'.ledger.open[symbol].takeProfit == Some(1.05 * price)
  }

  lemma EntryRecords(s: Session, symbol: string, q: real, price: real, now: real, size: real)
    requires size == q * price && price > 0.0 && CreateOrder(s.book, BuyOrder(symbol, q, price)).Done?
    ensures var s' := EnterPosition(s, symbol, q, price, now);
            |s'.buys| == |s.buys| + 1 && s'.buys[..|s.buys|] == s.buys
            && Recorded(s', s'.buys[|s.buys|], symbol, price, now, size)
  {
    assert StopFor(price) == 0.985 * price && TargetFor(price) == 1.05 * price;
  }

  /**
   * In every reachable state a BUY asks for the smaller of the limit and a tenth of the balance found, and after a
   * YELLOW status for half of that; engine and tracker get the same stop and target.
   */
  lemma BuyAsksFor(maxPairs: nat, barred: bool, maxPosition: real, steps: seq<Step>,
                   symbol: string, price: real, now: real)
    requires OnTime(History(NewSession(maxPairs, barred, maxPosition), steps), now)
    requires var s := Run(NewSession(maxPairs, barred, maxPosition), steps);
             Next(s, Signal(symbol, BUY, price, now)).buys != s.buys
    ensures var s0 := NewSession(maxPairs, barred, maxPosition);
            var s := Run(s0, steps);
            var s' := Next(s, Signal(symbol, BUY, price, now));
            && |s'.buys| == |s.buys| + 1 && s'.buys[..|s.buys|] == s.buys
            && Recorded(s', s'.buys[|s.buys|], symbol, price, now,
                        FullSize(maxPosition, Found(s, symbol, price), H.NameAfter(History(s0, steps))))
  {
    hide History, Run, Found, FullSize, Permitted, OrderSize, H.NameAfter, H.NameOf, Recorded, EnterPosition, Next;
    hide AskRisk, CreateOrder;
    var s0 := NewSession(maxPairs, barred, maxPosition);
    var s, h, found := Run(s0, steps), History(s0, steps), Found(Run(s0, steps), symbol, price);
    var step := Signal(symbol, BUY, price, now);
    BuyStep(s, step);
    BuyIff(maxPairs, barred, maxPosition, steps, symbol, price, now);
    OpenName(h, found, symbol, s.ledger.open.Keys, now);
    LevelOfRun(maxPairs, barred, maxPosition, steps);
    RunKeepsFeeRate(s0, steps);
    SizeIs(s.risk, maxPosition, found, H.NameAfter(h));
    AskingKeeps(s, symbol, price, now);
    var size := OrderSize(maxPosition, found, s.risk.level);
    RequestedIs(s, step, size);
    FillsOrRejects(Checked(s, step).book, BuyOrder(symbol, Requested(s, step), price));
    EntryRecords(Checked(s, step), symbol, Requested(s, step), price, now, size);
  }

  lemma RequestedIs(s: Session, step: Step, size: real)
    requires step.Signal? && step.price > 0.0
    requires size == OrderSize(s.risk.limits.maxPosition, Found(s, step.symbol, step.price), s.risk.level)
    ensures Requested(s, step) * step.price == size
  {
    hide Equity, OrderSize, UpdateBalance, CanTrade;
    AskingKeeps(s, step.symbol, step.price, step.now);
    QuotientTimes(size, step.price);
  }

  /** Every BUY of a run found at least 95% of a positive first balance of its day. */
  lemma EveryBuyFoundItsDay(maxPairs: nat, barred: bool, maxPosition: real, steps: seq<Step>, i: nat)
    requires i < |steps|
    requires var s := Run(NewSession(maxPairs, barred, maxPosition), steps[..i]); Next(s, steps[i]).buys != s.buys
    requires steps[i].Signal?
    requires OnTime(History(NewSession(maxPairs, barred, maxPosition), steps[..i]), steps[i].now)
    ensures var s0, step := NewSession(maxPairs, barred, maxPosition), steps[i];
            match H.FirstOn(History(s0, steps[..i]), Day(step.now))
            case None => true
            case Some(first) => 0.95 * first <= Found(Run(s0, steps[..i]), step.symbol, step.price) && first > 0.0
  {
    hide History, Run, Found, FullSize, H.NameAfter;
    var s, step := Run(NewSession(maxPairs, barred, maxPosition), steps[..i]), steps[i];
    BuyStep(s, step);
    BuyIff(maxPairs, barred, maxPosition, steps[..i], step.symbol, step.price, step.now);
  }
}
