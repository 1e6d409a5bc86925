/**
 * The trader's paper session as the object it is: an engine, a tracker and a risk manager, driven by
 * signals, price updates, market statuses and the monitor. Every method changes the session's value by
 * the functions of `TradingSession`, and the new value is reached by a run of its steps.
 */
module UserSessions {
  import opened Arithmetic
  import opened Collections
  import opened Signals
  import opened Plans
  import opened PaperBook
  import opened PositionLedger
  import opened RiskRules
  import opened TradingSession
  import opened SessionLaws
  import opened SessionSafety
  import opened SessionEntry
  import opened SessionGates
  import opened SessionGuardian
  import opened PaperEngines
  import opened PositionTrackers
  import opened RiskManagers
  import RiskHistory

  ghost function CloseAndObserve(s: Session, symbol: string, price: real, now: real): Session
  {
    if symbol in s.ledger.open then Observe(Close(s, symbol, price), now) else s
  }

  ghost function Guarded(s: Session, pending: seq<string>, now: real): Session
  {
    if s.risk.level == Orange || s.risk.level == Red then GuardianPass(s, s.risk.level, pending, now) else s
  }

  /** The guardian's closes under ORANGE or RED, then the balance of whatever is still held. */
  ghost function MonitorResult(s: Session, pending: seq<string>, now: real): Session
  {
    var s' := Guarded(s, pending, now);
    if s'.book.holdings != map[] then Observe(s', now) else s'
  }

  // ---------------------------------------------------------------- what methods do is a run of steps

  /** Whatever a roomy paper session goes through, it stays safe; one of the basic plan always is roomy. */
  lemma ReachableIsSafe(plan: string, futures: bool, maxPosition: real, s: Session)
    requires Roomy(GetPlanLimits(plan).maxPairs, maxPosition) && Reaches(PlanSession(plan, futures, maxPosition), s)
    ensures AllFilled(s.buys) && LedgersAgree(s) && MoneyConserved(s)
  {
    var steps :| Run(PlanSession(plan, futures, maxPosition), steps) == s;
    var limits := GetPlanLimits(plan);
    EveryRunIsSafe(limits.maxPairs, limits.spotOnly && futures, maxPosition, steps);
  }

  lemma GuardianStepIsARun(s: Session, level: Level, x: string, now: real)
    ensures Reaches(s, GuardianStep(s, level, x, now))
  {
    NoStep(s);
    if x in s.ledger.open {
      var step := GuardianClose(x, GuardianPrice(s.ledger.open[x]));
      OneStep(s, step);
      OneStep(Next(s, step), ObserveBalance(now));
      ReachesOn(s, Next(s, step), Next(Next(s, step), ObserveBalance(now)));
    }
  }

  lemma {:induction false} GuardianPassIsARun(s: Session, level: Level, pending: seq<string>, now: real)
    ensures Reaches(s, GuardianPass(s, level, pending, now))
    decreases |pending|
  {
    NoStep(s);
    if pending != [] {
      var s1 := GuardianStep(s, level, pending[0], now);
      GuardianStepIsARun(s, level, pending[0], now);
      GuardianPassIsARun(s1, level, pending[1..], now);
      ReachesOn(s, s1, GuardianPass(s, level, pending, now));
    }
  }

  lemma MonitorIsARun(s: Session, pending: seq<string>, now: real)
    ensures Reaches(s, MonitorResult(s, pending, now))
  {
    NoStep(s);
    GuardianPassIsARun(s, s.risk.level, pending, now);
    var s' := Guarded(s, pending, now);
    OneStep(s', ObserveBalance(now));
    if s'.book.holdings != map[] {
      ReachesOn(s, s', Observe(s', now));
    }
  }

  /** A pass that leaves something held ends with the balance observed at the entry prices. */
  lemma MonitorObserves(s: Session, pending: seq<string>, now: real)
    ensures var s1, s' := Guarded(s, pending, now), MonitorResult(s, pending, now);
            && s'.book == s1.book && s'.ledger == s1.ledger
            && (s1.book.holdings != map[] ==>
                  s'.risk.last == Some(Equity(s1.book, EntryPrices(s1))) && s'.risk.day == Some(Day(now)))
            && (s1.book.holdings == map[] ==> s' == s1)
  {
    hide Guarded, Equity, EntryPrices;
  }

  /** So does a close, of whatever is still held then. */
  lemma CloseObserves(s: Session, symbol: string, price: real, now: real)
    requires symbol in s.ledger.open
    ensures var s1, s' := Close(s, symbol, price), CloseAndObserve(s, symbol, price, now);
            && s' == s1.(risk := s'.risk)
            && s'.risk.last == Some(Equity(s1.book, EntryPrices(s1))) && s'.risk.day == Some(Day(now))
  {
    hide Close, Equity, EntryPrices;
  }

  // ---------------------------------------------------------------- statuses, by the name they arrive under

  /**
   * In every reachable state: once a status named RED arrives, the next pass of the monitor empties engine and
   * tracker and raises cash by the net proceeds of every position.
   */
  lemma RedStatusFlattens(maxPairs: nat, barred: bool, maxPosition: real, steps: seq<Step>,
                          recommendation: string, pending: seq<string>, now: real)
    requires ListsOpen(Run(NewSession(maxPairs, barred, maxPosition), steps), pending)
    ensures var s := Run(NewSession(maxPairs, barred, maxPosition), steps);
            var s' := MonitorResult(Next(s, MarketStatus("RED", recommendation)), pending, now);
            && s'.ledger.open == map[] && s'.book.holdings == map[]
            && s'.book.cash == s.book.cash + Sum(NetProceeds(s))
  {
    var s := Run(NewSession(maxPairs, barred, maxPosition), steps);
    var s1 := Next(s, MarketStatus("RED", recommendation));
    assert s1 == s.(risk := s1.risk) && s1.risk.level == Red;
    RunKeepsTracked(NewSession(maxPairs, barred, maxPosition), steps);
    RedPassFlattens(s1, pending, now);
    assert NetProceeds(s1) == NetProceeds(s);
  }

  /** The guardian's prices are the last nonzero ones, and its sales are charged a tenth of a percent. */
  lemma ProceedsAre(maxPairs: nat, barred: bool, maxPosition: real, steps: seq<Step>, x: string)
    requires x in Run(NewSession(maxPairs, barred, maxPosition), steps).ledger.open
    ensures var s := Run(NewSession(maxPairs, barred, maxPosition), steps);
            var p := s.ledger.open[x];
            x in NetProceeds(s)
            && NetProceeds(s)[x] == p.quantity * (if p.current == 0.0 then p.entry else p.current) * 0.999
  {
    hide *;
    RunKeepsFeeRate(NewSession(maxPairs, barred, maxPosition), steps);
    NewFeeRate(maxPairs, barred, maxPosition);
    ProceedsOf(Run(NewSession(maxPairs, barred, maxPosition), steps), x);
  }

  lemma NewFeeRate(maxPairs: nat, barred: bool, maxPosition: real)
    ensures NewSession(maxPairs, barred, maxPosition).book.feeRate == 0.001
  {
  }

  lemma ProceedsOf(s: Session, x: string)
    requires x in s.ledger.open && s.book.feeRate == 0.001
    ensures var p := s.ledger.open[x];
            x in NetProceeds(s)
            && NetProceeds(s)[x] == p.quantity * (if p.current == 0.0 then p.entry else p.current) * 0.999
  {
    var cost := Cost(s.ledger.open[x].quantity, GuardianPrice(s.ledger.open[x]));
    assert cost - Fee(cost, 0.001) == cost * 0.999;
  }

  /** After a status named ORANGE the monitor closes nothing; after one named GREEN or YELLOW neither. */
  lemma OtherStatusesCloseNothing(maxPairs: nat, barred: bool, maxPosition: real, steps: seq<Step>,
                                  level: string, recommendation: string, pending: seq<string>, now: real)
    requires level in {"GREEN", "YELLOW", "ORANGE"}
    ensures var s := Run(NewSession(maxPairs, barred, maxPosition), steps);
            var s' := MonitorResult(Next(s, MarketStatus(level, recommendation)), pending, now);
            s'.ledger == s.ledger && s'.book == s.book && s'.buys == s.buys
  {
    var s0 := NewSession(maxPairs, barred, maxPosition);
    var s1 := Next(Run(s0, steps), MarketStatus(level, recommendation));
    assert Run(s0, steps + [MarketStatus(level, recommendation)]) == s1 by {
      assert (steps + [MarketStatus(level, recommendation)])[..|steps|] == steps;
    }
    StatusIs(Run(s0, steps), level, recommendation);
    OrangePassClosesNothing(maxPairs, barred, maxPosition, steps + [MarketStatus(level, recommendation)], pending, now);
  }

  lemma StatusIs(s: Session, level: string, recommendation: string)
    requires level in {"GREEN", "YELLOW", "ORANGE"}
    ensures var s1 := Next(s, MarketStatus(level, recommendation));
            && s1 == s.(risk := s1.risk) && s1.risk.level != Red
  {
    assert level == "GREEN" || level == "YELLOW" || level == "ORANGE";
  }

  /** After a status named ORANGE or RED no signal buys. */
  lemma HaltingStatusStopsBuys(s: Session, level: string, recommendation: string, signal: Step)
    requires level in {"ORANGE", "RED"} && signal.Signal?
    ensures var s1 := Next(s, MarketStatus(level, recommendation)); Next(s1, signal).buys == s.buys
  {
    var s1 := Next(s, MarketStatus(level, recommendation));
    assert level == "ORANGE" || level == "RED";
    assert Halted(s1.risk.level) && s1.buys == s.buys;
    HaltedStepBuysNothing(s1, signal);
  }

  /** After a status named YELLOW the same BUY asks for half of what it asks for after one named GREEN. */
  lemma YellowAsksForHalf(s: Session, recommendation: string, symbol: string, price: real)
    requires price != 0.0
    ensures var green := BuyQuantity(Next(s, MarketStatus("GREEN", recommendation)), symbol, price);
            var yellow := BuyQuantity(Next(s, MarketStatus("YELLOW", recommendation)), symbol, price);
            green.Some? && yellow.Some? && yellow.value + yellow.value == green.value
  {
    var green := Next(s, MarketStatus("GREEN", recommendation));
    var yellow := Next(s, MarketStatus("YELLOW", recommendation));
    assert EntryPrices(green) == EntryPrices(yellow);
    var full := OrderSize(s.risk.limits.maxPosition, Equity(s.book, EntryPrices(green)[symbol := price]), Green);
    HalfOf(full, price);
  }

  lemma HalfOf(full: real, price: real)
    requires price != 0.0
    ensures (full * 0.5) / price + (full * 0.5) / price == full / price
  {
    QuotientTimes(full * 0.5, price);
    QuotientIs(full, price, (full * 0.5) / price + (full * 0.5) / price);
  }

  /**
   * A status named GREEN or YELLOW lets a BUY pass again: in every reachable state it then depends on everything
   * else that a BUY depends on, and never on what the level was before.
   */
  lemma LiftingStatusLetsBuy(maxPairs: nat, barred: bool, maxPosition: real, steps: seq<Step>, level: string,
                             recommendation: string, symbol: string, price: real, now: real)
    requires level in {"GREEN", "YELLOW"}
    requires var s0 := NewSession(maxPairs, barred, maxPosition);
             OnTime(History(s0, steps + [MarketStatus(level, recommendation)]), now)
    ensures var s0 := NewSession(maxPairs, barred, maxPosition);
            var status := MarketStatus(level, recommendation);
            var s1, h := Next(Run(s0, steps), status), History(s0, steps + [status]);
            && RiskHistory.NameAfter(h) == level
            && (Next(s1, Signal(symbol, BUY, price, now)).buys != s1.buys
                <==> Enters(s1, h, maxPosition, symbol, price, now))
  {
    hide Enters, OnTime;
    var s0, status := NewSession(maxPairs, barred, maxPosition), MarketStatus(level, recommendation);
    assert (steps + [status])[..|steps|] == steps;
    BuyIff(maxPairs, barred, maxPosition, steps + [status], symbol, price, now);
    var before := History(s0, steps);
    assert Calls(Run(s0, steps), status) == [RiskHistory.Status(level, recommendation, 0.0)];
    assert (before + [RiskHistory.Status(level, recommendation, 0.0)])[..|before|] == before;
  }

  lemma EntriesAreHeld(s: Session)
    ensures EntryPrices(s).Keys <= s.book.holdings.Keys
  {
  }

  lemma EntryPriceOf(s: Session, x: string)
    requires x in s.book.holdings
    ensures x in EntryPrices(s) <==> x in s.ledger.open
    ensures x in s.ledger.open ==> EntryPrices(s)[x] == s.ledger.open[x].entry
  {
  }

  class UserSession {
    const maxPairs: nat
    const spotOnly: bool
    const futures: bool
    const positionTracker: PositionTracker
    const riskManager: RiskManager
    const paperEngine: PaperEngine
    ghost var buys: seq<Purchase>

    ghost predicate Valid()
      reads this, positionTracker, positionTracker.Repr, paperEngine, paperEngine.Repr
    {
      && positionTracker.Valid() && paperEngine.Valid()
      && positionTracker.Repr !! paperEngine.Repr
      && {this, riskManager} !! positionTracker.Repr && {this, riskManager} !! paperEngine.Repr
    }

    ghost function State(): Session
      reads this, positionTracker, paperEngine, riskManager
    {
      Session(maxPairs, spotOnly && futures, paperEngine.book, positionTracker.ledger, riskManager.State(), buys)
    }

    constructor (plan: string, futures: bool, maxPosition: real)
      ensures Valid() && fresh(positionTracker.Repr) && fresh(paperEngine.Repr) && fresh(riskManager)
      ensures State() == PlanSession(plan, futures, maxPosition)
    {
      var limits := GetPlanLimits(plan);
      maxPairs, spotOnly, this.futures := limits.maxPairs, limits.spotOnly, futures;
      positionTracker := new PositionTracker();
      riskManager := new RiskManager(SessionLimits(maxPosition), START_BALANCE);
      paperEngine := new PaperEngine(START_BALANCE, 0.001);
      buys := [];
    }

    /** The tracker's open record of a symbol, if there is one. */
    method GetOpen(symbol: string) returns (pos: Position?)
      requires Valid()
      ensures pos == null <==> symbol !in State().ledger.open
      ensures pos != null ==> symbol in positionTracker.positions && pos == positionTracker.positions[symbol]
                              && pos.Value() == State().ledger.open[symbol]
    {
      pos := positionTracker.GetOpenPosition(symbol);
    }

    method Held() returns (symbols: set<string>)
      requires Valid()
      ensures symbols == State().book.holdings.Keys
    {
      symbols := paperEngine.positions.Keys;
    }

    /** Adds to `given` the entry price of every other holding that the tracker knows. */
    method MarketPrices(given: map<string, real>) returns (prices: map<string, real>)
      requires Valid()
      ensures prices == EntryPrices(State()) + given
    {
      hide Valid, EntryPrices;
      prices := given;
      var todo := Held();
      ghost var s := State();
      EntriesAreHeld(s);
      while todo != {}
        invariant todo <= s.book.holdings.Keys
        invariant prices.Keys == given.Keys + (EntryPrices(s).Keys - todo)
        invariant forall x :: x in prices ==> prices[x] == if x in given then given[x] else EntryPrices(s)[x]
        decreases todo
      {
        var sym :| sym in todo;
        todo := todo - {sym};
        EntryPriceOf(s, sym);
        if sym !in prices {
          var pos := GetOpen(sym);
          if pos != null {
            prices := prices[sym := pos.entryPrice];
          }
        }
      }
    }

    /** The engine's equity at the entry prices, with the signal's price for its symbol. */
    method EquityAt(symbol: string, price: real) returns (equity: real)
      requires Valid()
      ensures equity == Equity(State().book, EntryPrices(State())[symbol := price])
    {
      var prices := MarketPrices(map[symbol := price]);
      assert prices == EntryPrices(State())[symbol := price];
      equity := paperEngine.GetTotalEquity(prices);
    }

    method ObserveBalance(now: real)
      requires Valid()
      modifies riskManager
      ensures Valid() && State() == Observe(old(State()), now)
    {
      var prices := MarketPrices(map[]);
      assert prices == EntryPrices(State());
      var equity := paperEngine.GetTotalEquity(prices);
      riskManager.UpdateBalance(equity, now);
    }

    method ValidateOrder(quantity: real, price: real) returns (ok: bool)
      requires Valid()
      ensures ok == ValidOrder(|State().ledger.open|, quantity, price)
    {
      if Cost(quantity, price) < MIN_NOTIONAL {
        return false;
      }
      var openCount := |positionTracker.positions.Keys|;
      assert openCount == |State().ledger.open.Keys| == |State().ledger.open|;
      return openCount < HARD_CAP;
    }

    /** The quantity a BUY asks for; no answer when the division raises. */
    method SizeOrder(symbol: string, price: real) returns (quantity: Option<real>)
      requires Valid()
      ensures quantity == BuyQuantity(State(), symbol, price)
    {
      hide Equity, EntryPrices;
      var available := EquityAt(symbol, price);
      quantity := riskManager.CalculatePositionSize(available, price);
      if quantity.Some? {
        QuotientIs(OrderSize(riskManager.limits.maxPosition, available, riskManager.marketLevel), price,
                   quantity.value);
      }
    }

    method OpenPosition(symbol: string, price: real, now: real)
      requires Valid()
      modifies this, riskManager, paperEngine, positionTracker
      ensures Valid() && State() == Enter(old(State()), symbol, price, now)
      ensures fresh(paperEngine.Repr - old(paperEngine.Repr)) && fresh(positionTracker.Repr - old(positionTracker.Repr))
    {
      var quantity := SizeOrder(symbol, price);
      if quantity == None || quantity.value <= 0.0 {
        return;
      }
      var ok := ValidateOrder(quantity.value, price);
      if !ok {
        return;
      }
      Buy(symbol, quantity.value, price, now);
    }

    /** Places the order and records what it filled at. */
    method Buy(symbol: string, quantity: real, price: real, now: real)
      requires Valid()
      modifies this, riskManager, paperEngine, positionTracker
      ensures Valid() && State() == EnterPosition(old(State()), symbol, quantity, price, now)
      ensures fresh(paperEngine.Repr - old(paperEngine.Repr)) && fresh(positionTracker.Repr - old(positionTracker.Repr))
    {
      hide Valid, PaperBook.CreateOrder, PositionLedger.OpenPosition, RiskRules.RecordTrade;
      var order := PlaceBuy(symbol, quantity, price);
      if order == null {
        return;
      }
      ghost var value := order.Value();
      Track(symbol, order.avgPrice, quantity, price);
      Record(symbol, quantity, now, value);
    }

    method PlaceBuy(symbol: string, quantity: real, price: real) returns (order: PaperOrder?)
      requires Valid()
      modifies paperEngine
      ensures Valid() && fresh(paperEngine.Repr - old(paperEngine.Repr))
              && positionTracker.Repr == old(positionTracker.Repr)
      ensures match PaperBook.CreateOrder(old(State()).book, BuyOrder(symbol, quantity, price))
              case Done(book, o) => order != null && order.Value() == o && State() == old(State()).(book := book)
              case Error => order == null && State() == old(State())
    {
      order := paperEngine.CreateOrder(symbol, Side.Buy, Market, quantity, price, Some(StopFor(price)),
                                       Some(TargetFor(price)));
    }

    method Track(symbol: string, entry: real, quantity: real, price: real)
      requires Valid()
      modifies positionTracker
      ensures Valid() && fresh(positionTracker.Repr - old(positionTracker.Repr))
              && paperEngine.Repr == old(paperEngine.Repr)
      ensures State() == old(State()).(ledger := PositionLedger.OpenPosition(old(State()).ledger,
                NewPos(symbol, Side.Buy, entry, quantity, Some(StopFor(price)), Some(TargetFor(price)))))
    {
      var _ := positionTracker.OpenPosition(symbol, Side.Buy, entry, quantity, Some(StopFor(price)),
                                            Some(TargetFor(price)));
    }

    method Record(symbol: string, quantity: real, now: real, ghost value: Order)
      requires Valid()
      modifies this, riskManager
      ensures Valid() && positionTracker.Repr == old(positionTracker.Repr) && paperEngine.Repr == old(paperEngine.Repr)
      ensures State() == old(State()).(risk := RiskRules.RecordTrade(old(State()).risk, symbol, now),
                                       buys := old(State()).buys + [Purchase(symbol, quantity, now, value)])
    {
      riskManager.RecordTrade(symbol, now);
      buys := buys + [Purchase(symbol, quantity, now, value)];
    }

    /** Sells what the tracker holds and closes the record. */
    method SellHolding(symbol: string, pos: Position, price: real)
      requires Valid() && symbol in positionTracker.positions && pos == positionTracker.positions[symbol]
      modifies paperEngine, positionTracker.Repr
      ensures Valid() && State() == Close(old(State()), symbol, price)
      ensures fresh(paperEngine.Repr - old(paperEngine.Repr)) && positionTracker.Repr == old(positionTracker.Repr)
    {
      var order := paperEngine.CreateOrder(symbol, Sell, Market, pos.quantity, price, None, None);
      CloseTracked(symbol, price);
    }

    method ClosePosition(symbol: string, price: real, now: real)
      requires Valid()
      modifies riskManager, paperEngine, positionTracker.Repr
      ensures Valid() && State() == CloseAndObserve(old(State()), symbol, price, now)
      ensures fresh(paperEngine.Repr - old(paperEngine.Repr)) && positionTracker.Repr == old(positionTracker.Repr)
    {
      hide Valid, Close, Observe;
      var pos := GetOpen(symbol);
      if pos == null {
        return;
      }
      SellHolding(symbol, pos, price);
      ObserveBalance(now);
    }

    /** Observes the balance at the signal's price and asks the risk manager. */
    method AskRisk(symbol: string, price: real, now: real) returns (verdict: Verdict)
      requires Valid()
      modifies riskManager
      ensures Valid() && (State(), verdict) == TradingSession.AskRisk(old(State()), symbol, price, now)
    {
      hide Equity, EntryPrices, RiskRules.UpdateBalance, RiskRules.CanTrade;
      var equity := EquityAt(symbol, price);
      riskManager.UpdateBalance(equity, now);
      verdict := riskManager.CanTrade(symbol, positionTracker.positions.Keys, now);
    }

    /** Buys what is not held, sells what is, and otherwise does nothing. */
    method Act(symbol: string, action: Action, price: real, now: real)
      requires Valid()
      modifies this, riskManager, paperEngine, positionTracker.Repr
      ensures Valid() && State() == ActAndObserve(old(State()), symbol, action, price, now)
      ensures fresh(paperEngine.Repr - old(paperEngine.Repr)) && fresh(positionTracker.Repr - old(positionTracker.Repr))
    {
      if symbol in positionTracker.positions {
        if action == SELL {
          ClosePosition(symbol, price, now);
        }
      } else if action == BUY {
        OpenPosition(symbol, price, now);
      }
    }

    method ExecuteForUser(symbol: string, action: Action, price: real, now: real)
      requires Valid() && action != HOLD
      modifies this, riskManager, paperEngine, positionTracker.Repr
      ensures Valid() && State() == AfterSignal(old(State()), symbol, action, price, now)
      ensures fresh(paperEngine.Repr - old(paperEngine.Repr)) && fresh(positionTracker.Repr - old(positionTracker.Repr))
    {
      if spotOnly && futures {
        return;
      }
      var currentPairs := |positionTracker.positions.Keys|;
      assert currentPairs == |State().ledger.open.Keys| == |State().ledger.open|;
      if currentPairs >= maxPairs {
        return;
      }
      var verdict := AskRisk(symbol, price, now);
      if verdict != Allowed {
        return;
      }
      Act(symbol, action, price, now);
    }

    method OnPriceUpdate(symbol: string, price: real)
      requires Valid()
      modifies paperEngine, positionTracker.Repr
      ensures Valid() && State() == OnTick(old(State()), symbol, price)
      ensures fresh(paperEngine.Repr - old(paperEngine.Repr)) && positionTracker.Repr == old(positionTracker.Repr)
    {
      hide Valid, UpdatePrice, TickPrice, PositionLedger.ClosePosition;
      MarkTracked(symbol, price);
      var sold := TickEngine(symbol, price);
      if sold {
        CloseTracked(symbol, price);
      }
    }

    method MarkTracked(symbol: string, price: real)
      requires Valid()
      modifies positionTracker.Repr
      ensures Valid() && State() == old(State()).(ledger := UpdatePrice(old(State()).ledger, symbol, price))
      ensures paperEngine.Repr == old(paperEngine.Repr) && positionTracker.Repr == old(positionTracker.Repr)
    {
      var _ := positionTracker.UpdatePrice(symbol, price);
    }

    method TickEngine(symbol: string, price: real) returns (sold: bool)
      requires Valid()
      modifies paperEngine
      ensures Valid() && State() == old(State()).(book := TickPrice(old(State()).book, symbol, price).0)
      ensures sold == TickPrice(old(State()).book, symbol, price).1
      ensures fresh(paperEngine.Repr - old(paperEngine.Repr)) && positionTracker.Repr == old(positionTracker.Repr)
    {
      sold := paperEngine.UpdatePrice(symbol, price);
    }

    method CloseTracked(symbol: string, price: real)
      requires Valid()
      modifies positionTracker.Repr
      ensures Valid()
      ensures State() == old(State()).(ledger := PositionLedger.ClosePosition(old(State()).ledger, symbol, price))
      ensures paperEngine.Repr == old(paperEngine.Repr) && positionTracker.Repr == old(positionTracker.Repr)
    {
      var _ := positionTracker.ClosePosition(symbol, price);
    }

    method HandleMarketStatus(level: string, recommendation: string)
      requires Valid()
      modifies riskManager
      ensures Valid() && State() == Next(old(State()), MarketStatus(level, recommendation))
    {
      riskManager.SetMarketStatus(level, recommendation);
    }

    /** The names of the open positions, each once. */
    method ListOpen() returns (pending: seq<string>)
      requires Valid()
      ensures ListsOpen(State(), pending)
    {
      pending := [];
      var todo := positionTracker.positions.Keys;
      while todo != {}
        invariant todo <= positionTracker.positions.Keys
        invariant forall x :: x in pending <==> x in positionTracker.positions.Keys - todo
        invariant forall i, j :: 0 <= i < j < |pending| ==> pending[i] != pending[j]
        decreases todo
      {
        var sym :| sym in todo;
        assert sym !in pending;
        todo := todo - {sym};
        pending := pending + [sym];
      }
    }

    /** The guardian's look at one position under an ORANGE or RED level. */
    method GuardianLook(symbol: string, level: Level, now: real)
      requires Valid()
      modifies riskManager, paperEngine, positionTracker.Repr
      ensures Valid() && State() == GuardianStep(old(State()), level, symbol, now)
      ensures fresh(paperEngine.Repr - old(paperEngine.Repr)) && positionTracker.Repr == old(positionTracker.Repr)
    {
      hide Valid, Close, Observe;
      var pos := GetOpen(symbol);
      if pos != null && (level == Red || (level == Orange && pos.realizedPnl < 0.0)) {
        ClosePosition(symbol, if pos.currentPrice != 0.0 then pos.currentPrice else pos.entryPrice, now);
      }
    }

    method GuardianPass(level: Level, pending: seq<string>, now: real)
      requires Valid()
      modifies riskManager, paperEngine, positionTracker.Repr
      ensures Valid() && State() == SessionGuardian.GuardianPass(old(State()), level, pending, now)
      ensures fresh(paperEngine.Repr - old(paperEngine.Repr)) && positionTracker.Repr == old(positionTracker.Repr)
    {
      for i := 0 to |pending|
        invariant Valid()
        invariant SessionGuardian.GuardianPass(State(), level, pending[i..], now)
               == SessionGuardian.GuardianPass(old(State()), level, pending, now)
        invariant fresh(paperEngine.Repr - old(paperEngine.Repr)) && positionTracker.Repr == old(positionTracker.Repr)
      {
        assert pending[i..][1..] == pending[i + 1..];
        GuardianLook(pending[i], level, now);
      }
    }

    method Guard(pending: seq<string>, now: real)
      requires Valid()
      modifies riskManager, paperEngine, positionTracker.Repr
      ensures Valid() && State() == Guarded(old(State()), pending, now)
      ensures fresh(paperEngine.Repr - old(paperEngine.Repr)) && positionTracker.Repr == old(positionTracker.Repr)
    {
      var level := riskManager.marketLevel;
      if level == Orange || level == Red {
        GuardianPass(level, pending, now);
      }
    }

    /** One pass of the monitor; `pending` is the order in which it looked at the open positions. */
    method MonitorPass(now: real) returns (pending: seq<string>)
      requires Valid()
      modifies riskManager, paperEngine, positionTracker.Repr
      ensures Valid() && ListsOpen(old(State()), pending)
      ensures State() == MonitorResult(old(State()), pending, now)
      ensures fresh(paperEngine.Repr - old(paperEngine.Repr)) && positionTracker.Repr == old(positionTracker.Repr)
    {
      hide SessionGuardian.GuardianPass, Observe, ListsOpen;
      pending := ListOpen();
      Guard(pending, now);
      if paperEngine.positions != map[] {
        ObserveBalance(now);
      }
    }
  }
}
