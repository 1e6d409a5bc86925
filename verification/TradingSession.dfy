/**
 * One user's paper-trading session as a state machine. Its steps are what the trader does without
 * suspending: a signal, a price tick, a market status, one guardian close, one balance observation.
 * Prices and clock readings are arbitrary real numbers.
 */
module TradingSession {
  import opened Collections
  import opened Signals
  import opened PaperBook
  import opened PositionLedger
  import opened RiskRules
  import opened Plans

  const START_BALANCE := 10000.0
  const MIN_NOTIONAL := 5.0
  const HARD_CAP := 50

  /** A history record: what a BUY asked for, when, and the order it got. */
  datatype Purchase = Purchase(symbol: string, requested: real, time: real, order: Order)

  /** `barred` says that the plan is spot-only and the user trades futures. `buys` is a history variable. */
  datatype Session = Session(
    maxPairs: nat, barred: bool, book: Book, ledger: Ledger, risk: Risk, buys: seq<Purchase>)

  datatype Step =
    | Signal(symbol: string, action: Action, price: real, now: real)
    | Tick(symbol: string, price: real)
    | MarketStatus(level: string, recommendation: string)
    | GuardianClose(symbol: string, price: real)
    | ObserveBalance(now: real)

  function SessionLimits(maxPosition: real): Limits { Limits(maxPosition, 5.0, 10.0, 300.0, 2) }

  function NewSession(maxPairs: nat, barred: bool, maxPosition: real): Session
  {
    Session(maxPairs, barred,
            Book(START_BALANCE, 0.001, map[], [], [], 0.0),
            Ledger(map[], [], 0.0),
            Initial(SessionLimits(maxPosition), START_BALANCE), [])
  }

  function PlanSession(plan: string, futures: bool, maxPosition: real): Session
  {
    var limits := GetPlanLimits(plan);
    NewSession(limits.maxPairs, limits.spotOnly && futures, maxPosition)
  }

  /** Three pairs and no futures on basic and unknown plans, ten pairs on pro, 999 on enterprise. */
  lemma PlanSessionIs(plan: string, futures: bool, maxPosition: real)
    ensures PlanSession("pro", futures, maxPosition) == NewSession(10, false, maxPosition)
    ensures PlanSession("enterprise", futures, maxPosition) == NewSession(999, false, maxPosition)
    ensures plan !in {"pro", "enterprise"} ==>
      PlanSession(plan, futures, maxPosition) == NewSession(3, futures, maxPosition)
  {
  }

  /** The prices a balance check uses: what the tracker says each holding was entered at. */
  function EntryPrices(s: Session): map<string, real>
  {
    map x | x in s.book.holdings && x in s.ledger.open :: s.ledger.open[x].entry
  }

  ghost function Observe(s: Session, now: real): Session
  {
    s.(risk := UpdateBalance(s.risk, Equity(s.book, EntryPrices(s)), Day(now)))
  }

  function StopFor(price: real): real
  {
    var stop := price * (1.0 - 1.5 / 100.0);
    if stop <= 0.0 then 0.0 else stop
  }

  function TargetFor(price: real): real { price * (1.0 + 5.0 / 100.0) }

  /** The order a BUY of `quantity` places. */
  function BuyOrder(symbol: string, quantity: real, price: real): Order
  {
    NewOrder(symbol, Buy, Market, quantity, price, Some(StopFor(price)), Some(TargetFor(price)))
  }

  /** How much a BUY at this price asks for; no answer when the price is zero and the division raises. */
  ghost function BuyQuantity(s: Session, symbol: string, price: real): Option<real>
  {
    if price == 0.0 then None
    else Some(OrderSize(s.risk.limits.maxPosition, Equity(s.book, EntryPrices(s)[symbol := price]),
                        s.risk.level) / price)
  }

  predicate ValidOrder(openCount: nat, quantity: real, price: real)
  {
    Cost(quantity, price) >= MIN_NOTIONAL && openCount < HARD_CAP
  }

  /** The tracker opens the quantity asked for, at whatever average price the order reports. */
  function EnterPosition(s: Session, symbol: string, quantity: real, price: real, now: real): Session
  {
    match CreateOrder(s.book, BuyOrder(symbol, quantity, price))
    case Error => s
    case Done(book, o) =>
      var p := NewPos(symbol, Buy, o.avgPrice, quantity, Some(StopFor(price)), Some(TargetFor(price)));
      s.(book := book, ledger := OpenPosition(s.ledger, p), risk := RecordTrade(s.risk, symbol, now),
         buys := s.buys + [Purchase(symbol, quantity, now, o)])
  }

  ghost function Enter(s: Session, symbol: string, price: real, now: real): Session
  {
    var q := BuyQuantity(s, symbol, price);
    if q == None || q.value <= 0.0 || !ValidOrder(|s.ledger.open|, q.value, price) then s
    else EnterPosition(s, symbol, q.value, price, now)
  }

  /** The engine sells what the tracker holds, and the tracker closes at the price asked for. */
  function Close(s: Session, symbol: string, price: real): Session
  {
    if symbol !in s.ledger.open then s
    else
      match CreateOrder(s.book, MarketSell(symbol, s.ledger.open[symbol].quantity, price))
      case Error => s
      case Done(book, _) => s.(book := book, ledger := ClosePosition(s.ledger, symbol, price))
  }

  /** The balance observed and the verdict asked for when a signal arrives. */
  ghost function AskRisk(s: Session, symbol: string, price: real, now: real): (Session, Verdict)
  {
    var r := UpdateBalance(s.risk, Equity(s.book, EntryPrices(s)[symbol := price]), Day(now));
    var (r', v) := CanTrade(r, symbol, s.ledger.open.Keys, now);
    (s.(risk := r'), v)
  }

  /** A BUY of what is not held, a SELL of what is; anything else does nothing. */
  ghost function Act(s: Session, symbol: string, action: Action, price: real, now: real): Session
  {
    if symbol in s.ledger.open then (if action == SELL then Close(s, symbol, price) else s)
    else if action == BUY then Enter(s, symbol, price, now)
    else s
  }

  ghost function OnSignal(s: Session, symbol: string, action: Action, price: real, now: real): Session
  {
    if action == HOLD || s.barred || |s.ledger.open| >= s.maxPairs then s
    else
      var (s', v) := AskRisk(s, symbol, price, now);
      if v != Allowed then s' else Act(s', symbol, action, price, now)
  }

  function OnTick(s: Session, symbol: string, price: real): Session
  {
    var ledger := UpdatePrice(s.ledger, symbol, price);
    var (book, sold) := TickPrice(s.book, symbol, price);
    s.(book := book, ledger := if sold then ClosePosition(ledger, symbol, price) else ledger)
  }

  ghost function Next(s: Session, step: Step): Session
  {
    match step
    case Signal(symbol, action, price, now) => OnSignal(s, symbol, action, price, now)
    case Tick(symbol, price) => OnTick(s, symbol, price)
    case MarketStatus(level, recommendation) => s.(risk := SetMarketStatus(s.risk, level, recommendation))
    case GuardianClose(symbol, price) => Close(s, symbol, price)
    case ObserveBalance(now) => Observe(s, now)
  }

  ghost function Run(s: Session, steps: seq<Step>): Session
  {
    if steps == [] then s else Next(Run(s, steps[..|steps| - 1]), steps[|steps| - 1])
  }

  ghost predicate Reaches(s: Session, s': Session) { exists steps :: Run(s, steps) == s' }

  lemma NoStep(s: Session)
    ensures Reaches(s, s)
  {
    assert Run(s, []) == s;
  }

  lemma OneStep(s: Session, step: Step)
    ensures Reaches(s, Next(s, step))
  {
    assert [step][..0] == [];
    assert Run(s, [step]) == Next(s, step);
  }

  lemma {:induction false} RunAppend(s: Session, a: seq<Step>, b: seq<Step>)
    ensures Run(s, a + b) == Run(Run(s, a), b)
  {
    if b == [] {
      assert a + b == a;
    } else {
      var n := |b| - 1;
      assert (a + b)[..|a + b| - 1] == a + b[..n];
      RunAppend(s, a, b[..n]);
    }
  }

  lemma ReachesOn(s: Session, s1: Session, s2: Session)
    requires Reaches(s, s1) && Reaches(s1, s2)
    ensures Reaches(s, s2)
  {
    var a :| Run(s, a) == s1;
    var b :| Run(s1, b) == s2;
    RunAppend(s, a, b);
    assert Run(s, a + b) == s2;
  }

  // ---------------------------------------------------------------- signals as the trader handles them

  /** Acting on an allowed signal; closing a position ends with an observation of the balance. */
  ghost function ActAndObserve(s: Session, symbol: string, action: Action, price: real, now: real): Session
  {
    var s' := Act(s, symbol, action, price, now);
    if symbol in s.ledger.open && action == SELL then Observe(s', now) else s'
  }

  /** What handling a signal does: the step, and the balance observed after a position was closed. */
  ghost function AfterSignal(s: Session, symbol: string, action: Action, price: real, now: real): Session
  {
    if action == HOLD || s.barred || |s.ledger.open| >= s.maxPairs then s
    else
      var (s', v) := AskRisk(s, symbol, price, now);
      if v != Allowed then s' else ActAndObserve(s', symbol, action, price, now)
  }

  lemma SignalIsARun(s: Session, symbol: string, action: Action, price: real, now: real)
    ensures Reaches(s, AfterSignal(s, symbol, action, price, now))
  {
    var s1 := Next(s, Signal(symbol, action, price, now));
    OneStep(s, Signal(symbol, action, price, now));
    OneStep(s1, ObserveBalance(now));
    ReachesOn(s, s1, Next(s1, ObserveBalance(now)));
    assert AfterSignal(s, symbol, action, price, now) == s1
        || AfterSignal(s, symbol, action, price, now) == Observe(s1, now);
  }

  ghost function Handle(s: Session, signal: Step): Session
    requires signal.Signal?
  {
    AfterSignal(s, signal.symbol, signal.action, signal.price, signal.now)
  }

  predicate AllSignals(steps: seq<Step>) { forall i :: 0 <= i < |steps| ==> steps[i].Signal? }

  /** Signals handled one after the other, with nothing else happening. */
  ghost function HandleAll(s: Session, signals: seq<Step>): Session
    requires AllSignals(signals)
  {
    if signals == [] then s else Handle(HandleAll(s, signals[..|signals| - 1]), signals[|signals| - 1])
  }

  lemma {:induction false} HandleAppend(s: Session, a: seq<Step>, b: seq<Step>)
    requires AllSignals(a) && AllSignals(b)
    ensures AllSignals(a + b) && HandleAll(s, a + b) == HandleAll(HandleAll(s, a), b)
  {
    if b == [] {
      assert a + b == a;
    } else {
      var n := |b| - 1;
      assert (a + b)[..|a + b| - 1] == a + b[..n];
      HandleAppend(s, a, b[..n]);
    }
  }

  /** Handling signals is a run of steps. */
  lemma {:induction false} HandlingIsARun(s: Session, signals: seq<Step>)
    requires AllSignals(signals)
    ensures Reaches(s, HandleAll(s, signals))
  {
    if signals == [] {
      NoStep(s);
    } else {
      var n := |signals| - 1;
      var s1, last := HandleAll(s, signals[..n]), signals[n];
      HandlingIsARun(s, signals[..n]);
      SignalIsARun(s1, last.symbol, last.action, last.price, last.now);
      ReachesOn(s, s1, HandleAll(s, signals));
    }
  }
}
