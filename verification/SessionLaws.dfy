/**
 * What every run of a paper session keeps. The engine and the tracker keep two ledgers that nothing
 * in the program compares; here they are proved to agree, and money to be conserved, for as long as
 * every BUY is filled in full.
 */
module SessionLaws {
  import opened Collections
  import opened Arithmetic
  import opened Signals
  import opened PaperBook
  import opened PositionLedger
  import opened RiskRules
  import opened TradingSession

  /** A holding of the engine and a position of the tracker that are the same long position. */
  predicate SamePosition(o: Order, p: Pos)
  {
    && o.side == Buy && p.side == Buy && o.status == Filled && p.status == Status.Open
    && o.filled == o.quantity == p.quantity > 0.0
    && o.avgPrice == p.entry > 0.0
    && o.stopLoss == p.stopLoss == Some(StopFor(p.entry))
    && o.takeProfit == p.takeProfit == Some(TargetFor(p.entry))
    && p.realized == 0.0
    && p.unrealized == Gain(Buy, p.entry, p.current, p.quantity)
  }

  /** The last price the tracker saw is less than 1.5% below and less than 5% above the entry. */
  predicate Bracketed(p: Pos) { 0.985 * p.entry < p.current < 1.05 * p.entry }

  ghost predicate LedgersAgree(s: Session)
  {
    && s.book.holdings.Keys == s.ledger.open.Keys
    && forall x :: x in s.ledger.open ==>
         SamePosition(s.book.holdings[x], s.ledger.open[x]) && Bracketed(s.ledger.open[x])
  }

  /** What the open holdings cost when they were bought, fees apart. */
  ghost function EntryCosts(b: Book): map<string, real>
  {
    map x | x in b.holdings :: Cost(b.holdings[x].quantity, b.holdings[x].avgPrice)
  }

  ghost predicate MoneyConserved(s: Session)
  {
    s.book.cash + Sum(EntryCosts(s.book)) + s.book.feesPaid == START_BALANCE + s.ledger.realized
  }

  ghost predicate Sound(s: Session)
  {
    LedgersAgree(s) && MoneyConserved(s) && s.book.feeRate == 0.001
  }

  predicate FilledInFull(p: Purchase) { p.order.status == Filled && p.order.filled == p.requested }

  ghost predicate AllFilled(buys: seq<Purchase>) { forall i :: 0 <= i < |buys| ==> FilledInFull(buys[i]) }

  // ---------------------------------------------------------------- one step

  lemma GainIsDifference(quantity: real, entry: real, price: real)
    ensures Gain(Buy, entry, price, quantity) == Cost(quantity, price) - Cost(quantity, entry)
  {
  }

  /** The engine is paid and the tracker closes: what goes out of the holdings comes in as cash, fee and gain. */
  lemma SaleKeepsMoney(s: Session, symbol: string, price: real, f: Order, s': Session)
    requires MoneyConserved(s) && symbol in s.book.holdings && symbol in s.ledger.open
    requires SamePosition(s.book.holdings[symbol], s.ledger.open[symbol])
    requires var q := s.ledger.open[symbol].quantity;
             && s'.book.holdings == s.book.holdings - {symbol}
             && s'.book.cash == s.book.cash + (Cost(q, price) - f.fee) && s'.book.feesPaid == s.book.feesPaid + f.fee
             && s'.ledger.realized == s.ledger.realized + Gain(Buy, s.ledger.open[symbol].entry, price, q)
    ensures MoneyConserved(s')
  {
    var costs := EntryCosts(s.book);
    SumRemove(costs, symbol);
    assert EntryCosts(s'.book) == costs - {symbol};
    var p := s.ledger.open[symbol];
    GainIsDifference(p.quantity, p.entry, price);
  }

  /** Both ways of selling, with any record of the order kept. */
  lemma SaleKeepsSound(s: Session, symbol: string, price: real, f: Order, s': Session)
    requires Sound(s) && symbol in s.ledger.open
    requires f.symbol == symbol
    requires var q := s.ledger.open[symbol].quantity;
             s'.book.(orders := []) == Sold(s.book, f, Cost(q, price)).(orders := [])
    requires s'.ledger.open == s.ledger.open - {symbol}
    requires s'.ledger.realized == s.ledger.realized
             + Gain(Buy, s.ledger.open[symbol].entry, price, s.ledger.open[symbol].quantity)
    ensures Sound(s')
  {
    SaleKeepsMoney(s, symbol, price, f, s');
  }

  lemma CloseKeepsSound(s: Session, symbol: string, price: real)
    requires Sound(s)
    ensures Sound(Close(s, symbol, price))
  {
    if symbol in s.ledger.open {
      var o := MarketSell(symbol, s.ledger.open[symbol].quantity, price);
      var f := CreateOrder(s.book, o).order;
      SaleKeepsSound(s, symbol, price, f, Close(s, symbol, price));
    }
  }

  lemma TickKeepsSound(s: Session, symbol: string, price: real)
    requires Sound(s)
    ensures Sound(OnTick(s, symbol, price))
  {
    if symbol in s.ledger.open {
      var p := s.ledger.open[symbol];
      var s' := OnTick(s, symbol, price);
      if TickPrice(s.book, symbol, price).1 {
        assert UpdatePrice(s.ledger, symbol, price).open - {symbol} == s.ledger.open - {symbol};
        var f := Settle(s.book, MarketSell(symbol, p.quantity, price), price).order;
        SaleKeepsSound(s, symbol, price, f, s');
      } else {
        assert StopFor(p.entry) != 0.0;
        assert Bracketed(Marked(p, price));
      }
    }
  }

  /**
   * A tick closes a position, in both ledgers, if and only if its price is at least 1.5% below the entry or at
   * least 5% above it.
   */
  lemma TickClosesIff(s: Session, symbol: string, price: real)
    requires Sound(s) && symbol in s.ledger.open
    ensures var s', entry := OnTick(s, symbol, price), s.ledger.open[symbol].entry;
            && (symbol !in s'.ledger.open <==> price <= 0.985 * entry || price >= 1.05 * entry)
            && (symbol !in s'.book.holdings <==> symbol !in s'.ledger.open)
            && (symbol in s'.ledger.open ==> s'.ledger.open[symbol].current == price)
  {
    var p := s.ledger.open[symbol];
    assert StopFor(p.entry) == 0.985 * p.entry && TargetFor(p.entry) == 1.05 * p.entry;
    assert UpdatePrice(s.ledger, symbol, price).open[symbol] == Marked(p, price);
  }

  /** What is paid for a new holding is its cost and the fee. */
  lemma PurchaseKeepsMoney(s: Session, s': Session, symbol: string, f: Order)
    requires MoneyConserved(s) && symbol !in s.book.holdings && s'.ledger.realized == s.ledger.realized
    requires s'.book.holdings == s.book.holdings[symbol := f]
    requires s'.book.cash == s.book.cash - (Cost(f.quantity, f.avgPrice) + f.fee)
             && s'.book.feesPaid == s.book.feesPaid + f.fee
    ensures MoneyConserved(s')
  {
    var costs := EntryCosts(s.book);
    SumAdd(costs, symbol, Cost(f.quantity, f.avgPrice));
    assert EntryCosts(s'.book) == costs[symbol := Cost(f.quantity, f.avgPrice)];
  }

  /** A BUY that the cash covers is filled in full and keeps both ledgers right. */
  lemma CoveredBuyKeepsSound(s: Session, symbol: string, quantity: real, price: real, now: real)
    requires Sound(s) && symbol !in s.ledger.open
    requires quantity > 0.0 && price > 0.0
    requires Cost(quantity, price) + Fee(Cost(quantity, price), 0.001) <= s.book.cash
    ensures Sound(EnterPosition(s, symbol, quantity, price, now))
    ensures var buys := EnterPosition(s, symbol, quantity, price, now).buys;
            |buys| == |s.buys| + 1 && buys[..|s.buys|] == s.buys && FilledInFull(buys[|s.buys|])
  {
    var s' := EnterPosition(s, symbol, quantity, price, now);
    PurchaseKeepsMoney(s, s', symbol, s'.book.holdings[symbol]);
  }

  lemma RoundDownStaysBelow(x: real)
    ensures x >= 0.0 ==> RoundDown5(x) <= x
    ensures x < 0.0 ==> RoundDown5(x) <= 0.0
  {
  }

  /** A BUY that the cash does not cover gets less than it asked for, or nothing. */
  lemma UncoveredBuyFallsShort(b: Book, o: Order)
    requires o.side == Buy && o.kind == Market && b.feeRate == 0.001 && o.quantity > 0.0 && o.price > 0.0
    requires Cost(o.quantity, o.price) + Fee(Cost(o.quantity, o.price), 0.001) > b.cash
    ensures var r := CreateOrder(b, o);
            r.Done? && if r.order.status == Filled then 0.0 < r.order.filled == r.order.quantity < o.quantity
                       else r.order.status == Rejected && r.book.holdings == b.holdings
  {
    var unit := UnitPrice(o.price, 0.001);
    assert unit > 0.0;
    assert o.quantity * unit == Cost(o.quantity, o.price) + Fee(Cost(o.quantity, o.price), 0.001);
    RoundDownStaysBelow(b.cash / unit);
    QuotientBelow(b.cash, unit, o.quantity);
  }

  /** The session after the risk check of a signal, and what a BUY would then ask for. */
  ghost function Checked(s: Session, step: Step): Session
    requires step.Signal?
  {
    AskRisk(s, step.symbol, step.price, step.now).0
  }

  ghost function Requested(s: Session, step: Step): real
    requires step.Signal?
  {
    match BuyQuantity(Checked(s, step), step.symbol, step.price)
    case Some(q) => q
    case None => 0.0
  }

  /** What a BUY would cost, with its fee. */
  ghost function Bill(s: Session, step: Step): real
    requires step.Signal?
  {
    var cost := Cost(Requested(s, step), step.price);
    cost + Fee(cost, 0.001)
  }

  /** When a step buys, it is a BUY signal for a symbol not held that passed every gate. */
  lemma BuyStep(s: Session, step: Step)
    requires Next(s, step).buys != s.buys
    ensures step.Signal? && step.action == BUY && step.symbol !in s.ledger.open
    ensures |s.ledger.open| < s.maxPairs && |s.ledger.open| < HARD_CAP
    ensures AskRisk(s, step.symbol, step.price, step.now).1 == Allowed
    ensures Requested(s, step) > 0.0 && step.price > 0.0 && Cost(Requested(s, step), step.price) >= MIN_NOTIONAL
    ensures Next(s, step) == EnterPosition(Checked(s, step), step.symbol, Requested(s, step), step.price, step.now)
  {
    assert Cost(Requested(s, step), step.price) >= MIN_NOTIONAL;
    PositiveFactor(Requested(s, step), step.price);
  }

  /** Steps that do not buy keep both ledgers right whatever they are. */
  lemma OtherStepKeepsSound(s: Session, step: Step)
    requires Sound(s) && Next(s, step).buys == s.buys
    ensures Sound(Next(s, step))
  {
    match step
    case Signal(symbol, action, price, now) =>
      var (s', v) := AskRisk(s, symbol, price, now);
      CloseKeepsSound(s', symbol, price);
    case Tick(symbol, price) => TickKeepsSound(s, symbol, price);
    case GuardianClose(symbol, price) => CloseKeepsSound(s, symbol, price);
    case _ =>
  }

  /**
   * From an agreeing state a BUY keeps the two ledgers in agreement if and only if the cash on hand
   * covers what it asks for together with the fee.
   */
  lemma BuyKeepsAgreementIff(s: Session, step: Step)
    requires Sound(s) && Next(s, step).buys != s.buys
    ensures step.Signal?
    ensures LedgersAgree(Next(s, step)) <==> Bill(s, step) <= s.book.cash
    ensures Bill(s, step) <= s.book.cash ==> Sound(Next(s, step))
    ensures |Next(s, step).buys| == |s.buys| + 1 && Next(s, step).buys[..|s.buys|] == s.buys
    ensures FilledInFull(Next(s, step).buys[|s.buys|]) <==> Bill(s, step) <= s.book.cash
  {
    BuyStep(s, step);
    var s0, q := Checked(s, step), Requested(s, step);
    if Bill(s, step) <= s.book.cash {
      CoveredBuyKeepsSound(s0, step.symbol, q, step.price, step.now);
    } else {
      UncoveredBuyFallsShort(s.book, BuyOrder(step.symbol, q, step.price));
      assert step.symbol in Next(s, step).ledger.open;
    }
  }

  /** What the closed positions realised, taken together. */
  function TotalRealized(closed: seq<Pos>): real
  {
    if closed == [] then 0.0 else TotalRealized(closed[..|closed| - 1]) + closed[|closed| - 1].realized
  }

  /** Closed for good, with nothing unrealised, and with what its last price makes of its entry. */
  predicate Settled(p: Pos)
  {
    p.status == Filled && p.unrealized == 0.0 && p.realized == p.quantity * (p.current - p.entry)
  }

  ghost predicate AddsUp(l: Ledger)
  {
    && l.realized == TotalRealized(l.closed) && (forall i :: 0 <= i < |l.closed| ==> Settled(l.closed[i]))
    && forall x :: x in l.open ==> l.open[x].side == Buy && l.open[x].symbol == x
  }

  lemma ClosingAddsUp(l: Ledger, x: string, price: real)
    requires AddsUp(l)
    ensures AddsUp(ClosePosition(l, x, price))
  {
    if x in l.open {
      var l' := ClosePosition(l, x, price);
      assert l'.closed[..|l.closed|] == l.closed;
    }
  }

  lemma StepAddsUp(s: Session, step: Step)
    requires AddsUp(s.ledger)
    ensures AddsUp(Next(s, step).ledger)
  {
    hide TotalRealized, Settled;
    match step
    case Signal(symbol, action, price, now) =>
      var (s', v) := AskRisk(s, symbol, price, now);
      ClosingAddsUp(s.ledger, symbol, price);
    case Tick(symbol, price) => ClosingAddsUp(UpdatePrice(s.ledger, symbol, price), symbol, price);
    case GuardianClose(symbol, price) => ClosingAddsUp(s.ledger, symbol, price);
    case _ =>
  }

  /** In every run the realised total is the sum over the closed positions of what each gained at its exit price. */
  lemma {:induction false} RealisedAddsUp(maxPairs: nat, barred: bool, maxPosition: real, steps: seq<Step>)
    ensures AddsUp(Run(NewSession(maxPairs, barred, maxPosition), steps).ledger)
  {
    hide AddsUp, Next;
    if steps == [] {
      NewAddsUp(maxPairs, barred, maxPosition);
    } else {
      var before := steps[..|steps| - 1];
      RealisedAddsUp(maxPairs, barred, maxPosition, before);
      StepAddsUp(Run(NewSession(maxPairs, barred, maxPosition), before), steps[|steps| - 1]);
    }
  }

  lemma NewAddsUp(maxPairs: nat, barred: bool, maxPosition: real)
    ensures AddsUp(NewSession(maxPairs, barred, maxPosition).ledger)
  {
  }

  // ---------------------------------------------------------------- whole runs, any cap

  lemma NewSessionIsSound(maxPairs: nat, barred: bool, maxPosition: real)
    ensures Sound(NewSession(maxPairs, barred, maxPosition))
  {
    var s := NewSession(maxPairs, barred, maxPosition);
    assert EntryCosts(s.book) == map[];
  }

  /** As long as every BUY was filled in full, the ledgers agree and money is conserved. */
  lemma {:induction false} SoundWhileFilled(s: Session, steps: seq<Step>)
    requires Sound(s) && AllFilled(Run(s, steps).buys)
    ensures Sound(Run(s, steps))
  {
    if steps != [] {
      var s1, last := Run(s, steps[..|steps| - 1]), steps[|steps| - 1];
      var s2 := Next(s1, last);
      if s2.buys != s1.buys {
        BuyStep(s1, last);
        assert s1.buys <= s2.buys;
        assert forall i :: 0 <= i < |s1.buys| ==> s1.buys[i] == s2.buys[i];
        SoundWhileFilled(s, steps[..|steps| - 1]);
        BuyKeepsAgreementIff(s1, last);
      } else {
        SoundWhileFilled(s, steps[..|steps| - 1]);
        OtherStepKeepsSound(s1, last);
      }
    }
  }
}
