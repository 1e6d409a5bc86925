/**
 * What the engine is paid for units it never held. Closing a position sells the quantity the tracker has,
 * and the engine pays for it in full even when its own BUY was truncated or rejected. Against the engine's
 * own ledger this money is accounted for exactly, in every run of every session.
 */
module SessionOversold {
  import opened Collections
  import opened Arithmetic
  import opened Signals
  import opened PaperBook
  import opened PositionLedger
  import opened RiskRules
  import opened TradingSession
  import opened SessionLaws
  import opened SessionGuardian
  import opened SessionShortfall

  function HeldQuantity(b: Book, x: string): real { if x in b.holdings then b.holdings[x].quantity else 0.0 }

  /** What the engine's own holding gains when it goes at this price. */
  function HeldGain(b: Book, x: string, price: real): real
  {
    if x in b.holdings then Gain(Buy, b.holdings[x].avgPrice, price, b.holdings[x].quantity) else 0.0
  }

  /** The signals that close a position: an allowed SELL of a tracked symbol. */
  ghost predicate SellsOn(s: Session, step: Step)
  {
    && step.Signal? && step.action == SELL && step.symbol in s.ledger.open
    && !s.barred && |s.ledger.open| < s.maxPairs && AskRisk(s, step.symbol, step.price, step.now).1 == Allowed
  }

  /** The steps that close a tracked position by selling what the tracker has. */
  ghost predicate Closing(s: Session, step: Step)
  {
    SellsOn(s, step) || (step.GuardianClose? && step.symbol in s.ledger.open)
  }

  /** The ticks at which the engine sells what it holds. */
  predicate TickSells(s: Session, step: Step) { step.Tick? && TickPrice(s.book, step.symbol, step.price).1 }

  /** What the engine's own holdings gain at this step. */
  ghost function EngineGain(s: Session, step: Step): real
  {
    if Closing(s, step) || TickSells(s, step) then HeldGain(s.book, step.symbol, step.price) else 0.0
  }

  /** What the engine is paid at this step for units it does not hold. */
  ghost function Oversold(s: Session, step: Step): real
  {
    if Closing(s, step) then
      Cost(s.ledger.open[step.symbol].quantity, step.price) - Cost(HeldQuantity(s.book, step.symbol), step.price)
    else 0.0
  }

  ghost function EngineGainIn(s: Session, steps: seq<Step>): real
  {
    if steps == [] then 0.0
    else EngineGainIn(s, steps[..|steps| - 1]) + EngineGain(Run(s, steps[..|steps| - 1]), steps[|steps| - 1])
  }

  ghost function OversoldIn(s: Session, steps: seq<Step>): real
  {
    if steps == [] then 0.0
    else OversoldIn(s, steps[..|steps| - 1]) + Oversold(Run(s, steps[..|steps| - 1]), steps[|steps| - 1])
  }

  /** Cash, what the holdings cost the engine, and fees exceed the start balance by `excess`. */
  ghost predicate EngineOffBy(s: Session, excess: real)
  {
    s.book.cash + Sum(EntryCosts(s.book)) + s.book.feesPaid == START_BALANCE + excess
  }

  // ---------------------------------------------------------------- one step

  /** The engine sells `sold` units of `x`, whatever it holds of it. */
  lemma SaleChanges(s: Session, s': Session, x: string, price: real, sold: real, excess: real)
    requires EngineOffBy(s, excess) && s'.book.holdings == s.book.holdings - {x}
    requires s'.book.cash + s'.book.feesPaid == s.book.cash + s.book.feesPaid + Cost(sold, price)
    ensures EngineOffBy(s', excess + HeldGain(s.book, x, price)
                        + (Cost(sold, price) - Cost(HeldQuantity(s.book, x), price)))
  {
    var costs := EntryCosts(s.book);
    assert EntryCosts(s'.book) == costs - {x};
    if x in s.book.holdings {
      SumRemove(costs, x);
      GainIsDifference(s.book.holdings[x].quantity, s.book.holdings[x].avgPrice, price);
    } else {
      assert costs - {x} == costs;
    }
  }

  /** What `Close` does to the engine. */
  lemma CloseSellsTracked(s: Session, x: string, price: real)
    requires x in s.ledger.open
    ensures var s', q := Close(s, x, price), s.ledger.open[x].quantity;
            && s'.book.holdings == s.book.holdings - {x} && s'.ledger.open == s.ledger.open - {x}
            && s'.book.cash + s'.book.feesPaid == s.book.cash + s.book.feesPaid + Cost(q, price)
            && s' == s.(book := s'.book, ledger := s'.ledger)
  {
    if x !in s.book.holdings {
      assert s.book.holdings - {x} == s.book.holdings;
    }
  }

  /** A closing step is a `Close`, after at most a look at the balance. */
  lemma ClosingIsClose(s: Session, step: Step)
    requires Closing(s, step)
    ensures var s' := Next(s, step); s' == Close(s, step.symbol, step.price).(risk := s'.risk)
  {
    if step.Signal? {
      hide Close, UpdateBalance, CanTrade;
      var s1 := AskRisk(s, step.symbol, step.price, step.now).0;
      assert Next(s, step) == Close(s1, step.symbol, step.price);
      CloseIgnoresRisk(s, s1, step.symbol, step.price);
    }
  }

  lemma CloseIgnoresRisk(s: Session, s1: Session, x: string, price: real)
    requires s1 == s.(risk := s1.risk)
    ensures Close(s1, x, price) == Close(s, x, price).(risk := s1.risk)
  {
  }

  lemma ClosingChanges(s: Session, step: Step, excess: real)
    requires EngineOffBy(s, excess) && Closing(s, step)
    ensures EngineOffBy(Next(s, step), excess + EngineGain(s, step) + Oversold(s, step))
  {
    ClosingIsClose(s, step);
    CloseSellsTracked(s, step.symbol, step.price);
    SaleChanges(s, Next(s, step), step.symbol, step.price, s.ledger.open[step.symbol].quantity, excess);
  }

  lemma TickChanges(s: Session, step: Step, excess: real)
    requires EngineOffBy(s, excess) && TickSells(s, step)
    ensures EngineOffBy(Next(s, step), excess + EngineGain(s, step))
  {
    SaleChanges(s, Next(s, step), step.symbol, step.price, HeldQuantity(s.book, step.symbol), excess);
  }

  /** What a BUY leaves in the engine: the order it filled, or nothing. */
  lemma FillHolds(b: Book, o: Order)
    requires o.side == Buy && o.kind == Market && b.feeRate == 0.001 && o.quantity > 0.0 && o.price > 0.0
    requires o.filled == 0.0 && o.avgPrice == 0.0
    ensures var r := CreateOrder(b, o);
            && r.Done?
            && r.book.holdings == (if r.order.status == Filled then b.holdings[o.symbol := r.order] else b.holdings)
            && (r.order.status == Filled ==> r.order.quantity == r.order.filled)
  {
  }

  lemma PurchaseChanges(s: Session, s': Session, x: string, o: Order, excess: real)
    requires EngineOffBy(s, excess) && x !in s.book.holdings
    requires s'.book.holdings == if o.status == Filled then s.book.holdings[x := o] else s.book.holdings
    requires if o.status == Filled then o.quantity == o.filled else o.filled == 0.0 && o.avgPrice == 0.0
    requires s'.book.cash + s'.book.feesPaid == s.book.cash + s.book.feesPaid - Cost(o.filled, o.avgPrice)
    ensures EngineOffBy(s', excess)
  {
    if o.status == Filled {
      SumAdd(EntryCosts(s.book), x, Cost(o.filled, o.avgPrice));
      assert EntryCosts(s'.book) == EntryCosts(s.book)[x := Cost(o.filled, o.avgPrice)];
    } else {
      assert Cost(0.0, 0.0) == 0.0;
    }
  }

  /** What entering a position leaves behind, for whatever fill the order gets. */
  ghost predicate Entered(s: Session, s': Session, x: string, q: real, now: real, o: Order)
  {
    && s'.buys == s.buys + [Purchase(x, q, now, o)]
    && x in s'.ledger.open && s'.ledger.open == s.ledger.open[x := s'.ledger.open[x]] && s'.ledger.open[x].quantity == q
    && s'.book.holdings == (if o.status == Filled then s.book.holdings[x := o] else s.book.holdings)
    && (if o.status == Filled then o.quantity == o.filled else o.filled == 0.0 && o.avgPrice == 0.0)
    && s'.book.cash + s'.book.feesPaid == s.book.cash + s.book.feesPaid - Cost(o.filled, o.avgPrice)
  }

  lemma EnterLeaves(s: Session, x: string, q: real, price: real, now: real) returns (o: Order)
    requires s.book.feeRate == 0.001 && q > 0.0 && price > 0.0
    ensures Entered(s, EnterPosition(s, x, q, price, now), x, q, now, o)
  {
    hide EnterPosition, CreateOrder;
    FillPays(s.book, BuyOrder(x, q, price));
    FillHolds(s.book, BuyOrder(x, q, price));
    var fill := CreateOrder(s.book, BuyOrder(x, q, price));
    o := fill.order;
    EnterRecords(s, x, q, price, now, fill.book, o);
  }

  /** A step that buys leaves an entered position. */
  lemma BuyLeaves(s: Session, step: Step) returns (o: Order)
    requires Long(s) && Next(s, step).buys != s.buys
    ensures step.Signal? && step.symbol !in s.ledger.open
    ensures Entered(s, Next(s, step), step.symbol, Requested(s, step), step.now, o)
  {
    hide EnterPosition;
    BuyStep(s, step);
    var s0 := Checked(s, step);
    o := EnterLeaves(s0, step.symbol, Requested(s, step), step.price, step.now);
  }

  /** Any other step leaves the engine alone. */
  lemma OtherStepLeavesEngine(s: Session, step: Step)
    requires !Closing(s, step) && !TickSells(s, step) && Next(s, step).buys == s.buys
    ensures Next(s, step).book == s.book
  {
    match step
    case Signal(symbol, action, price, now) =>
      var (s', v) := AskRisk(s, symbol, price, now);
    case _ =>
  }

  lemma StepChanges(s: Session, step: Step, excess: real)
    requires Long(s) && EngineOffBy(s, excess)
    ensures EngineOffBy(Next(s, step), excess + EngineGain(s, step) + Oversold(s, step))
  {
    if Closing(s, step) {
      ClosingChanges(s, step, excess);
    } else if TickSells(s, step) {
      TickChanges(s, step, excess);
    } else if Next(s, step).buys != s.buys {
      var o := BuyLeaves(s, step);
      PurchaseChanges(s, Next(s, step), step.symbol, o, excess);
    } else {
      OtherStepLeavesEngine(s, step);
    }
  }

  // ---------------------------------------------------------------- whole runs

  /** The totals of a run, with its last step set apart. */
  lemma TotalsNext(s: Session, steps: seq<Step>)
    requires steps != []
    ensures var before, last := steps[..|steps| - 1], steps[|steps| - 1];
            && Run(s, steps) == Next(Run(s, before), last)
            && EngineGainIn(s, steps) == EngineGainIn(s, before) + EngineGain(Run(s, before), last)
            && OversoldIn(s, steps) == OversoldIn(s, before) + Oversold(Run(s, before), last)
  {
    hide Next, EngineGain, Oversold;
  }

  lemma NothingYet(s: Session)
    ensures Run(s, []) == s && EngineGainIn(s, []) == OversoldIn(s, []) == 0.0
  {
  }

  /** What is off after a run, for any number that the totals add up to. */
  lemma {:induction false} RunChanges(s: Session, steps: seq<Step>, excess: real, total: real)
    requires Long(s) && EngineOffBy(s, excess)
    requires total == excess + EngineGainIn(s, steps) + OversoldIn(s, steps)
    ensures Long(Run(s, steps)) && EngineOffBy(Run(s, steps), total)
  {
    hide *;
    if steps == [] {
      NothingYet(s);
    } else {
      var before, last := steps[..|steps| - 1], steps[|steps| - 1];
      var s1, sofar := Run(s, before), excess + EngineGainIn(s, before) + OversoldIn(s, before);
      RunChanges(s, before, excess, sofar);
      StepKeepsLong(s1, last);
      StepChanges(s1, last, sofar);
      TotalsNext(s, steps);
    }
  }

  lemma NewSessionIsLong(maxPairs: nat, barred: bool, maxPosition: real)
    ensures Long(NewSession(maxPairs, barred, maxPosition))
            && EngineOffBy(NewSession(maxPairs, barred, maxPosition), 0.0)
  {
    assert EntryCosts(NewSession(maxPairs, barred, maxPosition).book) == map[];
  }

  /**
   * For every cap and every run: cash, what the holdings cost the engine, and fees are the start balance, what
   * the engine's own holdings gained when sold, and what it was paid at closes for units it did not hold.
   */
  lemma EngineBooks(maxPairs: nat, barred: bool, maxPosition: real, steps: seq<Step>)
    ensures var s0 := NewSession(maxPairs, barred, maxPosition);
            EngineOffBy(Run(s0, steps), EngineGainIn(s0, steps) + OversoldIn(s0, steps))
  {
    hide *;
    var s0 := NewSession(maxPairs, barred, maxPosition);
    NewSessionIsLong(maxPairs, barred, maxPosition);
    RunChanges(s0, steps, 0.0, EngineGainIn(s0, steps) + OversoldIn(s0, steps));
  }

  // ---------------------------------------------------------------- the BUY behind a position

  /** The latest BUY of a symbol. */
  function OpeningBuy(buys: seq<Purchase>, x: string): Option<Purchase>
  {
    if buys == [] then None
    else if buys[|buys| - 1].symbol == x then Some(buys[|buys| - 1])
    else OpeningBuy(buys[..|buys| - 1], x)
  }

  /** The tracker has what the BUY asked for, and the engine what it filled. */
  ghost predicate BackedBy(s: Session, x: string, p: Purchase)
    requires x in s.ledger.open
  {
    s.ledger.open[x].quantity == p.requested && HeldQuantity(s.book, x) == p.order.filled && Accounted(p)
  }

  ghost predicate Backed(s: Session)
  {
    forall x :: x in s.ledger.open ==> OpeningBuy(s.buys, x).Some? && BackedBy(s, x, OpeningBuy(s.buys, x).value)
  }

  /** A step that buys nothing only drops and marks positions, and with them holdings. */
  lemma OtherStepDrops(s: Session, step: Step, x: string)
    requires Next(s, step).buys == s.buys && x in Next(s, step).ledger.open
    ensures x in s.ledger.open && Next(s, step).ledger.open[x].quantity == s.ledger.open[x].quantity
    ensures HeldQuantity(Next(s, step).book, x) == HeldQuantity(s.book, x)
  {
    match step
    case Signal(symbol, action, price, now) =>
      var (s', v) := AskRisk(s, symbol, price, now);
    case _ =>
  }

  lemma OtherStepKeepsBacked(s: Session, step: Step)
    requires Backed(s) && Next(s, step).buys == s.buys
    ensures Backed(Next(s, step))
  {
    hide Next, HeldQuantity, Accounted, OpeningBuy;
    var s' := Next(s, step);
    forall x | x in s'.ledger.open
      ensures OpeningBuy(s.buys, x).Some?
      ensures BackedBy(s', x, OpeningBuy(s.buys, x).value)
    {
      OtherStepDrops(s, step, x);
      assert BackedBy(s, x, OpeningBuy(s.buys, x).value);
    }
  }

  lemma OpeningBuyNext(buys: seq<Purchase>, p: Purchase, x: string)
    ensures OpeningBuy(buys + [p], x) == if p.symbol == x then Some(p) else OpeningBuy(buys, x)
  {
    assert (buys + [p])[..|buys|] == buys;
  }

  lemma EnteredIsBacked(s: Session, s': Session, x: string, q: real, now: real, o: Order)
    requires Long(s) && Backed(s) && x !in s.ledger.open && Entered(s, s', x, q, now, o)
             && Accounted(Purchase(x, q, now, o))
    ensures Backed(s')
  {
    var p := Purchase(x, q, now, o);
    forall y | y in s'.ledger.open
      ensures OpeningBuy(s'.buys, y).Some? && BackedBy(s', y, OpeningBuy(s'.buys, y).value)
    {
      OpeningBuyNext(s.buys, p, y);
      if y != x {
        assert BackedBy(s, y, OpeningBuy(s.buys, y).value);
      }
    }
  }

  lemma StepKeepsBacked(s: Session, step: Step)
    requires Long(s) && Backed(s) && AllAccounted(Next(s, step).buys)
    ensures Backed(Next(s, step))
  {
    if Next(s, step).buys != s.buys {
      hide Next, Entered, Backed, Long;
      var o := BuyLeaves(s, step);
      EnteredLast(s, Next(s, step), step.symbol, Requested(s, step), step.now, o);
      EnteredIsBacked(s, Next(s, step), step.symbol, Requested(s, step), step.now, o);
    } else {
      OtherStepKeepsBacked(s, step);
    }
  }

  lemma EnteredLast(s: Session, s': Session, x: string, q: real, now: real, o: Order)
    requires Entered(s, s', x, q, now, o) && AllAccounted(s'.buys)
    ensures Accounted(Purchase(x, q, now, o))
  {
    assert s'.buys[|s.buys|] == Purchase(x, q, now, o);
  }

  lemma {:induction false} RunKeepsBacked(maxPairs: nat, barred: bool, maxPosition: real, steps: seq<Step>)
    ensures var s := Run(NewSession(maxPairs, barred, maxPosition), steps); Long(s) && Backed(s)
  {
    var s0 := NewSession(maxPairs, barred, maxPosition);
    if steps == [] {
      NewSessionIsLong(maxPairs, barred, maxPosition);
    } else {
      hide Long, Backed, Next;
      var n := |steps| - 1;
      RunKeepsBacked(maxPairs, barred, maxPosition, steps[..n]);
      BooksAreOffBy(maxPairs, barred, maxPosition, steps);
      StepKeepsBacked(Run(s0, steps[..n]), steps[n]);
      StepKeepsLong(Run(s0, steps[..n]), steps[n]);
    }
  }

  // ---------------------------------------------------------------- when the engine is overpaid

  /** A close of a position whose BUY was not filled in full. */
  ghost predicate ClosesShort(s: Session, step: Step)
  {
    Closing(s, step) && OpeningBuy(s.buys, step.symbol).Some? && !FilledInFull(OpeningBuy(s.buys, step.symbol).value)
  }

  predicate PositivelyPriced(step: Step) { step.Signal? || step.GuardianClose? ==> step.price > 0.0 }

  /** A close is paid for what its BUY asked for and did not get, at the closing price. */
  lemma OversoldIsShort(s: Session, step: Step, p: Purchase)
    requires Backed(s) && Closing(s, step)
    requires OpeningBuy(s.buys, step.symbol) == Some(p)
    ensures Accounted(p) && Oversold(s, step) == Cost(p.requested, step.price) - Cost(p.order.filled, step.price)
  {
    hide Cost, OpeningBuy, AskRisk, Accounted, HeldQuantity;
    assert BackedBy(s, step.symbol, p);
  }

  lemma ClosingHasBuy(s: Session, step: Step) returns (p: Purchase)
    requires Backed(s) && Closing(s, step)
    ensures OpeningBuy(s.buys, step.symbol) == Some(p)
    ensures step.Signal? || step.GuardianClose?
  {
    hide OpeningBuy, BackedBy;
    p := OpeningBuy(s.buys, step.symbol).value;
  }

  lemma OversoldSign(s: Session, step: Step)
    requires Backed(s) && PositivelyPriced(step)
    ensures Oversold(s, step) >= 0.0 && (Oversold(s, step) > 0.0 <==> ClosesShort(s, step))
  {
    hide Backed, Closing, OpeningBuy, FilledInFull, Cost, HeldQuantity;
    if Closing(s, step) {
      var p := ClosingHasBuy(s, step);
      OversoldIsShort(s, step, p);
      MissingSign(p, step.price);
    }
  }

  lemma MissingSign(p: Purchase, price: real)
    requires Accounted(p) && price > 0.0
    ensures Cost(p.requested, price) - Cost(p.order.filled, price) >= 0.0
    ensures Cost(p.requested, price) - Cost(p.order.filled, price) > 0.0 <==> !FilledInFull(p)
  {
    hide Cost;
    CostsSign(p.requested, p.order.filled, price);
  }

  lemma CostsSign(asked: real, got: real, price: real)
    requires asked >= got && price > 0.0
    ensures Cost(asked, price) - Cost(got, price) >= 0.0
    ensures Cost(asked, price) - Cost(got, price) > 0.0 <==> asked > got
  {
    hide Cost;
    if asked > got {
      CostGrows(got, asked - got, price, asked);
    }
  }

  lemma CostGrows(got: real, missing: real, price: real, asked: real)
    requires asked == got + missing && missing > 0.0 && price > 0.0
    ensures Cost(asked, price) > Cost(got, price)
  {
    ProductPositive(missing, price);
    assert Cost(asked, price) == Cost(got, price) + missing * price;
  }

  ghost predicate SomeClosesShort(s: Session, steps: seq<Step>)
  {
    exists i :: 0 <= i < |steps| && ClosesShort(Run(s, steps[..i]), steps[i])
  }

  lemma ClosesShortNext(s: Session, steps: seq<Step>)
    requires steps != []
    ensures var n := |steps| - 1;
            SomeClosesShort(s, steps) <==> SomeClosesShort(s, steps[..n]) || ClosesShort(Run(s, steps[..n]), steps[n])
  {
    hide ClosesShort, Run;
    var n := |steps| - 1;
    assert forall i :: 0 <= i < n ==> steps[..n][..i] == steps[..i] && steps[..n][i] == steps[i];
    if SomeClosesShort(s, steps) {
      var i :| 0 <= i < |steps| && ClosesShort(Run(s, steps[..i]), steps[i]);
      if i < n {
        assert ClosesShort(Run(s, steps[..n][..i]), steps[..n][i]);
      }
    }
    if SomeClosesShort(s, steps[..n]) {
      var i :| 0 <= i < n && ClosesShort(Run(s, steps[..n][..i]), steps[..n][i]);
      assert ClosesShort(Run(s, steps[..i]), steps[i]);
    }
  }

  lemma {:induction false} OverpaidSign(maxPairs: nat, barred: bool, maxPosition: real, steps: seq<Step>)
    requires forall i :: 0 <= i < |steps| ==> PositivelyPriced(steps[i])
    ensures var s0 := NewSession(maxPairs, barred, maxPosition);
            OversoldIn(s0, steps) >= 0.0 && (OversoldIn(s0, steps) > 0.0 <==> SomeClosesShort(s0, steps))
  {
    hide *;
    var s0 := NewSession(maxPairs, barred, maxPosition);
    if steps == [] {
      NothingYet(s0);
      NoneClosedYet(s0);
    } else {
      var n := |steps| - 1;
      OverpaidSign(maxPairs, barred, maxPosition, steps[..n]);
      RunKeepsBacked(maxPairs, barred, maxPosition, steps[..n]);
      OversoldSign(Run(s0, steps[..n]), steps[n]);
      ClosesShortNext(s0, steps);
      TotalsNext(s0, steps);
    }
  }

  lemma NoneClosedYet(s: Session)
    ensures !SomeClosesShort(s, [])
  {
  }

  lemma ExcessIsUnique(s: Session, a: real, b: real)
    requires EngineOffBy(s, a)
    ensures EngineOffBy(s, b) <==> a == b
  {
  }

  /**
   * At positive prices the engine is paid for units it never held if and only if a signal or the guardian closed
   * some position whose BUY had been truncated or rejected; so its books balance exactly when every BUY closed in
   * these ways had been filled in full. A tick sells what the engine holds, so it is never paid for more.
   */
  lemma OverpaidIff(maxPairs: nat, barred: bool, maxPosition: real, steps: seq<Step>)
    requires forall i :: 0 <= i < |steps| ==> PositivelyPriced(steps[i])
    ensures var s0 := NewSession(maxPairs, barred, maxPosition);
            && OversoldIn(s0, steps) >= 0.0
            && (OversoldIn(s0, steps) > 0.0 <==> SomeClosesShort(s0, steps))
            && (EngineOffBy(Run(s0, steps), EngineGainIn(s0, steps)) <==> !SomeClosesShort(s0, steps))
  {
    hide *;
    var s0 := NewSession(maxPairs, barred, maxPosition);
    EngineBooks(maxPairs, barred, maxPosition, steps);
    OverpaidSign(maxPairs, barred, maxPosition, steps);
    ExcessIsUnique(Run(s0, steps), EngineGainIn(s0, steps) + OversoldIn(s0, steps), EngineGainIn(s0, steps));
  }

  /** A rejected BUY leaves the engine as it was; the tracker opens what was asked for all the same. */
  lemma RejectedEntry(s: Session, x: string, q: real, price: real, now: real)
    requires s.book.feeRate == 0.001 && q > 0.0 && price > 0.0
    requires Rejects(s.book, BuyOrder(x, q, price))
    ensures var s' := EnterPosition(s, x, q, price, now);
            && s'.book.holdings == s.book.holdings && s'.book.cash == s.book.cash && s'.book.feeRate == 0.001
            && x in s'.ledger.open && s'.ledger.open[x].quantity == q
            && |s'.buys| == |s.buys| + 1 && Shortfall(s'.buys[|s.buys|]) == 0.0
  {
    hide EnterPosition;
    var fill := CreateOrder(s.book, BuyOrder(x, q, price));
    EnterRecords(s, x, q, price, now, fill.book, fill.order);
    FillPays(s.book, BuyOrder(x, q, price));
  }

  predicate Rejects(b: Book, o: Order) { CreateOrder(b, o).Done? && CreateOrder(b, o).order.status == Rejected }

  lemma ClosePays(s: Session, x: string, price: real)
    requires x in s.ledger.open && x !in s.book.holdings
    ensures var s', cost := Close(s, x, price), Cost(s.ledger.open[x].quantity, price);
            s'.book.holdings == s.book.holdings && s'.book.cash == s.book.cash + (cost - Fee(cost, s.book.feeRate))
  {
  }

  /**
   * The tracker's own account does not see it: a rejected BUY, closed at any price, leaves the holdings as they
   * were and pays the engine for units it never held, and what is booked stays off by the same amount.
   */
  lemma RejectedSaleIsUnseen(s: Session, x: string, q: real, price: real, now: real, exit: real, excess: real)
    requires Long(s) && OffBy(s, excess) && x !in s.ledger.open && q > 0.0 && price > 0.0
    requires Rejects(s.book, BuyOrder(x, q, price))
    ensures var s1 := EnterPosition(s, x, q, price, now);
            var s2 := Close(s1, x, exit);
            && |s1.buys| == |s.buys| + 1 && Shortfall(s1.buys[|s.buys|]) == 0.0
            && s2.book.holdings == s.book.holdings && OffBy(s2, excess)
            && s2.book.cash == s.book.cash + (Cost(q, exit) - Fee(Cost(q, exit), 0.001))
  {
    hide EnterPosition, Close, OffBy, Shortfall, Rejects, Cost, Fee, BuyOrder;
    var s1 := EnterPosition(s, x, q, price, now);
    RejectedEntry(s, x, q, price, now);
    EnterShifts(s, x, q, price, now, excess);
    EnterKeepsLong(s, x, q, price, now);
    CloseShifts(s1, x, exit, excess);
    ClosePays(s1, x, exit);
  }

  lemma EnterKeepsLong(s: Session, x: string, q: real, price: real, now: real)
    requires Long(s)
    ensures Long(EnterPosition(s, x, q, price, now))
  {
  }
}
