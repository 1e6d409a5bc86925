/**
 * How far the cash is from the tracker's own figures. The tracker books the quantity asked for at the price the
 * order reports, so what a truncated BUY did not get appears as value out of nothing, and a price tick that sells
 * what the engine holds takes some of it back. A rejected BUY reports the price zero and counts nothing here:
 * what the engine is paid for it when it is closed is booked as realised too, and SessionOversold measures it.
 */
module SessionShortfall {
  import opened Collections
  import opened Arithmetic
  import opened Signals
  import opened PaperBook
  import opened PositionLedger
  import opened TradingSession
  import opened SessionLaws
  import opened SessionGuardian

  /** What the open positions cost, as the tracker has it. */
  ghost function TrackedCosts(l: Ledger): map<string, real>
  {
    map x | x in l.open :: Cost(l.open[x].quantity, l.open[x].entry)
  }

  /** What was asked for and not bought, at the price it was booked at: zero for a rejected BUY. */
  function Shortfall(p: Purchase): real { (p.requested - p.order.filled) * p.order.avgPrice }

  function Shortfalls(buys: seq<Purchase>): real
  {
    if buys == [] then 0.0 else Shortfalls(buys[..|buys| - 1]) + Shortfall(buys[|buys| - 1])
  }

  /** What the tracker closes at a tick beyond what the engine sells, at the tick's price. */
  function Unsold(s: Session, step: Step): real
  {
    if step.Tick? && step.symbol in s.ledger.open && TickPrice(s.book, step.symbol, step.price).1
    then Cost(s.ledger.open[step.symbol].quantity, step.price) - Cost(s.book.holdings[step.symbol].quantity, step.price)
    else 0.0
  }

  ghost function UnsoldIn(s: Session, steps: seq<Step>): real
  {
    if steps == [] then 0.0
    else UnsoldIn(s, steps[..|steps| - 1]) + Unsold(Run(s, steps[..|steps| - 1]), steps[|steps| - 1])
  }

  /** Cash, open positions as tracked, and fees exceed the start balance and the realised total by `excess`. */
  ghost predicate OffBy(s: Session, excess: real)
  {
    s.book.cash + Sum(TrackedCosts(s.ledger)) + s.book.feesPaid == START_BALANCE + s.ledger.realized + excess
  }

  /** What every session keeps, however its BUYs are filled. */
  ghost predicate Long(s: Session)
  {
    Tracked(s) && AllLong(s)
  }

  ghost predicate AllLong(s: Session)
  {
    s.book.feeRate == 0.001 && forall x :: x in s.ledger.open ==> s.ledger.open[x].side == Buy
  }

  lemma ActKeepsAllLong(s: Session, symbol: string, action: Action, price: real, now: real)
    requires AllLong(s)
    ensures AllLong(Act(s, symbol, action, price, now))
  {
  }

  lemma StepKeepsLong(s: Session, step: Step)
    requires Long(s)
    ensures Long(Next(s, step))
  {
    StepKeepsTracked(s, step);
    StepKeepsAllLong(s, step);
  }

  lemma StepKeepsAllLong(s: Session, step: Step)
    requires AllLong(s)
    ensures AllLong(Next(s, step))
  {
    match step
    case Signal(symbol, action, price, now) =>
      hide Act;
      var (s', v) := AskRisk(s, symbol, price, now);
      ActKeepsAllLong(s', symbol, action, price, now);
    case _ =>
  }

  // ---------------------------------------------------------------- one step

  /** A sale of `sold` units that closes the tracker's position. */
  lemma SaleShifts(s: Session, s': Session, x: string, price: real, sold: real, excess: real)
    requires OffBy(s, excess) && x in s.ledger.open && s.ledger.open[x].side == Buy
    requires s'.ledger.open == s.ledger.open - {x}
    requires s'.ledger.realized == s.ledger.realized
             + Gain(Buy, s.ledger.open[x].entry, price, s.ledger.open[x].quantity)
    requires s'.book.cash + s'.book.feesPaid == s.book.cash + s.book.feesPaid + Cost(sold, price)
    ensures OffBy(s', excess - (Cost(s.ledger.open[x].quantity, price) - Cost(sold, price)))
  {
    var costs, p := TrackedCosts(s.ledger), s.ledger.open[x];
    SumRemove(costs, x);
    assert TrackedCosts(s'.ledger) == costs - {x};
    GainIsDifference(p.quantity, p.entry, price);
  }

  lemma CloseShifts(s: Session, x: string, price: real, excess: real)
    requires Long(s) && OffBy(s, excess)
    ensures OffBy(Close(s, x, price), excess)
  {
    if x in s.ledger.open {
      SaleShifts(s, Close(s, x, price), x, price, s.ledger.open[x].quantity, excess);
    }
  }

  lemma MarkShifts(s: Session, x: string, price: real, excess: real)
    requires OffBy(s, excess)
    ensures OffBy(s.(ledger := UpdatePrice(s.ledger, x, price)), excess)
  {
    assert TrackedCosts(UpdatePrice(s.ledger, x, price)) == TrackedCosts(s.ledger);
  }

  lemma TickShifts(s: Session, x: string, price: real, excess: real)
    requires Long(s) && OffBy(s, excess)
    ensures OffBy(OnTick(s, x, price), excess - Unsold(s, Tick(x, price)))
  {
    MarkShifts(s, x, price, excess);
    var s1 := s.(ledger := UpdatePrice(s.ledger, x, price));
    if TickPrice(s.book, x, price).1 {
      SaleShifts(s1, OnTick(s, x, price), x, price, s.book.holdings[x].quantity, excess);
    } else {
      assert OnTick(s, x, price) == s1;
    }
  }

  /** What the engine does with a BUY: it pays for what it fills, or fills nothing. */
  lemma FillPays(b: Book, o: Order)
    requires o.side == Buy && o.kind == Market && b.feeRate == 0.001 && o.quantity > 0.0 && o.price > 0.0
    requires o.filled == 0.0 && o.avgPrice == 0.0
    ensures var r := CreateOrder(b, o);
            && r.Done? && r.book.cash + r.book.feesPaid == b.cash + b.feesPaid - Cost(r.order.filled, r.order.avgPrice)
            && (if r.order.status == Filled then 0.0 < r.order.filled <= o.quantity && r.order.avgPrice == o.price
                else r.order.status == Rejected && r.order.filled == r.order.avgPrice == 0.0)
            && (r.order.filled == o.quantity <==>
                Cost(o.quantity, o.price) + Fee(Cost(o.quantity, o.price), 0.001) <= b.cash)
  {
    if Cost(o.quantity, o.price) + Fee(Cost(o.quantity, o.price), 0.001) > b.cash {
      UncoveredBuyFallsShort(b, o);
    }
  }

  lemma PurchaseShifts(s: Session, s': Session, x: string, cost: real, paid: real, excess: real)
    requires OffBy(s, excess) && x !in s.ledger.open && s'.ledger.realized == s.ledger.realized && x in s'.ledger.open
    requires s'.ledger.open == s.ledger.open[x := s'.ledger.open[x]]
    requires cost == Cost(s'.ledger.open[x].quantity, s'.ledger.open[x].entry)
    requires s'.book.cash + s'.book.feesPaid == s.book.cash + s.book.feesPaid - paid
    ensures OffBy(s', excess + (cost - paid))
  {
    SumAdd(TrackedCosts(s.ledger), x, cost);
    assert TrackedCosts(s'.ledger) == TrackedCosts(s.ledger)[x := cost];
  }

  /** What entering a position records, for the order the engine returns. */
  lemma EnterRecords(s: Session, x: string, q: real, price: real, now: real, book: Book, o: Order)
    requires CreateOrder(s.book, BuyOrder(x, q, price)) == Done(book, o)
    ensures var s' := EnterPosition(s, x, q, price, now);
            && s'.buys == s.buys + [Purchase(x, q, now, o)] && s'.book == book
            && s'.ledger.realized == s.ledger.realized
            && x in s'.ledger.open && s'.ledger.open == s.ledger.open[x := s'.ledger.open[x]]
            && s'.ledger.open[x].quantity == q && s'.ledger.open[x].entry == o.avgPrice
  {
  }

  lemma ShortfallIs(p: Purchase)
    ensures Shortfall(p) == Cost(p.requested, p.order.avgPrice) - Cost(p.order.filled, p.order.avgPrice)
  {
  }

  lemma EnterShifts(s: Session, x: string, q: real, price: real, now: real, excess: real)
    requires s.book.feeRate == 0.001 && OffBy(s, excess) && x !in s.ledger.open && q > 0.0 && price > 0.0
    ensures var s' := EnterPosition(s, x, q, price, now);
            && |s'.buys| == |s.buys| + 1 && s'.buys[..|s.buys|] == s.buys && Accounted(s'.buys[|s.buys|])
            && OffBy(s', excess + Shortfall(s'.buys[|s.buys|]))
  {
    hide EnterPosition, CreateOrder, OffBy;
    FillPays(s.book, BuyOrder(x, q, price));
    var fill := CreateOrder(s.book, BuyOrder(x, q, price));
    var o := fill.order;
    EnterRecords(s, x, q, price, now, fill.book, o);
    ShortfallIs(Purchase(x, q, now, o));
    PurchaseShifts(s, EnterPosition(s, x, q, price, now), x, Cost(q, o.avgPrice), Cost(o.filled, o.avgPrice), excess);
  }

  /** A purchase was filled, in full or in part, at a positive price, or rejected outright. */
  predicate Accounted(p: Purchase)
  {
    p.requested > 0.0 &&
    if p.order.status == Filled then 0.0 < p.order.filled <= p.requested && p.order.avgPrice > 0.0
    else p.order.status == Rejected && p.order.filled == p.order.avgPrice == 0.0
  }

  predicate AllAccounted(buys: seq<Purchase>) { forall i :: 0 <= i < |buys| ==> Accounted(buys[i]) }

  lemma StepShifts(s: Session, step: Step, excess: real)
    requires Long(s) && AllAccounted(s.buys) && OffBy(s, excess)
    ensures var s' := Next(s, step);
            && AllAccounted(s'.buys) && s.buys <= s'.buys
            && OffBy(s', excess + (Shortfalls(s'.buys) - Shortfalls(s.buys)) - Unsold(s, step))
  {
    var s' := Next(s, step);
    if s'.buys != s.buys {
      BuyStep(s, step);
      EnterShifts(Checked(s, step), step.symbol, Requested(s, step), step.price, step.now, excess);
    } else {
      OtherStepShifts(s, step, excess);
    }
  }

  lemma OtherStepShifts(s: Session, step: Step, excess: real)
    requires Long(s) && OffBy(s, excess) && Next(s, step).buys == s.buys
    ensures OffBy(Next(s, step), excess - Unsold(s, step))
  {
    match step
    case Signal(symbol, action, price, now) =>
      var (s', v) := AskRisk(s, symbol, price, now);
      CloseShifts(s', symbol, price, excess);
    case Tick(symbol, price) => TickShifts(s, symbol, price, excess);
    case GuardianClose(symbol, price) => CloseShifts(s, symbol, price, excess);
    case _ =>
  }

  // ---------------------------------------------------------------- whole runs

  lemma {:induction false} RunShifts(s: Session, steps: seq<Step>, excess: real)
    requires Long(s) && AllAccounted(s.buys) && OffBy(s, excess)
    ensures var s' := Run(s, steps);
            && Long(s') && AllAccounted(s'.buys)
            && OffBy(s', excess + (Shortfalls(s'.buys) - Shortfalls(s.buys)) - UnsoldIn(s, steps))
  {
    if steps != [] {
      var n := |steps| - 1;
      var s1 := Run(s, steps[..n]);
      RunShifts(s, steps[..n], excess);
      StepKeepsLong(s1, steps[n]);
      StepShifts(s1, steps[n], excess + (Shortfalls(s1.buys) - Shortfalls(s.buys)) - UnsoldIn(s, steps[..n]));
    }
  }

  /**
   * For every cap and every run: cash, open positions as tracked, and fees exceed start balance and realised total
   * by exactly what the truncated BUYs asked for and did not get, less what ticks left unsold. Rejected BUYs count
   * nothing in it: they are tracked at the price zero.
   */
  lemma BooksAreOffBy(maxPairs: nat, barred: bool, maxPosition: real, steps: seq<Step>)
    ensures var s0 := NewSession(maxPairs, barred, maxPosition);
            var s := Run(s0, steps);
            && AllAccounted(s.buys) && OffBy(s, Shortfalls(s.buys) - UnsoldIn(s0, steps))
  {
    var s0 := NewSession(maxPairs, barred, maxPosition);
    assert TrackedCosts(s0.ledger) == map[];
    RunShifts(s0, steps, 0.0);
  }

  /** Cut short, and not rejected outright. */
  predicate Truncated(p: Purchase) { p.order.status == Filled && p.order.filled < p.requested }

  lemma SignOf(missing: real, price: real)
    requires missing >= 0.0 && price > 0.0
    ensures missing * price >= 0.0 && (missing * price > 0.0 <==> missing > 0.0)
  {
    if missing > 0.0 {
      ProductPositive(missing, price);
    }
  }

  lemma ShortfallSign(p: Purchase)
    requires Accounted(p)
    ensures Shortfall(p) >= 0.0 && (Shortfall(p) > 0.0 <==> Truncated(p))
  {
    if p.order.status == Filled {
      SignOf(p.requested - p.order.filled, p.order.avgPrice);
    }
  }

  /** The shortfalls add up to nothing exactly when no BUY was truncated. */
  lemma {:induction false} ShortfallsSign(buys: seq<Purchase>)
    requires AllAccounted(buys)
    ensures Shortfalls(buys) >= 0.0
    ensures Shortfalls(buys) > 0.0 <==> exists i :: 0 <= i < |buys| && Truncated(buys[i])
  {
    if buys != [] {
      var n := |buys| - 1;
      ShortfallsSign(buys[..n]);
      ShortfallSign(buys[n]);
      assert forall i :: 0 <= i < n ==> buys[..n][i] == buys[i];
    }
  }

  lemma {:induction false} NothingUnsold(s: Session, steps: seq<Step>)
    requires forall i :: 0 <= i < |steps| ==> !steps[i].Tick?
    ensures UnsoldIn(s, steps) == 0.0
  {
    if steps != [] {
      NothingUnsold(s, steps[..|steps| - 1]);
    }
  }

  /**
   * Without price ticks the cash exceeds the tracker's figures from the first truncated BUY on, and nothing that
   * happens later corrects it; the two balance exactly in the sessions no BUY of which was truncated. The realised
   * total they are compared with holds what the closes of rejected BUYs were paid.
   */
  lemma BalancedIff(maxPairs: nat, barred: bool, maxPosition: real, steps: seq<Step>)
    requires forall i :: 0 <= i < |steps| ==> !steps[i].Tick?
    ensures var s := Run(NewSession(maxPairs, barred, maxPosition), steps);
            && OffBy(s, Shortfalls(s.buys)) && Shortfalls(s.buys) >= 0.0
            && (OffBy(s, 0.0) <==> forall i :: 0 <= i < |s.buys| ==> !Truncated(s.buys[i]))
  {
    var s0 := NewSession(maxPairs, barred, maxPosition);
    BooksAreOffBy(maxPairs, barred, maxPosition, steps);
    NothingUnsold(s0, steps);
    ShortfallsSign(Run(s0, steps).buys);
  }
}
