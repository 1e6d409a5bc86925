/**
 * Sizing, circuit breaker and pair cap together: with at most nine pairs, or a small enough limit per
 * position, no BUY is ever truncated or rejected, so the ledgers agree and money is conserved in every run.
 */
module SessionSafety {
  import opened Collections
  import opened Arithmetic
  import opened PaperBook
  import opened PositionLedger
  import opened RiskRules
  import opened TradingSession
  import opened SessionLaws

  /** How many positions the plan's cap and the hard cap let a session hold. */
  function MostOpen(maxPairs: nat): nat { if maxPairs < HARD_CAP then maxPairs else HARD_CAP }

  /**
   * At most nine pairs, or a limit per position so small that the most positions a session can hold,
   * each at the limit, and one fee fit into nine tenths of the start balance.
   */
  predicate Roomy(maxPairs: nat, maxPosition: real)
  {
    maxPairs <= 9 || Times(MostOpen(maxPairs), maxPosition) + 0.001 * maxPosition <= 9000.0
  }

  /** No holding cost more than the user's limit, or than a tenth of the peak, when it was bought. */
  ghost predicate Sized(s: Session)
  {
    && s.risk.limits.breakerPct == 10.0
    && s.risk.peak >= START_BALANCE
    && forall x :: x in s.book.holdings ==>
         EntryCosts(s.book)[x] <= s.risk.peak * 0.1 && EntryCosts(s.book)[x] <= s.risk.limits.maxPosition
  }

  lemma PeakOnlyGrows(s: Session, step: Step)
    ensures Next(s, step).risk.peak >= s.risk.peak
    ensures Next(s, step).risk.limits == s.risk.limits
    ensures Next(s, step).maxPairs == s.maxPairs
  {
    match step
    case Signal(symbol, action, price, now) =>
      var (s', v) := AskRisk(s, symbol, price, now);
      assert s'.risk.peak >= s.risk.peak;
    case _ =>
  }

  /** Without a BUY the holdings are some of the old ones, unchanged. */
  lemma HoldingsOnlyShrink(s: Session, step: Step, x: string)
    requires Next(s, step).buys == s.buys && x in Next(s, step).book.holdings
    ensures x in s.book.holdings && Next(s, step).book.holdings[x] == s.book.holdings[x]
  {
    match step
    case Signal(symbol, action, price, now) =>
      var (s', v) := AskRisk(s, symbol, price, now);
    case _ =>
  }

  /** For a symbol not held, the balance a signal observes is cash plus what the holdings cost. */
  lemma EquityAtEntry(s: Session, symbol: string, price: real)
    requires LedgersAgree(s) && symbol !in s.ledger.open
    ensures Equity(s.book, EntryPrices(s)[symbol := price]) == s.book.cash + Sum(EntryCosts(s.book))
  {
    var prices := EntryPrices(s)[symbol := price];
    assert symbol in prices;
    assert Worth(s.book, prices) == EntryCosts(s.book);
  }

  /** What a balance check finds: the cash and what the holdings cost. */
  ghost function BookValue(b: Book): real { b.cash + Sum(EntryCosts(b)) }

  /** A signal that is allowed found its equity above the breaker line of a peak that includes it. */
  lemma AllowedIsAboveLine(s: Session, symbol: string, price: real, now: real, equity: real)
    requires equity == Equity(s.book, EntryPrices(s)[symbol := price])
    ensures var (s', v) := AskRisk(s, symbol, price, now);
            && s'.risk.peak >= s.risk.peak && s'.risk.peak >= equity
            && (v == Allowed ==> equity > BreakerLine(s'.risk.peak, s.risk.limits.breakerPct))
  {
  }

  lemma BuyIsAboveLine(s: Session, step: Step)
    requires Sound(s) && Sized(s) && Next(s, step).buys != s.buys
    ensures step.Signal?
    ensures Checked(s, step).risk.peak >= s.risk.peak && Checked(s, step).risk.peak >= BookValue(s.book)
    ensures BookValue(s.book) > BreakerLine(Checked(s, step).risk.peak, 10.0)
  {
    BuyStep(s, step);
    EquityAtEntry(s, step.symbol, step.price);
    AllowedIsAboveLine(s, step.symbol, step.price, step.now, BookValue(s.book));
  }

  /** The size in quote currency behind a BUY's quantity. */
  ghost function RequestedSize(s: Session, step: Step): real
    requires step.Signal?
  {
    var r := Checked(s, step).risk;
    OrderSize(r.limits.maxPosition, Equity(s.book, EntryPrices(s)[step.symbol := step.price]), r.level)
  }

  lemma CostIsSize(s: Session, step: Step)
    requires step.Signal? && step.price > 0.0
    ensures Cost(Requested(s, step), step.price) == RequestedSize(s, step)
  {
    QuotientTimes(RequestedSize(s, step), step.price);
  }

  lemma SizeIsLimited(maxPosition: real, equity: real, level: Level)
    requires OrderSize(maxPosition, equity, level) > 0.0
    ensures OrderSize(maxPosition, equity, level) <= equity * 0.1
    ensures OrderSize(maxPosition, equity, level) <= maxPosition
  {
  }

  lemma RequestedSizeIs(s: Session, step: Step)
    requires step.Signal? && LedgersAgree(s) && step.symbol !in s.ledger.open
    ensures RequestedSize(s, step) == OrderSize(s.risk.limits.maxPosition, BookValue(s.book), s.risk.level)
  {
    EquityAtEntry(s, step.symbol, step.price);
  }

  lemma RequestIsLimited(s: Session, step: Step)
    requires Sound(s) && Next(s, step).buys != s.buys
    ensures step.Signal? && 0.0 < RequestedSize(s, step) <= BookValue(s.book) * 0.1
    ensures RequestedSize(s, step) <= s.risk.limits.maxPosition
  {
    BuyStep(s, step);
    CostIsSize(s, step);
    RequestedSizeIs(s, step);
    SizeIsLimited(s.risk.limits.maxPosition, BookValue(s.book), s.risk.level);
  }

  lemma EightTenths(costs: map<string, real>, peak: real)
    requires |costs| <= 8 && peak >= 0.0
    requires forall x :: x in costs ==> costs[x] <= peak * 0.1
    ensures Sum(costs) <= 0.8 * peak
  {
    SumAtMost(costs, peak * 0.1);
    var n, b := |costs| as real, peak * 0.1;
    ProductNonNegative(8.0 - n, b);
    assert n * b <= 8.0 * b;
  }

  lemma OneCostEach(s: Session)
    requires LedgersAgree(s)
    ensures |EntryCosts(s.book)| == |s.ledger.open|
  {
    var costs := EntryCosts(s.book);
    assert costs.Keys == s.ledger.open.Keys;
    assert |costs| == |costs.Keys| == |s.ledger.open.Keys| == |s.ledger.open|;
  }

  /** At most eight holdings cost at most eight tenths of the peak. */
  lemma SumOfCosts(s: Session, peak: real)
    requires LedgersAgree(s) && Sized(s) && peak >= s.risk.peak && |s.ledger.open| <= 8
    ensures Sum(EntryCosts(s.book)) <= 0.8 * peak
  {
    OneCostEach(s);
    EightTenths(EntryCosts(s.book), peak);
  }

  lemma CostsAtLimit(costs: map<string, real>, most: nat, limit: real)
    requires |costs| < most && limit >= 0.0
    requires forall x :: x in costs ==> costs[x] <= limit
    ensures Sum(costs) <= Times(most, limit) - limit
  {
    SumAtMost(costs, limit);
    var n, m := |costs| as real, most as real;
    ProductNonNegative(m - 1.0 - n, limit);
    assert (m - 1.0 - n) * limit == m * limit - limit - n * limit;
  }

  lemma CostsWithinLimit(s: Session, costs: map<string, real>, limit: real)
    requires Sized(s) && costs == EntryCosts(s.book) && limit == s.risk.limits.maxPosition
    ensures forall x :: x in costs ==> costs[x] <= limit
  {
  }

  /** One position fewer than the most, each at the user's limit. */
  lemma SumOfLimits(s: Session, costs: map<string, real>, most: nat, limit: real)
    requires LedgersAgree(s) && Sized(s) && costs == EntryCosts(s.book)
    requires limit == s.risk.limits.maxPosition && limit >= 0.0 && |s.ledger.open| < most
    ensures Sum(costs) <= Times(most, limit) - limit
  {
    OneCostEach(s);
    CostsWithinLimit(s, costs, limit);
    CostsAtLimit(costs, most, limit);
  }

  /** Either bound on what the holdings cost leaves the size and its fee. */
  lemma RoomIsLeft(equity: real, peak: real, costs: real, size: real, allLimits: real, limit: real)
    requires equity > BreakerLine(peak, 10.0) && peak >= START_BALANCE && equity <= peak
    requires 0.0 < size <= equity * 0.1 && size <= limit
    requires costs <= 0.8 * peak || (costs <= allLimits - limit && allLimits + 0.001 * limit <= 9000.0)
    ensures size + size * 0.001 <= equity - costs
    ensures size <= peak * 0.1
  {
  }

  lemma CostsAreBounded(s: Session, peak: real, limit: real, most: nat, allLimits: real)
    requires LedgersAgree(s) && Sized(s) && limit == s.risk.limits.maxPosition && limit >= 0.0
    requires most == MostOpen(s.maxPairs) && allLimits == Times(most, limit)
    requires s.maxPairs <= 9 || allLimits + 0.001 * limit <= 9000.0
    requires |s.ledger.open| < s.maxPairs && |s.ledger.open| < HARD_CAP && peak >= s.risk.peak
    ensures var costs := Sum(EntryCosts(s.book));
            costs <= 0.8 * peak || (costs <= allLimits - limit && allLimits + 0.001 * limit <= 9000.0)
  {
    if s.maxPairs <= 9 {
      SumOfCosts(s, peak);
    } else {
      SumOfLimits(s, EntryCosts(s.book), most, limit);
    }
  }

  /**
   * The holdings leave room: eight of them cost at most eight tenths of a peak whose nine tenths the
   * equity exceeds; and small ones leave one limit and its fee of nine tenths of the start balance.
   */
  lemma RoomForSize(s: Session, peak: real, equity: real, size: real, limit: real)
    requires LedgersAgree(s) && Sized(s) && Roomy(s.maxPairs, limit) && limit == s.risk.limits.maxPosition
    requires |s.ledger.open| < s.maxPairs && |s.ledger.open| < HARD_CAP
    requires equity == BookValue(s.book) && equity > BreakerLine(peak, 10.0) && peak >= s.risk.peak && peak >= equity
    requires 0.0 < size <= equity * 0.1 && size <= limit
    ensures size + size * 0.001 <= s.book.cash && size <= peak * 0.1
  {
    var allLimits := Times(MostOpen(s.maxPairs), limit);
    CostsAreBounded(s, peak, limit, MostOpen(s.maxPairs), allLimits);
    RoomIsLeft(equity, peak, Sum(EntryCosts(s.book)), size, allLimits, limit);
  }

  /** Every BUY of a roomy session is covered by the cash. */
  lemma BuyIsCovered(s: Session, step: Step)
    requires Sound(s) && Sized(s) && Roomy(s.maxPairs, s.risk.limits.maxPosition) && Next(s, step).buys != s.buys
    ensures step.Signal? && Bill(s, step) <= s.book.cash
    ensures Cost(Requested(s, step), step.price) <= Checked(s, step).risk.peak * 0.1
    ensures Cost(Requested(s, step), step.price) <= s.risk.limits.maxPosition
  {
    BuyStep(s, step);
    CostIsSize(s, step);
    BuyIsAboveLine(s, step);
    RequestIsLimited(s, step);
    RoomForSize(s, Checked(s, step).risk.peak, BookValue(s.book), RequestedSize(s, step), s.risk.limits.maxPosition);
  }

  ghost predicate Safe(s: Session)
  {
    Sound(s) && Sized(s) && AllFilled(s.buys) && Roomy(s.maxPairs, s.risk.limits.maxPosition)
  }

  lemma OtherStepKeepsSized(s: Session, step: Step)
    requires Sound(s) && Sized(s) && Next(s, step).buys == s.buys
    ensures Sized(Next(s, step))
  {
    var s' := Next(s, step);
    PeakOnlyGrows(s, step);
    forall x | x in s'.book.holdings
      ensures EntryCosts(s'.book)[x] <= s'.risk.peak * 0.1 && EntryCosts(s'.book)[x] <= s.risk.limits.maxPosition
    {
      HoldingsOnlyShrink(s, step, x);
      assert EntryCosts(s.book)[x] <= s.risk.peak * 0.1;
    }
  }

  lemma BuyKeepsSized(s: Session, step: Step)
    requires Safe(s) && Next(s, step).buys != s.buys
    ensures Sized(Next(s, step))
  {
    var s' := Next(s, step);
    BuyStep(s, step);
    BuyIsCovered(s, step);
    PeakOnlyGrows(s, step);
    var f := s'.book.holdings[step.symbol];
    assert s'.book.holdings == s.book.holdings[step.symbol := f];
    assert f.quantity == Requested(s, step) && f.avgPrice == step.price;
    forall x | x in s.book.holdings ensures EntryCosts(s.book)[x] <= s'.risk.peak * 0.1 {
      assert EntryCosts(s.book)[x] <= s.risk.peak * 0.1;
    }
  }

  lemma OneMoreFilled(before: seq<Purchase>, after: seq<Purchase>)
    requires AllFilled(before) && |after| == |before| + 1 && after[..|before|] == before
             && FilledInFull(after[|before|])
    ensures AllFilled(after)
  {
    forall i | 0 <= i < |after| ensures FilledInFull(after[i]) {
      if i < |before| {
        assert after[i] == after[..|before|][i];
      }
    }
  }

  lemma BuyKeepsFilled(s: Session, step: Step)
    requires Safe(s) && Next(s, step).buys != s.buys
    ensures Sound(Next(s, step)) && AllFilled(Next(s, step).buys)
  {
    BuyIsCovered(s, step);
    BuyKeepsAgreementIff(s, step);
    OneMoreFilled(s.buys, Next(s, step).buys);
  }

  lemma StepKeepsSafe(s: Session, step: Step)
    requires Safe(s)
    ensures Safe(Next(s, step))
  {
    PeakOnlyGrows(s, step);
    if Next(s, step).buys == s.buys {
      OtherStepKeepsSound(s, step);
      OtherStepKeepsSized(s, step);
    } else {
      BuyKeepsFilled(s, step);
      BuyKeepsSized(s, step);
    }
  }

  lemma {:induction false} RunKeepsSafe(s: Session, steps: seq<Step>)
    requires Safe(s)
    ensures Safe(Run(s, steps))
  {
    if steps != [] {
      RunKeepsSafe(s, steps[..|steps| - 1]);
      StepKeepsSafe(Run(s, steps[..|steps| - 1]), steps[|steps| - 1]);
    }
  }

  // ---------------------------------------------------------------- theorems about every run

  /** Every roomy paper session, from the start, whatever happens to it. */
  lemma EveryRunIsSafe(maxPairs: nat, barred: bool, maxPosition: real, steps: seq<Step>)
    requires Roomy(maxPairs, maxPosition)
    ensures var s := Run(NewSession(maxPairs, barred, maxPosition), steps);
            AllFilled(s.buys) && LedgersAgree(s) && MoneyConserved(s) && Safe(s)
  {
    NewSessionIsSound(maxPairs, barred, maxPosition);
    RunKeepsSafe(NewSession(maxPairs, barred, maxPosition), steps);
  }

  /** What the open positions would gain at these prices. */
  ghost function Gains(l: Ledger, prices: map<string, real>): map<string, real>
    requires l.open.Keys <= prices.Keys
  {
    map x | x in l.open :: Gain(l.open[x].side, l.open[x].entry, prices[x], l.open[x].quantity)
  }

  /**
   * In every sound state the engine's equity at any prices covering the holdings is what the tracker
   * says was realised and would be gained, over the start balance, less the fees paid.
   */
  lemma EquityIdentity(s: Session, prices: map<string, real>)
    requires Sound(s) && s.ledger.open.Keys <= prices.Keys
    ensures Equity(s.book, prices) == START_BALANCE + s.ledger.realized + Sum(Gains(s.ledger, prices)) - s.book.feesPaid
  {
    var costs, gains := EntryCosts(s.book), Gains(s.ledger, prices);
    var worth := map x | x in s.book.holdings :: Cost(s.book.holdings[x].quantity, prices[x]);
    forall x | x in gains ensures gains[x] == worth[x] - costs[x] {
      var p := s.ledger.open[x];
      GainIsDifference(p.quantity, p.entry, prices[x]);
    }
    SumDifference(worth, costs, gains);
    SumDropZeros(worth, Worth(s.book, prices));
    if prices == map[] {
      assert worth == map[];
    }
  }

  /** At the tracker's own last prices: initial + realised + unrealised - fees. */
  lemma EquityAtLastPrices(s: Session)
    requires Sound(s)
    ensures Equity(s.book, map x | x in s.ledger.open :: s.ledger.open[x].current)
         == START_BALANCE + s.ledger.realized + TotalUnrealized(s.ledger) - s.book.feesPaid
  {
    var prices := map x | x in s.ledger.open :: s.ledger.open[x].current;
    EquityIdentity(s, prices);
    var gains := Gains(s.ledger, prices);
    forall x | x in gains ensures gains[x] == s.ledger.open[x].unrealized {
      assert SamePosition(s.book.holdings[x], s.ledger.open[x]);
    }
    assert gains == map x | x in s.ledger.open :: s.ledger.open[x].unrealized;
  }
}
