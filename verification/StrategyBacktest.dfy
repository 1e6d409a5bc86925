/** The scorer's own backtest of one strategy: all in or all out over a price history, scored in [0, 1]. */
module StrategyBacktest {
  import opened Signals
  import opened Arithmetic
  import opened BacktestFigures
  import PaperBook

  const START := 10000.0

  /** `gains` holds what every finished trade gained. */
  datatype Desk = Desk(
    balance: real, inPosition: bool, entryPrice: real, entryQty: real, peak: real, low: real, gains: seq<real>)

  function Opening(): Desk { Desk(START, false, 0.0, 0.0, START, START, []) }

  function Measured(d: Desk): Desk
  {
    d.(peak := if d.balance > d.peak then d.balance else d.peak, low := if d.balance < d.low then d.balance else d.low)
  }

  function Bought(d: Desk, price: real): Desk
  {
    d.(balance := d.balance - Size(d.balance), inPosition := true,
       entryPrice := price, entryQty := Quantity(d.balance, price))
  }

  function Sold(d: Desk, price: real): Desk
  {
    d.(balance := d.balance + PaperBook.Cost(d.entryQty, price), inPosition := false,
       gains := d.gains + [PaperBook.Cost(d.entryQty, price) - PaperBook.Cost(d.entryQty, d.entryPrice)])
  }

  /** One candle: a buy of nothing ends it before anything is measured. */
  function Candle(d: Desk, price: real, action: Action): Desk
  {
    if action == HOLD then d
    else if !d.inPosition && action == BUY then
      if Quantity(d.balance, price) <= 0.0 then d else Measured(Bought(d, price))
    else if d.inPosition && action == SELL then Measured(Sold(d, price))
    else Measured(d)
  }

  function Traded(closes: seq<real>, actions: seq<Action>): Desk
    requires |closes| == |actions|
  {
    if closes == [] then Opening()
    else
      var n := |closes| - 1;
      Candle(Traded(closes[..n], actions[..n]), closes[n], actions[n])
  }

  /** A position still open at the end is sold at the last close, and nothing more is measured. */
  function Closed(d: Desk, price: real): Desk { if d.inPosition then Sold(d, price) else d }

  function Total(gains: seq<real>): real
  {
    if gains == [] then 0.0 else Total(gains[..|gains| - 1]) + gains[|gains| - 1]
  }

  function Winners(gains: seq<real>): (n: nat)
    ensures n <= |gains|
  {
    if gains == [] then 0 else Winners(gains[..|gains| - 1]) + if gains[|gains| - 1] > 0.0 then 1 else 0
  }

  // ---------------------------------------------------------------- the score

  function Clamp(x: real): real { if x < 0.0 then 0.0 else if x > 1.0 then 1.0 else x }

  function ProfitPct(balance: real): real { (balance - START) / START * 100.0 }

  /** `deviation` is the standard deviation of the price changes, `root` the root of 252. */
  function Sharpe(profitPct: real, deviation: real, root: real): real
    requires root > 0.0
  {
    if deviation > 0.0 && profitPct != 0.0 then profitPct / 100.0 / (deviation * root) * 252.0 else 0.0
  }

  /** Half risk-adjusted return, three tenths win rate, two tenths profit, each brought into [0, 1]. */
  function Composite(sharpe: real, winRatePct: real, profitPct: real): real
  {
    0.5 * Clamp((sharpe + 2.0) / 4.0) + 0.3 * (winRatePct / 100.0) + 0.2 * Clamp((profitPct + 20.0) / 40.0)
  }

  datatype Report = Report(
    sharpe: real, winRate: real, profitPct: real, maxDrawdownPct: real, trades: nat, composite: real)

  /** The composite before it is rounded, from figures that are not rounded either. */
  function Score(d: Desk, deviation: real, root: real): real
    requires root > 0.0
  {
    var profit := ProfitPct(d.balance);
    Composite(Sharpe(profit, deviation, root), WinRate(Winners(d.gains), |d.gains|), profit)
  }

  /** The report on a finished desk. */
  function ReportOn(d: Desk, deviation: real, root: real): Report
    requires root > 0.0
  {
    var profit := ProfitPct(d.balance);
    Report(Round2(Sharpe(profit, deviation, root)), Round1(WinRate(Winners(d.gains), |d.gains|)), Round2(profit),
           Round2(MaxDrawdownPct(d.peak, d.low)), |d.gains|, Round4(Score(d, deviation, root)))
  }

  // ---------------------------------------------------------------- laws

  lemma GainAppended(gains: seq<real>, gain: real)
    ensures Total(gains + [gain]) == Total(gains) + gain
    ensures Winners(gains + [gain]) == Winners(gains) + if gain > 0.0 then 1 else 0
  {
    assert (gains + [gain])[..|gains|] == gains;
  }

  /** What was paid for the open position. */
  function Held(d: Desk): real { if d.inPosition then PaperBook.Cost(d.entryQty, d.entryPrice) else 0.0 }

  predicate Balanced(d: Desk) { d.balance + Held(d) == START + Total(d.gains) }

  lemma SaleBalances(d: Desk, price: real)
    requires Balanced(d) && d.inPosition
    ensures Balanced(Sold(d, price))
  {
    GainAppended(d.gains, PaperBook.Cost(d.entryQty, price) - PaperBook.Cost(d.entryQty, d.entryPrice));
  }

  lemma PurchaseBalances(d: Desk, price: real)
    requires Balanced(d) && !d.inPosition && Quantity(d.balance, price) > 0.0
    ensures Balanced(Bought(d, price))
  {
    QuotientTimes(Size(d.balance), price);
  }

  /** Whatever the signals, the money is where the trades put it. */
  lemma {:induction false} TradingBalances(closes: seq<real>, actions: seq<Action>)
    requires |closes| == |actions|
    ensures Balanced(Traded(closes, actions))
  {
    if closes != [] {
      var n := |closes| - 1;
      var d := Traded(closes[..n], actions[..n]);
      TradingBalances(closes[..n], actions[..n]);
      if d.inPosition {
        SaleBalances(d, closes[n]);
      } else if Quantity(d.balance, closes[n]) > 0.0 {
        PurchaseBalances(d, closes[n]);
      }
    }
  }

  /** Neither cash nor position is negative, and the extremes are in order. */
  predicate Funded(d: Desk) { 0.0 <= d.low <= d.peak && START <= d.peak && d.balance >= 0.0 && d.entryQty >= 0.0 }

  lemma CandleFunds(d: Desk, price: real, action: Action)
    requires Funded(d) && price >= 0.0
    ensures Funded(Candle(d, price, action))
  {
    if d.inPosition {
      ProductNonNegative(d.entryQty, price);
    }
  }

  lemma {:induction false} TradingFunds(closes: seq<real>, actions: seq<Action>)
    requires |closes| == |actions| && forall i :: 0 <= i < |closes| ==> closes[i] >= 0.0
    ensures Funded(Traded(closes, actions))
  {
    if closes != [] {
      var n := |closes| - 1;
      TradingFunds(closes[..n], actions[..n]);
      CandleFunds(Traded(closes[..n], actions[..n]), closes[n], actions[n]);
    }
  }

  lemma CompositeInUnit(sharpe: real, wins: nat, trades: nat, profitPct: real)
    requires wins <= trades
    ensures 0.0 <= Composite(sharpe, WinRate(wins, trades), profitPct) <= 1.0
  {
    WinRateInRange(wins, trades);
  }

  /** The composite score is in [0, 1] for every history, every signal and whatever the deviation is said to be. */
  lemma ScoreInUnit(d: Desk, deviation: real, root: real)
    requires root > 0.0
    ensures 0.0 <= ReportOn(d, deviation, root).composite <= 1.0
  {
    hide Composite, WinRate, Sharpe, ProfitPct, Round1, Round2;
    CompositeInUnit(Sharpe(ProfitPct(d.balance), deviation, root), Winners(d.gains), |d.gains|, ProfitPct(d.balance));
    Round4Close(Score(d, deviation, root));
  }

  /**
   * The profit reported is what the trades gained, to the nearest hundredth of a percent; the win rate is in
   * [0, 100], and with prices that are not negative so is the drawdown.
   */
  lemma ReportIsTrue(closes: seq<real>, actions: seq<Action>, deviation: real, root: real)
    requires |closes| == |actions| > 0 && root > 0.0
    ensures var d := Closed(Traded(closes, actions), closes[|closes| - 1]);
            var r := ReportOn(d, deviation, root);
            && d.balance == START + Total(d.gains) && r.profitPct == Round2(Total(d.gains) / 100.0)
            && r.trades == |d.gains| && 0.0 <= r.composite <= 1.0 && 0.0 <= r.winRate <= 100.0
            && ((forall i :: 0 <= i < |closes| ==> closes[i] >= 0.0) ==> 0.0 <= r.maxDrawdownPct <= 100.0)
  {
    hide Traded, Round1, Round2, Round4, Score, WinRate, Sharpe, MaxDrawdownPct, Funded, PaperBook.Cost;
    var last := closes[|closes| - 1];
    var d := Traded(closes, actions);
    TradingBalances(closes, actions);
    if d.inPosition {
      SaleBalances(d, last);
    }
    ScoreInUnit(Closed(d, last), deviation, root);
    RateInRange(Closed(d, last));
    if forall i :: 0 <= i < |closes| ==> closes[i] >= 0.0 {
      TradingFunds(closes, actions);
      DrawdownReported(d);
    }
  }

  lemma RateInRange(d: Desk)
    ensures 0.0 <= Round1(WinRate(Winners(d.gains), |d.gains|)) <= 100.0
  {
    WinRateInRange(Winners(d.gains), |d.gains|);
    Round1Close(WinRate(Winners(d.gains), |d.gains|));
  }

  lemma DrawdownReported(d: Desk)
    requires Funded(d)
    ensures 0.0 <= Round2(MaxDrawdownPct(d.peak, d.low)) <= 100.0
  {
    DrawdownInRange(d.peak, d.low);
    Round2Close(MaxDrawdownPct(d.peak, d.low));
  }

  // ---------------------------------------------------------------- what the figures mean

  function Clipped(x: real, low: real, high: real): real { if x < low then low else if x > high then high else x }

  /**
   * Half of the score is the Sharpe ratio between -2 and 2, three tenths the win rate, two tenths the profit between
   * -20% and 20%; what lies outside counts as the nearer end.
   */
  lemma ScoreIs(sharpe: real, winRatePct: real, profitPct: real)
    ensures Composite(sharpe, winRatePct, profitPct)
         == 0.5 * ((Clipped(sharpe, -2.0, 2.0) + 2.0) / 4.0) + 0.003 * winRatePct
            + 0.2 * ((Clipped(profitPct, -20.0, 20.0) + 20.0) / 40.0)
  {
  }

  /** A year of 252 days of profit over the deviation of as many; zero without a deviation. */
  lemma SharpeIs(profitPct: real, deviation: real, root: real)
    requires root > 0.0
    ensures deviation > 0.0 ==> Sharpe(profitPct, deviation, root) * (deviation * root) == 2.52 * profitPct
    ensures deviation <= 0.0 ==> Sharpe(profitPct, deviation, root) == 0.0
  {
    if deviation > 0.0 && profitPct != 0.0 {
      ProductPositive(deviation, root);
      QuotientTimes(profitPct / 100.0, deviation * root);
    }
  }

  /** A BUY takes the smaller of a tenth of the balance and 1000, and a SELL brings what it holds at the price. */
  lemma CandleTrades(d: Desk, price: real)
    requires price > 0.0
    ensures !d.inPosition && d.balance > 0.0 ==>
      var d', size := Candle(d, price, BUY), if d.balance / 10.0 < 1000.0 then d.balance / 10.0 else 1000.0;
      d'.inPosition && d'.balance == d.balance - size && d'.entryQty * price == size && d'.entryPrice == price
      && d'.gains == d.gains
    ensures d.inPosition ==>
      var d' := Candle(d, price, SELL);
      !d'.inPosition && d'.balance == d.balance + d.entryQty * price
      && d'.gains == d.gains + [d.entryQty * (price - d.entryPrice)]
  {
    TradeIs(d.balance, price);
    QuotientPositive(Size(d.balance), price);
    var gain := d.entryQty * (price - d.entryPrice);
    assert PaperBook.Cost(d.entryQty, price) - PaperBook.Cost(d.entryQty, d.entryPrice) == gain;
  }

  /** The gains above zero. */
  function Gainful(gains: seq<real>): seq<real>
  {
    if gains == [] then [] else
      Gainful(gains[..|gains| - 1]) + if gains[|gains| - 1] > 0.0 then [gains[|gains| - 1]] else []
  }

  lemma {:induction false} WinnersAreGainful(gains: seq<real>)
    ensures Winners(gains) == |Gainful(gains)|
  {
    if gains != [] {
      WinnersAreGainful(gains[..|gains| - 1]);
    }
  }

  /** The balance before the first candle and after each one. */
  function Balances(closes: seq<real>, actions: seq<Action>): seq<real>
    requires |closes| == |actions|
  {
    if closes == [] then [START]
    else Balances(closes[..|closes| - 1], actions[..|closes| - 1]) + [Traded(closes, actions).balance]
  }

  /** The peak and the low are the extremes of these balances. */
  lemma {:induction false} ExtremesOfBalance(closes: seq<real>, actions: seq<Action>)
    requires |closes| == |actions|
    ensures var d, bs := Traded(closes, actions), Balances(closes, actions);
            IsHighest(d.peak, bs) && IsLowest(d.low, bs) && d.balance in bs
  {
    hide Candle, IsHighest, IsLowest;
    var bs := Balances(closes, actions);
    if closes == [] {
      StartIsExtreme();
    } else {
      var m := |closes| - 1;
      var before, earlier := Traded(closes[..m], actions[..m]), Balances(closes[..m], actions[..m]);
      ExtremesOfBalance(closes[..m], actions[..m]);
      ExtremesAppended(before.peak, before.low, earlier, before.balance);
      CandleMeasures(before, closes[m], actions[m]);
      ExtremesAppended(before.peak, before.low, earlier, Traded(closes, actions).balance);
    }
  }

  lemma StartIsExtreme()
    ensures IsHighest(START, [START]) && IsLowest(START, [START])
  {
  }

  lemma CandleMeasures(d: Desk, price: real, action: Action)
    requires d.low <= d.balance <= d.peak
    ensures var d' := Candle(d, price, action);
            && d'.peak == (if d'.balance > d.peak then d'.balance else d.peak)
            && d'.low == (if d'.balance < d.low then d'.balance else d.low)
  {
    hide PaperBook.Cost, Size, Quantity;
  }

  // ---------------------------------------------------------------- the loop

  /** One candle of the loop, counting winners and losers. */
  method TradeCandle(d0: Desk, price: real, action: Action, wins0: nat, losses0: nat)
    returns (d: Desk, wins: nat, losses: nat)
    requires wins0 == Winners(d0.gains) && wins0 + losses0 == |d0.gains|
    ensures d == Candle(d0, price, action) && wins == Winners(d.gains) && wins + losses == |d.gains|
  {
    hide PaperBook.Cost, Size, Quantity, Total;
    d, wins, losses := d0, wins0, losses0;
    if action == HOLD {
      return;
    }
    if !d.inPosition && action == BUY {
      var size, qty := Size(d.balance), Quantity(d.balance, price);
      if qty <= 0.0 {
        return;
      }
      d := d.(entryPrice := price, entryQty := qty, balance := d.balance - size, inPosition := true);
    } else if d.inPosition && action == SELL {
      var proceeds := PaperBook.Cost(d.entryQty, price);
      var pnl := proceeds - PaperBook.Cost(d.entryQty, d.entryPrice);
      GainAppended(d.gains, pnl);
      d := d.(balance := d.balance + proceeds, gains := d.gains + [pnl], inPosition := false);
      if pnl > 0.0 { wins := wins + 1; } else { losses := losses + 1; }
    }
    if d.balance > d.peak {
      d := d.(peak := d.balance);
    }
    if d.balance < d.low {
      d := d.(low := d.balance);
    }
  }

  method TradeHistory(closes: seq<real>, actions: seq<Action>) returns (d: Desk, wins: nat, losses: nat)
    requires |closes| == |actions|
    ensures d == Traded(closes, actions) && wins == Winners(d.gains) && wins + losses == |d.gains|
  {
    d, wins, losses := Opening(), 0, 0;
    for i := 0 to |closes|
      invariant d == Traded(closes[..i], actions[..i])
      invariant wins == Winners(d.gains) && wins + losses == |d.gains|
    {
      assert closes[..i + 1][..i] == closes[..i] && actions[..i + 1][..i] == actions[..i];
      d, wins, losses := TradeCandle(d, closes[i], actions[i], wins, losses);
    }
    assert closes[..|closes|] == closes && actions[..|actions|] == actions;
  }

  /** Sells what is left at the last close, and reports. */
  method BacktestStrategy(closes: seq<real>, actions: seq<Action>, deviation: real, root: real)
    returns (report: Report, wins: nat, losses: nat)
    requires |closes| == |actions| > 0 && root > 0.0
    ensures var d := Closed(Traded(closes, actions), closes[|closes| - 1]);
            && report == ReportOn(d, deviation, root) && wins == Winners(d.gains) && wins + losses == report.trades
            && report.profitPct == Round2(Total(d.gains) / 100.0) && 0.0 <= report.composite <= 1.0
            && 0.0 <= report.winRate <= 100.0
            && ((forall i :: 0 <= i < |closes| ==> closes[i] >= 0.0) ==> 0.0 <= report.maxDrawdownPct <= 100.0)
  {
    var d: Desk;
    d, wins, losses := TradeHistory(closes, actions);
    if d.inPosition {
      var pnl := PaperBook.Cost(d.entryQty, closes[|closes| - 1]) - PaperBook.Cost(d.entryQty, d.entryPrice);
      GainAppended(d.gains, pnl);
      d := Sold(d, closes[|closes| - 1]);
      if pnl > 0.0 { wins := wins + 1; } else { losses := losses + 1; }
    }
    ReportIsTrue(closes, actions, deviation, root);
    report := ReportOn(d, deviation, root);
  }
}
