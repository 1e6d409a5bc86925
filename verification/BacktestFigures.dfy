/** The figures both backtests share: the size of a trade and what a report says about the trades. */
module BacktestFigures {
  import opened Arithmetic

  /** A tenth of the cash, at most a thousand. */
  function Size(cash: real): real { Min(cash * 0.1, 1000.0) }

  function Quantity(cash: real, price: real): real { if price > 0.0 then Size(cash) / price else 0.0 }

  /** What share of the trades won, in percent. */
  function WinRate(wins: nat, trades: nat): real { if trades > 0 then wins as real / trades as real * 100.0 else 0.0 }

  lemma WinRateInRange(wins: nat, trades: nat)
    requires wins <= trades
    ensures 0.0 <= WinRate(wins, trades) <= 100.0
  {
    if trades > 0 {
      QuotientInUnit(wins as real, trades as real);
    }
  }

  /** How far the low lies below the peak, in percent. */
  function MaxDrawdownPct(peak: real, low: real): real
  {
    if peak > 0.0 then (var d := (peak - low) / peak * 100.0; if d < 0.0 then 0.0 else d) else 0.0
  }

  lemma DrawdownInRange(peak: real, low: real)
    requires peak > 0.0 && 0.0 <= low <= peak
    ensures 0.0 <= MaxDrawdownPct(peak, low) <= 100.0
  {
    QuotientInUnit(peak - low, peak);
  }

  predicate IsHighest(x: real, xs: seq<real>) { x in xs && forall y :: y in xs ==> y <= x }

  predicate IsLowest(x: real, xs: seq<real>) { x in xs && forall y :: y in xs ==> y >= x }

  lemma ExtremesAppended(high: real, low: real, xs: seq<real>, x: real)
    requires IsHighest(high, xs) && IsLowest(low, xs)
    ensures IsHighest(if x > high then x else high, xs + [x]) && IsLowest(if x < low then x else low, xs + [x])
    ensures x in xs ==> low <= x <= high
  {
  }

  /** A trade is worth the smaller of a tenth of the cash and 1000. */
  lemma TradeIs(cash: real, price: real)
    requires price > 0.0
    ensures Quantity(cash, price) * price == if cash / 10.0 < 1000.0 then cash / 10.0 else 1000.0
  {
    QuotientTimes(Size(cash), price);
  }

  /** The win rate is a hundred for each win, shared by the trades; the drawdown the fall in percent of the peak. */
  lemma FiguresAre(wins: nat, trades: nat, peak: real, low: real)
    ensures WinRate(wins, trades) * trades as real == if trades == 0 then 0.0 else 100.0 * wins as real
    ensures peak > 0.0 && low <= peak ==> MaxDrawdownPct(peak, low) * peak == 100.0 * (peak - low)
    ensures peak <= 0.0 || low > peak ==> MaxDrawdownPct(peak, low) == 0.0
  {
    if trades > 0 {
      QuotientTimes(wins as real, trades as real);
    }
    if peak > 0.0 {
      FallIs(peak, low, (peak - low) / peak);
    }
  }

  lemma FallIs(peak: real, low: real, fall: real)
    requires peak > 0.0 && fall == (peak - low) / peak
    ensures fall * 100.0 * peak == 100.0 * (peak - low)
    ensures low <= peak ==> fall >= 0.0
    ensures low > peak ==> fall < 0.0
  {
    QuotientTimes(peak - low, peak);
    LessTimes(fall, 0.0, peak);
  }
}
