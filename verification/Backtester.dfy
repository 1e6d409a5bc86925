/** The backtest loop: one symbol, all in or all out, through the paper engine and the tracker. */
module BacktestRules {
  import opened Collections
  import opened Signals
  import opened PaperBook
  import opened PositionLedger
  import opened Arithmetic
  import opened BacktestFigures

  /** `asked` is a history variable: the quantity each order asked for. */
  datatype Account = Account(
    book: Book, ledger: Ledger, totalTrades: nat, wins: nat, losses: nat,
    peak: real, low: real, curve: seq<real>, trades: seq<Action>, asked: seq<real>)

  function StartAccount(initial: real): Account
  {
    Account(Book(initial, 0.001, map[], [], [], 0.0), Ledger(map[], [], 0.0), 0, 0, 0, initial, initial, [], [], [])
  }

  ghost function EquityAt(a: Account, symbol: string, price: real): real { Equity(a.book, map[symbol := price]) }

  /** Sells the position at the candle's close. */
  function SellAll(a: Account, symbol: string, price: real): Account
    requires symbol in a.ledger.open
  {
    var book := CreateOrder(a.book, MarketSell(symbol, a.ledger.open[symbol].quantity, price)).book;
    var ledger := ClosePosition(a.ledger, symbol, price);
    var won := ledger.closed[|ledger.closed| - 1].realized > 0.0;
    a.(book := book, ledger := ledger, totalTrades := a.totalTrades + 1,
       wins := a.wins + (if won then 1 else 0), losses := a.losses + (if won then 0 else 1),
       trades := a.trades + [SELL], asked := a.asked + [a.ledger.open[symbol].quantity])
  }

  /** Buys a tenth of the cash, at most a thousand. */
  function BuyIn(a: Account, symbol: string, price: real, quantity: real): Account
  {
    match CreateOrder(a.book, NewOrder(symbol, Side.Buy, Market, quantity, price, None, None))
    case Error => a
    case Done(book, _) =>
      a.(book := book, ledger := OpenPosition(a.ledger, NewPos(symbol, Side.Buy, price, quantity, None, None)),
         trades := a.trades + [BUY], asked := a.asked + [quantity])
  }

  ghost function Measure(a: Account, symbol: string, price: real): Account
  {
    var cash := a.book.cash;
    a.(peak := if cash > a.peak then cash else a.peak, low := if cash < a.low then cash else a.low,
       curve := a.curve + [Round2(EquityAt(a, symbol, price))])
  }

  /** One candle: a buy of nothing ends the candle before anything is measured. */
  ghost function Candle(a: Account, symbol: string, price: real, signal: Action): Account
  {
    var held := symbol in a.ledger.open;
    if signal == HOLD then a.(curve := a.curve + [Round2(EquityAt(a, symbol, price))])
    else if held && signal == SELL then Measure(SellAll(a, symbol, price), symbol, price)
    else if !held && signal == BUY then
      var q := Quantity(a.book.cash, price);
      if q <= 0.0 then a else Measure(BuyIn(a, symbol, price, q), symbol, price)
    else Measure(a, symbol, price)
  }

  ghost function Backtest(initial: real, symbol: string, prices: seq<real>, signals: seq<Action>): Account
    requires |prices| == |signals|
  {
    if prices == [] then StartAccount(initial) else
      var n := |prices| - 1;
      Candle(Backtest(initial, symbol, prices[..n], signals[..n]), symbol, prices[n], signals[n])
  }

  // ---------------------------------------------------------------- what every backtest keeps

  /** Flat, or long the one symbol with the same position in engine and tracker, filled in full. */
  ghost predicate OnePosition(a: Account, symbol: string)
  {
    && a.book.holdings.Keys == a.ledger.open.Keys && a.ledger.open.Keys <= {symbol}
    && (symbol in a.ledger.open ==>
          var o, p := a.book.holdings[symbol], a.ledger.open[symbol];
          o.side == Side.Buy == p.side && o.status == Filled && o.filled == o.quantity == p.quantity
          && o.avgPrice == p.entry && p.symbol == symbol && p.quantity > 0.0)
  }

  ghost function HeldCost(a: Account, symbol: string): real
  {
    if symbol in a.ledger.open then Cost(a.ledger.open[symbol].quantity, a.ledger.open[symbol].entry) else 0.0
  }

  ghost predicate Balanced(a: Account, symbol: string, initial: real)
  {
    a.book.cash + HeldCost(a, symbol) + a.book.feesPaid == initial + a.ledger.realized
  }

  predicate Alternates(trades: seq<Action>, held: bool)
  {
    && (forall i :: 0 <= i < |trades| ==> trades[i] == if i % 2 == 0 then BUY else SELL)
    && (held <==> |trades| % 2 == 1)
  }

  ghost predicate Sound(a: Account, symbol: string, initial: real)
  {
    && OnePosition(a, symbol) && Balanced(a, symbol, initial) && a.book.feeRate == 0.001
    && Alternates(a.trades, symbol in a.ledger.open)
    && a.wins + a.losses == a.totalTrades == |a.trades| / 2
    && |a.book.orders| == |a.asked| == |a.trades| && AllInFull(a.book.orders, a.asked)
  }

  /** Every order was filled with the quantity it asked for. */
  predicate AllInFull(orders: seq<Order>, asked: seq<real>)
    requires |orders| == |asked|
  {
    forall i :: 0 <= i < |orders| ==> orders[i].status == Filled && orders[i].filled == asked[i]
  }

  lemma SellKeepsSound(a: Account, symbol: string, price: real, initial: real)
    requires Sound(a, symbol, initial) && symbol in a.ledger.open
    ensures Sound(SellAll(a, symbol, price), symbol, initial)
  {
    var p := a.ledger.open[symbol];
    assert Gain(Side.Buy, p.entry, price, p.quantity) == Cost(p.quantity, price) - Cost(p.quantity, p.entry);
  }

  lemma SizeFits(cash: real, price: real)
    requires price > 0.0 && Quantity(cash, price) > 0.0
    ensures Cost(Quantity(cash, price), price) == Size(cash) > 0.0
    ensures Size(cash) + Size(cash) * 0.001 <= cash
  {
    QuotientTimes(Size(cash), price);
    QuotientPositive(Size(cash), price);
  }

  lemma BuyKeepsSound(a: Account, symbol: string, price: real, initial: real)
    requires Sound(a, symbol, initial) && symbol !in a.ledger.open && Quantity(a.book.cash, price) > 0.0
    ensures Sound(BuyIn(a, symbol, price, Quantity(a.book.cash, price)), symbol, initial)
  {
    SizeFits(a.book.cash, price);
  }

  lemma CandleKeepsSound(a: Account, symbol: string, price: real, signal: Action, initial: real)
    requires Sound(a, symbol, initial)
    ensures Sound(Candle(a, symbol, price, signal), symbol, initial)
  {
    if symbol in a.ledger.open {
      SellKeepsSound(a, symbol, price, initial);
    } else if Quantity(a.book.cash, price) > 0.0 {
      BuyKeepsSound(a, symbol, price, initial);
    }
  }

  lemma {:induction false} BacktestSound(initial: real, symbol: string, prices: seq<real>, signals: seq<Action>)
    requires |prices| == |signals|
    ensures Sound(Backtest(initial, symbol, prices, signals), symbol, initial)
  {
    hide Sound, Candle;
    if prices != [] {
      var n := |prices| - 1;
      BacktestSound(initial, symbol, prices[..n], signals[..n]);
      CandleKeepsSound(Backtest(initial, symbol, prices[..n], signals[..n]), symbol, prices[n], signals[n], initial);
    } else {
      StartIsSound(initial, symbol);
    }
  }

  lemma StartIsSound(initial: real, symbol: string)
    ensures Sound(StartAccount(initial), symbol, initial)
  {
  }

  /** What was realised and would be gained at this price, less the fees. */
  ghost function Profit(a: Account, symbol: string, price: real): real
  {
    a.ledger.realized - a.book.feesPaid + if symbol in a.ledger.open
      then Gain(Side.Buy, a.ledger.open[symbol].entry, price, a.ledger.open[symbol].quantity) else 0.0
  }

  /** At any price, the equity is the start balance and the profit. */
  lemma EquityOfSound(a: Account, symbol: string, initial: real, price: real)
    requires Sound(a, symbol, initial)
    ensures EquityAt(a, symbol, price) == initial + Profit(a, symbol, price)
  {
    var worth := Worth(a.book, map[symbol := price]);
    if symbol in a.ledger.open {
      var p := a.ledger.open[symbol];
      assert Gain(Side.Buy, p.entry, price, p.quantity) == Cost(p.quantity, price) - Cost(p.quantity, p.entry);
      if price != 0.0 {
        SumRemove(worth, symbol);
        assert worth - {symbol} == map[];
      } else {
        assert worth == map[];
      }
    } else {
      assert worth == map[];
    }
  }

  // ---------------------------------------------------------------- drawdown and the curve

  lemma SellKeepsCash(a: Account, symbol: string, price: real, initial: real)
    requires Sound(a, symbol, initial) && symbol in a.ledger.open && price >= 0.0
    ensures SellAll(a, symbol, price).book.cash >= a.book.cash
  {
    var cost := Cost(a.ledger.open[symbol].quantity, price);
    assert cost >= 0.0;
  }

  lemma CandleKeepsCash(a: Account, symbol: string, price: real, signal: Action, initial: real)
    requires Sound(a, symbol, initial) && price >= 0.0 && 0.0 <= a.low <= a.peak && a.peak > 0.0 && 0.0 <= a.book.cash
    ensures var a' := Candle(a, symbol, price, signal); 0.0 <= a'.low <= a'.peak && a'.peak > 0.0 && 0.0 <= a'.book.cash
  {
    if symbol in a.ledger.open {
      SellKeepsCash(a, symbol, price, initial);
    } else if Quantity(a.book.cash, price) > 0.0 {
      SizeFits(a.book.cash, price);
    }
  }

  /** With prices that are not negative, cash and its recorded extremes never go below zero. */
  lemma {:induction false} CashInRange(initial: real, symbol: string, prices: seq<real>, signals: seq<Action>)
    requires |prices| == |signals| && initial > 0.0 && forall i :: 0 <= i < |prices| ==> prices[i] >= 0.0
    ensures var a := Backtest(initial, symbol, prices, signals);
            0.0 <= a.low <= a.peak && a.peak > 0.0 && 0.0 <= a.book.cash
  {
    if prices != [] {
      var n := |prices| - 1;
      CashInRange(initial, symbol, prices[..n], signals[..n]);
      BacktestSound(initial, symbol, prices[..n], signals[..n]);
      CandleKeepsCash(Backtest(initial, symbol, prices[..n], signals[..n]), symbol, prices[n], signals[n], initial);
    }
  }

  /** Nothing to spend, nothing held. */
  predicate Penniless(a: Account) { a.book.cash == 0.0 && a.ledger.open == map[] && a.trades == [] }

  lemma PennilessBuysNothing(a: Account, symbol: string, price: real, signal: Action)
    requires Penniless(a)
    ensures Penniless(Candle(a, symbol, price, signal))
  {
    hide EquityAt, Round2, SellAll, BuyIn;
    assert Size(0.0) == 0.0;
  }

  /** Out of nothing nothing is bought, so no sale divides by a start balance of zero. */
  lemma {:induction false} NothingFromNothing(symbol: string, prices: seq<real>, signals: seq<Action>)
    requires |prices| == |signals|
    ensures Penniless(Backtest(0.0, symbol, prices, signals))
  {
    hide Candle;
    if prices != [] {
      var n := |prices| - 1;
      NothingFromNothing(symbol, prices[..n], signals[..n]);
      PennilessBuysNothing(Backtest(0.0, symbol, prices[..n], signals[..n]), symbol, prices[n], signals[n]);
    }
  }

  // ---------------------------------------------------------------- the summary

  /**
   * Profit in percent over the deviation of the price changes, taken to a year by `root`, the root of 252. Fewer
   * than two price changes have no deviation and give no ratio.
   */
  function SharpeRatio(profitPct: real, deviation: Option<real>, root: real): Option<real>
    requires root > 0.0
  {
    match deviation
    case None => None
    case Some(d) => Some(if d == 0.0 then 0.0 else Round2(Ratio(profitPct, d, root)))
  }

  function Ratio(profitPct: real, deviation: real, root: real): (ratio: real)
    requires root > 0.0 && deviation != 0.0
    ensures ratio * (deviation * root) == profitPct
  {
    NotZero(deviation, root);
    QuotientTimes(profitPct, deviation * root);
    profitPct / (deviation * root)
  }

  lemma SameFactor(x: real, y: real, c: real)
    requires c != 0.0 && x * c == y * c
    ensures x == y
  {
  }

  /** The Sharpe ratio is the profit over the yearly deviation, to two decimals; zero without any deviation. */
  lemma RatioIs(profitPct: real, deviation: real, root: real, exact: real)
    requires root > 0.0 && exact * (deviation * root) == profitPct
    ensures SharpeRatio(profitPct, Some(deviation), root) == Some(if deviation == 0.0 then 0.0 else Round2(exact))
  {
    hide Round2, Ratio;
    if deviation != 0.0 {
      NotZero(deviation, root);
      SameFactor(Ratio(profitPct, deviation, root), exact, deviation * root);
    }
  }

  lemma NotZero(x: real, y: real)
    requires x != 0.0 && y > 0.0
    ensures x * y != 0.0
  {
    LessTimes(0.0, x, y);
    LessTimes(x, 0.0, y);
  }

  /** A BUY costs the smaller of a tenth of the cash and 1000, and a thousandth of that as fee. */
  lemma BuyCosts(a: Account, symbol: string, price: real, initial: real)
    requires Sound(a, symbol, initial) && symbol !in a.ledger.open && price > 0.0 && a.book.cash > 0.0
    ensures var a' := Candle(a, symbol, price, BUY);
            var size := if a.book.cash / 10.0 < 1000.0 then a.book.cash / 10.0 else 1000.0;
            && symbol in a'.ledger.open && a'.ledger.open[symbol].quantity * price == size
            && a'.book.cash == a.book.cash - size - size * 0.001
  {
    TradeIs(a.book.cash, price);
    QuotientPositive(Size(a.book.cash), price);
    SizeFits(a.book.cash, price);
  }

  /** A candle changes the extremes by the cash it leaves. */
  lemma CandleMeasures(a: Account, symbol: string, price: real, signal: Action)
    requires a.low <= a.book.cash <= a.peak
    ensures var a' := Candle(a, symbol, price, signal);
            && a'.peak == (if a'.book.cash > a.peak then a'.book.cash else a.peak)
            && a'.low == (if a'.book.cash < a.low then a'.book.cash else a.low)
  {
    hide EquityAt, CreateOrder, Quantity, Round2;
  }

  /** The closed positions that gained something. */
  function Gainful(closed: seq<Pos>): seq<Pos>
  {
    if closed == [] then [] else
      Gainful(closed[..|closed| - 1]) + if closed[|closed| - 1].realized > 0.0 then [closed[|closed| - 1]] else []
  }

  lemma CandleCounts(a: Account, symbol: string, price: real, signal: Action)
    requires a.wins == |Gainful(a.ledger.closed)| && a.totalTrades == |a.ledger.closed|
    ensures var a' := Candle(a, symbol, price, signal);
            a'.wins == |Gainful(a'.ledger.closed)| && a'.totalTrades == |a'.ledger.closed|
  {
    hide EquityAt, CreateOrder, Quantity, Round2, Gain;
    if symbol in a.ledger.open {
      var closed := SellAll(a, symbol, price).ledger.closed;
      assert closed[..|a.ledger.closed|] == a.ledger.closed;
    }
  }

  /** The trades are the positions closed, and the wins those that gained something. */
  lemma {:induction false} WinsAreGains(initial: real, symbol: string, prices: seq<real>, signals: seq<Action>)
    requires |prices| == |signals|
    ensures var a := Backtest(initial, symbol, prices, signals);
            a.wins == |Gainful(a.ledger.closed)| && a.totalTrades == |a.ledger.closed|
  {
    hide Candle;
    if prices != [] {
      var n := |prices| - 1;
      WinsAreGains(initial, symbol, prices[..n], signals[..n]);
      CandleCounts(Backtest(initial, symbol, prices[..n], signals[..n]), symbol, prices[n], signals[n]);
    }
  }

  /** Every candle adds the equity it leaves to the curve, to two decimals, except a BUY of nothing. */
  lemma CandlePlots(a: Account, symbol: string, price: real, signal: Action)
    ensures var a' := Candle(a, symbol, price, signal);
            if signal == BUY && symbol !in a.ledger.open && (price <= 0.0 || a.book.cash <= 0.0) then a' == a
            else a'.curve == a.curve + [Round2(EquityAt(a', symbol, price))]
  {
    hide CreateOrder, Round2;
    if price > 0.0 {
      QuotientPositive(Size(a.book.cash), price);
    }
    CurveIsAside(a, symbol, price, signal);
  }

  lemma CurveIsAside(a: Account, symbol: string, price: real, signal: Action)
    ensures forall b: Account :: EquityAt(b.(curve := []), symbol, price) == EquityAt(b, symbol, price)
  {
  }

  /** The cash before the first candle and after each one. */
  ghost function Cashes(initial: real, symbol: string, prices: seq<real>, signals: seq<Action>): seq<real>
    requires |prices| == |signals|
  {
    if prices == [] then [initial]
    else Cashes(initial, symbol, prices[..|prices| - 1], signals[..|prices| - 1])
         + [Backtest(initial, symbol, prices, signals).book.cash]
  }

  /** The peak and the low that the drawdown is measured between are the extremes of the cash. */
  lemma {:induction false} ExtremesOfCash(initial: real, symbol: string, prices: seq<real>, signals: seq<Action>)
    requires |prices| == |signals|
    ensures var a, cs := Backtest(initial, symbol, prices, signals), Cashes(initial, symbol, prices, signals);
            IsHighest(a.peak, cs) && IsLowest(a.low, cs) && a.book.cash in cs
  {
    hide Candle, IsHighest, IsLowest;
    var cs := Cashes(initial, symbol, prices, signals);
    if prices == [] {
      OnlyOne(initial);
    } else {
      var m := |prices| - 1;
      var before := Backtest(initial, symbol, prices[..m], signals[..m]);
      var earlier := Cashes(initial, symbol, prices[..m], signals[..m]);
      ExtremesOfCash(initial, symbol, prices[..m], signals[..m]);
      ExtremesAppended(before.peak, before.low, earlier, before.book.cash);
      CandleMeasures(before, symbol, prices[m], signals[m]);
      ExtremesAppended(before.peak, before.low, earlier, Backtest(initial, symbol, prices, signals).book.cash);
    }
  }

  lemma OnlyOne(x: real)
    ensures IsHighest(x, [x]) && IsLowest(x, [x])
  {
  }

  /** How far apart the reported points are. */
  function Stride(n: nat): (k: nat)
    ensures k >= 1
  {
    if n / 100 > 1 then n / 100 else 1
  }

  /** Every k-th element, from the first. */
  function EveryKth<T>(s: seq<T>, k: nat): seq<T>
    requires k >= 1
    decreases |s|
  {
    if s == [] then [] else [s[0]] + EveryKth(if k < |s| then s[k..] else [], k)
  }

  lemma {:induction false} EveryKthLength<T>(s: seq<T>, k: nat, m: nat)
    requires k >= 1 && |s| <= m * k
    ensures |EveryKth(s, k)| <= m
    decreases |s|
  {
    if s != [] {
      if k < |s| {
        assert |s| - k <= (m - 1) * k;
        EveryKthLength(s[k..], k, m - 1);
      } else {
        assert EveryKth<T>([], k) == [];
      }
    }
  }

  lemma OneStepBack(i: nat, k: nat)
    requires i > 0
    ensures i * k - k == (i - 1) * k
  {
  }

  /** The points kept are the first and every k-th after it. */
  lemma {:induction false} EveryKthIs<T>(s: seq<T>, k: nat, i: nat, at: int)
    requires k >= 1 && i < |EveryKth(s, k)| && at == i * k
    ensures 0 <= at < |s| && EveryKth(s, k)[i] == s[at]
    decreases |s|
  {
    if i > 0 {
      OneStepBack(i, k);
      EveryKthIs(if k < |s| then s[k..] else [], k, i - 1, at - k);
    }
  }

  lemma {:induction false} EveryKthReaches<T>(s: seq<T>, k: nat, m: nat)
    requires k >= 1 && |s| > m * k
    ensures |EveryKth(s, k)| > m
    decreases |s|
  {
    if m > 0 {
      assert m * k == (m - 1) * k + k;
      EveryKthReaches(s[k..], k, m - 1);
    }
  }

  lemma {:induction false} EveryOneIsKept<T>(s: seq<T>)
    ensures EveryKth(s, 1) == s
    decreases |s|
  {
    if s != [] {
      EveryOneIsKept(if 1 < |s| then s[1..] else []);
    }
  }

  /** A curve of fewer than 200 points is reported whole, and a longer one with at least 100 points. */
  lemma CurveIsKept(curve: seq<real>)
    ensures |curve| < 200 ==> EveryKth(curve, Stride(|curve|)) == curve
    ensures |curve| >= 100 ==> |EveryKth(curve, Stride(|curve|))| >= 100
  {
    hide EveryKth;
    if |curve| < 200 {
      EveryOneIsKept(curve);
    } else {
      EveryKthReaches(curve, Stride(|curve|), 99);
    }
  }

  /** The reported curve never has more than 199 points. */
  lemma CurveIsShort(curve: seq<real>)
    ensures |EveryKth(curve, Stride(|curve|))| <= 199
  {
    var k := Stride(|curve|);
    if |curve| >= 200 {
      assert |curve| < 100 * k + 100 <= 199 * k;
    }
    EveryKthLength(curve, k, 199);
  }
}

/** The backtest as the loop it is, over an engine and a tracker of its own. */
module Backtests {
  import opened Arithmetic
  import opened Collections
  import opened Signals
  import opened PaperBook
  import opened PositionLedger
  import opened PaperEngines
  import opened PositionTrackers
  import opened BacktestFigures
  import opened BacktestRules

  datatype Report = Report(
    finalBalance: real, totalPnl: real, totalPnlPct: real, totalTrades: nat, wins: nat, losses: nat, winRate: real,
    maxDrawdownPct: real, sharpeRatio: Option<real>, trades: seq<Action>, curve: seq<real>)

  /** The last fifty of a list. */
  function LastFifty<T>(s: seq<T>): (last: seq<T>)
    ensures |last| <= 50 && (|s| >= 50 ==> |last| == 50) && exists i :: 0 <= i <= |s| && last == s[i..]
    ensures |s| < 50 ==> last == s
  {
    assert s[0..] == s;
    if |s| <= 50 then s else s[|s| - 50..]
  }

  class BacktestSession {
    const engine: PaperEngine
    const tracker: PositionTracker
    const symbol: string
    var totalTrades: nat
    var wins: nat
    var losses: nat
    var peakBalance: real
    var minBalance: real
    var curve: seq<real>
    var trades: seq<Action>
    ghost var asked: seq<real>

    ghost predicate Valid()
      reads this, engine, engine.Repr, tracker, tracker.Repr
    {
      engine.Valid() && tracker.Valid() && engine.Repr !! tracker.Repr && this !in engine.Repr && this !in tracker.Repr
    }

    ghost function State(): Account
      reads this, engine, tracker
    {
      Account(engine.book, tracker.ledger, totalTrades, wins, losses, peakBalance, minBalance, curve, trades, asked)
    }

    constructor (initial: real, symbol: string)
      ensures Valid() && fresh(engine.Repr) && fresh(tracker.Repr)
      ensures State() == StartAccount(initial) && this.symbol == symbol
    {
      engine := new PaperEngine(initial, 0.001);
      tracker := new PositionTracker();
      this.symbol := symbol;
      totalTrades, wins, losses, peakBalance, minBalance, curve, trades, asked := 0, 0, 0, initial, initial, [], [], [];
    }

    method AppendEquity(price: real)
      requires Valid()
      modifies this`curve
      ensures Valid() && State() == old(State()).(curve := old(curve) + [Round2(EquityAt(old(State()), symbol, price))])
    {
      var equity := engine.GetTotalEquity(map[symbol := price]);
      curve := curve + [Round2(equity)];
    }

    method Measure(price: real)
      requires Valid()
      modifies this
      ensures Valid() && State() == BacktestRules.Measure(old(State()), symbol, price)
    {
      if engine.balance > peakBalance {
        peakBalance := engine.balance;
      }
      if engine.balance < minBalance {
        minBalance := engine.balance;
      }
      AppendEquity(price);
    }

    /** The engine sells what the tracker holds, and the tracker closes it. */
    method Exit(price: real) returns (closed: Position)
      requires Valid() && symbol in tracker.ledger.open
      modifies engine, tracker.Repr
      ensures Valid() && fresh(engine.Repr - old(engine.Repr)) && tracker.Repr == old(tracker.Repr)
      ensures engine.book == CreateOrder(old(engine.book),
                                         MarketSell(symbol, old(tracker.ledger).open[symbol].quantity, price)).book
      ensures tracker.ledger == ClosePosition(old(tracker.ledger), symbol, price)
      ensures closed.Value() == tracker.ledger.closed[|tracker.ledger.closed| - 1]
    {
      var pos := tracker.GetOpenPosition(symbol);
      var order := engine.CreateOrder(symbol, Sell, Market, pos.quantity, price, None, None);
      closed := tracker.ClosePosition(symbol, price);
    }

    method SellAll(price: real)
      requires Valid() && symbol in tracker.ledger.open
      modifies this, engine, tracker.Repr
      ensures Valid() && State() == BacktestRules.SellAll(old(State()), symbol, price)
      ensures fresh(engine.Repr - old(engine.Repr)) && tracker.Repr == old(tracker.Repr)
    {
      hide CreateOrder;
      ghost var quantity := tracker.ledger.open[symbol].quantity;
      var closed := Exit(price);
      asked := asked + [quantity];
      Count(closed.realizedPnl > 0.0);
    }

    /** One more sell, won or lost. */
    method Count(won: bool)
      requires Valid()
      modifies this
      ensures Valid() && State() == old(State()).(
        totalTrades := old(totalTrades) + 1, wins := old(wins) + (if won then 1 else 0),
        losses := old(losses) + (if won then 0 else 1), trades := old(trades) + [SELL])
    {
      totalTrades := totalTrades + 1;
      if won {
        wins := wins + 1;
      } else {
        losses := losses + 1;
      }
      trades := trades + [SELL];
    }

    method BuyIn(price: real, quantity: real)
      requires Valid()
      modifies this, engine, tracker
      ensures Valid() && State() == BacktestRules.BuyIn(old(State()), symbol, price, quantity)
      ensures fresh(engine.Repr - old(engine.Repr)) && fresh(tracker.Repr - old(tracker.Repr))
    {
      var order := engine.CreateOrder(symbol, Side.Buy, Market, quantity, price, None, None);
      if order == null {
        return;
      }
      var _ := tracker.OpenPosition(symbol, Side.Buy, price, quantity, None, None);
      trades, asked := trades + [BUY], asked + [quantity];
    }

    method Candle(price: real, signal: Action)
      requires Valid()
      modifies this, engine, tracker.Repr
      ensures Valid() && State() == BacktestRules.Candle(old(State()), symbol, price, signal)
      ensures fresh(engine.Repr - old(engine.Repr)) && fresh(tracker.Repr - old(tracker.Repr))
    {
      if signal == HOLD {
        AppendEquity(price);
        return;
      }
      var held := symbol in tracker.positions;
      if held && signal == SELL {
        SellAll(price);
      } else if !held && signal == BUY {
        var quantity := Quantity(engine.balance, price);
        if quantity <= 0.0 {
          return;
        }
        BuyIn(price, quantity);
      }
      Measure(price);
    }
  }

  /** What the report says of a finished account, in terms of what was gained and counted. */
  ghost predicate Reports(r: Report, a: Account, initial: real, profit: real, deviation: Option<real>, root: real)
    requires initial != 0.0 && root > 0.0
  {
    && r.finalBalance == Round2(initial + profit) && r.totalPnl == Round2(profit)
    && r.totalPnlPct == Round2(profit / initial * 100.0)
    && r.sharpeRatio == SharpeRatio(profit / initial * 100.0, deviation, root)
    && r.wins == a.wins && r.losses == a.losses && r.wins + r.losses == r.totalTrades == a.totalTrades
    && r.winRate == Round1(WinRate(r.wins, r.totalTrades)) && 0.0 <= r.winRate <= 100.0
    && r.maxDrawdownPct == Round2(MaxDrawdownPct(a.peak, a.low))
    && r.trades == LastFifty(a.trades) && r.curve == EveryKth(a.curve, Stride(|a.curve|)) && |r.curve| <= 199
  }

  /** The candles of a backtest, one after the other. */
  method Replay(initial: real, symbol: string, prices: seq<real>, signals: seq<Action>)
    returns (session: BacktestSession)
    requires |prices| == |signals|
    ensures session.Valid() && session.symbol == symbol && fresh(session)
    ensures session.State() == Backtest(initial, symbol, prices, signals)
  {
    session := new BacktestSession(initial, symbol);
    for i := 0 to |prices|
      invariant session.Valid() && session.symbol == symbol && fresh(session) && fresh(session.engine)
      invariant fresh(session.engine.Repr) && fresh(session.tracker.Repr)
      invariant session.State() == Backtest(initial, symbol, prices[..i], signals[..i])
    {
      assert prices[..i + 1][..i] == prices[..i] && signals[..i + 1][..i] == signals[..i];
      session.Candle(prices[i], signals[i]);
    }
    assert prices[..|prices|] == prices && signals[..|signals|] == signals;
  }

  /** With a positive start and prices that are not negative the drawdown reported is in [0, 100]. */
  lemma DrawdownReported(initial: real, symbol: string, prices: seq<real>, signals: seq<Action>)
    requires |prices| == |signals| && initial > 0.0 && forall i :: 0 <= i < |prices| ==> prices[i] >= 0.0
    ensures var a := Backtest(initial, symbol, prices, signals); 0.0 <= Round2(MaxDrawdownPct(a.peak, a.low)) <= 100.0
  {
    hide Round2, MaxDrawdownPct;
    var a := Backtest(initial, symbol, prices, signals);
    CashInRange(initial, symbol, prices, signals);
    DrawdownInRange(a.peak, a.low);
    Round2Close(MaxDrawdownPct(a.peak, a.low));
  }

  /**
   * The whole backtest; no report when the start balance is zero, which the profit in percent is divided by. Every
   * trade is a win or a loss, the final balance is the start balance and what was realised and would be gained,
   * less the fees, and win rate, drawdown and curve are in range.
   */
  method Run(initial: real, symbol: string, prices: seq<real>, signals: seq<Action>,
             deviation: Option<real>, root: real)
    returns (report: Option<Report>)
    requires |prices| == |signals| > 0 && root > 0.0
    ensures report.None? <==> initial == 0.0
    ensures var a := Backtest(initial, symbol, prices, signals);
            report.Some? ==> Reports(report.value, a, initial, Profit(a, symbol, prices[|prices| - 1]), deviation, root)
    ensures report.Some? && initial > 0.0 && (forall i :: 0 <= i < |prices| ==> prices[i] >= 0.0) ==>
              0.0 <= report.value.maxDrawdownPct <= 100.0
  {
    hide Round1, Round2, MaxDrawdownPct, WinRate, Sound, Candle, Profit, SharpeRatio, Stride, EveryKth;
    var session := Replay(initial, symbol, prices, signals);
    var last := prices[|prices| - 1];
    ghost var a := session.State();
    BacktestSound(initial, symbol, prices, signals);
    EquityOfSound(a, symbol, initial, last);
    var finalBalance := session.engine.GetTotalEquity(map[symbol := last]);
    var totalPnl := finalBalance - initial;
    if initial == 0.0 {
      return None;
    }
    var totalPnlPct := totalPnl / initial * 100.0;
    var drawdown := MaxDrawdownPct(session.peakBalance, session.minBalance);
    var winRate := WinRate(session.wins, session.totalTrades);
    EveryTradeCounts(a, symbol, initial);
    WinRateInRange(session.wins, session.totalTrades);
    Round1Close(winRate);
    if initial > 0.0 && forall i :: 0 <= i < |prices| ==> prices[i] >= 0.0 {
      DrawdownReported(initial, symbol, prices, signals);
    }
    CurveIsShort(session.curve);
    report := Some(Report(Round2(finalBalance), Round2(totalPnl), Round2(totalPnlPct),
                          session.totalTrades, session.wins, session.losses, Round1(winRate), Round2(drawdown),
                          SharpeRatio(totalPnlPct, deviation, root), LastFifty(session.trades),
                          EveryKth(session.curve, Stride(|session.curve|))));
  }

  lemma EveryTradeCounts(a: Account, symbol: string, initial: real)
    requires Sound(a, symbol, initial)
    ensures a.wins + a.losses == a.totalTrades
  {
  }
}
