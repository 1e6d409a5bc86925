/**
 * The engine on its own, under any mix of orders and ticks: cash never goes negative, and a short buy gets all
 * it can.
 */
module EngineSolvency {
  import opened Collections
  import opened PaperBook
  import opened Arithmetic

  datatype Op =
    | Place(order: Order)
    | Tick(symbol: string, price: real)

  /** An order or tick with a positive price, and a quantity that is not negative. */
  predicate Sane(op: Op)
  {
    match op
    case Place(o) => o.price > 0.0 && o.quantity >= 0.0
    case Tick(_, price) => price > 0.0
  }

  /** An order that raises leaves the engine as it was. */
  function Apply(b: Book, op: Op): Book
  {
    match op
    case Place(o) => (match CreateOrder(b, o) case Done(b', _) => b' case Error => b)
    case Tick(symbol, price) => TickPrice(b, symbol, price).0
  }

  function ApplyAll(b: Book, ops: seq<Op>): Book
  {
    if ops == [] then b else Apply(ApplyAll(b, ops[..|ops| - 1]), ops[|ops| - 1])
  }

  ghost predicate Solvent(b: Book)
  {
    b.cash >= 0.0 && 0.0 <= b.feeRate <= 1.0 && forall s :: s in b.holdings ==> b.holdings[s].quantity >= 0.0
  }

  lemma CostNonNegative(q: real, price: real, feeRate: real)
    requires q >= 0.0 && price > 0.0 && 0.0 <= feeRate <= 1.0
    ensures 0.0 <= Fee(Cost(q, price), feeRate) <= Cost(q, price)
    ensures Cost(q, price) + Fee(Cost(q, price), feeRate) == q * UnitPrice(price, feeRate)
    ensures UnitPrice(price, feeRate) > 0.0
  {
    ProductNonNegative(q, price);
    ProductNonNegative(Cost(q, price), feeRate);
    ProductNonNegative(Cost(q, price), 1.0 - feeRate);
    ProductPositive(price, 1.0 + feeRate);
    assert Cost(q, price) * (1.0 + feeRate) == q * (price * (1.0 + feeRate));
  }

  lemma RoundDown5Is(x: real)
    requires x >= 0.0
    ensures RoundDown5(x) == (x * 100000.0).Floor as real * 0.00001
    ensures 0.0 <= RoundDown5(x) <= x < RoundDown5(x) + 0.00001
  {
  }

  lemma TimesUnit(f: real, c: real, u: real)
    requires u > 0.0 && c >= 0.0
    ensures c / u >= 0.0
    ensures f <= c / u <==> f * u <= c
  {
    QuotientPositive(c, u);
    QuotientTimes(c, u);
    if f <= c / u {
      ProductNonNegative(c / u - f, u);
    } else {
      ProductPositive(f - c / u, u);
    }
  }

  /** `k` steps of 0.00001. */
  function Steps(k: nat): real { k as real * 0.00001 }

  /**
   * A buy the cash does not cover is filled for the greatest multiple of 0.00001 that it does cover, fee
   * included, and rejected without any effect exactly when it does not cover one such step.
   */
  lemma ShortBuyGetsAllItCan(b: Book, o: Order)
    requires o.side == Buy && o.kind == Market && o.price > 0.0 && o.quantity >= 0.0 && Solvent(b)
    requires Cost(o.quantity, o.price) + Fee(Cost(o.quantity, o.price), b.feeRate) > b.cash
    ensures var unit, r := UnitPrice(o.price, b.feeRate), CreateOrder(b, o);
            && r.Done?
            && (r.order.status == Rejected <==> b.cash < 0.00001 * unit)
            && (r.order.status == Rejected ==> r.book == b.(orders := b.orders + [r.order]))
            && (r.order.status != Rejected ==>
                  && r.order.status == Filled && r.order.filled == r.order.quantity
                  && (exists k: nat :: r.order.filled == Steps(k))
                  && r.order.filled * unit <= b.cash < (r.order.filled + 0.00001) * unit)
  {
    var unit := UnitPrice(o.price, b.feeRate);
    CostNonNegative(o.quantity, o.price, b.feeRate);
    var x := b.cash / unit;
    TimesUnit(0.0, b.cash, unit);
    RoundDown5Is(x);
    var f := RoundDown5(x);
    TimesUnit(f, b.cash, unit);
    TimesUnit(f + 0.00001, b.cash, unit);
    TimesUnit(0.00001, b.cash, unit);
    assert f == Steps((x * 100000.0).Floor);
  }

  lemma SettleSolvent(b: Book, o: Order, price: real)
    requires Solvent(b) && o.quantity >= 0.0 && price > 0.0
    requires o.side == Buy ==> Cost(o.quantity, price) + Fee(Cost(o.quantity, price), b.feeRate) <= b.cash
    ensures Solvent(Settle(b, o, price).book)
  {
    CostNonNegative(o.quantity, price, b.feeRate);
  }

  lemma FillSolvent(b: Book, o: Order)
    requires Solvent(b) && o.quantity >= 0.0 && o.price > 0.0
    ensures FillMarket(b, o, o.price).Done? && Solvent(FillMarket(b, o, o.price).book)
  {
    CostNonNegative(o.quantity, o.price, b.feeRate);
    if o.side == Buy && Cost(o.quantity, o.price) + Fee(Cost(o.quantity, o.price), b.feeRate) > b.cash {
      var unit := UnitPrice(o.price, b.feeRate);
      TimesUnit(0.0, b.cash, unit);
      RoundDown5Is(b.cash / unit);
      var f := Affordable(b.cash, unit);
      TimesUnit(f, b.cash, unit);
      CostNonNegative(f, o.price, b.feeRate);
      if f > 0.0 {
        SettleSolvent(b, o.(quantity := f), o.price);
      }
    } else {
      SettleSolvent(b, o, o.price);
    }
  }

  lemma StepSolvent(b: Book, op: Op)
    requires Solvent(b) && Sane(op)
    ensures Solvent(Apply(b, op))
  {
    match op
    case Place(o) =>
      FillSolvent(b, o);
    case Tick(symbol, price) =>
      if symbol in b.holdings {
        SettleSolvent(b, MarketSell(symbol, b.holdings[symbol].quantity, price), price);
      }
  }

  /** Cash is never negative, for every sequence of orders and ticks. */
  lemma {:induction false} AlwaysSolvent(b: Book, ops: seq<Op>)
    requires Solvent(b) && forall i :: 0 <= i < |ops| ==> Sane(ops[i])
    ensures Solvent(ApplyAll(b, ops))
  {
    if ops != [] {
      AlwaysSolvent(b, ops[..|ops| - 1]);
      StepSolvent(ApplyAll(b, ops[..|ops| - 1]), ops[|ops| - 1]);
    }
  }

  /** What an order does to the engine's two lists, and what other kinds than market orders do at all. */
  lemma OrdersAreLogged(b: Book, o: Order)
    requires CreateOrder(b, o).Done?
    ensures var b', o' := CreateOrder(b, o).book, CreateOrder(b, o).order;
            && b'.orders == b.orders + [o'] && o'.symbol == o.symbol && o'.side == o.side && o'.kind == o.kind
            && (o.kind != Market ==> b' == b.(orders := b'.orders) && o' == o.(status := Status.Open))
            && (o.kind == Market && o.side == Sell ==>
                  o'.status == Filled && b'.closed == if o.symbol in b.holdings then b.closed + [o'] else b.closed)
            && (o.side == Buy ==> b'.closed == b.closed)
  {
  }

  /** A stop other than zero at or above the price, or a target other than zero at or below it. */
  ghost predicate Reached(o: Order, price: real)
  {
    || (exists stop :: o.stopLoss == Some(stop) && stop != 0.0 && price <= stop)
    || (exists target :: o.takeProfit == Some(target) && target != 0.0 && price >= target)
  }

  /** A level that is missing or zero never sells; the sale at the price of the tick is closed but not logged. */
  lemma TickSellsIff(b: Book, symbol: string, price: real)
    ensures var (b', sold) := TickPrice(b, symbol, price);
            && (sold <==> symbol in b.holdings && Reached(b.holdings[symbol], price))
            && b'.orders == b.orders
            && (if sold then |b'.closed| == |b.closed| + 1 && b'.closed[..|b.closed|] == b.closed
                             && b'.closed[|b.closed|].avgPrice == price
                             && b'.closed[|b.closed|].filled == b.holdings[symbol].quantity
                else b' == b)
  {
    if symbol in b.holdings && Triggers(b.holdings[symbol], price) {
      var o := b.holdings[symbol];
      assert o.stopLoss.Some? ==> o.stopLoss == Some(o.stopLoss.value);
      assert o.takeProfit.Some? ==> o.takeProfit == Some(o.takeProfit.value);
    }
  }
}
