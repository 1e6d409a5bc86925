/**
 * The paper-trading ledger as a value: cash, holdings, fees and the truncation of buys the cash
 * cannot cover. These functions say what each operation of the engine does.
 */
module PaperBook {
  import opened Collections

  datatype Side = Buy | Sell
  datatype OrderType = Market | Limit | StopLoss | TakeProfit
  datatype Status = Pending | Open | Filled | Canceled | Rejected | Expired

  /** The value of a paper order. */
  datatype Order = Order(
    symbol: string, side: Side, kind: OrderType, quantity: real, price: real,
    stopLoss: Option<real>, takeProfit: Option<real>,
    filled: real, avgPrice: real, status: Status, fee: real)

  function NewOrder(symbol: string, side: Side, kind: OrderType, quantity: real, price: real,
                    stopLoss: Option<real>, takeProfit: Option<real>): Order
  {
    Order(symbol, side, kind, quantity, price, stopLoss, takeProfit, 0.0, 0.0, Pending, 0.0)
  }

  /** The value of an engine. `feesPaid` is a history variable: the total of all fees charged. */
  datatype Book = Book(
    cash: real, feeRate: real, holdings: map<string, Order>,
    closed: seq<Order>, orders: seq<Order>, feesPaid: real)

  /** `Error` stands for the ZeroDivisionError that the truncation branch can raise. */
  datatype Fill = Done(book: Book, order: Order) | Error

  /** Rounds towards zero to five decimals, as Decimal.quantize with ROUND_DOWN does. */
  function RoundDown5(x: real): real
  {
    if x >= 0.0 then (x * 100000.0).Floor as real / 100000.0
    else -((-x * 100000.0).Floor as real / 100000.0)
  }

  function Cost(quantity: real, price: real): real { quantity * price }

  function Fee(cost: real, feeRate: real): real { cost * feeRate }

  /** The price of one unit together with its fee. */
  function UnitPrice(price: real, feeRate: real): real { price * (1.0 + feeRate) }

  /** The quantity, in steps of 0.00001, that the cash covers at this unit price. */
  function Affordable(cash: real, unit: real): real
    requires unit != 0.0
  {
    RoundDown5(cash / unit)
  }

  /** A filled buy pays for itself and becomes the symbol's holding. */
  function Bought(b: Book, f: Order, cost: real): Book
  {
    b.(cash := b.cash - (cost + f.fee), holdings := b.holdings[f.symbol := f], feesPaid := b.feesPaid + f.fee)
  }

  /** A filled sell is paid for and ends the symbol's holding, if there is one. */
  function Sold(b: Book, f: Order, cost: real): Book
  {
    var b' := b.(cash := b.cash + (cost - f.fee), feesPaid := b.feesPaid + f.fee);
    if f.symbol in b.holdings then b'.(holdings := b.holdings - {f.symbol}, closed := b.closed + [f]) else b'
  }

  function Settle(b: Book, o: Order, price: real): Fill
  {
    var cost := Cost(o.quantity, price);
    var f := o.(avgPrice := price, filled := o.quantity, fee := Fee(cost, b.feeRate), status := Filled);
    Done(if o.side == Buy then Bought(b, f, cost) else Sold(b, f, cost), f)
  }

  function FillMarket(b: Book, o: Order, price: real): Fill
  {
    var cost := Cost(o.quantity, price);
    if cost + Fee(cost, b.feeRate) > b.cash && o.side == Buy then
      if UnitPrice(price, b.feeRate) == 0.0 then Error
      else
        var q := Affordable(b.cash, UnitPrice(price, b.feeRate));
        if q <= 0.0 then Done(b, o.(status := Rejected)) else Settle(b, o.(quantity := q), price)
    else
      Settle(b, o, price)
  }

  /** Only market orders fill; every order that does not raise is recorded. */
  function CreateOrder(b: Book, o: Order): Fill
  {
    var r := if o.kind == Market then FillMarket(b, o, o.price) else Done(b, o.(status := Open));
    match r
    case Error => Error
    case Done(b', o') => Done(b'.(orders := b'.orders + [o']), o')
  }

  /** An optional level counts as set only when it is nonzero. */
  predicate IsSet(level: Option<real>) { level.Some? && level.value != 0.0 }

  predicate Triggers(o: Order, price: real)
  {
    (IsSet(o.stopLoss) && price <= o.stopLoss.value) || (IsSet(o.takeProfit) && price >= o.takeProfit.value)
  }

  function MarketSell(symbol: string, quantity: real, price: real): Order
  {
    NewOrder(symbol, Sell, Market, quantity, price, None, None)
  }

  /** A price tick sells the holding when it crosses its stop or its target. */
  function TickPrice(b: Book, symbol: string, price: real): (Book, bool)
  {
    if symbol in b.holdings && Triggers(b.holdings[symbol], price) then
      (Settle(b, MarketSell(symbol, b.holdings[symbol].quantity, price), price).book, true)
    else
      (b, false)
  }

  /** What each holding with a usable price is worth. */
  ghost function Worth(b: Book, prices: map<string, real>): map<string, real>
  {
    map s | s in b.holdings && s in prices && prices[s] != 0.0 :: Cost(b.holdings[s].quantity, prices[s])
  }

  ghost function Equity(b: Book, prices: map<string, real>): real
  {
    if prices == map[] then b.cash else b.cash + Sum(Worth(b, prices))
  }
}
