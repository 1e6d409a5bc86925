/**
 * The paper-trading engine as the object it is. The ghost field `book` is its value; `Valid` ties it
 * to the real fields, and every method changes it by the function of the same name in `PaperBook`.
 */
module PaperEngines {
  import opened Collections
  import opened PaperBook

  class PaperOrder {
    const symbol: string
    const side: Side
    const kind: OrderType
    var quantity: real
    const price: real
    const stopLoss: Option<real>
    const takeProfit: Option<real>
    var filled: real
    var avgPrice: real
    var status: Status
    var fee: real

    ghost function Value(): Order
      reads this
    {
      Order(symbol, side, kind, quantity, price, stopLoss, takeProfit, filled, avgPrice, status, fee)
    }

    constructor (symbol: string, side: Side, kind: OrderType, quantity: real, price: real,
                 stopLoss: Option<real>, takeProfit: Option<real>)
      ensures Value() == NewOrder(symbol, side, kind, quantity, price, stopLoss, takeProfit)
    {
      this.symbol, this.side, this.kind, this.quantity, this.price := symbol, side, kind, quantity, price;
      this.stopLoss, this.takeProfit := stopLoss, takeProfit;
      filled, avgPrice, status, fee := 0.0, 0.0, Pending, 0.0;
    }
  }

  class PaperEngine {
    const feeRate: real
    var balance: real
    var positions: map<string, PaperOrder>
    var closedPositions: seq<PaperOrder>
    var orders: seq<PaperOrder>
    ghost var book: Book
    ghost var Repr: set<object>

    ghost predicate Valid()
      reads this, Repr
      ensures Valid() ==> this in Repr
    {
      && this in Repr
      && book.cash == balance && book.feeRate == feeRate
      && positions.Keys == book.holdings.Keys
      && (forall s :: s in positions ==> positions[s] in Repr && positions[s].Value() == book.holdings[s])
      && Represents(closedPositions, book.closed)
      && Represents(orders, book.orders)
    }

    ghost predicate Represents(objects: seq<PaperOrder>, values: seq<Order>)
      reads this, Repr
    {
      |objects| == |values| &&
      forall i :: 0 <= i < |objects| ==> objects[i] in Repr && objects[i].Value() == values[i]
    }

    constructor (initialBalance: real, feeRate: real)
      ensures Valid() && fresh(Repr)
      ensures book == Book(initialBalance, feeRate, map[], [], [], 0.0)
    {
      this.balance, this.feeRate := initialBalance, feeRate;
      positions, closedPositions, orders := map[], [], [];
      book := Book(initialBalance, feeRate, map[], [], [], 0.0);
      Repr := {this};
    }

    method Bought(order: PaperOrder, cost: real)
      requires Valid() && order !in Repr
      modifies this
      ensures Valid() && Repr == old(Repr) + {order}
      ensures book == PaperBook.Bought(old(book), order.Value(), cost)
    {
      balance := balance - (cost + order.fee);
      positions := positions[order.symbol := order];
      book := PaperBook.Bought(book, order.Value(), cost);
      Repr := Repr + {order};
    }

    method Sold(order: PaperOrder, cost: real)
      requires Valid() && order !in Repr
      modifies this
      ensures Valid() && Repr == old(Repr) + {order}
      ensures book == PaperBook.Sold(old(book), order.Value(), cost)
    {
      balance := balance + (cost - order.fee);
      book := PaperBook.Sold(book, order.Value(), cost);
      Repr := Repr + {order};
      if order.symbol in positions {
        positions := positions - {order.symbol};
        closedPositions := closedPositions + [order];
      }
    }

    /** Books a fill at `price` of the order's present quantity. */
    method Settle(order: PaperOrder, price: real)
      requires Valid() && order !in Repr
      modifies this, order
      ensures Valid() && Repr == old(Repr) + {order}
      ensures Done(book, order.Value()) == PaperBook.Settle(old(book), old(order.Value()), price)
    {
      var cost := Cost(order.quantity, price);
      order.avgPrice, order.filled, order.fee, order.status := price, order.quantity, Fee(cost, feeRate), Filled;
      if order.side == Buy {
        Bought(order, cost);
      } else {
        Sold(order, cost);
      }
    }

    /** Fills `order` in place; `ok` is false when the division raised. */
    method FillMarket(order: PaperOrder, price: real) returns (ok: bool)
      requires Valid() && order !in Repr
      modifies this, order
      ensures Valid() && Repr == old(Repr) + {order}
      ensures match PaperBook.FillMarket(old(book), old(order.Value()), price)
              case Done(b, o) => ok && book == b && order.Value() == o
              case Error => !ok && book == old(book) && order.Value() == old(order.Value())
    {
      var cost := Cost(order.quantity, price);
      var fee := Fee(cost, feeRate);
      if cost + fee > balance && order.side == Buy {
        if UnitPrice(price, feeRate) == 0.0 {
          Repr := Repr + {order};
          return false;
        }
        var maxQty := Affordable(balance, UnitPrice(price, feeRate));
        if maxQty <= 0.0 {
          order.status := Rejected;
          Repr := Repr + {order};
          return true;
        }
        order.quantity := maxQty;
      }
      Settle(order, price);
      return true;
    }

    /** `order` is null exactly when the fill raised. */
    method CreateOrder(symbol: string, side: Side, kind: OrderType, quantity: real, price: real,
                       stopLoss: Option<real>, takeProfit: Option<real>) returns (order: PaperOrder?)
      requires Valid()
      modifies this
      ensures Valid() && fresh(Repr - old(Repr)) && old(Repr) <= Repr
      ensures match PaperBook.CreateOrder(old(book),
                                          NewOrder(symbol, side, kind, quantity, price, stopLoss, takeProfit))
              case Done(b, o) => order != null && fresh(order) && book == b && order.Value() == o
              case Error => order == null && book == old(book)
    {
      var o := new PaperOrder(symbol, side, kind, quantity, price, stopLoss, takeProfit);
      if kind == Market {
        var ok := FillMarket(o, price);
        if !ok {
          return null;
        }
      } else {
        o.status := Open;
        Repr := Repr + {o};
      }
      orders := orders + [o];
      book := book.(orders := book.orders + [o.Value()]);
      return o;
    }

    method UpdatePrice(symbol: string, price: real) returns (sold: bool)
      requires Valid()
      modifies this
      ensures Valid() && fresh(Repr - old(Repr)) && old(Repr) <= Repr
      ensures (book, sold) == TickPrice(old(book), symbol, price)
    {
      if symbol !in positions {
        return false;
      }
      var pos := positions[symbol];
      if pos.stopLoss.Some? && pos.stopLoss.value != 0.0 && price <= pos.stopLoss.value {
        SellHolding(symbol, price);
        return true;
      } else if pos.takeProfit.Some? && pos.takeProfit.value != 0.0 && price >= pos.takeProfit.value {
        SellHolding(symbol, price);
        return true;
      }
      return false;
    }

    /** Sells the whole holding with an order that is not recorded. */
    method SellHolding(symbol: string, price: real)
      requires Valid() && symbol in positions
      modifies this
      ensures Valid() && fresh(Repr - old(Repr)) && old(Repr) <= Repr
      ensures book == PaperBook.Settle(old(book), MarketSell(symbol, old(book).holdings[symbol].quantity, price),
                                       price).book
    {
      var o := new PaperOrder(symbol, Sell, Market, positions[symbol].quantity, price, None, None);
      var _ := FillMarket(o, price);
    }

    /** Adds up the holdings one by one; holdings without a usable price are skipped. */
    method GetTotalEquity(prices: map<string, real>) returns (total: real)
      requires Valid()
      ensures total == Equity(book, prices)
    {
      if prices == map[] {
        return balance;
      }
      total := balance;
      var todo := positions.Keys;
      ghost var worth := Worth(book, prices);
      ghost var seen: map<string, real> := map[];
      while todo != {}
        invariant todo <= positions.Keys
        invariant seen.Keys == worth.Keys - todo
        invariant forall s :: s in seen ==> seen[s] == worth[s]
        invariant total == balance + Sum(seen)
        decreases todo
      {
        var s :| s in todo;
        todo := todo - {s};
        if s in prices && prices[s] != 0.0 {
          total := total + Cost(positions[s].quantity, prices[s]);
          SumAdd(seen, s, worth[s]);
          seen := seen[s := worth[s]];
        }
      }
      assert seen == worth;
    }
  }
}
