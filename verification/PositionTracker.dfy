/** The tracker's ledger of positions as a value, and the functions that change it. */
module PositionLedger {
  import opened Collections
  import opened PaperBook

  datatype Pos = Pos(
    symbol: string, side: Side, entry: real, current: real, quantity: real,
    unrealized: real, realized: real, stopLoss: Option<real>, takeProfit: Option<real>, status: Status)

  datatype Ledger = Ledger(open: map<string, Pos>, closed: seq<Pos>, realized: real)

  function NewPos(symbol: string, side: Side, entry: real, quantity: real,
                  stopLoss: Option<real>, takeProfit: Option<real>): Pos
  {
    Pos(symbol, side, entry, entry, quantity, 0.0, 0.0, stopLoss, takeProfit, Status.Open)
  }

  /** What a position gains when its price moves from the entry to `price`. */
  function Gain(side: Side, entry: real, price: real, quantity: real): real
  {
    if side == Buy then (price - entry) * quantity else (entry - price) * quantity
  }

  function Marked(p: Pos, price: real): Pos
  {
    p.(current := price, unrealized := Gain(p.side, p.entry, price, p.quantity))
  }

  function Exited(p: Pos, price: real): Pos
  {
    p.(realized := Gain(p.side, p.entry, price, p.quantity), current := price, unrealized := 0.0, status := Filled)
  }

  function OpenPosition(l: Ledger, p: Pos): Ledger { l.(open := l.open[p.symbol := p]) }

  function UpdatePrice(l: Ledger, symbol: string, price: real): Ledger
  {
    if symbol in l.open then l.(open := l.open[symbol := Marked(l.open[symbol], price)]) else l
  }

  function ClosePosition(l: Ledger, symbol: string, price: real): Ledger
  {
    if symbol in l.open then
      var p := Exited(l.open[symbol], price);
      Ledger(l.open - {symbol}, l.closed + [p], l.realized + p.realized)
    else l
  }

  ghost function TotalUnrealized(l: Ledger): real { Sum(map s | s in l.open :: l.open[s].unrealized) }
}

/**
 * The position tracker as the object it is: positions are shared, mutable records, updated in place.
 * The ghost field `ledger` is the tracker's value.
 */
module PositionTrackers {
  import opened Collections
  import opened PaperBook
  import opened PositionLedger

  class Position {
    const symbol: string
    const side: Side
    const entryPrice: real
    var currentPrice: real
    const quantity: real
    var unrealizedPnl: real
    var realizedPnl: real
    const stopLoss: Option<real>
    const takeProfit: Option<real>
    var status: Status

    ghost function Value(): Pos
      reads this
    {
      Pos(symbol, side, entryPrice, currentPrice, quantity, unrealizedPnl, realizedPnl, stopLoss, takeProfit, status)
    }

    constructor (symbol: string, side: Side, entry: real, quantity: real,
                 stopLoss: Option<real>, takeProfit: Option<real>)
      ensures Value() == NewPos(symbol, side, entry, quantity, stopLoss, takeProfit)
    {
      this.symbol, this.side, entryPrice, currentPrice, this.quantity := symbol, side, entry, entry, quantity;
      unrealizedPnl, realizedPnl, status := 0.0, 0.0, Status.Open;
      this.stopLoss, this.takeProfit := stopLoss, takeProfit;
    }

    method Mark(price: real)
      modifies this
      ensures Value() == Marked(old(Value()), price)
    {
      currentPrice, unrealizedPnl := price, Gain(side, entryPrice, price, quantity);
    }

    method Exit(price: real)
      modifies this
      ensures Value() == Exited(old(Value()), price)
    {
      realizedPnl, currentPrice, unrealizedPnl := Gain(side, entryPrice, price, quantity), price, 0.0;
      status := Filled;
    }
  }

  class PositionTracker {
    var positions: map<string, Position>
    var closed: seq<Position>
    var totalRealizedPnl: real
    ghost var ledger: Ledger
    ghost var Repr: set<object>

    ghost predicate Valid()
      reads this, Repr
      ensures Valid() ==> this in Repr
    {
      && this in Repr
      && totalRealizedPnl == ledger.realized
      && positions.Keys == ledger.open.Keys
      && (forall s :: s in positions ==> Tracks(positions[s], s))
      && |closed| == |ledger.closed|
      && (forall i :: 0 <= i < |closed| ==>
            closed[i] in Repr && closed[i].status == Filled && closed[i].Value() == ledger.closed[i])
    }

    /** An open record carries its own symbol and is still open, so no two names share a record. */
    ghost predicate Tracks(p: Position, s: string)
      reads this, Repr
    {
      && p in Repr && s in ledger.open
      && p.symbol == s && p.status == Status.Open && p.Value() == ledger.open[s]
    }

    constructor ()
      ensures Valid() && fresh(Repr)
      ensures ledger == Ledger(map[], [], 0.0)
    {
      positions, closed, totalRealizedPnl := map[], [], 0.0;
      ledger := Ledger(map[], [], 0.0);
      Repr := {this};
    }

    method OpenPosition(symbol: string, side: Side, entry: real, quantity: real,
                        stopLoss: Option<real>, takeProfit: Option<real>) returns (pos: Position)
      requires Valid()
      modifies this
      ensures Valid() && fresh(pos) && Repr == old(Repr) + {pos}
      ensures pos.Value() == NewPos(symbol, side, entry, quantity, stopLoss, takeProfit)
      ensures ledger == PositionLedger.OpenPosition(old(ledger), pos.Value())
    {
      pos := new Position(symbol, side, entry, quantity, stopLoss, takeProfit);
      positions := positions[symbol := pos];
      ledger := PositionLedger.OpenPosition(ledger, pos.Value());
      Repr := Repr + {pos};
    }

    method UpdatePrice(symbol: string, price: real) returns (pos: Position?)
      requires Valid()
      modifies Repr
      ensures Valid() && Repr == old(Repr)
      ensures ledger == PositionLedger.UpdatePrice(old(ledger), symbol, price)
      ensures pos == if symbol in positions then positions[symbol] else null
    {
      if symbol !in positions {
        return null;
      }
      pos := positions[symbol];
      ledger := PositionLedger.UpdatePrice(ledger, symbol, price);
      pos.Mark(price);
    }

    /** The record handed out earlier by `GetOpenPosition` is the one that carries the realised gain. */
    method ClosePosition(symbol: string, exitPrice: real) returns (pos: Position?)
      requires Valid()
      modifies Repr
      ensures Valid() && Repr == old(Repr)
      ensures ledger == PositionLedger.ClosePosition(old(ledger), symbol, exitPrice)
      ensures if symbol in old(positions) then
                && pos == old(positions[symbol]) && pos in Repr
                && pos.Value() == Exited(old(ledger.open[symbol]), exitPrice)
              else pos == null
    {
      if symbol !in positions {
        return null;
      }
      pos := positions[symbol];
      positions := positions - {symbol};
      ledger := PositionLedger.ClosePosition(ledger, symbol, exitPrice);
      pos.Exit(exitPrice);
      closed := closed + [pos];
      totalRealizedPnl := totalRealizedPnl + pos.realizedPnl;
    }

    method GetOpenPosition(symbol: string) returns (pos: Position?)
      requires Valid()
      ensures if symbol in ledger.open
              then pos != null && pos == positions[symbol] && pos.Value() == ledger.open[symbol]
              else pos == null
    {
      pos := if symbol in positions then positions[symbol] else null;
    }

    method GetTotalUnrealizedPnl() returns (total: real)
      requires Valid()
      ensures total == TotalUnrealized(ledger)
    {
      total := 0.0;
      var todo := positions.Keys;
      ghost var all := map s | s in ledger.open :: ledger.open[s].unrealized;
      ghost var seen: map<string, real> := map[];
      while todo != {}
        invariant todo <= positions.Keys
        invariant seen.Keys == all.Keys - todo
        invariant forall s :: s in seen ==> seen[s] == all[s]
        invariant total == Sum(seen)
        decreases todo
      {
        var s :| s in todo;
        todo := todo - {s};
        total := total + positions[s].unrealizedPnl;
        SumAdd(seen, s, all[s]);
        seen := seen[s := all[s]];
      }
      assert seen == all;
    }
  }
}
