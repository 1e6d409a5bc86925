/** What reconciling the tracker with an exchange snapshot does to its ledger. */
module ReconcileRules {
  import opened Collections
  import opened PaperBook
  import opened PositionLedger

  /** A field of an exchange record: not there, there but null, or a number. */
  datatype Field = Absent | Null | Num(value: real)

  /** `symbol` is empty when the record has none; `side` is the text "long" when missing. */
  datatype Record = Record(
    symbol: string, side: Option<string>, contracts: Field, size: Field, entryPrice: Field, entryPriceAlt: Field,
    stopLoss: Field, stopLossAlt: Field, takeProfit: Field, takeProfitAlt: Field)

  /**
   * The first field when it is a nonzero number, else the second, where missing counts as zero.
   * No answer when the conversion raises, which a null second field makes it do.
   */
  function Amount(first: Field, second: Field): Option<real>
  {
    if first.Num? && first.value != 0.0 then Some(first.value)
    else match second
      case Absent => Some(0.0)
      case Null => None
      case Num(v) => Some(v)
  }

  function SideOf(side: Option<string>): Side
  {
    if side == Some("long") || side == Some("buy") then Buy else Sell
  }

  /** A zero level counts as no level. */
  function Level(x: real): Option<real> { if x == 0.0 then None else Some(x) }

  /** The position a record describes, when all its numbers convert. */
  function PosOf(r: Record): Option<Pos>
  {
    var q, e := Amount(r.contracts, r.size), Amount(r.entryPrice, r.entryPriceAlt);
    var sl, tp := Amount(r.stopLoss, r.stopLossAlt), Amount(r.takeProfit, r.takeProfitAlt);
    if q.None? || e.None? || sl.None? || tp.None? then None
    else Some(NewPos(r.symbol, SideOf(r.side), e.value, q.value, Level(sl.value), Level(tp.value)))
  }

  predicate Converts(r: Record)
  {
    Amount(r.contracts, r.size).Some? && Amount(r.entryPrice, r.entryPriceAlt).Some?
  }

  /** A record of a real position: a symbol, contracts and an entry price above zero. */
  predicate Qualifies(r: Record)
  {
    && Converts(r) && r.symbol != ""
    && Amount(r.contracts, r.size).value > 0.0 && Amount(r.entryPrice, r.entryPriceAlt).value > 0.0
  }

  /** One record of the recovery loop; no answer when a conversion raises. */
  function RecoverOne(l: Ledger, r: Record): Option<Ledger>
  {
    if !Converts(r) then None
    else if !Qualifies(r) || r.symbol in l.open then Some(l)
    else match PosOf(r)
      case None => None
      case Some(p) => Some(OpenPosition(l, p))
  }

  /** The recovery loop; an exception ends it and what was opened so far stays. */
  function Recover(l: Ledger, records: seq<Record>): Ledger
    decreases |records|
  {
    if records == [] then l
    else match RecoverOne(l, records[0])
      case None => l
      case Some(l') => Recover(l', records[1..])
  }

  /** The symbols the exchange reports as held; no answer when a conversion raises. */
  function LiveSymbols(records: seq<Record>): Option<set<string>>
  {
    if records == [] then Some({}) else
      var n := |records| - 1;
      var before, q := LiveSymbols(records[..n]), Amount(records[n].contracts, records[n].size);
      if before.None? || q.None? then None
      else Some(before.value + if records[n].symbol != "" && q.value > 0.0 then {records[n].symbol} else {})
  }

  /** The price a vanished position is closed at. */
  function ExitPrice(p: Pos): real { if p.current != 0.0 then p.current else p.entry }

  function CloseAll(l: Ledger, gone: seq<string>): Ledger
  {
    if gone == [] then l else
      var n := |gone| - 1;
      var l' := CloseAll(l, gone[..n]);
      if gone[n] in l'.open then ClosePosition(l', gone[n], ExitPrice(l'.open[gone[n]])) else l'
  }

  /** `gone` lists, each once, the tracked symbols that are not live. */
  ghost predicate Vanished(l: Ledger, live: set<string>, gone: seq<string>)
  {
    && (forall x :: x in gone <==> x in l.open.Keys - live)
    && (forall i, j :: 0 <= i < j < |gone| ==> gone[i] != gone[j])
  }

  /** The whole reconciliation, with the vanished symbols taken in the order `gone`. */
  function Reconcile(l: Ledger, records: seq<Record>, gone: seq<string>): Ledger
  {
    if LiveSymbols(records).None? then l else Recover(CloseAll(l, gone), records)
  }

  // ---------------------------------------------------------------- laws

  /** Recovery only adds: what was tracked stays as it was. */
  lemma {:induction false} RecoverKeeps(l: Ledger, records: seq<Record>)
    ensures var l' := Recover(l, records);
            && (forall s :: s in l.open ==> s in l'.open && l'.open[s] == l.open[s])
            && l'.closed == l.closed && l'.realized == l.realized
    decreases |records|
  {
    if records != [] {
      match RecoverOne(l, records[0])
      case None =>
      case Some(l') => RecoverKeeps(l', records[1..]);
    }
  }

  /** Recovering again from the same records changes nothing, even when a record made it stop. */
  lemma {:induction false} RecoverTwice(l: Ledger, records: seq<Record>)
    ensures Recover(Recover(l, records), records) == Recover(l, records)
    decreases |records|
  {
    if records != [] {
      match RecoverOne(l, records[0])
      case None =>
      case Some(l') =>
        var l2 := Recover(l', records[1..]);
        RecoverTwice(l', records[1..]);
        RecoverKeeps(l', records[1..]);
        assert RecoverOne(l2, records[0]) == Some(l2);
    }
  }

  lemma {:induction false} LiveHas(records: seq<Record>, i: nat)
    requires i < |records| && LiveSymbols(records).Some? && Qualifies(records[i])
    ensures records[i].symbol in LiveSymbols(records).value
    decreases |records|
  {
    var n := |records| - 1;
    if i < n {
      LiveHas(records[..n], i);
    }
  }

  /** An earlier record already describes a position of this symbol. */
  predicate Seen(records: seq<Record>, i: nat, symbol: string)
    requires i <= |records|
  {
    exists j :: 0 <= j < i && Qualifies(records[j]) && records[j].symbol == symbol
  }

  /**
   * The records at which recovery raises: contracts or entry do not convert, or a level does not and the position
   * is neither tracked already nor described by an earlier record.
   */
  predicate Raises(tracked: set<string>, records: seq<Record>, i: nat)
    requires i < |records|
  {
    var r := records[i];
    !Converts(r) || (Qualifies(r) && PosOf(r).None? && r.symbol !in tracked && !Seen(records, i, r.symbol))
  }

  predicate NoneRaises(tracked: set<string>, records: seq<Record>, n: nat)
    requires n <= |records|
  {
    forall j :: 0 <= j < n ==> !Raises(tracked, records, j)
  }

  /** The record that opens a symbol: its first qualifying one, if no record up to it raises. */
  predicate OpensAt(tracked: set<string>, records: seq<Record>, i: nat, symbol: string)
    requires i < |records|
  {
    && Qualifies(records[i]) && records[i].symbol == symbol && symbol !in tracked && !Seen(records, i, symbol)
    && NoneRaises(tracked, records, i + 1)
  }

  lemma RaisesFirst(l: Ledger, records: seq<Record>)
    requires records != []
    ensures RecoverOne(l, records[0]).None? <==> Raises(l.open.Keys, records, 0)
    ensures RecoverOne(l, records[0]).Some? ==>
      RecoverOne(l, records[0]).value.open.Keys
      == l.open.Keys + if Qualifies(records[0]) then {records[0].symbol} else {}
  {
  }

  lemma SeenLater(records: seq<Record>, i: nat, symbol: string)
    requires i < |records|
    ensures Seen(records, i + 1, symbol)
       <==> (Qualifies(records[0]) && records[0].symbol == symbol) || Seen(records[1..], i, symbol)
  {
    hide Qualifies;
    var rest := records[1..];
    if Seen(rest, i, symbol) {
      var j :| 0 <= j < i && Qualifies(rest[j]) && rest[j].symbol == symbol;
      assert Qualifies(records[j + 1]);
    }
    if Seen(records, i + 1, symbol) {
      var j :| 0 <= j < i + 1 && Qualifies(records[j]) && records[j].symbol == symbol;
      assert j > 0 ==> Qualifies(rest[j - 1]);
    }
  }

  /** Past the first record the same records raise, with its symbol counted as tracked. */
  lemma RaisesLater(tracked: set<string>, later: set<string>, records: seq<Record>, i: nat)
    requires i + 1 < |records|
    requires later == tracked + if Qualifies(records[0]) then {records[0].symbol} else {}
    ensures Raises(later, records[1..], i) <==> Raises(tracked, records, i + 1)
  {
    hide Qualifies, Converts, PosOf, Seen;
    SeenLater(records, i, records[i + 1].symbol);
  }

  lemma NoneRaisesLater(tracked: set<string>, later: set<string>, records: seq<Record>, n: nat)
    requires n < |records| && !Raises(tracked, records, 0)
    requires later == tracked + if Qualifies(records[0]) then {records[0].symbol} else {}
    ensures NoneRaises(later, records[1..], n) <==> NoneRaises(tracked, records, n + 1)
  {
    hide Qualifies, Raises;
    if NoneRaises(later, records[1..], n) {
      forall j | 1 <= j <= n ensures !Raises(tracked, records, j) {
        RaisesLater(tracked, later, records, j - 1);
      }
    }
    if NoneRaises(tracked, records, n + 1) {
      forall j | 0 <= j < n ensures !Raises(later, records[1..], j) {
        RaisesLater(tracked, later, records, j);
      }
    }
  }

  lemma OpensLater(tracked: set<string>, later: set<string>, records: seq<Record>, i: nat, symbol: string)
    requires i + 1 < |records| && !Raises(tracked, records, 0)
    requires later == tracked + if Qualifies(records[0]) then {records[0].symbol} else {}
    ensures OpensAt(later, records[1..], i, symbol) <==> OpensAt(tracked, records, i + 1, symbol)
  {
    hide Qualifies, Seen, NoneRaises;
    SeenLater(records, i, symbol);
    NoneRaisesLater(tracked, later, records, i + 1);
  }

  /** Whatever recovery opens, some record opens. */
  lemma {:induction false} OpenWasOpened(l: Ledger, records: seq<Record>, s: string) returns (i: nat)
    requires s in Recover(l, records).open && s !in l.open
    ensures i < |records| && OpensAt(l.open.Keys, records, i, s)
    decreases |records|
  {
    hide Qualifies, OpensAt, Raises;
    RaisesFirst(l, records);
    var l' := RecoverOne(l, records[0]).value;
    if s in l'.open {
      i := 0;
      OpensNow(l, records, s);
    } else {
      i := OpenWasOpened(l', records[1..], s);
      OpensLater(l.open.Keys, l'.open.Keys, records, i, s);
      i := i + 1;
    }
  }

  lemma OpensNow(l: Ledger, records: seq<Record>, s: string)
    requires records != [] && RecoverOne(l, records[0]).Some?
    ensures OpensAt(l.open.Keys, records, 0, s) <==> s in RecoverOne(l, records[0]).value.open && s !in l.open
    ensures OpensAt(l.open.Keys, records, 0, s) ==>
      PosOf(records[0]).Some? && RecoverOne(l, records[0]).value.open[s] == PosOf(records[0]).value
  {
    RaisesFirst(l, records);
  }

  /** What a record opens is tracked afterwards, as that record describes it. */
  lemma {:induction false} OpenedIsOpen(l: Ledger, records: seq<Record>, i: nat, s: string)
    requires i < |records| && OpensAt(l.open.Keys, records, i, s)
    ensures s in Recover(l, records).open && PosOf(records[i]).Some?
    ensures Recover(l, records).open[s] == PosOf(records[i]).value
    decreases |records|
  {
    hide Qualifies, OpensAt, Raises, PosOf;
    RaisesFirst(l, records);
    NoneRaisesBefore(l.open.Keys, records, i, s);
    var l' := RecoverOne(l, records[0]).value;
    if i == 0 {
      OpensNow(l, records, s);
      RecoverKeeps(l', records[1..]);
    } else {
      OpensLater(l.open.Keys, l'.open.Keys, records, i - 1, s);
      OpenedIsOpen(l', records[1..], i - 1, s);
    }
  }

  lemma NoneRaisesBefore(tracked: set<string>, records: seq<Record>, i: nat, s: string)
    requires i < |records| && OpensAt(tracked, records, i, s)
    ensures !Raises(tracked, records, 0)
  {
  }

  /** What a vanished position adds to the realised total. */
  ghost function ExitGains(l: Ledger): map<string, real>
  {
    map s | s in l.open :: Gain(l.open[s].side, l.open[s].entry, ExitPrice(l.open[s]), l.open[s].quantity)
  }

  ghost function Only(m: map<string, real>, names: seq<string>): map<string, real>
  {
    map s | s in m && s in names :: m[s]
  }

  lemma {:induction false} CloseAllCloses(l: Ledger, gone: seq<string>)
    requires forall x :: x in gone ==> x in l.open
    requires forall i, j :: 0 <= i < j < |gone| ==> gone[i] != gone[j]
    ensures var l' := CloseAll(l, gone);
            && l'.open == (map s | s in l.open && s !in gone :: l.open[s])
            && l'.closed == l.closed
                 + seq(|gone|, i requires 0 <= i < |gone| => Exited(l.open[gone[i]], ExitPrice(l.open[gone[i]])))
  {
    if gone != [] {
      var n := |gone| - 1;
      CloseAllCloses(l, gone[..n]);
      assert forall y :: y in gone <==> y in gone[..n] || y == gone[n];
    }
  }

  /** Each vanished position adds its gain to the realised total exactly once. */
  lemma {:induction false} CloseAllRealises(l: Ledger, gone: seq<string>)
    requires forall x :: x in gone ==> x in l.open
    requires forall i, j :: 0 <= i < j < |gone| ==> gone[i] != gone[j]
    ensures CloseAll(l, gone).realized == l.realized + Sum(Only(ExitGains(l), gone))
  {
    if gone != [] {
      var n := |gone| - 1;
      var before, x := gone[..n], gone[n];
      CloseAllRealises(l, before);
      CloseAllCloses(l, before);
      assert x in l.open && x !in before;
      SplitLast(ExitGains(l), gone);
      assert ClosePosition(CloseAll(l, before), x, ExitPrice(l.open[x])).realized
          == CloseAll(l, before).realized + ExitGains(l)[x];
    } else {
      assert Only(ExitGains(l), gone) == map[];
    }
  }

  lemma SplitLast(gains: map<string, real>, names: seq<string>)
    requires names != [] && names[|names| - 1] in gains && names[|names| - 1] !in names[..|names| - 1]
    ensures var x := names[|names| - 1];
            Sum(Only(gains, names)) == Sum(Only(gains, names[..|names| - 1])) + gains[x]
  {
    var n := |names| - 1;
    assert forall y :: y in names <==> y in names[..n] || y == names[n];
    SumRemove(Only(gains, names), names[n]);
    assert Only(gains, names) - {names[n]} == Only(gains, names[..n]);
  }

  /** After a reconciliation every tracked symbol is live. */
  lemma TrackedIsLive(l: Ledger, records: seq<Record>, gone: seq<string>)
    requires LiveSymbols(records).Some? && Vanished(l, LiveSymbols(records).value, gone)
    ensures Reconcile(l, records, gone).open.Keys <= LiveSymbols(records).value
  {
    var l1, l2 := CloseAll(l, gone), Reconcile(l, records, gone);
    CloseAllCloses(l, gone);
    forall s | s in l2.open ensures s in LiveSymbols(records).value {
      if s !in l1.open {
        var i := OpenWasOpened(l1, records, s);
        LiveHas(records, i);
      }
    }
  }

  lemma SomeIn(names: seq<string>)
    ensures names == [] || exists x :: x in names
  {
    assert names == [] || names[0] in names;
  }

  /** A second reconciliation with the same snapshot changes nothing, whatever the records contain. */
  lemma ReconcileTwice(l: Ledger, records: seq<Record>, gone: seq<string>, again: seq<string>)
    requires LiveSymbols(records).Some? ==> Vanished(l, LiveSymbols(records).value, gone)
    requires LiveSymbols(records).Some? ==> Vanished(Reconcile(l, records, gone), LiveSymbols(records).value, again)
    ensures Reconcile(Reconcile(l, records, gone), records, again) == Reconcile(l, records, gone)
  {
    if LiveSymbols(records).Some? {
      TrackedIsLive(l, records, gone);
      SomeIn(again);
      RecoverTwice(CloseAll(l, gone), records);
    }
  }

  /**
   * For every readable snapshot: the tracked symbols are the old ones that are live and those a record opens,
   * which are all that qualify when no conversion raises; survivors are unchanged, what a record opens is as it
   * describes, and the realised total grows by the gains of the vanished.
   */
  lemma ReconcileResult(l: Ledger, records: seq<Record>, gone: seq<string>)
    requires LiveSymbols(records).Some? && Vanished(l, LiveSymbols(records).value, gone)
    ensures var l2, live := Reconcile(l, records, gone), LiveSymbols(records).value;
            var kept := l.open.Keys * live;
            && (forall s :: s in l2.open <==>
                  s in kept || exists i :: 0 <= i < |records| && OpensAt(kept, records, i, s))
            && (forall s :: s in kept ==> l2.open[s] == l.open[s])
            && (forall i, s :: 0 <= i < |records| && OpensAt(kept, records, i, s)
                  ==> PosOf(records[i]) == Some(l2.open[s]))
            && l2.realized == l.realized + Sum(Only(ExitGains(l), gone))
  {
    hide OpensAt, PosOf, ExitGains, Only;
    var l1, l2, live := CloseAll(l, gone), Reconcile(l, records, gone), LiveSymbols(records).value;
    CloseAllCloses(l, gone);
    CloseAllRealises(l, gone);
    RecoverKeeps(l1, records);
    assert l1.open.Keys == l.open.Keys * live;
    forall s | s in l2.open && s !in l1.open
      ensures exists i :: 0 <= i < |records| && OpensAt(l1.open.Keys, records, i, s)
    {
      var i := OpenWasOpened(l1, records, s);
    }
    forall i, s | 0 <= i < |records| && OpensAt(l1.open.Keys, records, i, s)
      ensures s in l2.open && PosOf(records[i]) == Some(l2.open[s])
    {
      OpenedIsOpen(l1, records, i, s);
    }
  }

  /** When every record converts, what records open beside the survivors is every symbol a qualifying one names. */
  lemma AllQualifyingOpen(kept: set<string>, records: seq<Record>, s: string)
    requires forall r :: r in records ==> PosOf(r).Some?
    ensures (exists i :: 0 <= i < |records| && OpensAt(kept, records, i, s))
       <==> s !in kept && Seen(records, |records|, s)
  {
    hide Qualifies, PosOf;
    if s !in kept && Seen(records, |records|, s) {
      var i := FirstSeen(records, |records|, s);
      forall j | 0 <= j < i + 1 ensures !Raises(kept, records, j) {
        ConvertingNeverRaises(kept, records, j);
      }
      assert OpensAt(kept, records, i, s);
    }
  }

  lemma ConvertingNeverRaises(kept: set<string>, records: seq<Record>, j: nat)
    requires j < |records| && PosOf(records[j]).Some?
    ensures !Raises(kept, records, j)
  {
  }

  lemma {:induction false} FirstSeen(records: seq<Record>, n: nat, s: string) returns (i: nat)
    requires n <= |records| && Seen(records, n, s)
    ensures i < n && Qualifies(records[i]) && records[i].symbol == s && !Seen(records, i, s)
  {
    i :| i < n && Qualifies(records[i]) && records[i].symbol == s;
    if Seen(records, i, s) {
      i := FirstSeen(records, i, s);
    }
  }

  // ---------------------------------------------------------------- what a record says

  /** Under its first name when that is a nonzero number, else under its second. */
  predicate Carries(first: Field, second: Field, value: real)
  {
    (first == Num(value) && value != 0.0) || (first in {Absent, Null, Num(0.0)} && second == Num(value))
  }

  predicate CarriesLevel(first: Field, second: Field, level: Option<real>)
  {
    match level
    case None => first in {Absent, Null, Num(0.0)} && second in {Absent, Num(0.0)}
    case Some(v) => v != 0.0 && Carries(first, second, v)
  }

  /** The record an exchange reports for a position. */
  predicate Describes(r: Record, p: Pos)
  {
    && r.symbol == p.symbol && (r.side in {Some("long"), Some("buy")} <==> p.side == Buy)
    && Carries(r.contracts, r.size, p.quantity) && Carries(r.entryPrice, r.entryPriceAlt, p.entry)
    && CarriesLevel(r.stopLoss, r.stopLossAlt, p.stopLoss) && CarriesLevel(r.takeProfit, r.takeProfitAlt, p.takeProfit)
  }

  /** A position as it was when it was opened. */
  function Unmarked(p: Pos): Pos { p.(current := p.entry, unrealized := 0.0) }

  predicate Recordable(p: Pos)
  {
    p.symbol != "" && p.quantity > 0.0 && p.entry > 0.0 && p.realized == 0.0 && p.status == Status.Open
  }

  lemma DescribedIsRead(r: Record, p: Pos)
    requires Describes(r, p) && Recordable(p)
    ensures Qualifies(r) && PosOf(r) == Some(Unmarked(p))
  {
  }

  predicate Reported(p: Pos, records: seq<Record>) { exists i :: 0 <= i < |records| && Describes(records[i], p) }

  predicate Reports(r: Record, l: Ledger) { r.symbol in l.open && Describes(r, l.open[r.symbol]) }

  /** The records describe the open positions, each of them at least once. */
  ghost predicate Snapshot(l: Ledger, records: seq<Record>)
  {
    && (forall x :: x in l.open ==> l.open[x].symbol == x && Recordable(l.open[x]))
    && (forall x :: x in l.open ==> Reported(l.open[x], records))
    && (forall i :: 0 <= i < |records| ==> Reports(records[i], l))
  }

  /** After a restart the positions come back as they were opened: sides, quantities, entries and levels. */
  lemma RestartRestores(l: Ledger, records: seq<Record>)
    requires Snapshot(l, records)
    ensures Recover(Ledger(map[], [], 0.0), records).open == map x | x in l.open :: Unmarked(l.open[x])
  {
    hide Snapshot, Unmarked, Recover;
    var l' := Recover(Ledger(map[], [], 0.0), records);
    forall x | x in l'.open ensures x in l.open && l'.open[x] == Unmarked(l.open[x]) {
      RestoredWasOpen(l, records, x);
    }
    forall x | x in l.open ensures x in l'.open {
      OpenIsRestored(l, records, x);
    }
  }

  lemma SnapshotConverts(l: Ledger, records: seq<Record>, i: nat)
    requires Snapshot(l, records) && i < |records|
    ensures records[i].symbol in l.open && Qualifies(records[i])
    ensures PosOf(records[i]) == Some(Unmarked(l.open[records[i].symbol]))
  {
    hide Recordable, Describes, Qualifies, PosOf, Reported;
    DescribedIsRead(records[i], l.open[records[i].symbol]);
  }

  lemma RestoredWasOpen(l: Ledger, records: seq<Record>, x: string)
    requires Snapshot(l, records) && x in Recover(Ledger(map[], [], 0.0), records).open
    ensures x in l.open && Recover(Ledger(map[], [], 0.0), records).open[x] == Unmarked(l.open[x])
  {
    hide Snapshot, Unmarked, Recover, PosOf, OpensAt;
    var empty := Ledger(map[], [], 0.0);
    var i := OpenWasOpened(empty, records, x);
    OpenedIsOpen(empty, records, i, x);
    OpensNames(empty, records, i, x);
    SnapshotConverts(l, records, i);
  }

  lemma OpenIsRestored(l: Ledger, records: seq<Record>, x: string)
    requires Snapshot(l, records) && x in l.open
    ensures x in Recover(Ledger(map[], [], 0.0), records).open
  {
    hide Recover, PosOf, OpensAt, Qualifies, Unmarked, Recordable;
    var empty := Ledger(map[], [], 0.0);
    var i := RecordFor(l, records, x);
    SnapshotConverts(l, records, i);
    assert Seen(records, |records|, x);
    forall r | r in records ensures PosOf(r).Some? {
      var j :| 0 <= j < |records| && records[j] == r;
      SnapshotConverts(l, records, j);
    }
    AllQualifyingOpen(empty.open.Keys, records, x);
    var j :| 0 <= j < |records| && OpensAt(empty.open.Keys, records, j, x);
    OpenedIsOpen(empty, records, j, x);
  }

  lemma DescribedHas(r: Record, p: Pos)
    requires Describes(r, p)
    ensures r.symbol == p.symbol
  {
  }

  lemma RecordFor(l: Ledger, records: seq<Record>, x: string) returns (i: nat)
    requires Snapshot(l, records) && x in l.open
    ensures i < |records| && records[i].symbol == x
  {
    hide Recordable, Reports, Describes;
    assert Reported(l.open[x], records);
    i :| 0 <= i < |records| && Describes(records[i], l.open[x]);
    DescribedHas(records[i], l.open[x]);
  }

  lemma OpensNames(l: Ledger, records: seq<Record>, i: nat, x: string)
    requires i < |records| && OpensAt(l.open.Keys, records, i, x)
    ensures records[i].symbol == x
  {
  }

  /** A conversion raises exactly when the first field is no nonzero number and the second is null. */
  lemma AmountIs(first: Field, second: Field)
    ensures Amount(first, second) == None <==> first in {Absent, Null, Num(0.0)} && second == Null
    ensures first in {Absent, Null, Num(0.0)} && second == Absent ==> Amount(first, second) == Some(0.0)
    ensures forall v :: Carries(first, second, v) ==> Amount(first, second) == Some(v)
  {
  }

  /** A record without a symbol, contracts or an entry price above zero opens nothing. */
  lemma NoPositionIsIgnored(l: Ledger, r: Record, quantity: real, entry: real)
    requires Carries(r.contracts, r.size, quantity) && Carries(r.entryPrice, r.entryPriceAlt, entry)
    requires r.symbol == "" || quantity <= 0.0 || entry <= 0.0
    ensures RecoverOne(l, r) == Some(l)
  {
  }

  predicate Holds(r: Record, symbol: string)
  {
    r.symbol == symbol && Amount(r.contracts, r.size).Some? && Amount(r.contracts, r.size).value > 0.0
  }

  /** Live are exactly the symbols, other than the empty one, with a record of contracts above zero. */
  lemma {:induction false} LiveIs(records: seq<Record>, symbol: string)
    requires LiveSymbols(records).Some?
    ensures symbol in LiveSymbols(records).value <==> symbol != "" && exists r :: r in records && Holds(r, symbol)
  {
    if records != [] {
      var n := |records| - 1;
      LiveIs(records[..n], symbol);
      assert records == records[..n] + [records[n]];
      assert records[n] in records && forall r :: r in records[..n] ==> r in records;
      if Holds(records[n], symbol) {
        assert exists r :: r in records && Holds(r, symbol);
      } else if r :| r in records && Holds(r, symbol) {
        assert r in records[..n];
      }
    }
  }

  /** A vanished long position gains what its price rose, a short one what it fell, at the last nonzero price. */
  lemma ExitGainIs(l: Ledger, x: string)
    requires x in l.open
    ensures var p := l.open[x];
            var price := if p.current == 0.0 then p.entry else p.current;
            x in ExitGains(l)
            && ExitGains(l)[x] == p.quantity * if p.side == Buy then price - p.entry else p.entry - price
  {
  }
}

/** A live session's tracker, reconciled in place with what the exchange reports. */
module LiveSessions {
  import opened Collections
  import opened PositionLedger
  import opened PositionTrackers
  import opened ReconcileRules

  /** What is written to the database for a position the exchange closed. */
  datatype SavedTrade = SavedTrade(symbol: string, price: real, quantity: real, pnl: real)

  function TradeOf(p: Pos): SavedTrade { SavedTrade(p.symbol, p.current, p.quantity, p.realized) }

  /** The trade saved for a vanished position: its last nonzero price, its quantity and what it gained. */
  lemma SavedTradeIs(l: Ledger, symbol: string)
    requires symbol in l.open && l.open[symbol].symbol == symbol
    ensures var p := l.open[symbol];
            var price := if p.current == 0.0 then p.entry else p.current;
            var after := ClosePosition(l, symbol, ExitPrice(p));
            && |after.closed| == |l.closed| + 1
            && TradeOf(after.closed[|l.closed|])
               == SavedTrade(symbol, price, p.quantity, Gain(p.side, p.entry, price, p.quantity))
  {
  }

  class LiveSession {
    const positionTracker: PositionTracker
    const exchangeReady: bool

    ghost predicate Valid()
      reads this, positionTracker, positionTracker.Repr
    {
      positionTracker.Valid() && this !in positionTracker.Repr
    }

    constructor (exchangeReady: bool)
      ensures Valid() && fresh(positionTracker.Repr) && this.exchangeReady == exchangeReady
      ensures positionTracker.ledger == Ledger(map[], [], 0.0)
    {
      this.exchangeReady := exchangeReady;
      positionTracker := new PositionTracker();
    }

    method RecoverPositions(records: seq<Record>)
      requires Valid()
      modifies positionTracker
      ensures Valid() && fresh(positionTracker.Repr - old(positionTracker.Repr))
              && old(positionTracker.Repr) <= positionTracker.Repr
      ensures positionTracker.ledger ==
        if exchangeReady then Recover(old(positionTracker.ledger), records) else old(positionTracker.ledger)
    {
      if !exchangeReady {
        return;
      }
      for i := 0 to |records|
        invariant Valid() && fresh(positionTracker.Repr - old(positionTracker.Repr))
                  && old(positionTracker.Repr) <= positionTracker.Repr
        invariant Recover(positionTracker.ledger, records[i..]) == Recover(old(positionTracker.ledger), records)
      {
        var r := records[i];
        assert records[i..][1..] == records[i + 1..];
        var contracts := Amount(r.contracts, r.size);
        var entry := Amount(r.entryPrice, r.entryPriceAlt);
        if contracts.None? || entry.None? {
          return;
        }
        if r.symbol == "" || contracts.value <= 0.0 || entry.value <= 0.0 || r.symbol in positionTracker.positions {
          continue;
        }
        var stopLoss, takeProfit := Amount(r.stopLoss, r.stopLossAlt), Amount(r.takeProfit, r.takeProfitAlt);
        if stopLoss.None? || takeProfit.None? {
          return;
        }
        var _ := positionTracker.OpenPosition(r.symbol, SideOf(r.side), entry.value, contracts.value,
                                              Level(stopLoss.value), Level(takeProfit.value));
      }
    }

    method ReadLive(records: seq<Record>) returns (live: Option<set<string>>)
      ensures live == LiveSymbols(records)
    {
      var found: set<string> := {};
      for i := 0 to |records|
        invariant LiveSymbols(records[..i]) == Some(found)
      {
        assert records[..i + 1][..i] == records[..i];
        var contracts := Amount(records[i].contracts, records[i].size);
        if contracts.None? {
          LiveStaysUnread(records, i + 1);
          return None;
        }
        if records[i].symbol != "" && contracts.value > 0.0 {
          found := found + {records[i].symbol};
        } else {
          assert found + {} == found;
        }
      }
      assert records[..|records|] == records;
      return Some(found);
    }

    /** Closes what the exchange no longer holds, saves those trades, and opens what only the exchange holds. */
    method ReconcilePositions(records: seq<Record>) returns (saved: seq<SavedTrade>, ghost gone: seq<string>)
      requires Valid()
      modifies positionTracker.Repr
      ensures Valid() && fresh(positionTracker.Repr - old(positionTracker.Repr))
      ensures var l, live := old(positionTracker.ledger), LiveSymbols(records);
              if exchangeReady && live.Some? then
                && Vanished(l, live.value, gone) && positionTracker.ledger == Reconcile(l, records, gone)
                && |CloseAll(l, gone).closed| == |l.closed| + |gone| == |l.closed| + |saved|
                && forall i :: 0 <= i < |gone| ==> saved[i] == TradeOf(CloseAll(l, gone).closed[|l.closed| + i])
              else positionTracker.ledger == l && saved == []
    {
      saved, gone := [], [];
      if !exchangeReady {
        return;
      }
      var live := ReadLive(records);
      if live == None {
        return;
      }
      saved, gone := CloseVanished(live.value);
      RecoverPositions(records);
    }

    method CloseVanished(live: set<string>) returns (saved: seq<SavedTrade>, ghost gone: seq<string>)
      requires Valid()
      modifies positionTracker.Repr
      ensures Valid() && positionTracker.Repr == old(positionTracker.Repr)
      ensures var l := old(positionTracker.ledger);
              && Vanished(l, live, gone) && positionTracker.ledger == CloseAll(l, gone)
              && |positionTracker.ledger.closed| == |l.closed| + |gone| == |l.closed| + |saved|
              && forall i :: 0 <= i < |gone| ==> saved[i] == TradeOf(positionTracker.ledger.closed[|l.closed| + i])
    {
      saved, gone := [], [];
      ghost var l := positionTracker.ledger;
      var todo := positionTracker.positions.Keys - live;
      ghost var all := todo;
      while todo != {}
        invariant Valid() && positionTracker.Repr == old(positionTracker.Repr)
        invariant todo <= all && all == l.open.Keys - live
        invariant forall x :: x in gone <==> x in all - todo
        invariant forall i, j :: 0 <= i < j < |gone| ==> gone[i] != gone[j]
        invariant positionTracker.ledger == CloseAll(l, gone)
        invariant todo <= positionTracker.ledger.open.Keys
        invariant |positionTracker.ledger.closed| == |l.closed| + |gone| == |l.closed| + |saved|
        invariant forall i :: 0 <= i < |gone| ==> saved[i] == TradeOf(positionTracker.ledger.closed[|l.closed| + i])
        decreases todo
      {
        var symbol :| symbol in todo;
        assert symbol !in gone;
        todo := todo - {symbol};
        var trade := CloseOne(symbol);
        assert (gone + [symbol])[..|gone|] == gone;
        gone := gone + [symbol];
        saved := saved + [trade];
      }
    }

    /** Closes a vanished position; its trade is read from the shared record after the close. */
    method CloseOne(symbol: string) returns (trade: SavedTrade)
      requires Valid() && symbol in positionTracker.ledger.open
      modifies positionTracker.Repr
      ensures Valid() && positionTracker.Repr == old(positionTracker.Repr)
      ensures var l := old(positionTracker.ledger);
              && positionTracker.ledger == ClosePosition(l, symbol, ExitPrice(l.open[symbol]))
              && trade == TradeOf(positionTracker.ledger.closed[|l.closed|])
    {
      var pos := positionTracker.GetOpenPosition(symbol);
      var exitPrice := if pos.currentPrice != 0.0 then pos.currentPrice else pos.entryPrice;
      var _ := positionTracker.ClosePosition(symbol, exitPrice);
      trade := SavedTrade(symbol, exitPrice, pos.quantity, pos.realizedPnl);
    }
  }

  lemma {:induction false} LiveStaysUnread(records: seq<Record>, i: nat)
    requires i <= |records| && LiveSymbols(records[..i]) == None
    ensures LiveSymbols(records) == None
    decreases |records| - i
  {
    if i < |records| {
      assert records[..i + 1][..i] == records[..i];
      LiveStaysUnread(records, i + 1);
    } else {
      assert records[..i] == records;
    }
  }
}
