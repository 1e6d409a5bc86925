/** The monitor's guardian pass: what it closes under RED, and that under ORANGE it closes nothing. */
module SessionGuardian {
  import opened Collections
  import opened PaperBook
  import opened PositionLedger
  import opened RiskRules
  import opened TradingSession
  import opened SessionLaws
  import opened SessionGates

  /** The last price the tracker saw, or the entry when that is zero. */
  function GuardianPrice(p: Pos): real { if p.current != 0.0 then p.current else p.entry }

  predicate ShouldClose(level: Level, p: Pos) { level == Red || (level == Orange && p.realized < 0.0) }

  /** Closing a position ends with an observation of the balance. */
  ghost function GuardianStep(s: Session, level: Level, x: string, now: real): Session
  {
    if x in s.ledger.open && ShouldClose(level, s.ledger.open[x])
    then Observe(Close(s, x, GuardianPrice(s.ledger.open[x])), now)
    else s
  }

  /** One pass over the positions that were open when it began, in some order. */
  ghost function GuardianPass(s: Session, level: Level, pending: seq<string>, now: real): Session
    decreases |pending|
  {
    if pending == [] then s else GuardianPass(GuardianStep(s, level, pending[0], now), level, pending[1..], now)
  }

  /** `pending` lists every open position once. */
  ghost predicate ListsOpen(s: Session, pending: seq<string>)
  {
    && (forall x :: x in pending <==> x in s.ledger.open)
    && (forall i, j :: 0 <= i < j < |pending| ==> pending[i] != pending[j])
  }

  /** Whatever the engine holds, the tracker has a position for. */
  ghost predicate Tracked(s: Session) { s.book.holdings.Keys <= s.ledger.open.Keys }

  lemma StepKeepsTracked(s: Session, step: Step)
    requires Tracked(s)
    ensures Tracked(Next(s, step))
  {
    match step
    case Signal(symbol, action, price, now) =>
      var (s', v) := AskRisk(s, symbol, price, now);
    case _ =>
  }

  lemma {:induction false} RunKeepsTracked(s: Session, steps: seq<Step>)
    requires Tracked(s)
    ensures Tracked(Run(s, steps))
  {
    if steps != [] {
      RunKeepsTracked(s, steps[..|steps| - 1]);
      StepKeepsTracked(Run(s, steps[..|steps| - 1]), steps[|steps| - 1]);
    }
  }

  /** What the guardian's sale of each open position pays after the fee. */
  ghost function NetProceeds(s: Session): map<string, real>
  {
    map x | x in s.ledger.open ::
      var cost := Cost(s.ledger.open[x].quantity, GuardianPrice(s.ledger.open[x]));
      cost - Fee(cost, s.book.feeRate)
  }

  lemma NetProceedsWithout(s: Session, s': Session, x: string)
    requires s'.ledger.open == s.ledger.open - {x} && s'.book.feeRate == s.book.feeRate
    ensures NetProceeds(s') == NetProceeds(s) - {x}
  {
  }

  /** A close pays for what the tracker has, whatever the engine holds. */
  lemma CloseSells(s: Session, x: string)
    requires Tracked(s) && x in s.ledger.open
    ensures var s' := Close(s, x, GuardianPrice(s.ledger.open[x]));
            && Tracked(s') && s'.ledger.open == s.ledger.open - {x} && s'.book.feeRate == s.book.feeRate
            && s'.book.cash == s.book.cash + NetProceeds(s)[x] && s'.risk == s.risk && s'.buys == s.buys
  {
    hide Fee, Cost;
    if x !in s.book.holdings {
      assert s.book.holdings - {x} == s.book.holdings;
    }
  }

  lemma RedStepSells(s: Session, x: string, now: real, s': Session)
    requires Tracked(s) && x in s.ledger.open && s' == GuardianStep(s, Red, x, now)
    ensures Tracked(s') && s'.ledger.open == s.ledger.open - {x} && NetProceeds(s') == NetProceeds(s) - {x}
    ensures s'.book.cash == s.book.cash + NetProceeds(s)[x] && s'.risk.level == s.risk.level && s'.buys == s.buys
  {
    hide Close;
    var s1 := Close(s, x, GuardianPrice(s.ledger.open[x]));
    CloseSells(s, x);
    assert s' == s1.(risk := s'.risk);
    NetProceedsWithout(s, s', x);
  }

  lemma RestListsOpen(s: Session, s': Session, pending: seq<string>)
    requires ListsOpen(s, pending) && pending != [] && s'.ledger.open == s.ledger.open - {pending[0]}
    ensures ListsOpen(s', pending[1..])
  {
  }

  lemma NothingListed(s: Session)
    requires Tracked(s) && ListsOpen(s, [])
    ensures s.ledger.open == map[] && s.book.holdings == map[] && NetProceeds(s) == map[]
  {
    assert s.ledger.open.Keys == {};
    assert s.book.holdings.Keys == {};
  }

  /**
   * In every session, however its BUYs were filled, a RED pass empties tracker and engine, and the cash grows by
   * exactly the net proceeds of every position at the guardian's prices, in whatever order they are closed.
   */
  lemma {:induction false} RedPassFlattens(s: Session, pending: seq<string>, now: real)
    requires Tracked(s) && ListsOpen(s, pending)
    ensures var s' := GuardianPass(s, Red, pending, now);
            && s'.ledger.open == map[] && s'.book.holdings == map[]
            && s'.book.cash == s.book.cash + Sum(NetProceeds(s)) && s'.risk.level == s.risk.level && s'.buys == s.buys
    decreases |pending|
  {
    hide GuardianStep, NetProceeds, Tracked, ListsOpen;
    if pending == [] {
      NothingListed(s);
    } else {
      var x := pending[0];
      var s1 := GuardianStep(s, Red, x, now);
      FirstIsOpen(s, pending);
      RedStepSells(s, x, now, s1);
      SumRemove(NetProceeds(s), x);
      RestListsOpen(s, s1, pending);
      RedPassFlattens(s1, pending[1..], now);
    }
  }

  lemma FirstIsOpen(s: Session, pending: seq<string>)
    requires ListsOpen(s, pending) && pending != []
    ensures pending[0] in s.ledger.open && pending[0] in NetProceeds(s)
  {
  }

  /** A session reached in any run is tracked, so every RED pass in it flattens. */
  lemma AnyRedPassFlattens(
    maxPairs: nat, barred: bool, maxPosition: real, steps: seq<Step>, pending: seq<string>, now: real)
    requires ListsOpen(Run(NewSession(maxPairs, barred, maxPosition), steps), pending)
    ensures var s := Run(NewSession(maxPairs, barred, maxPosition), steps);
            var s' := GuardianPass(s, Red, pending, now);
            && s'.ledger.open == map[] && s'.book.holdings == map[]
            && s'.book.cash == s.book.cash + Sum(NetProceeds(s)) && s'.buys == s.buys
  {
    RunKeepsTracked(NewSession(maxPairs, barred, maxPosition), steps);
    RedPassFlattens(Run(NewSession(maxPairs, barred, maxPosition), steps), pending, now);
  }

  /** Between ledgers that agree the guardian's price is the last one the tracker saw, and money stays conserved. */
  lemma {:induction false} RedPassKeepsSound(s: Session, pending: seq<string>, now: real)
    requires Sound(s)
    ensures Sound(GuardianPass(s, Red, pending, now))
    ensures forall x :: x in s.ledger.open ==> GuardianPrice(s.ledger.open[x]) == s.ledger.open[x].current
    decreases |pending|
  {
    GuardianSeesLastPrices(s);
    if pending != [] {
      var x := pending[0];
      var s1 := GuardianStep(s, Red, x, now);
      if x in s.ledger.open {
        CloseKeepsSound(s, x, GuardianPrice(s.ledger.open[x]));
        assert s1 == Close(s, x, GuardianPrice(s.ledger.open[x])).(risk := s1.risk);
      }
      RedPassKeepsSound(s1, pending[1..], now);
    }
  }

  lemma GuardianSeesLastPrices(s: Session)
    requires Sound(s)
    ensures forall x :: x in s.ledger.open ==> GuardianPrice(s.ledger.open[x]) == s.ledger.open[x].current
  {
    forall x | x in s.ledger.open ensures GuardianPrice(s.ledger.open[x]) == s.ledger.open[x].current {
      assert Bracketed(s.ledger.open[x]) && s.ledger.open[x].entry > 0.0;
    }
  }

  // ---------------------------------------------------------------- ORANGE

  /** No open position carries a realised gain. */
  ghost predicate NoneRealised(s: Session) { forall x :: x in s.ledger.open ==> s.ledger.open[x].realized == 0.0 }

  lemma StepKeepsNoneRealised(s: Session, step: Step)
    requires NoneRealised(s)
    ensures NoneRealised(Next(s, step))
  {
    match step
    case Signal(symbol, action, price, now) =>
      var (s', v) := AskRisk(s, symbol, price, now);
    case _ =>
  }

  lemma {:induction false} RunKeepsNoneRealised(s: Session, steps: seq<Step>)
    requires NoneRealised(s)
    ensures NoneRealised(Run(s, steps))
  {
    if steps != [] {
      RunKeepsNoneRealised(s, steps[..|steps| - 1]);
      StepKeepsNoneRealised(Run(s, steps[..|steps| - 1]), steps[|steps| - 1]);
    }
  }

  lemma {:induction false} NothingToClose(s: Session, pending: seq<string>, now: real)
    requires NoneRealised(s)
    ensures GuardianPass(s, Orange, pending, now) == s
    decreases |pending|
  {
    if pending != [] {
      NothingToClose(s, pending[1..], now);
    }
  }

  /**
   * Under ORANGE the pass tests the realised gain, which is zero while a position is open: in every state
   * of every session, whatever its cap and however its BUYs were filled, nothing is closed.
   */
  lemma OrangePassClosesNothing(maxPairs: nat, barred: bool, maxPosition: real, steps: seq<Step>, pending: seq<string>,
                                now: real)
    ensures var s := Run(NewSession(maxPairs, barred, maxPosition), steps); GuardianPass(s, Orange, pending, now) == s
  {
    RunKeepsNoneRealised(NewSession(maxPairs, barred, maxPosition), steps);
    NothingToClose(Run(NewSession(maxPairs, barred, maxPosition), steps), pending, now);
  }

  // ---------------------------------------------------------------- RED, with anything in between

  predicate Closes(step: Step, x: string) { step.GuardianClose? && step.symbol == x }

  /** A close for every open position, anywhere in the run. */
  ghost predicate ClosesAll(s: Session, steps: seq<Step>)
  {
    forall x :: x in s.ledger.open ==> exists i :: 0 <= i < |steps| && Closes(steps[i], x)
  }

  lemma CloseRemoves(s: Session, x: string, price: real)
    ensures x !in Close(s, x, price).ledger.open
  {
  }

  /** Under a halt nothing is opened, so what was closed stays closed. */
  lemma {:induction false} ClosedStaysClosed(s: Session, steps: seq<Step>, x: string)
    requires Halted(s.risk.level) && forall i :: 0 <= i < |steps| ==> !Lifts(steps[i])
    requires x !in s.ledger.open || exists i :: 0 <= i < |steps| && Closes(steps[i], x)
    ensures x !in Run(s, steps).ledger.open
  {
    if steps != [] {
      var n := |steps| - 1;
      var s1 := Run(s, steps[..n]);
      HaltHolds(s, steps[..n]);
      HaltedStepBuysNothing(s1, steps[n]);
      OtherStepOpensNothing(s1, steps[n]);
      if Closes(steps[n], x) {
        CloseRemoves(s1, x, steps[n].price);
      } else {
        assert forall i :: 0 <= i < n ==> steps[..n][i] == steps[i];
        ClosedStaysClosed(s, steps[..n], x);
      }
    }
  }

  /**
   * In any session of any cap, however its BUYs were filled: from ORANGE or RED on, a run that closes every
   * open position at some time, at whatever price, ends with both ledgers empty, whatever else happens in
   * between, as long as no GREEN or YELLOW status arrives. If every BUY was filled in full, the cash is then
   * the start balance with what was realised, less the fees.
   */
  lemma HaltedRunFlattens(maxPairs: nat, barred: bool, maxPosition: real, before: seq<Step>, steps: seq<Step>)
    requires var s := Run(NewSession(maxPairs, barred, maxPosition), before);
             Halted(s.risk.level) && ClosesAll(s, steps)
    requires forall i :: 0 <= i < |steps| ==> !Lifts(steps[i])
    ensures var s0 := NewSession(maxPairs, barred, maxPosition);
            var s, s' := Run(s0, before), Run(s0, before + steps);
            && s'.ledger.open == map[] && s'.book.holdings == map[] && s'.buys == s.buys
            && (AllFilled(s.buys) ==> s'.book.cash == START_BALANCE + s'.ledger.realized - s'.book.feesPaid)
  {
    var s0 := NewSession(maxPairs, barred, maxPosition);
    var s := Run(s0, before);
    RunAppend(s0, before, steps);
    var s' := Run(s0, before + steps);
    HaltHolds(s, steps);
    forall x ensures x !in s'.ledger.open {
      ClosedStaysClosed(s, steps, x);
    }
    RunKeepsTracked(s0, before + steps);
    EmptyLedgers(s');
    if AllFilled(s.buys) {
      NewSessionIsSound(maxPairs, barred, maxPosition);
      SoundWhileFilled(s0, before + steps);
      FlatCash(s');
    }
  }

  lemma EmptyLedgers(s: Session)
    requires Tracked(s) && forall x :: x !in s.ledger.open
    ensures s.ledger.open == map[] && s.book.holdings == map[]
  {
    assert s.ledger.open.Keys == {};
    assert s.book.holdings.Keys == {};
  }

  lemma FlatCash(s: Session)
    requires MoneyConserved(s) && s.book.holdings == map[]
    ensures s.book.cash == START_BALANCE + s.ledger.realized - s.book.feesPaid
  {
    assert EntryCosts(s.book) == map[];
  }

  /** After a RED pass the session stays flat, with the same cash, until a GREEN or YELLOW status arrives. */
  lemma RedPassStaysFlat(s: Session, pending: seq<string>, now: real, steps: seq<Step>)
    requires Tracked(s) && ListsOpen(s, pending) && s.risk.level == Red
    requires forall i :: 0 <= i < |steps| ==> !Lifts(steps[i])
    ensures var s' := Run(GuardianPass(s, Red, pending, now), steps);
            s'.ledger.open == map[] && s'.book.holdings == map[] && s'.buys == s.buys
            && s'.book.cash == s.book.cash + Sum(NetProceeds(s))
  {
    RedPassFlattens(s, pending, now);
    HaltHolds(GuardianPass(s, Red, pending, now), steps);
  }
}
