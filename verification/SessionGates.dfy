/**
 * The gates in front of a BUY, over whole runs and for every cap: how many positions may be open, how
 * many of one correlation group, how close together two buys of a symbol may be, and the market halt.
 */
module SessionGates {
  import opened Collections
  import opened Signals
  import opened PaperBook
  import opened PositionLedger
  import opened RiskRules
  import opened TradingSession
  import opened SessionLaws

  ghost predicate CapHolds(s: Session) { |s.ledger.open| <= s.maxPairs && |s.ledger.open| <= HARD_CAP }

  ghost predicate GroupsHold(s: Session)
  {
    forall g :: |Members(s.ledger.open.Keys, g)| <= s.risk.limits.maxCorrelated
  }

  ghost predicate BuysSpaced(s: Session)
  {
    forall i, j :: 0 <= i < j < |s.buys| && s.buys[i].symbol == s.buys[j].symbol
      ==> s.buys[j].time - s.buys[i].time >= s.risk.limits.cooldown
  }

  /** The cooldown table remembers, for every symbol ever bought, a time no earlier than its last buy. */
  ghost predicate BuysRemembered(s: Session)
  {
    forall i :: 0 <= i < |s.buys| ==>
      s.buys[i].symbol in s.risk.cooldowns && s.buys[i].time <= s.risk.cooldowns[s.buys[i].symbol]
  }

  ghost predicate Gated(s: Session)
  {
    && CapHolds(s) && GroupsHold(s) && BuysSpaced(s) && BuysRemembered(s)
    && s.risk.limits.maxCorrelated == 2 && s.risk.limits.cooldown == 300.0
  }

  lemma SubsetSize<T>(a: set<T>, b: set<T>)
    requires a <= b
    ensures |a| <= |b|
  {
    assert b == a + (b - a);
  }

  /** A step that does not buy opens nothing and leaves limits and cooldowns alone. */
  lemma OtherStepOpensNothing(s: Session, step: Step)
    requires Next(s, step).buys == s.buys
    ensures var s' := Next(s, step);
            && s'.ledger.open.Keys <= s.ledger.open.Keys && s'.risk.limits == s.risk.limits
            && s'.risk.cooldowns == s.risk.cooldowns && s'.maxPairs == s.maxPairs
  {
    match step
    case Signal(symbol, action, price, now) =>
      var (s', v) := AskRisk(s, symbol, price, now);
    case _ =>
  }

  /** What a step that buys found and left behind. */
  lemma BuyOpensOne(s: Session, step: Step)
    requires Next(s, step).buys != s.buys
    ensures step.Signal? && step.symbol !in s.ledger.open
    ensures |s.ledger.open| < s.maxPairs && |s.ledger.open| < HARD_CAP
    ensures AskRisk(s, step.symbol, step.price, step.now).1 == Allowed
    ensures var s' := Next(s, step);
            && s'.ledger.open.Keys == s.ledger.open.Keys + {step.symbol} && s'.risk.limits == s.risk.limits
            && s'.risk.cooldowns == s.risk.cooldowns[step.symbol := step.now] && s'.maxPairs == s.maxPairs
            && |s'.buys| == |s.buys| + 1 && s'.buys[..|s.buys|] == s.buys
            && s'.buys[|s.buys|].symbol == step.symbol && s'.buys[|s.buys|].time == step.now
  {
    BuyStep(s, step);
  }

  lemma AllowedMeansRoom(r: Risk, symbol: string, open: set<string>, now: real)
    requires CanTrade(r, symbol, open, now).1 == Allowed && r.limits.maxCorrelated > 0
    ensures symbol in r.cooldowns ==> now - r.cooldowns[symbol] >= r.limits.cooldown
    ensures forall g :: GroupOf(symbol) == Some(g) ==> |Members(open, g)| < r.limits.maxCorrelated
  {
    if open == {} {
      forall g ensures Members(open, g) == {} {
      }
    }
  }

  lemma BuyKeepsGroups(open: set<string>, symbol: string, limit: int)
    requires symbol !in open
    requires forall g :: |Members(open, g)| <= limit
    requires forall g :: GroupOf(symbol) == Some(g) ==> |Members(open, g)| < limit
    ensures forall g :: |Members(open + {symbol}, g)| <= limit
  {
    forall g ensures |Members(open + {symbol}, g)| <= limit {
      if GroupOf(symbol) == Some(g) {
        assert Members(open + {symbol}, g) == Members(open, g) + {symbol};
      } else {
        assert Members(open + {symbol}, g) == Members(open, g);
      }
    }
  }

  lemma BuyKeepsSpacing(s: Session, s': Session, symbol: string, now: real)
    requires BuysSpaced(s) && BuysRemembered(s) && s.risk.limits.cooldown == 300.0 && s'.risk.limits == s.risk.limits
    requires symbol in s.risk.cooldowns ==> now - s.risk.cooldowns[symbol] >= 300.0
    requires s'.risk.cooldowns == s.risk.cooldowns[symbol := now]
    requires |s'.buys| == |s.buys| + 1 && s'.buys[..|s.buys|] == s.buys
    requires s'.buys[|s.buys|].symbol == symbol && s'.buys[|s.buys|].time == now
    ensures BuysSpaced(s') && BuysRemembered(s')
  {
    assert forall i :: 0 <= i < |s.buys| ==> s'.buys[i] == s'.buys[..|s.buys|][i] == s.buys[i];
  }

  lemma StepKeepsGated(s: Session, step: Step)
    requires Gated(s)
    ensures Gated(Next(s, step))
  {
    var s' := Next(s, step);
    if s'.buys == s.buys {
      OtherStepOpensNothing(s, step);
      SubsetSize(s'.ledger.open.Keys, s.ledger.open.Keys);
      forall g ensures |Members(s'.ledger.open.Keys, g)| <= s.risk.limits.maxCorrelated {
        SubsetSize(Members(s'.ledger.open.Keys, g), Members(s.ledger.open.Keys, g));
      }
    } else {
      BuyOpensOne(s, step);
      var r := UpdateBalance(s.risk, Equity(s.book, EntryPrices(s)[step.symbol := step.price]), Day(step.now));
      AllowedMeansRoom(r, step.symbol, s.ledger.open.Keys, step.now);
      BuyKeepsGroups(s.ledger.open.Keys, step.symbol, 2);
      BuyKeepsSpacing(s, s', step.symbol, step.now);
      assert |s'.ledger.open.Keys| == |s.ledger.open.Keys| + 1;
    }
  }

  lemma {:induction false} RunKeepsGated(s: Session, steps: seq<Step>)
    requires Gated(s)
    ensures Gated(Run(s, steps))
  {
    if steps != [] {
      RunKeepsGated(s, steps[..|steps| - 1]);
      StepKeepsGated(Run(s, steps[..|steps| - 1]), steps[|steps| - 1]);
    }
  }

  /** Every paper session, whatever its cap and whatever happens to it, keeps all four gates. */
  lemma EveryRunIsGated(maxPairs: nat, barred: bool, maxPosition: real, steps: seq<Step>)
    ensures Gated(Run(NewSession(maxPairs, barred, maxPosition), steps))
  {
    var s := NewSession(maxPairs, barred, maxPosition);
    forall g ensures Members(s.ledger.open.Keys, g) == {} {
    }
    RunKeepsGated(s, steps);
  }

  /** In every run at most two symbols of each correlation group are open, the groups written out. */
  lemma AtMostTwoOfAGroup(maxPairs: nat, barred: bool, maxPosition: real, steps: seq<Step>)
    ensures var open := Run(NewSession(maxPairs, barred, maxPosition), steps).ledger.open.Keys;
            && |open * {"BTC/USDT", "ETH/USDT", "BTCUSDT", "ETHUSDT"}| <= 2
            && |open * {"SOL/USDT", "BNB/USDT", "XRP/USDT", "ADA/USDT", "AVAX/USDT", "DOT/USDT",
                        "SOLUSDT", "BNBUSDT", "XRPUSDT", "ADAUSDT", "AVAXUSDT", "DOTUSDT"}| <= 2
            && |open * {"UNI/USDT", "LINK/USDT", "AAVE/USDT", "CRV/USDT",
                        "UNIUSDT", "LINKUSDT", "AAVEUSDT", "CRVUSDT"}| <= 2
            && |open * {"DOGE/USDT", "SHIB/USDT", "PEPE/USDT", "DOGEUSDT", "SHIBUSDT", "PEPEUSDT"}| <= 2
            && |open * {"LTC/USDT", "ATOM/USDT", "FIL/USDT", "NEAR/USDT", "TRX/USDT",
                        "LTCUSDT", "ATOMUSDT", "FILUSDT", "NEARUSDT", "TRXUSDT"}| <= 2
  {
    hide Run, Members, GroupOf;
    var s := Run(NewSession(maxPairs, barred, maxPosition), steps);
    var open := s.ledger.open.Keys;
    EveryRunIsGated(maxPairs, barred, maxPosition, steps);
    assert forall g :: |Members(open, g)| <= 2;
    GroupIs(open, BTC_ETH, BtcEth);
    GroupIs(open, MAJOR_L1, MajorL1);
    GroupIs(open, DEFI, Defi);
    GroupIs(open, MEME, Meme);
    GroupIs(open, INFRA, Infra);
  }

  lemma GroupIs(open: set<string>, names: set<string>, g: Group)
    requires names == match g case BtcEth => BTC_ETH case MajorL1 => MAJOR_L1 case Defi => DEFI
                              case Meme => MEME case Infra => INFRA
    ensures open * names == Members(open, g)
  {
    forall x | x in open ensures x in names <==> GroupOf(x) == Some(g) {
      OneGroup(x);
    }
  }

  // ---------------------------------------------------------------- the market halt

  predicate Halted(level: Level) { level == Orange || level == Red }

  /** A step that could lift a halt. */
  predicate Lifts(step: Step) { step.MarketStatus? && step.level in {"GREEN", "YELLOW"} }

  lemma HaltedStepBuysNothing(s: Session, step: Step)
    requires Halted(s.risk.level) && !Lifts(step)
    ensures Halted(Next(s, step).risk.level) && Next(s, step).buys == s.buys
    ensures s.ledger.open == map[] ==> Next(s, step).ledger == s.ledger
    ensures s.ledger.open == map[] && s.book.holdings == map[] ==> Next(s, step).book == s.book
  {
    match step
    case Signal(symbol, action, price, now) =>
      var (s', v) := AskRisk(s, symbol, price, now);
    case _ =>
  }

  /** Under ORANGE or RED nothing is bought until a GREEN or YELLOW status; a flat session stays exactly as it is. */
  lemma {:induction false} HaltHolds(s: Session, steps: seq<Step>)
    requires Halted(s.risk.level)
    requires forall i :: 0 <= i < |steps| ==> !Lifts(steps[i])
    ensures var s' := Run(s, steps);
            && Halted(s'.risk.level) && s'.buys == s.buys
            && (s.ledger.open == map[] && s.book.holdings == map[] ==> s'.ledger == s.ledger && s'.book == s.book)
  {
    if steps != [] {
      HaltHolds(s, steps[..|steps| - 1]);
      HaltedStepBuysNothing(Run(s, steps[..|steps| - 1]), steps[|steps| - 1]);
    }
  }

  // ---------------------------------------------------------------- the cap stops sells too

  /** Every pair the plan allows is in use. */
  predicate Full(s: Session) { |s.ledger.open| >= s.maxPairs }

  /** The steps that can free a place in a full session. */
  predicate Frees(step: Step) { step.Tick? || step.GuardianClose? }

  lemma FullStepKeepsBooks(s: Session, step: Step)
    requires Full(s) && !Frees(step)
    ensures var s' := Next(s, step);
            s'.book == s.book && s'.ledger == s.ledger && s'.buys == s.buys && s'.maxPairs == s.maxPairs
  {
  }

  /**
   * The cap is tested before the action, so in a full session every signal is ignored, a SELL of what is held
   * included: until a price tick or a guardian close, no run changes the engine, the tracker or the history.
   */
  lemma {:induction false} FullSessionIsStuck(s: Session, steps: seq<Step>)
    requires Full(s) && forall i :: 0 <= i < |steps| ==> !Frees(steps[i])
    ensures var s' := Run(s, steps);
            s'.book == s.book && s'.ledger == s.ledger && s'.buys == s.buys && s'.maxPairs == s.maxPairs
  {
    if steps != [] {
      FullSessionIsStuck(s, steps[..|steps| - 1]);
      FullStepKeepsBooks(Run(s, steps[..|steps| - 1]), steps[|steps| - 1]);
    }
  }

  /**
   * A SELL signal closes its position if and only if there is one, the plan does not bar the user, the session is
   * not full, and the risk verdict, the same that a BUY needs, allows it; otherwise the engine is left alone.
   */
  lemma SellClosesIff(s: Session, symbol: string, price: real, now: real)
    ensures var s' := Next(s, Signal(symbol, SELL, price, now));
            && (s'.ledger != s.ledger <==>
                  symbol in s.ledger.open && !s.barred && !Full(s) && AskRisk(s, symbol, price, now).1 == Allowed)
            && (s'.ledger == s.ledger ==> s'.book == s.book)
            && (s'.ledger != s.ledger ==> s'.ledger.open == s.ledger.open - {symbol})
  {
    var (s1, v) := AskRisk(s, symbol, price, now);
    if symbol in s.ledger.open && !s.barred && !Full(s) && v == Allowed {
      assert Next(s, Signal(symbol, SELL, price, now)) == Close(s1, symbol, price);
      assert symbol !in Close(s1, symbol, price).ledger.open;
    }
  }
}
