/**
 * When paper buys stop being filled in full: exactly when the session is not roomy. The witness consists
 * of signals alone: it loses most of a tenth of the start balance in six losing trades, one a day, and
 * then keeps buying symbols of no correlation group at a price of one.
 */
module SessionThreshold {
  import opened Collections
  import opened Arithmetic
  import opened Signals
  import opened Plans
  import opened PaperBook
  import opened RiskRules
  import opened TradingSession
  import opened SessionLaws
  import opened SessionSafety

  /** Whether the user trades futures, and whatever happens, no BUY of such a session is cut short. */
  ghost predicate NeverCutShort(maxPairs: nat, maxPosition: real)
  {
    forall barred, steps :: AllFilled(Run(NewSession(maxPairs, barred, maxPosition), steps).buys)
  }

  /** Signals with positive prices, from one time to another, that never go back in time. */
  predicate Ordinary(signals: seq<Step>, from: real, until: real): (b: bool)
    ensures b ==> AllSignals(signals)
  {
    && from <= until && AllSignals(signals)
    && (forall i :: 0 <= i < |signals| ==> signals[i].price > 0.0 && from <= signals[i].now <= until)
    && (forall i, j :: 0 <= i < j < |signals| ==> signals[i].now <= signals[j].now)
  }

  lemma OrdinaryJoin(a: seq<Step>, b: seq<Step>, from: real, mid: real, until: real)
    requires Ordinary(a, from, mid) && Ordinary(b, mid, until)
    ensures Ordinary(a + b, from, until)
  {
  }

  /** Ordinary signals that cut a BUY short when the trader handles them. */
  ghost predicate CutsShort(s: Session, signals: seq<Step>, from: real, until: real)
  {
    Ordinary(signals, from, until) && !AllFilled(HandleAll(s, signals).buys)
  }

  lemma CutsShortFrom(s: Session, a: seq<Step>, b: seq<Step>, from: real, mid: real, until: real)
    requires Ordinary(a, from, mid) && CutsShort(HandleAll(s, a), b, mid, until)
    ensures CutsShort(s, a + b, from, until)
  {
    HandleAppend(s, a, b);
    OrdinaryJoin(a, b, from, mid, until);
  }

  // ---------------------------------------------------------------- the witness

  function Name(k: nat): string { seq(k + 1, _ => 'Z') }

  /** No member of a correlation group starts with a Z. */
  lemma ZHasNoGroup(x: string)
    requires |x| > 0 && x[0] == 'Z'
    ensures GroupOf(x) == None
  {
  }

  lemma NameHasNoGroup(k: nat)
    ensures GroupOf(Name(k)) == None
  {
    ZHasNoGroup(Name(k));
  }

  lemma NameLength(k: nat)
    ensures |Name(k)| == k + 1
  {
  }

  /** The noon of a day. */
  function Noon(today: nat): real { today as real * 86400.0 + 43200.0 }

  /** After its losses the witness has `start` left and then buys `most` symbols. */
  datatype Witness = Witness(maxPairs: nat, limit: real, start: real, most: nat)

  /** Every size the witness buys is between these. */
  function Low(w: Witness): real { Min(w.limit, 900.0) }

  function High(w: Witness): real { Min(w.limit, w.start * 0.1) }

  /** Fees alone do not reach the breaker line, but the holdings and fees exceed the start. */
  predicate Works(w: Witness)
  {
    && 10 <= w.most <= w.maxPairs && w.most <= HARD_CAP
    && 9000.0 < w.start <= 9150.0 && 179.0 <= Low(w)
    && 9000.0 + 0.001 * Times(w.most - 1, High(w)) < w.start < 1.001 * Times(w.most, Low(w))
  }

  /** The risk manager has nothing against a BUY today as long as the balance stays between 9000 and 10000. */
  ghost predicate Calm(r: Risk, w: Witness, today: nat)
  {
    && r.limits == SessionLimits(w.limit) && r.peak == 10000.0 && r.level == Green
    && (r.day == Some(today) ==> r.dayStart == Some(w.start))
  }

  lemma SmallDrop(last: real, start: real)
    requires 9000.0 < last <= start <= 9150.0
    ensures DailyPct(last, start) >= -5.0
  {
    QuotientAtLeast(last - start, start, -0.02);
  }

  lemma CalmAllows(r: Risk, w: Witness, today: nat, equity: real, x: string, open: set<string>, now: real)
    requires Calm(r, w, today) && 9000.0 < equity <= 10000.0 && w.start <= 9150.0 && Day(now) == today
    requires r.day == Some(today) ==> equity <= w.start
    requires x in r.cooldowns ==> now - r.cooldowns[x] >= 300.0
    requires GroupOf(x) == None
    ensures var r' := UpdateBalance(r, equity, today);
            && CanTrade(r', x, open, now) == (r', Allowed) && r'.cooldowns == r.cooldowns && r'.day == Some(today)
            && r'.dayStart == (if r.day == Some(today) then r.dayStart else Some(equity))
            && r'.limits == r.limits && r'.peak == 10000.0 && r'.level == Green
  {
    if r.day == Some(today) {
      SmallDrop(equity, w.start);
    }
  }

  lemma NoonIsToday(today: nat)
    ensures Day(Noon(today)) == today
  {
  }

  function Observed(s: Session, equity: real, today: nat): Session { s.(risk := UpdateBalance(s.risk, equity, today)) }

  /** `x` can be bought today at a price of one: nothing stands against it and the balance is `equity`. */
  ghost predicate Buyable(s: Session, w: Witness, today: nat, x: string, equity: real)
  {
    && LedgersAgree(s) && x !in s.ledger.open && GroupOf(x) == None && equity == BookValue(s.book)
    && !s.barred && |s.ledger.open| < s.maxPairs && |s.ledger.open| < HARD_CAP
    && Calm(s.risk, w, today) && 9000.0 < equity <= 10000.0 && w.start <= 9150.0
    && (s.risk.day == Some(today) ==> equity <= w.start)
    && (x in s.risk.cooldowns ==> Noon(today) - s.risk.cooldowns[x] >= 300.0)
  }

  /** The risk state of a calm session after today's observation. */
  ghost predicate SeenToday(r: Risk, r': Risk, w: Witness, today: nat, equity: real)
  {
    && r'.cooldowns == r.cooldowns && r'.day == Some(today)
    && r'.dayStart == (if r.day == Some(today) then r.dayStart else Some(equity))
    && r'.limits == SessionLimits(w.limit) && r'.peak == 10000.0 && r'.level == Green
  }

  lemma BuyableIsAllowed(s: Session, w: Witness, today: nat, x: string, equity: real)
    requires Buyable(s, w, today, x, equity)
    ensures AskRisk(s, x, 1.0, Noon(today)) == (Observed(s, equity, today), Allowed)
    ensures SeenToday(s.risk, Observed(s, equity, today).risk, w, today, equity)
  {
    EquityAtEntry(s, x, 1.0);
    NoonIsToday(today);
    CalmAllows(s.risk, w, today, equity, x, s.ledger.open.Keys, Noon(today));
  }

  lemma AsksForSize(s: Session, x: string, limit: real, equity: real, q: real)
    requires LedgersAgree(s) && x !in s.ledger.open && equity == BookValue(s.book)
    requires s.risk.limits.maxPosition == limit && s.risk.level == Green && q == Min(limit, equity * 0.1)
    ensures BuyQuantity(s, x, 1.0) == Some(q)
  {
    EquityAtEntry(s, x, 1.0);
    assert q / 1.0 == q;
  }

  /** The signal reaches the engine and asks for the smaller of the limit and a tenth of the equity. */
  lemma SignalBuys(s: Session, w: Witness, today: nat, x: string, equity: real, q: real)
    requires Buyable(s, w, today, x, equity) && q == Min(w.limit, equity * 0.1) && q >= 5.0
    ensures var step, s0 := Signal(x, BUY, 1.0, Noon(today)), Observed(s, equity, today);
            && Checked(s, step) == s0 && Requested(s, step) == q
            && Next(s, step) == EnterPosition(s0, x, q, 1.0, Noon(today))
            && SeenToday(s.risk, s0.risk, w, today, equity)
  {
    BuyableIsAllowed(s, w, today, x, equity);
    var s0 := Observed(s, equity, today);
    AsksForSize(s0, x, w.limit, equity, q);
    assert ValidOrder(|s.ledger.open|, q, 1.0);
  }

  /** What a covered buy of `q` units at a price of one does to the session. */
  ghost predicate PaidFor(s: Session, s': Session, x: string, q: real, now: real)
  {
    && s'.book.cash == s.book.cash - (q + q * 0.001)
    && BookValue(s'.book) == BookValue(s.book) - q * 0.001
    && s'.ledger.open.Keys == s.ledger.open.Keys + {x}
    && s'.ledger.open[x].entry == 1.0 && s'.ledger.open[x].quantity == q
    && s'.risk == RecordTrade(s.risk, x, now) && s'.maxPairs == s.maxPairs && s'.barred == s.barred
  }

  /** In sound states what the book is worth changes by what was realised less the fees. */
  lemma BookValueChange(s: Session, s': Session, fee: real)
    requires Sound(s) && Sound(s') && s'.ledger.realized == s.ledger.realized
             && s'.book.feesPaid == s.book.feesPaid + fee
    ensures BookValue(s'.book) == BookValue(s.book) - fee
  {
  }

  lemma BuyChanges(s: Session, x: string, q: real, now: real, s': Session)
    requires s.book.feeRate == 0.001 && q + q * 0.001 <= s.book.cash && s' == EnterPosition(s, x, q, 1.0, now)
    ensures s'.book.cash == s.book.cash - (q + q * 0.001) && s'.book.feesPaid == s.book.feesPaid + q * 0.001
    ensures s'.ledger == s.ledger.(open := s'.ledger.open) && s'.ledger.open.Keys == s.ledger.open.Keys + {x}
    ensures s'.ledger.open[x].entry == 1.0 && s'.ledger.open[x].quantity == q
    ensures s'.risk == RecordTrade(s.risk, x, now) && s'.maxPairs == s.maxPairs && s'.barred == s.barred
  {
  }

  lemma CoveredBuyPays(s: Session, x: string, q: real, now: real)
    requires Sound(s) && x !in s.ledger.open && q > 0.0 && q + q * 0.001 <= s.book.cash
    ensures Sound(EnterPosition(s, x, q, 1.0, now)) && PaidFor(s, EnterPosition(s, x, q, 1.0, now), x, q, now)
  {
    hide EnterPosition;
    var s' := EnterPosition(s, x, q, 1.0, now);
    CoveredBuyKeepsSound(s, x, q, 1.0, now);
    BuyChanges(s, x, q, now, s');
    BookValueChange(s, s', q * 0.001);
  }

  // ---------------------------------------------------------------- six losing trades

  /** Nothing is held, and the only symbol ever bought was bought before today. */
  ghost predicate Flat(s: Session, w: Witness, today: nat, equity: real)
  {
    && Sound(s) && s.ledger.open == map[] && s.book.cash == equity
    && !s.barred && s.maxPairs == w.maxPairs && Calm(s.risk, w, today)
    && (s.risk.day.Some? ==> s.risk.day.value < today)
    && s.risk.cooldowns.Keys <= {Name(0)}
    && (Name(0) in s.risk.cooldowns ==> s.risk.cooldowns[Name(0)] <= Noon(today) - 86400.0)
  }

  lemma FlatHoldsNothing(s: Session)
    requires LedgersAgree(s) && s.ledger.open == map[]
    ensures BookValue(s.book) == s.book.cash
  {
    assert EntryCosts(s.book) == map[];
  }

  /** The price at which selling `q` units bought at one leaves `loss` less than before. */
  function LossPrice(q: real, loss: real): real
    requires q > 0.0
  {
    (1.001 * q - loss) / (0.999 * q)
  }

  lemma LossPriceLoses(q: real, loss: real, p: real)
    requires 179.0 <= q <= 1000.0 && 140.0 <= loss <= 167.0 && p == LossPrice(q, loss)
    ensures 0.0 < p <= 0.985
    ensures (q * p - q * p * 0.001) - (q + q * 0.001) == -loss
  {
    QuotientTimes(1.001 * q - loss, 0.999 * q);
    QuotientPositive(1.001 * q - loss, 0.999 * q);
    QuotientAtMost(1.001 * q - loss, 0.999 * q, 0.985);
    assert p * (0.999 * q) == 0.999 * (q * p);
  }

  /** A signal soon after a small loss is allowed when the cooldown is over. */
  lemma SmallLossAllows(r: Risk, today: nat, start: real, equity: real, x: string, open: set<string>, now: real)
    requires r.limits.breakerPct == 10.0 && r.limits.maxDailyDrawdownPct == 5.0 && r.limits.cooldown == 300.0
    requires r.peak == 10000.0 && r.level == Green && r.day == Some(today) && r.dayStart == Some(start)
             && Day(now) == today
    requires 9000.0 < equity <= start <= 10000.0 && start - equity <= 167.0
    requires x in r.cooldowns && now - r.cooldowns[x] >= 300.0 && GroupOf(x) == None
    ensures CanTrade(UpdateBalance(r, equity, today), x, open, now) == (UpdateBalance(r, equity, today), Allowed)
  {
    QuotientAtLeast(equity - start, start, -0.02);
  }

  /** The session holds `q` units of `x` alone, bought at one. */
  ghost predicate HoldsOne(s: Session, x: string, q: real)
  {
    Sound(s) && s.ledger.open.Keys == {x} && s.ledger.open[x].entry == 1.0 && s.ledger.open[x].quantity == q
  }

  /** The day began with `start`, and `x` is the one symbol ever bought, at noon. */
  ghost predicate Trading(s: Session, w: Witness, today: nat, x: string, start: real)
  {
    && !s.barred && s.maxPairs == w.maxPairs && s.risk.limits == SessionLimits(w.limit)
    && s.risk.peak == 10000.0 && s.risk.level == Green && s.risk.day == Some(today) && s.risk.dayStart == Some(start)
    && s.risk.cooldowns == map[x := Noon(today)]
  }

  lemma WorthOfOne(b: Book, prices: map<string, real>, x: string, v: real)
    requires b.holdings.Keys == {x} && x in prices && prices[x] != 0.0 && v == Cost(b.holdings[x].quantity, prices[x])
    ensures Equity(b, prices) == b.cash + v
  {
    assert Worth(b, prices) == map[x := v];
    SumAdd(map[], x, v);
  }

  /** What a signal for the one holding observes. */
  lemma EquityOfOne(s: Session, x: string, q: real, p: real, v: real)
    requires LedgersAgree(s) && s.ledger.open.Keys == {x} && s.ledger.open[x].quantity == q && p > 0.0 && v == q * p
    ensures Equity(s.book, EntryPrices(s)[x := p]) == s.book.cash + v
  {
    assert SamePosition(s.book.holdings[x], s.ledger.open[x]);
    WorthOfOne(s.book, EntryPrices(s)[x := p], x, v);
  }

  /** Selling the one holding: cash for it less the fee, and nothing held. */
  lemma CloseOne(s: Session, x: string, q: real, p: real, v: real)
    requires HoldsOne(s, x, q) && v == q * p
    ensures var s' := Close(s, x, p);
            && Sound(s') && s'.ledger.open == map[] && s'.book.cash == s.book.cash + (v - v * 0.001)
            && s' == s.(book := s'.book, ledger := s'.ledger)
  {
    CloseKeepsSound(s, x, p);
  }

  /** With nothing held the balance observed is the cash, and tomorrow begins afresh. */
  lemma FlatTomorrow(s: Session, w: Witness, today: nat, start: real, cash: real, now: real, s': Session)
    requires s' == Observe(s, now)
    requires Sound(s) && s.ledger.open == map[] && s.book.cash == cash && 9000.0 < cash <= 10000.0 && Day(now) == today
    requires Trading(s, w, today, Name(0), start)
    ensures Flat(s', w, today + 1, cash)
  {
    assert EntryPrices(s) == map[];
    assert s' == s.(risk := UpdateBalance(s.risk, cash, today));
  }

  function BuySignal(today: nat, k: nat): (signal: Step)
    ensures signal.Signal?
  {
    Signal(Name(k), BUY, 1.0, Noon(today))
  }

  /** Exactly the cooldown after the purchase. */
  function SellSignal(today: nat, p: real): (signal: Step)
    ensures signal.Signal?
  {
    Signal(Name(0), SELL, p, Noon(today) + 300.0)
  }

  lemma SellSignalIs(s: Session, today: nat, p: real)
    ensures Handle(s, SellSignal(today, p)) == AfterSignal(s, Name(0), SELL, p, Noon(today) + 300.0)
  {
    hide AfterSignal;
  }

  lemma FiveMinutesLater(today: nat)
    ensures Day(Noon(today) + 300.0) == today
  {
  }

  /** The SELL passes every gate. */
  lemma SellIsAllowed(s: Session, w: Witness, today: nat, x: string, q: real, p: real, v: real, start: real,
                      equity: real, now: real, s1: Session)
    requires HoldsOne(s, x, q) && Trading(s, w, today, x, start) && GroupOf(x) == None
    requires p > 0.0 && v == q * p && equity == s.book.cash + v
    requires 9000.0 < equity <= start <= 10000.0 && start - equity <= 167.0
    requires s1 == Observed(s, equity, today) && now == Noon(today) + 300.0
    ensures AskRisk(s, x, p, now).0 == s1 && AskRisk(s, x, p, now).1 == Allowed
    ensures Trading(s1, w, today, x, start) && s1 == s.(risk := s1.risk)
  {
    EquityOfOne(s, x, q, p, v);
    FiveMinutesLater(today);
    SmallLossAllows(s.risk, today, start, equity, x, s.ledger.open.Keys, now);
  }

  /** An allowed SELL of the one holding sells it and observes the balance. */
  lemma AllowedSell(s: Session, x: string, p: real, now: real, s1: Session)
    requires s.ledger.open.Keys == {x} && !s.barred && 1 < s.maxPairs
    requires AskRisk(s, x, p, now).0 == s1 && AskRisk(s, x, p, now).1 == Allowed
    ensures AfterSignal(s, x, SELL, p, now) == Observe(Close(s1, x, p), now)
  {
    assert |s.ledger.open| == |s.ledger.open.Keys| == 1;
  }

  lemma StillHoldsOne(s: Session, x: string, q: real, s1: Session)
    requires HoldsOne(s, x, q) && s1 == s.(risk := s1.risk)
    ensures HoldsOne(s1, x, q)
  {
    assert EntryCosts(s1.book) == EntryCosts(s.book);
  }

  /** What selling the one holding leaves, and the balance observed then. */
  lemma SoldOut(s: Session, w: Witness, today: nat, x: string, q: real, p: real, v: real, start: real, cash: real,
                now: real, s': Session)
    requires HoldsOne(s, x, q) && Trading(s, w, today, x, start) && v == q * p && x == Name(0)
    requires s' == Observe(Close(s, x, p), now)
    requires cash == s.book.cash + (v - v * 0.001) && 9000.0 < cash <= 10000.0 && Day(now) == today
    ensures Flat(s', w, today + 1, cash)
  {
    CloseOne(s, x, q, p, v);
    FlatTomorrow(Close(s, x, p), w, today, start, cash, now, s');
  }

  /** What the SELL finds and leaves: `equity` before it, counting the holding at `p`, and `cash` after it. */
  lemma LossAmounts(q: real, v: real, start: real, loss: real, held: real, equity: real, cash: real)
    requires held == start - (q + q * 0.001) && (v - v * 0.001) - (q + q * 0.001) == -loss
    requires 0.0 < v * 0.001 < 1.0 && 140.0 <= loss <= 167.0 && 9000.0 < start - loss && start <= 10000.0
    requires equity == held + v && cash == held + (v - v * 0.001)
    ensures cash == start - loss && 9000.0 < cash <= 10000.0 && 9000.0 < equity <= start && start - equity <= 167.0
  {
  }

  /** An allowed SELL is filled in full and leaves `cash`. */
  lemma SellRound(s: Session, w: Witness, today: nat, x: string, q: real, p: real, v: real, start: real, cash: real,
                  now: real, s1: Session, s': Session)
    requires HoldsOne(s, x, q) && Trading(s1, w, today, x, start) && Works(w) && v == q * p && x == Name(0)
    requires AskRisk(s, x, p, now).0 == s1 && AskRisk(s, x, p, now).1 == Allowed
    requires s1 == s.(risk := s1.risk) && s' == AfterSignal(s, x, SELL, p, now)
    requires cash == s.book.cash + (v - v * 0.001) && 9000.0 < cash <= 10000.0 && Day(now) == today
    ensures Flat(s', w, today + 1, cash)
  {
    AllowedSell(s, x, p, now, s1);
    StillHoldsOne(s, x, q, s1);
    SoldOut(s1, w, today, x, q, p, v, start, cash, now, s');
  }

  lemma FeeIsSmall(q: real, p: real)
    requires 0.0 < q <= 1000.0 && 0.0 < p <= 0.985
    ensures 0.0 < q * p * 0.001 < 1.0
  {
    ProductPositive(q, p);
    ProductNonNegative(1000.0 - q, p);
    assert (1000.0 - q) * p == 1000.0 * p - q * p;
  }

  /** A BUY of what is not held ends without an observation of its own. */
  lemma BuyIsNext(s: Session, x: string, price: real, now: real)
    requires x !in s.ledger.open
    ensures Handle(s, Signal(x, BUY, price, now)) == Next(s, Signal(x, BUY, price, now))
  {
  }

  /** The first BUY of a flat session. */
  lemma FirstBuy(s: Session, s0: Session, s': Session, w: Witness, today: nat, equity: real, q: real)
    requires Flat(s, w, today, equity) && s0 == s.(risk := s0.risk) && SeenToday(s.risk, s0.risk, w, today, equity)
    requires Sound(s') && PaidFor(s0, s', Name(0), q, Noon(today))
    ensures HoldsOne(s', Name(0), q) && Trading(s', w, today, Name(0), equity)
            && s'.book.cash == equity - (q + q * 0.001)
  {
  }

  lemma BuyRound(s: Session, w: Witness, today: nat, equity: real, q: real, s': Session)
    requires Flat(s, w, today, equity) && Works(w) && 9000.0 < equity <= 10000.0 && q == Min(w.limit, equity * 0.1)
    requires s' == Handle(s, BuySignal(today, 0))
    ensures HoldsOne(s', Name(0), q) && Trading(s', w, today, Name(0), equity)
            && s'.book.cash == equity - (q + q * 0.001)
  {
    FlatHoldsNothing(s);
    NameHasNoGroup(0);
    BuyIsNext(s, Name(0), 1.0, Noon(today));
    SignalBuys(s, w, today, Name(0), equity, q);
    var s0 := Observed(s, equity, today);
    CoveredBuyPays(s0, Name(0), q, Noon(today));
    FirstBuy(s, s0, s', w, today, equity, q);
  }

  function LossSteps(today: nat, p: real): (steps: seq<Step>)
    ensures AllSignals(steps)
  {
    [BuySignal(today, 0), SellSignal(today, p)]
  }

  lemma LossIsOrdinary(today: nat, p: real)
    requires p > 0.0
    ensures Ordinary(LossSteps(today, p), Noon(today), Noon(today + 1))
  {
  }

  lemma SizeIsLarge(w: Witness, equity: real, q: real)
    requires Works(w) && 9000.0 < equity <= 10000.0 && q == Min(w.limit, equity * 0.1)
    ensures 179.0 <= q <= 1000.0
  {
  }

  lemma HandleLoss(s: Session, today: nat, p: real)
    ensures HandleAll(s, LossSteps(today, p)) == Handle(Handle(s, BuySignal(today, 0)), SellSignal(today, p))
  {
    var steps := LossSteps(today, p);
    assert steps[..1] == [BuySignal(today, 0)] && steps[..1][..0] == [];
    assert HandleAll(s, steps[..1]) == Handle(s, BuySignal(today, 0));
  }

  /** Selling what was bought at noon, five minutes later. */
  lemma LossSale(s: Session, w: Witness, today: nat, q: real, p: real, v: real, start: real, equity: real, cash: real)
    requires HoldsOne(s, Name(0), q) && Trading(s, w, today, Name(0), start) && Works(w) && p > 0.0 && v == q * p
    requires equity == s.book.cash + v && cash == s.book.cash + (v - v * 0.001)
    requires 9000.0 < cash <= 10000.0 && 9000.0 < equity <= start <= 10000.0 && start - equity <= 167.0
    ensures Flat(Handle(s, SellSignal(today, p)), w, today + 1, cash)
  {
    hide *;
    var x, now, s1 := Name(0), Noon(today) + 300.0, Observed(s, equity, today);
    NameHasNoGroup(0);
    FiveMinutesLater(today);
    SellSignalIs(s, today, p);
    SellIsAllowed(s, w, today, x, q, p, v, start, equity, now, s1);
    SellRound(s, w, today, x, q, p, v, start, cash, now, s1, Handle(s, SellSignal(today, p)));
  }

  /** Buying today and selling at a loss five minutes later. */
  lemma LossDay(s: Session, w: Witness, today: nat, equity: real, loss: real) returns (steps: seq<Step>)
    requires Flat(s, w, today, equity) && Works(w) && 9000.0 < equity - loss && equity <= 10000.0
             && 140.0 <= loss <= 167.0
    ensures Ordinary(steps, Noon(today), Noon(today + 1)) && Flat(HandleAll(s, steps), w, today + 1, equity - loss)
  {
    hide *;
    var q := Min(w.limit, equity * 0.1);
    SizeIsLarge(w, equity, q);
    var p := LossPrice(q, loss);
    LossPriceLoses(q, loss, p);
    FeeIsSmall(q, p);
    var s1 := Handle(s, BuySignal(today, 0));
    BuyRound(s, w, today, equity, q, s1);
    var v, held := q * p, s1.book.cash;
    LossAmounts(q, v, equity, loss, held, held + v, held + (v - v * 0.001));
    LossSale(s1, w, today, q, p, v, equity, held + v, held + (v - v * 0.001));
    steps := LossSteps(today, p);
    HandleLoss(s, today, p);
    LossIsOrdinary(today, p);
  }

  lemma NoLosses(s: Session, w: Witness, today: nat, loss: real)
    ensures Ordinary([], Noon(today), Noon(today)) && HandleAll(s, []) == s && w.start + Times(0, loss) == w.start
  {
  }

  /** As many losing days as it takes. */
  lemma {:induction false} LossDays(s: Session, w: Witness, today: nat, left: nat, equity: real, loss: real)
    returns (steps: seq<Step>)
    requires Flat(s, w, today, equity) && Works(w) && equity == w.start + Times(left, loss) && equity <= 10000.0
    requires 140.0 <= loss <= 167.0
    ensures Ordinary(steps, Noon(today), Noon(today + left)) && Flat(HandleAll(s, steps), w, today + left, w.start)
    decreases left
  {
    hide *;
    steps := [];
    if left == 0 {
      NoLosses(s, w, today, loss);
    } else {
      LossesLeft(w, left, equity, loss);
      var first := LossDay(s, w, today, equity, loss);
      var rest := LossDays(HandleAll(s, first), w, today + 1, left - 1, equity - loss, loss);
      OrdinaryJoin(first, rest, Noon(today), Noon(today + 1), Noon(today + left));
      HandleAppend(s, first, rest);
      steps := first + rest;
    }
  }

  lemma LossesLeft(w: Witness, left: nat, equity: real, loss: real)
    requires Works(w) && left > 0 && equity == w.start + Times(left, loss) && loss >= 0.0
    ensures equity - loss == w.start + Times(left - 1, loss) && 9000.0 < equity - loss
  {
    TimesMonotone(0, left - 1, loss, loss);
    TimesNext(left - 1, loss);
  }

  // ---------------------------------------------------------------- buying until the cash runs out

  /** After `k` buys: every one paid between the low and the high size, and its fee. */
  predicate Funds(w: Witness, k: nat, cash: real, equity: real)
  {
    && w.start - 0.001 * Times(k, High(w)) <= equity <= w.start - 0.001 * Times(k, Low(w))
    && cash <= w.start - 1.001 * Times(k, Low(w))
  }

  predicate NoLonger(symbols: set<string>, n: nat) { forall x :: x in symbols ==> |x| <= n }

  /** After `k` buys today, of symbols no longer than `k + 1`. */
  ghost predicate Bought(s: Session, w: Witness, today: nat, k: nat)
  {
    && Sound(s) && !s.barred && s.maxPairs == w.maxPairs && |s.ledger.open| == k
    && NoLonger(s.ledger.open.Keys + s.risk.cooldowns.Keys, k + 1)
    && Calm(s.risk, w, today) && (s.risk.day != Some(today) ==> BookValue(s.book) == w.start)
    && Funds(w, k, s.book.cash, BookValue(s.book))
  }

  lemma SizeInRange(w: Witness, k: nat, cash: real, equity: real, q: real)
    requires Works(w) && k < w.most && Funds(w, k, cash, equity) && q == Min(w.limit, equity * 0.1)
    ensures 9000.0 < equity <= w.start && Low(w) <= q <= High(w)
  {
    TimesMonotone(k, w.most - 1, High(w), High(w));
    TimesMonotone(0, k, Low(w), Low(w));
  }

  /** The last of the buys is more than the cash. */
  lemma LastIsUncovered(w: Witness, k: nat, cash: real, equity: real, q: real)
    requires Works(w) && k + 1 == w.most && Funds(w, k, cash, equity) && q >= Low(w)
    ensures q + q * 0.001 > cash
  {
    TimesNext(k, Low(w));
  }

  lemma FundsNext(w: Witness, k: nat, cash: real, equity: real, q: real)
    requires Funds(w, k, cash, equity) && Low(w) <= q <= High(w)
    ensures Funds(w, k + 1, cash - (q + q * 0.001), equity - q * 0.001)
  {
    TimesNext(k, Low(w));
    TimesNext(k, High(w));
  }

  lemma CalmNext(r: Risk, r0: Risk, w: Witness, today: nat, equity: real, x: string, now: real)
    requires Calm(r, w, today) && (r.day != Some(today) ==> equity == w.start) && SeenToday(r, r0, w, today, equity)
    ensures var r' := RecordTrade(r0, x, now);
            Calm(r', w, today) && r'.day == Some(today) && r'.cooldowns.Keys == r.cooldowns.Keys + {x}
  {
  }

  lemma SymbolsNext(open: set<string>, cooling: set<string>, x: string, n: nat)
    requires NoLonger(open + cooling, n) && |x| == n + 1
    ensures NoLonger((open + {x}) + (cooling + {x}), n + 1) && |open + {x}| == |open| + 1
  {
    assert x !in open;
  }

  lemma BoughtNext(s: Session, s0: Session, s': Session, w: Witness, today: nat, k: nat, x: string, q: real)
    requires Bought(s, w, today, k) && |x| == k + 2 && Low(w) <= q <= High(w)
    requires s0 == s.(risk := s0.risk) && SeenToday(s.risk, s0.risk, w, today, BookValue(s.book))
    requires Sound(s') && PaidFor(s0, s', x, q, Noon(today))
    ensures Bought(s', w, today, k + 1)
  {
    FundsNext(w, k, s.book.cash, BookValue(s.book), q);
    CalmNext(s.risk, s0.risk, w, today, BookValue(s.book), x, Noon(today));
    SymbolsNext(s.ledger.open.Keys, s.risk.cooldowns.Keys, x, k + 1);
    assert |s'.ledger.open| == |s'.ledger.open.Keys| && |s.ledger.open| == |s.ledger.open.Keys|;
  }

  lemma BuysGrow(s: Session, x: string, q: real, now: real)
    requires s.book.feeRate == 0.001
    ensures |EnterPosition(s, x, q, 1.0, now).buys| == |s.buys| + 1
  {
  }

  lemma UncoveredIsNotFilled(s: Session, step: Step)
    requires Sound(s) && Next(s, step).buys != s.buys && step.Signal? && Bill(s, step) > s.book.cash
    ensures !AllFilled(Next(s, step).buys)
  {
    BuyKeepsAgreementIff(s, step);
  }

  lemma NextIsNew(s: Session, w: Witness, today: nat, k: nat, x: string)
    requires Bought(s, w, today, k) && |x| == k + 2
    ensures x !in s.ledger.open && x !in s.risk.cooldowns
  {
  }

  /** Nothing stands against the next buy, and its size is in range. */
  lemma NextIsBuyable(s: Session, w: Witness, today: nat, k: nat, equity: real, q: real, x: string)
    requires Bought(s, w, today, k) && Works(w) && k < w.most && |x| == k + 2 && GroupOf(x) == None
    requires equity == BookValue(s.book) && q == Min(w.limit, equity * 0.1)
    ensures Buyable(s, w, today, x, equity) && 5.0 <= Low(w) <= q <= High(w)
  {
    hide GroupOf;
    SizeInRange(w, k, s.book.cash, equity, q);
    NextIsNew(s, w, today, k, x);
  }

  /** The signal of a buy reaches the engine with this size. */
  lemma BuyReached(s: Session, s0: Session, w: Witness, today: nat, equity: real, q: real, x: string, step: Step)
    requires Buyable(s, w, today, x, equity) && q == Min(w.limit, equity * 0.1) && q >= 5.0
    requires s0 == Observed(s, equity, today) && step == Signal(x, BUY, 1.0, Noon(today))
    ensures Next(s, step) == EnterPosition(s0, x, q, 1.0, Noon(today)) && Bill(s, step) == q + q * 0.001
    ensures SeenToday(s.risk, s0.risk, w, today, equity) && s0 == s.(risk := s0.risk)
  {
    hide Buyable, EnterPosition, Next, SeenToday;
    SignalBuys(s, w, today, x, equity, q);
  }

  /** When the cash covers it, it is paid for and is not the last. */
  lemma BuyPaid(s: Session, s0: Session, w: Witness, today: nat, k: nat, equity: real, q: real, x: string)
    requires Bought(s, w, today, k) && Works(w) && k < w.most && x == Name(k + 1) && x !in s.ledger.open
    requires equity == BookValue(s.book) && s0 == Observed(s, equity, today)
             && SeenToday(s.risk, s0.risk, w, today, equity)
    requires 5.0 <= Low(w) <= q <= High(w) && q + q * 0.001 <= s.book.cash
    ensures k + 1 < w.most && Bought(EnterPosition(s0, x, q, 1.0, Noon(today)), w, today, k + 1)
  {
    hide EnterPosition;
    if k + 1 == w.most {
      LastIsUncovered(w, k, s.book.cash, equity, q);
      assert false;
    }
    CoveredBuyPays(s0, x, q, Noon(today));
    BoughtNext(s, s0, EnterPosition(s0, x, q, 1.0, Noon(today)), w, today, k, x, q);
  }

  /** When it does not, the buy is cut short. */
  lemma BuyShort(s: Session, s0: Session, x: string, q: real, now: real, step: Step)
    requires Sound(s) && step == Signal(x, BUY, 1.0, now) && s0 == s.(risk := s0.risk)
    requires Next(s, step) == EnterPosition(s0, x, q, 1.0, now) && Bill(s, step) > s.book.cash
    ensures !AllFilled(Next(s, step).buys)
  {
    BuysGrow(s0, x, q, now);
    UncoveredIsNotFilled(s, step);
  }

  /** Each buy is either cut short, or paid for and not the last. */
  lemma NextBuy(s: Session, w: Witness, today: nat, k: nat)
    requires Bought(s, w, today, k) && Works(w) && k < w.most
    ensures var s' := Next(s, BuySignal(today, k + 1));
            AllFilled(s'.buys) ==> k + 1 < w.most && Bought(s', w, today, k + 1)
  {
    var x, equity := Name(k + 1), BookValue(s.book);
    var q, s0, step := Min(w.limit, equity * 0.1), Observed(s, equity, today), BuySignal(today, k + 1);
    NameHasNoGroup(k + 1);
    NextIsBuyable(s, w, today, k, equity, q, x);
    BuyReached(s, s0, w, today, equity, q, x, step);
    if q + q * 0.001 <= s.book.cash {
      NextIsNew(s, w, today, k, x);
      BuyPaid(s, s0, w, today, k, equity, q, x);
    } else {
      BuyShort(s, s0, x, q, Noon(today), step);
    }
  }

  /** One BUY signal, at noon. */
  function OneBuy(today: nat, k: nat): (signals: seq<Step>)
    ensures AllSignals(signals)
  {
    [BuySignal(today, k)]
  }

  lemma OneBuyIsOrdinary(today: nat, k: nat)
    ensures Ordinary(OneBuy(today, k), Noon(today), Noon(today))
  {
  }

  lemma OneBuyIsNext(s: Session, today: nat, k: nat)
    requires Name(k) !in s.ledger.open
    ensures HandleAll(s, OneBuy(today, k)) == Next(s, BuySignal(today, k))
  {
    assert OneBuy(today, k)[..0] == [];
    BuyIsNext(s, Name(k), 1.0, Noon(today));
  }

  /** One more buy: either it is cut short or there is another to come. */
  lemma BuyOnce(s: Session, w: Witness, today: nat, k: nat)
    requires Bought(s, w, today, k) && Works(w) && k < w.most
    ensures var s' := HandleAll(s, OneBuy(today, k + 1));
            AllFilled(s'.buys) ==> k + 1 < w.most && Bought(s', w, today, k + 1)
  {
    hide *;
    NameLength(k + 1);
    NextIsNew(s, w, today, k, Name(k + 1));
    OneBuyIsNext(s, today, k + 1);
    NextBuy(s, w, today, k);
  }

  lemma CutByOne(s: Session, today: nat, k: nat)
    requires !AllFilled(HandleAll(s, OneBuy(today, k)).buys)
    ensures CutsShort(s, OneBuy(today, k), Noon(today), Noon(today))
  {
    OneBuyIsOrdinary(today, k);
  }

  lemma CutAfterOne(s: Session, today: nat, k: nat, rest: seq<Step>)
    requires CutsShort(HandleAll(s, OneBuy(today, k)), rest, Noon(today), Noon(today))
    ensures CutsShort(s, OneBuy(today, k) + rest, Noon(today), Noon(today))
  {
    OneBuyIsOrdinary(today, k);
    CutsShortFrom(s, OneBuy(today, k), rest, Noon(today), Noon(today), Noon(today));
  }

  lemma {:induction false} BuyingCutsShort(s: Session, w: Witness, today: nat, k: nat) returns (steps: seq<Step>)
    requires Bought(s, w, today, k) && Works(w) && k < w.most
    ensures CutsShort(s, steps, Noon(today), Noon(today))
    decreases w.most - k
  {
    hide *;
    steps := OneBuy(today, k + 1);
    var s' := HandleAll(s, steps);
    BuyOnce(s, w, today, k);
    if AllFilled(s'.buys) {
      var rest := BuyingCutsShort(s', w, today, k + 1);
      CutAfterOne(s, today, k + 1, rest);
      steps := steps + rest;
    } else {
      CutByOne(s, today, k + 1);
    }
  }

  // ---------------------------------------------------------------- theorems

  lemma LimitIsLarge(most: nat, limit: real)
    requires most <= 50 && Times(most, limit) + 0.001 * limit > 9000.0
    ensures limit >= 179.0
  {
    if limit < 0.0 {
      ProductNonNegative(most as real, -limit);
    } else if limit < 179.0 {
      TimesMonotone(most, 50, limit, 179.0);
    }
  }

  /** Below 900 every buy is at the limit, and the start is chosen just above the line and the fees. */
  lemma SmallWitness(maxPairs: nat, limit: real, most: nat, fees: real, slack: real) returns (w: Witness)
    requires most == MostOpen(maxPairs) && maxPairs >= 10 && limit < 900.0
    requires fees == 0.001 * Times(most - 1, limit) && slack == Times(most, limit) + 0.001 * limit - 9000.0
             && slack > 0.0
    ensures Works(w) && w.maxPairs == maxPairs && w.limit == limit
  {
    LimitIsLarge(most, limit);
    TimesNext(most - 1, limit);
    TimesMonotone(most - 1, 49, limit, 900.0);
    w := Witness(maxPairs, limit, 9000.0 + fees + Min(slack / 2.0, 50.0), most);
    assert Low(w) == High(w) == limit;
  }

  /** From 900 on ten buys are enough. */
  lemma LargeWitness(maxPairs: nat, limit: real) returns (w: Witness)
    requires maxPairs >= 10 && limit >= 900.0
    ensures Works(w) && w.maxPairs == maxPairs && w.limit == limit
  {
    w := Witness(maxPairs, limit, 9008.5, 10);
    assert Low(w) == 900.0 && High(w) <= 900.85;
  }

  /** A session that is not roomy has a witness. */
  lemma WitnessFor(maxPairs: nat, limit: real) returns (w: Witness)
    requires !Roomy(maxPairs, limit)
    ensures Works(w) && w.maxPairs == maxPairs && w.limit == limit
  {
    if limit >= 900.0 {
      w := LargeWitness(maxPairs, limit);
    } else {
      var most := MostOpen(maxPairs);
      w := SmallWitness(maxPairs, limit, most, 0.001 * Times(most - 1, limit),
                        Times(most, limit) + 0.001 * limit - 9000.0);
    }
  }

  /** A week of signals at positive prices is enough to cut a BUY short in a session that is not roomy. */
  lemma CrampedIsCutShort(maxPairs: nat, limit: real) returns (signals: seq<Step>)
    requires !Roomy(maxPairs, limit)
    ensures CutsShort(NewSession(maxPairs, false, limit), signals, Noon(0), Noon(6))
  {
    var w := WitnessFor(maxPairs, limit);
    var s := NewSession(maxPairs, false, limit);
    NewSessionIsSound(maxPairs, false, limit);
    var losses := LossDays(s, w, 0, 6, 10000.0, (10000.0 - w.start) / 6.0);
    var s1 := HandleAll(s, losses);
    FlatHoldsNothing(s1);
    var rest := BuyingCutsShort(s1, w, 6, 0);
    CutsShortFrom(s, losses, rest, Noon(0), Noon(6), Noon(6));
    signals := losses + rest;
  }

  /**
   * No BUY is ever cut short if and only if the session has at most nine pairs, or a limit per position
   * so small that the most positions it can hold and one fee fit into nine tenths of the start balance.
   * Otherwise a week of signals, handled one after the other, cuts one short: no tick, no market status
   * and no guardian is needed.
   */
  lemma FilledInFullIff(maxPairs: nat, limit: real)
    ensures NeverCutShort(maxPairs, limit) <==> Roomy(maxPairs, limit)
    ensures !Roomy(maxPairs, limit) ==>
      exists signals :: CutsShort(NewSession(maxPairs, false, limit), signals, Noon(0), Noon(6))
  {
    if Roomy(maxPairs, limit) {
      forall barred, steps ensures AllFilled(Run(NewSession(maxPairs, barred, limit), steps).buys) {
        EveryRunIsSafe(maxPairs, barred, limit, steps);
      }
    } else {
      var s := NewSession(maxPairs, false, limit);
      var signals := CrampedIsCutShort(maxPairs, limit);
      HandlingIsARun(s, signals);
      var steps :| Run(s, steps) == HandleAll(s, signals);
      assert !AllFilled(Run(s, steps).buys);
    }
  }

  /** Nine pairs are the most that are safe whatever limit the user sets. */
  lemma NineIsTheThreshold(maxPairs: nat)
    ensures (forall limit :: NeverCutShort(maxPairs, limit)) <==> maxPairs <= 9
  {
    if maxPairs <= 9 {
      forall limit ensures NeverCutShort(maxPairs, limit) {
        FilledInFullIff(maxPairs, limit);
      }
    } else {
      FilledInFullIff(maxPairs, 1000.0);
    }
  }

  /** The basic plan is always safe, pro up to a limit of about 899.91, enterprise up to about 179.99. */
  lemma PlanFillsInFullIff(plan: string, limit: real)
    ensures NeverCutShort(GetPlanLimits(plan).maxPairs, limit)
       <==> (plan == "pro" ==> 10.001 * limit <= 9000.0) && (plan == "enterprise" ==> 50.001 * limit <= 9000.0)
  {
    FilledInFullIff(GetPlanLimits(plan).maxPairs, limit);
  }
}
