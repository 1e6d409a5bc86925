/**
 * The scorer's stored state as a value, and what every history of votes, price checks, backtest rounds,
 * publications and expiries keeps: counters that never count more correct votes than votes, backtest
 * scores in [0, 1], and published weights that are a distribution up to rounding.
 */
module Scoring {
  import opened Collections
  import opened Signals
  import opened Voting
  import opened Arithmetic
  import opened Blending
  import StrategyBacktest

  // ---------------------------------------------------------------- the stored state

  datatype Accuracy = Accuracy(correct: int, total: int)

  /** A counter is kept per strategy, symbol and timeframe, and one per strategy alone. */
  datatype Key = Local(strategy: string, symbol: string, timeframe: string) | Global(strategy: string)

  datatype Recorded = Recorded(price: real, votes: map<string, Action>)

  /** Remembered votes, accuracy counters, backtest scores, and the weights last published. */
  datatype Board = Board(
    previous: map<(string, string), Recorded>, counters: map<Key, Accuracy>,
    backtests: map<string, real>, weights: map<string, real>)

  /** The configured weights of the enabled strategies, and how the two scores are mixed. */
  datatype Config = Config(base: map<string, real>, mix: Mix)

  /** One strategy on one pair: closes, what the strategy said, and the deviation of the price changes. */
  datatype Trial = Trial(closes: seq<real>, actions: seq<Action>, deviation: real, root: real)

  datatype Event =
    | Votes(symbol: string, timeframe: string, results: seq<Vote>, price: real)
    | PriceCheck(symbol: string, timeframe: string, price: real)
    | BacktestRound(trials: map<string, seq<Trial>>)
    | Expired(votes: set<(string, string)>, keys: set<Key>, names: set<string>, weights: bool)

  // ---------------------------------------------------------------- votes

  /** The votes other than HOLD; a later vote of a strategy replaces an earlier one. */
  function VotesOf(results: seq<Vote>): map<string, Action>
  {
    if results == [] then map[] else
      var before, v := VotesOf(results[..|results| - 1]), results[|results| - 1];
      if v.action == HOLD then before else before[v.strategy := v.action]
  }

  /** The last vote of a strategy other than HOLD stands at `i`. */
  predicate LatestAt(results: seq<Vote>, name: string, i: int)
  {
    && 0 <= i < |results| && results[i].strategy == name && results[i].action != HOLD
    && forall j :: i < j < |results| && results[j].strategy == name ==> results[j].action == HOLD
  }

  /** Remembered are exactly the strategies with a vote other than HOLD, each with the last of them. */
  lemma {:induction false} VotesAreLatest(results: seq<Vote>, name: string)
    ensures name in VotesOf(results) <==> exists v :: v in results && v.strategy == name && v.action != HOLD
    ensures name in VotesOf(results) ==>
      exists i :: LatestAt(results, name, i) && VotesOf(results)[name] == results[i].action
  {
    if results != [] {
      var n := |results| - 1;
      VotesAreLatest(results[..n], name);
      assert results == results[..n] + [results[n]];
      if results[n].strategy == name && results[n].action != HOLD {
        assert LatestAt(results, name, n);
      } else if name in VotesOf(results) {
        var i :| LatestAt(results[..n], name, i) && VotesOf(results[..n])[name] == results[..n][i].action;
        assert LatestAt(results, name, i);
      }
    }
  }

  function AfterVotes(b: Board, symbol: string, timeframe: string, results: seq<Vote>, price: real): Board
  {
    var votes := VotesOf(results);
    if votes == map[] then b else b.(previous := b.previous[(symbol, timeframe) := Recorded(price, votes)])
  }

  // ---------------------------------------------------------------- accuracy

  predicate WellCounted(a: Accuracy) { 0 <= a.correct <= a.total && a.total > 0 }

  /** Which way the price went since the votes were recorded; within a tenth of a percent it went nowhere. */
  function Direction(previous: real, current: real): Option<Action>
    requires previous != 0.0
  {
    var change := (current - previous) / previous;
    if change > 0.001 then Some(BUY) else if change < -0.001 then Some(SELL) else None
  }

  function Counted(counters: map<Key, Accuracy>, k: Key): Accuracy
  {
    if k in counters then counters[k] else Accuracy(0, 0)
  }

  function Bumped(a: Accuracy, right: bool): Accuracy
  {
    Accuracy(a.correct + (if right then 1 else 0), a.total + 1)
  }

  /** The counters that the votes of these strategies touch. */
  predicate Touches(k: Key, names: set<string>, symbol: string, timeframe: string)
  {
    k.strategy in names && (k.Local? ==> k.symbol == symbol && k.timeframe == timeframe)
  }

  function Touched(names: set<string>, symbol: string, timeframe: string): (keys: set<Key>)
    ensures forall k :: k in keys <==> Touches(k, names, symbol, timeframe)
  {
    (set s | s in names :: Local(s, symbol, timeframe)) + (set s | s in names :: Global(s))
  }

  /** A counter after the votes: up by one if touched, and its correct count if the vote called the direction. */
  function After(counters: map<Key, Accuracy>, votes: map<string, Action>, names: set<string>,
                 symbol: string, timeframe: string, right: Action, k: Key): Accuracy
    requires names <= votes.Keys
  {
    if Touches(k, names, symbol, timeframe) then Bumped(Counted(counters, k), votes[k.strategy] == right)
    else Counted(counters, k)
  }

  function Rescored(counters: map<Key, Accuracy>, votes: map<string, Action>, names: set<string>,
                    symbol: string, timeframe: string, right: Action): map<Key, Accuracy>
    requires names <= votes.Keys
  {
    map k | k in counters.Keys + Touched(names, symbol, timeframe) ::
        After(counters, votes, names, symbol, timeframe, right, k)
  }

  lemma OneMoreTouched(names: set<string>, s: string, symbol: string, timeframe: string, k: Key)
    ensures Touches(k, names + {s}, symbol, timeframe)
       <==> Touches(k, names, symbol, timeframe) || k == Local(s, symbol, timeframe) || k == Global(s)
  {
  }

  lemma RescoreOne(counters: map<Key, Accuracy>, votes: map<string, Action>, names: set<string>,
                   symbol: string, timeframe: string, right: Action, s: string)
    requires names <= votes.Keys && s in votes && s !in names
    ensures var before := Rescored(counters, votes, names, symbol, timeframe, right);
            var local, global := Local(s, symbol, timeframe), Global(s);
            Rescored(counters, votes, names + {s}, symbol, timeframe, right)
            == before[local := Bumped(Counted(before, local), votes[s] == right)]
                     [global := Bumped(Counted(before, global), votes[s] == right)]
  {
    var local, global := Local(s, symbol, timeframe), Global(s);
    var before := Rescored(counters, votes, names, symbol, timeframe, right);
    var after := Rescored(counters, votes, names + {s}, symbol, timeframe, right);
    var updated := before[local := Bumped(Counted(before, local), votes[s] == right)]
                         [global := Bumped(Counted(before, global), votes[s] == right)];
    forall k
      ensures k in after <==> k in updated
      ensures k in after ==> after[k] == updated[k]
    {
      OneMoreTouched(names, s, symbol, timeframe, k);
    }
    assert after.Keys == updated.Keys;
  }

  /** No sequence of price checks ever counts more correct votes than votes. */
  lemma RescoringKeepsCounts(counters: map<Key, Accuracy>, votes: map<string, Action>,
                             symbol: string, timeframe: string, right: Action)
    requires forall k :: k in counters ==> WellCounted(counters[k])
    ensures var after := Rescored(counters, votes, votes.Keys, symbol, timeframe, right);
            forall k :: k in after ==> WellCounted(after[k])
  {
  }

  /** What a price check scores: the votes remembered, once, when the price has moved. */
  predicate Scorable(b: Board, key: (string, string), price: real)
  {
    key in b.previous && b.previous[key].price != 0.0 && b.previous[key].votes != map[]
    && Direction(b.previous[key].price, price).Some?
  }

  function AfterCheck(b: Board, symbol: string, timeframe: string, price: real): Board
  {
    var key := (symbol, timeframe);
    if !Scorable(b, key, price) then b
    else
      var votes := b.previous[key].votes;
      b.(previous := b.previous[key := Recorded(0.0, map[])],
         counters := Rescored(b.counters, votes, votes.Keys, symbol, timeframe,
                              Direction(b.previous[key].price, price).value))
  }

  /** A counter after one more vote that was right or wrong. */
  predicate CountedOnceMore(before: map<Key, Accuracy>, after: map<Key, Accuracy>, k: Key, right: bool)
  {
    var c := if right then 1 else 0;
    && k in after
    && after[k] == if k in before then Accuracy(before[k].correct + c, before[k].total + 1) else Accuracy(c, 1)
  }

  /**
   * Votes recorded at a positive price and checked later: if the price has risen by more than a tenth of a percent
   * a BUY was right, if it has fallen by more a SELL was, and otherwise nothing is counted yet. Both counters of
   * the strategy go up by one, no counter of another strategy or pair moves, and the votes are counted only once.
   */
  lemma VotesAreScored(b: Board, symbol: string, timeframe: string, results: seq<Vote>, i: int,
                       price: real, later: real, again: real)
    requires price > 0.0 && 0 <= i < |results| && LatestAt(results, results[i].strategy, i)
    ensures var name, action := results[i].strategy, results[i].action;
            var b1 := AfterVotes(b, symbol, timeframe, results, price);
            var b2 := AfterCheck(b1, symbol, timeframe, later);
            && b1.counters == b.counters
            && (later > 1.001 * price || later < 0.999 * price ==>
                  && var right := action == if later > 1.001 * price then BUY else SELL;
                  && CountedOnceMore(b.counters, b2.counters, Local(name, symbol, timeframe), right)
                  && CountedOnceMore(b.counters, b2.counters, Global(name), right)
                  && AfterCheck(b2, symbol, timeframe, again) == b2)
            && (0.999 * price <= later <= 1.001 * price ==> b2 == b1)
  {
    hide VotesOf, Rescored, Direction;
    var name := results[i].strategy;
    LatestIsVote(results, i);
    DirectionIs(price, later);
    var votes := VotesOf(results);
    assert name in votes && votes != map[];
    var b1 := AfterVotes(b, symbol, timeframe, results, price);
    if later > 1.001 * price || later < 0.999 * price {
      var right := if later > 1.001 * price then BUY else SELL;
      RescoredCounts(b.counters, votes, symbol, timeframe, right, name);
      assert AfterCheck(b1, symbol, timeframe, later).counters
          == Rescored(b.counters, votes, votes.Keys, symbol, timeframe, right);
    }
  }

  lemma LatestIsVote(results: seq<Vote>, i: int)
    requires 0 <= i < |results| && LatestAt(results, results[i].strategy, i)
    ensures results[i].strategy in VotesOf(results) && VotesOf(results)[results[i].strategy] == results[i].action
  {
    hide VotesOf;
    var name := results[i].strategy;
    VotesAreLatest(results, name);
    assert results[i] in results;
    var j :| LatestAt(results, name, j) && VotesOf(results)[name] == results[j].action;
    assert i == j;
  }

  lemma DirectionIs(price: real, later: real)
    requires price > 0.0
    ensures Direction(price, later)
         == if later > 1.001 * price then Some(BUY) else if later < 0.999 * price then Some(SELL) else None
  {
    var change := (later - price) / price;
    QuotientTimes(later - price, price);
    LessTimes(0.001, change, price);
    LessTimes(change, -0.001, price);
  }

  lemma RescoredCounts(counters: map<Key, Accuracy>, votes: map<string, Action>, symbol: string, timeframe: string,
                       right: Action, name: string)
    requires name in votes
    ensures var after := Rescored(counters, votes, votes.Keys, symbol, timeframe, right);
            && CountedOnceMore(counters, after, Local(name, symbol, timeframe), votes[name] == right)
            && CountedOnceMore(counters, after, Global(name), votes[name] == right)
  {
  }

  /** Results that all say HOLD are not recorded, and nothing is checked where nothing is recorded. */
  lemma HoldsAreNotRecorded(b: Board, symbol: string, timeframe: string, results: seq<Vote>, price: real)
    requires forall v :: v in results ==> v.action == HOLD
    ensures AfterVotes(b, symbol, timeframe, results, price) == b
    ensures ((symbol, timeframe) in b.previous ==>
               b.previous[(symbol, timeframe)].votes == map[] || b.previous[(symbol, timeframe)].price == 0.0)
            ==> AfterCheck(b, symbol, timeframe, price) == b
  {
    hide Direction, Rescored;
    forall name ensures name !in VotesOf(results) {
      VotesAreLatest(results, name);
    }
    assert VotesOf(results) == map[];
  }

  /** A check moves no counter of a strategy that did not vote, and no counter of another pair. */
  lemma OthersAreNotScored(b: Board, symbol: string, timeframe: string, price: real, k: Key)
    requires var key := (symbol, timeframe);
             key !in b.previous || k.strategy !in b.previous[key].votes
             || (k.Local? && (k.symbol != symbol || k.timeframe != timeframe))
    ensures var after := AfterCheck(b, symbol, timeframe, price).counters;
            (k in after <==> k in b.counters) && (k in after ==> after[k] == b.counters[k])
  {
    hide Direction;
  }

  // ---------------------------------------------------------------- backtest rounds

  /** A trial without data has no score. */
  function TrialScore(t: Trial): Option<real>
  {
    if t.closes == [] || |t.actions| != |t.closes| || t.root <= 0.0 then None
    else
      var d := StrategyBacktest.Closed(StrategyBacktest.Traded(t.closes, t.actions), t.closes[|t.closes| - 1]);
      Some(StrategyBacktest.ReportOn(d, t.deviation, t.root).composite)
  }

  function Composites(trials: seq<Trial>): seq<real>
  {
    if trials == [] then [] else
      var before, c := Composites(trials[..|trials| - 1]), TrialScore(trials[|trials| - 1]);
      if c.Some? then before + [c.value] else before
  }

  function Average(xs: seq<real>): real
    requires xs != []
  {
    StrategyBacktest.Total(xs) / |xs| as real
  }

  /** A strategy without any scored trial keeps the average it had. */
  function Averaged(backtests: map<string, real>, trials: map<string, seq<Trial>>): map<string, real>
  {
    map n | n in backtests.Keys + trials.Keys && (n in backtests || Composites(trials[n]) != []) ::
      if n in trials && Composites(trials[n]) != [] then Average(Composites(trials[n])) else backtests[n]
  }

  // ---------------------------------------------------------------- publication

  /** The stored averages of the enabled strategies. */
  function BacktestScores(backtests: map<string, real>, base: map<string, real>): map<string, real>
  {
    map n | n in base && n in backtests :: backtests[n]
  }

  /** Correct over total, for the enabled strategies with something counted. */
  function AccuracyScores(counters: map<Key, Accuracy>, base: map<string, real>): map<string, real>
  {
    map n | n in base && Global(n) in counters && counters[Global(n)].total > 0 ::
      counters[Global(n)].correct as real / counters[Global(n)].total as real
  }

  function Loaded(b: Board, base: map<string, real>): Scores
  {
    Scores(base, BacktestScores(b.backtests, base), AccuracyScores(b.counters, base))
  }

  ghost function AfterPublication(b: Board, config: Config): Board
  {
    if config.base == map[] then b else b.(weights := Published(Loaded(b, config.base), config.mix))
  }

  /** A round of backtests ends with a publication. */
  ghost function AfterRound(b: Board, config: Config, trials: map<string, seq<Trial>>): Board
  {
    AfterPublication(b.(backtests := Averaged(b.backtests, trials)), config)
  }

  // ---------------------------------------------------------------- histories

  const EMPTY := Board(map[], map[], map[], map[])

  ghost function Apply(config: Config, b: Board, e: Event): Board
  {
    match e
    case Votes(symbol, timeframe, results, price) => AfterVotes(b, symbol, timeframe, results, price)
    case PriceCheck(symbol, timeframe, price) => AfterCheck(b, symbol, timeframe, price)
    case BacktestRound(trials) => AfterRound(b, config, trials)
    case Expired(votes, keys, names, weights) =>
      Board(b.previous - votes, b.counters - keys, b.backtests - names, if weights then map[] else b.weights)
  }

  ghost function Replay(config: Config, h: seq<Event>): Board
  {
    if h == [] then EMPTY else Apply(config, Replay(config, h[..|h| - 1]), h[|h| - 1])
  }

  /** Each weight in [0, 1], and the sum off by at most 0.00005 per strategy. */
  ghost predicate Distribution(weights: map<string, real>, names: set<string>)
  {
    && weights.Keys == names && InUnit(weights)
    && 1.0 - |names| as real * 0.00005 <= Sum(weights) <= 1.0 + |names| as real * 0.00005
  }

  ghost predicate Sane(config: Config, b: Board)
  {
    && (forall k :: k in b.counters ==> WellCounted(b.counters[k]))
    && InUnit(b.backtests)
    && (b.weights == map[] || Distribution(b.weights, config.base.Keys))
  }

  /** Positive configured weights, and two positive parts to mix the scores with. */
  predicate Proper(config: Config)
  {
    && (forall k :: k in config.base ==> config.base[k] > 0.0)
    && config.mix.backtest > 0.0 && config.mix.accuracy > 0.0
  }

  lemma TrialInUnit(t: Trial)
    ensures TrialScore(t).Some? ==> 0.0 <= TrialScore(t).value <= 1.0
  {
    if t.closes != [] && |t.actions| == |t.closes| && t.root > 0.0 {
      StrategyBacktest.ScoreInUnit(
        StrategyBacktest.Closed(StrategyBacktest.Traded(t.closes, t.actions), t.closes[|t.closes| - 1]),
        t.deviation, t.root);
    }
  }

  lemma {:induction false} CompositesInUnit(trials: seq<Trial>)
    ensures forall i :: 0 <= i < |Composites(trials)| ==> 0.0 <= Composites(trials)[i] <= 1.0
  {
    if trials != [] {
      CompositesInUnit(trials[..|trials| - 1]);
      TrialInUnit(trials[|trials| - 1]);
    }
  }

  lemma {:induction false} TotalInRange(xs: seq<real>)
    requires forall i :: 0 <= i < |xs| ==> 0.0 <= xs[i] <= 1.0
    ensures 0.0 <= StrategyBacktest.Total(xs) <= |xs| as real
  {
    if xs != [] {
      TotalInRange(xs[..|xs| - 1]);
    }
  }

  lemma AverageInUnit(trials: seq<Trial>)
    requires Composites(trials) != []
    ensures 0.0 <= Average(Composites(trials)) <= 1.0
  {
    CompositesInUnit(trials);
    TotalInRange(Composites(trials));
    QuotientInUnit(StrategyBacktest.Total(Composites(trials)), |Composites(trials)| as real);
  }

  lemma AveragedInUnit(backtests: map<string, real>, trials: map<string, seq<Trial>>)
    requires InUnit(backtests)
    ensures InUnit(Averaged(backtests, trials))
  {
    var after := Averaged(backtests, trials);
    forall n | n in after ensures 0.0 <= after[n] <= 1.0 {
      if n in trials && Composites(trials[n]) != [] {
        AverageInUnit(trials[n]);
      }
    }
  }

  /** What is loaded: the stored average, and the share of the counted votes that were right. */
  lemma LoadedIs(b: Board, base: map<string, real>, name: string)
    ensures var s := Loaded(b, base);
            && s.base == base
            && (name in s.backtest <==> name in base && name in b.backtests)
            && (name in s.backtest ==> s.backtest[name] == b.backtests[name])
            && (name in s.accuracy <==>
                  name in base && Global(name) in b.counters && b.counters[Global(name)].total > 0)
            && (name in s.accuracy ==>
                  s.accuracy[name] * b.counters[Global(name)].total as real == b.counters[Global(name)].correct as real)
  {
    if name in base && Global(name) in b.counters && b.counters[Global(name)].total > 0 {
      QuotientTimes(b.counters[Global(name)].correct as real, b.counters[Global(name)].total as real);
    }
  }

  /** After a round a strategy with scored trials has their mean, and any other keeps what it had. */
  lemma RoundStoresMeans(b: Board, config: Config, trials: map<string, seq<Trial>>, name: string, scores: seq<real>)
    requires scores == if name in trials then Composites(trials[name]) else []
    ensures var after := AfterRound(b, config, trials).backtests;
            if scores != [] then name in after && after[name] * |scores| as real == StrategyBacktest.Total(scores)
            else (name in after <==> name in b.backtests) && (name in after ==> after[name] == b.backtests[name])
  {
    hide AfterRound, Averaged, StrategyBacktest.Total;
    RoundKeepsAverages(b, config, trials);
    AveragedAt(b.backtests, trials, name, scores);
    if scores != [] {
      QuotientTimes(StrategyBacktest.Total(scores), |scores| as real);
    }
  }

  lemma RoundKeepsAverages(b: Board, config: Config, trials: map<string, seq<Trial>>)
    ensures AfterRound(b, config, trials).backtests == Averaged(b.backtests, trials)
  {
    hide Published, Loaded, Averaged;
  }

  lemma AveragedAt(backtests: map<string, real>, trials: map<string, seq<Trial>>, name: string, scores: seq<real>)
    requires scores == if name in trials then Composites(trials[name]) else []
    ensures name in Averaged(backtests, trials) <==> scores != [] || name in backtests
    ensures name in Averaged(backtests, trials) ==>
      Averaged(backtests, trials)[name] == if scores != [] then Average(scores) else backtests[name]
  {
    hide Composites, Average;
  }

  lemma AccuracyInUnit(counters: map<Key, Accuracy>, base: map<string, real>)
    requires forall k :: k in counters ==> WellCounted(counters[k])
    ensures InUnit(AccuracyScores(counters, base))
  {
    var accuracy := AccuracyScores(counters, base);
    forall n | n in accuracy ensures 0.0 <= accuracy[n] <= 1.0 {
      QuotientInUnit(counters[Global(n)].correct as real, counters[Global(n)].total as real);
    }
  }

  /** What is loaded from a sane board is fit to be blended. */
  lemma LoadedIsSensible(config: Config, b: Board)
    requires Proper(config) && Sane(config, b) && config.base != map[]
    ensures SensibleScores(Loaded(b, config.base), config.mix)
  {
    hide AccuracyScores;
    AccuracyInUnit(b.counters, config.base);
    AccuracyKeys(b.counters, config.base);
  }

  lemma AccuracyKeys(counters: map<Key, Accuracy>, base: map<string, real>)
    ensures AccuracyScores(counters, base).Keys <= base.Keys
  {
  }

  lemma PublicationKeepsSane(config: Config, b: Board)
    requires Proper(config) && Sane(config, b)
    ensures Sane(config, AfterPublication(b, config))
    ensures config.base != map[] ==> Distribution(AfterPublication(b, config).weights, config.base.Keys)
  {
    if config.base != map[] {
      LoadedIsSensible(config, b);
      PublishedIsDistribution(Loaded(b, config.base), config.mix);
    }
  }

  lemma CheckKeepsSane(config: Config, b: Board, symbol: string, timeframe: string, price: real)
    requires Sane(config, b)
    ensures Sane(config, AfterCheck(b, symbol, timeframe, price))
  {
    var key := (symbol, timeframe);
    if Scorable(b, key, price) {
      RescoringKeepsCounts(b.counters, b.previous[key].votes, symbol, timeframe,
                           Direction(b.previous[key].price, price).value);
    }
  }

  lemma EventKeepsSane(config: Config, b: Board, e: Event)
    requires Proper(config) && Sane(config, b)
    ensures Sane(config, Apply(config, b, e))
  {
    match e
    case Votes(_, _, _, _) =>
    case PriceCheck(symbol, timeframe, price) => CheckKeepsSane(config, b, symbol, timeframe, price);
    case BacktestRound(trials) =>
      AveragedInUnit(b.backtests, trials);
      PublicationKeepsSane(config, b.(backtests := Averaged(b.backtests, trials)));
    case Expired(_, _, _, _) =>
  }

  /**
   * Whatever was voted, checked, backtested and forgotten: no counter counts more correct votes than votes,
   * every stored score is in [0, 1], and the weights published last are a distribution up to rounding.
   */
  lemma {:induction false} EveryHistoryIsSane(config: Config, h: seq<Event>)
    requires Proper(config)
    ensures Sane(config, Replay(config, h))
  {
    if h != [] {
      EveryHistoryIsSane(config, h[..|h| - 1]);
      EventKeepsSane(config, Replay(config, h[..|h| - 1]), h[|h| - 1]);
    }
  }

  /**
   * After any history a publication yields a distribution over the enabled strategies: the total to divide
   * by is positive, and if the parts of the mix add up to one, every factor is in [0, 1].
   */
  lemma PublicationAfterAnyHistory(config: Config, h: seq<Event>)
    requires Proper(config) && config.base != map[]
    ensures Distribution(AfterPublication(Replay(config, h), config).weights, config.base.Keys)
    ensures var s := Loaded(Replay(config, h), config.base);
            && Sum(Raw(s, config.mix)) > 0.0
            && (config.mix.backtest + config.mix.accuracy == 1.0 ==>
                  forall n :: n in config.base ==>
                    0.0 <= Blended(s, n, config.mix, MaxValue(s.backtest), MaxValue(s.accuracy)) <= 1.0)
  {
    hide Sane, Distribution, SensibleScores, Raw, Blended, AfterPublication, Loaded;
    var b := Replay(config, h);
    EveryHistoryIsSane(config, h);
    PublicationKeepsSane(config, b);
    LoadedIsSensible(config, b);
    LoadedBase(b, config.base);
    TotalPositive(Loaded(b, config.base), config.mix);
    forall n | n in config.base
      ensures var f := Blended(Loaded(b, config.base), n, config.mix, MaxValue(Loaded(b, config.base).backtest),
                               MaxValue(Loaded(b, config.base).accuracy));
              0.0 <= f && (config.mix.backtest + config.mix.accuracy == 1.0 ==> f <= 1.0)
    {
      FactorInUnit(Loaded(b, config.base), config.mix, n);
    }
  }

  lemma LoadedBase(b: Board, base: map<string, real>)
    ensures Loaded(b, base).base == base
  {
  }

  /**
   * After any history the published weights decide as the blended ones do, when every strategy that voted has a
   * share above 0.00005 and the normalised score is not closer to a threshold than rounding can move it.
   */
  lemma SignalSurvivesPublication(config: Config, h: seq<Event>, votes: seq<Vote>, fixed: map<string, real>,
                                  threshold: real)
    requires Proper(config) && config.base != map[] && Tally(votes, ConfidenceTerm()) > 0.0
    requires var raw := Raw(Loaded(Replay(config, h), config.base), config.mix);
             forall v :: v in votes ==>
               && 0.0 <= v.confidence <= 1.0 && v.strategy in raw && raw[v.strategy] != 0.0
               && 0.00005 * Sum(raw) < raw[v.strategy]
    ensures var raw := Raw(Loaded(Replay(config, h), config.base), config.mix);
            var published := AfterPublication(Replay(config, h), config).weights;
            && Sum(raw) > 0.0 && Tally(votes, WeightTerm(Shares(raw, Sum(raw), fixed))) > 0.0
            && (FarFrom(Tally(votes, ScoreTerm(Shares(raw, Sum(raw), fixed))),
                        Tally(votes, WeightTerm(Shares(raw, Sum(raw), fixed))), threshold,
                        Tally(votes, WeightTerm(Weights(fixed, published))), 0.0001 * Tally(votes, ConfidenceTerm()))
                ==> Weighted(votes, Weights(fixed, published), threshold).action
                      == Weighted(votes, Weights(fixed, raw), threshold).action)
  {
    hide Sane, SensibleScores, Raw, Loaded, Tally, FarFrom, Weighted, WeightTerm, ScoreTerm, Shares, Published;
    var b := Replay(config, h);
    EveryHistoryIsSane(config, h);
    LoadedIsSensible(config, b);
    PublishedKeepsSignal(Loaded(b, config.base), config.mix, fixed, votes, threshold);
  }
}

/** The scorer as the object it is; `State` is its value. */
module StrategyScorers {
  import opened Collections
  import opened Signals
  import opened Voting
  import opened Blending
  import opened Scoring

  class StrategyScorer {
    const config: Config
    var previous: map<(string, string), Recorded>
    var counters: map<Key, Accuracy>
    var backtests: map<string, real>
    var weights: map<string, real>

    ghost function State(): Board
      reads this
    {
      Board(previous, counters, backtests, weights)
    }

    constructor (config: Config)
      ensures State() == EMPTY && this.config == config
    {
      this.config, previous, counters, backtests, weights := config, map[], map[], map[], map[];
    }

    /** Remembers the votes other than HOLD, when there are any. */
    method RecordVotes(symbol: string, timeframe: string, results: seq<Vote>, price: real)
      modifies this
      ensures State() == AfterVotes(old(State()), symbol, timeframe, results, price)
    {
      var votes: map<string, Action> := map[];
      for i := 0 to |results|
        invariant votes == VotesOf(results[..i])
      {
        assert results[..i + 1][..i] == results[..i];
        if results[i].action != HOLD {
          votes := votes[results[i].strategy := results[i].action];
        }
      }
      assert results[..|results|] == results;
      if votes == map[] {
        return;
      }
      previous := previous[(symbol, timeframe) := Recorded(price, votes)];
    }

    /** Scores the remembered votes against the price move, once: then they are forgotten. */
    method CheckAccuracy(symbol: string, timeframe: string, price: real)
      modifies this
      ensures State() == AfterCheck(old(State()), symbol, timeframe, price)
    {
      var key := (symbol, timeframe);
      if key !in previous || previous[key].price == 0.0 || previous[key].votes == map[] {
        return;
      }
      var direction := Direction(previous[key].price, price);
      if direction == None {
        return;
      }
      Count(symbol, timeframe, previous[key].votes, direction.value);
      previous := previous[key := Recorded(0.0, map[])];
    }

    /** Both counters of each strategy go up by one, and its correct count if it called the direction. */
    method Count(symbol: string, timeframe: string, votes: map<string, Action>, direction: Action)
      modifies this`counters
      ensures counters == Rescored(old(counters), votes, votes.Keys, symbol, timeframe, direction)
    {
      var todo := votes.Keys;
      assert Rescored(counters, votes, {}, symbol, timeframe, direction) == counters;
      while todo != {}
        invariant todo <= votes.Keys
        invariant counters == Rescored(old(counters), votes, votes.Keys - todo, symbol, timeframe, direction)
        decreases todo
      {
        var s :| s in todo;
        RescoreOne(old(counters), votes, votes.Keys - todo, symbol, timeframe, direction, s);
        assert votes.Keys - (todo - {s}) == votes.Keys - todo + {s};
        todo := todo - {s};
        var right := votes[s] == direction;
        var local, global := Local(s, symbol, timeframe), Global(s);
        counters := counters[local := Bumped(Counted(counters, local), right)];
        counters := counters[global := Bumped(Counted(counters, global), right)];
      }
      assert votes.Keys - {} == votes.Keys;
    }

    /** Backtests every strategy on its trials, stores the averages, and publishes. */
    method RunBacktestScores(trials: map<string, seq<Trial>>)
      modifies this
      ensures State() == AfterRound(old(State()), config, trials)
    {
      var todo := trials.Keys;
      ghost var after := Averaged(backtests, trials);
      while todo != {}
        invariant todo <= trials.Keys && previous == old(previous) && counters == old(counters)
                  && weights == old(weights)
        invariant forall n :: n in backtests <==> n in after && (n in old(backtests) || n !in todo)
        invariant forall n :: n in backtests ==> backtests[n] == if n in todo then old(backtests)[n] else after[n]
        decreases todo
      {
        var name :| name in todo;
        todo := todo - {name};
        var scores := ScoreTrials(trials[name]);
        if scores != [] {
          var average := AverageOf(scores);
          backtests := backtests[name := average];
        }
      }
      assert backtests == after;
      BlendAndPublish();
    }

    static method ScoreTrials(trials: seq<Trial>) returns (scores: seq<real>)
      ensures scores == Composites(trials)
    {
      scores := [];
      for i := 0 to |trials|
        invariant scores == Composites(trials[..i])
      {
        var t := trials[i];
        assert trials[..i + 1][..i] == trials[..i];
        if t.closes != [] && |t.actions| == |t.closes| && t.root > 0.0 {
          var report, wins, losses := StrategyBacktest.BacktestStrategy(t.closes, t.actions, t.deviation, t.root);
          scores := scores + [report.composite];
        }
      }
      assert trials[..|trials|] == trials;
    }

    static method AverageOf(scores: seq<real>) returns (average: real)
      requires scores != []
      ensures average == Average(scores)
    {
      var total := 0.0;
      for i := 0 to |scores|
        invariant total == StrategyBacktest.Total(scores[..i])
      {
        assert scores[..i + 1][..i] == scores[..i];
        total := total + scores[i];
      }
      assert scores[..|scores|] == scores;
      average := total / |scores| as real;
    }

    /** Reads the stored averages, strategy by strategy. */
    method LoadBacktests() returns (found: map<string, real>)
      ensures found == BacktestScores(backtests, config.base)
    {
      found := map[];
      var todo := config.base.Keys;
      while todo != {}
        invariant todo <= config.base.Keys && found.Keys == config.base.Keys * backtests.Keys - todo
        invariant forall n :: n in found ==> found[n] == backtests[n]
        decreases todo
      {
        var name :| name in todo;
        todo := todo - {name};
        if name in backtests {
          found := found[name := backtests[name]];
        }
      }
      assert found == BacktestScores(backtests, config.base);
    }

    /** Reads the counters, strategy by strategy. */
    method LoadAccuracy() returns (found: map<string, real>)
      ensures found == AccuracyScores(counters, config.base)
    {
      found := map[];
      var todo := config.base.Keys;
      ghost var all := AccuracyScores(counters, config.base);
      while todo != {}
        invariant todo <= config.base.Keys && found.Keys == all.Keys - todo
        invariant forall n :: n in found ==> found[n] == all[n]
        decreases todo
      {
        var name :| name in todo;
        todo := todo - {name};
        if Global(name) in counters {
          var a := counters[Global(name)];
          if a.total > 0 {
            found := found[name := a.correct as real / a.total as real];
          }
        }
      }
      assert found == all;
    }

    /** Without any enabled strategy nothing is published. */
    method BlendAndPublish()
      modifies this`weights
      ensures State() == AfterPublication(old(State()), config)
    {
      if config.base == map[] {
        return;
      }
      hide AccuracyScores, BacktestScores, Published;
      var found := LoadBacktests();
      var accuracy := LoadAccuracy();
      weights := Blend(Scores(config.base, found, accuracy), config.mix);
    }
  }
}
