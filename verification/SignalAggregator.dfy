/** The vote that turns strategy results into one signal, and the laws it obeys. */
module Voting {
  import opened Signals
  import opened Arithmetic

  datatype Vote = Vote(strategy: string, action: Action, confidence: real)

  datatype Weights = Weights(fixed: map<string, real>, dynamic: map<string, real>)

  datatype Decision = Decision(action: Action, confidence: real)

  /** A dynamic weight that is missing or zero falls back to the configured one, and that to 0.15. */
  function BaseWeight(w: Weights, name: string): real
  {
    if name in w.dynamic && w.dynamic[name] != 0.0 then w.dynamic[name]
    else if name in w.fixed then w.fixed[name]
    else 0.15
  }

  /** A vote's weight times its action score: +1 for BUY, -1 for SELL, 0 for HOLD. */
  function Scored(a: Action, weight: real): real
  {
    match a
    case BUY => weight
    case SELL => -weight
    case HOLD => 0.0
  }

  function Product(x: real, y: real): real { x * y }

  function VoteWeight(w: Weights, v: Vote): real { Product(BaseWeight(w, v.strategy), v.confidence) }

  /** The total of a quantity over the votes. */
  ghost function Tally(votes: seq<Vote>, f: Vote -> real): real
  {
    if votes == [] then 0.0 else Tally(votes[..|votes| - 1], f) + f(votes[|votes| - 1])
  }

  function WeightTerm(w: Weights): Vote -> real { (v: Vote) => VoteWeight(w, v) }

  function ScoreTerm(w: Weights): Vote -> real { (v: Vote) => Scored(v.action, VoteWeight(w, v)) }

  function ConfidenceTerm(): Vote -> real { (v: Vote) => v.confidence }

  /** One for a vote of this action at least as confident as the threshold. */
  function StrongTerm(action: Action, threshold: real): Vote -> real
  {
    (v: Vote) => if v.action == action && v.confidence >= threshold then 1.0 else 0.0
  }

  /** The action and confidence for a total score and a total weight. */
  function Decide(score: real, weight: real, threshold: real): Decision
  {
    if weight == 0.0 then Decision(HOLD, 0.0)
    else
      var n := score / weight;
      Decision(if n > threshold then BUY else if n < -threshold then SELL else HOLD,
               Min(Abs(n), 1.0))
  }

  ghost function Weighted(votes: seq<Vote>, w: Weights, threshold: real): Decision
  {
    Decide(Tally(votes, ScoreTerm(w)), Tally(votes, WeightTerm(w)), threshold)
  }

  ghost function Majority(votes: seq<Vote>, threshold: real): Decision
  {
    var buys, sells := Tally(votes, StrongTerm(BUY, threshold)), Tally(votes, StrongTerm(SELL, threshold));
    Decision(if buys > sells then BUY else if sells > buys then SELL else HOLD,
             if votes == [] then 0.0 else Tally(votes, ConfidenceTerm()) / |votes| as real)
  }

  predicate Overrides(v: Vote, threshold: real) { v.action == SELL && v.confidence >= threshold }

  /** The first vote that sells at or above the threshold. */
  function FirstOverride(votes: seq<Vote>, threshold: real): (i: nat)
    ensures i <= |votes| && (i < |votes| ==> Overrides(votes[i], threshold))
    ensures forall k :: 0 <= k < i ==> !Overrides(votes[k], threshold)
  {
    if votes == [] || Overrides(votes[0], threshold) then 0 else 1 + FirstOverride(votes[1..], threshold)
  }

  ghost function Strict(votes: seq<Vote>, w: Weights, threshold: real, actionThreshold: real): Decision
  {
    var i := FirstOverride(votes, threshold);
    if i < |votes| then Decision(SELL, votes[i].confidence) else Weighted(votes, w, actionThreshold)
  }

  datatype Thresholds = Thresholds(confidence: real, action: real, minSignals: int)

  ghost function Aggregate(votes: seq<Vote>, mode: string, w: Weights, t: Thresholds): Decision
  {
    if |votes| < t.minSignals then Decision(HOLD, 0.0)
    else if mode == "strict" then Strict(votes, w, t.confidence, t.action)
    else if mode == "majority" then Majority(votes, t.confidence)
    else Weighted(votes, w, t.action)
  }

  // ---------------------------------------------------------------- laws

  /** Confidences are in [0, 1] and no weight is negative. */
  ghost predicate Sensible(votes: seq<Vote>, w: Weights)
  {
    && (forall v :: v in votes ==> 0.0 <= v.confidence <= 1.0)
    && (forall v :: v in votes ==> BaseWeight(w, v.strategy) >= 0.0)
  }

  lemma {:induction false} ScoreWithinWeight(votes: seq<Vote>, w: Weights)
    requires Sensible(votes, w)
    ensures Abs(Tally(votes, ScoreTerm(w))) <= Tally(votes, WeightTerm(w))
  {
    if votes != [] {
      var v := votes[|votes| - 1];
      ScoreWithinWeight(votes[..|votes| - 1], w);
      ProductNonNegative(BaseWeight(w, v.strategy), v.confidence);
    }
  }

  lemma QuotientBounds(x: real, y: real)
    requires y > 0.0 && Abs(x) <= y
    ensures Abs(x / y) <= 1.0
  {
    QuotientAtMost(x, y, 1.0);
    QuotientAtMost(-x, y, 1.0);
    NegatedQuotient(x, y);
  }

  /**
   * The normalised score is in [-1, 1], so the confidence is its size; an action is more confident than the
   * threshold.
   */
  lemma WeightedConfidence(votes: seq<Vote>, w: Weights, threshold: real)
    requires Sensible(votes, w)
    ensures var d, weight := Weighted(votes, w, threshold), Tally(votes, WeightTerm(w));
            && 0.0 <= d.confidence <= 1.0
            && (weight != 0.0 ==> d.confidence == Abs(Tally(votes, ScoreTerm(w)) / weight))
            && (d.action != HOLD ==> d.confidence > threshold)
  {
    var score, weight := Tally(votes, ScoreTerm(w)), Tally(votes, WeightTerm(w));
    ScoreWithinWeight(votes, w);
    if weight != 0.0 {
      QuotientBounds(score, weight);
    }
  }

  lemma {:induction false} SumSplit(votes: seq<Vote>, i: nat, f: Vote -> real)
    requires i < |votes|
    ensures Tally(votes, f) == Tally(votes[..i] + votes[i + 1..], f) + f(votes[i])
    decreases |votes|
  {
    var n := |votes| - 1;
    if i < n {
      SumSplit(votes[..n], i, f);
      assert (votes[..i] + votes[i + 1..])[..n - 1] == votes[..n][..i] + votes[..n][i + 1..];
    } else {
      assert votes[..i] + votes[i + 1..] == votes[..n];
    }
  }

  lemma RemoveSame(a: seq<Vote>, b: seq<Vote>, i: nat)
    requires multiset(a) == multiset(b) && a != [] && i < |b| && b[i] == a[|a| - 1]
    ensures multiset(a[..|a| - 1]) == multiset(b[..i] + b[i + 1..])
  {
    var n := |a| - 1;
    assert a == a[..n] + [a[n]];
    assert b == b[..i] + [b[i]] + b[i + 1..];
    assert multiset(a[..n]) == multiset(a) - multiset{a[n]};
    assert multiset(b[..i] + b[i + 1..]) == multiset(b) - multiset{b[i]};
  }

  /** Totals do not depend on the order of the votes. */
  lemma {:induction false} SumPermuted(a: seq<Vote>, b: seq<Vote>, f: Vote -> real)
    requires multiset(a) == multiset(b)
    ensures Tally(a, f) == Tally(b, f) && |a| == |b|
    decreases |a|
  {
    assert |a| == |multiset(a)| == |multiset(b)| == |b|;
    if a != [] {
      var n := |a| - 1;
      assert a[n] in multiset(b);
      var i :| 0 <= i < |b| && b[i] == a[n];
      SumSplit(b, i, f);
      RemoveSame(a, b, i);
      SumPermuted(a[..n], b[..i] + b[i + 1..], f);
    }
  }

  lemma OverridePermuted(a: seq<Vote>, b: seq<Vote>, threshold: real)
    requires multiset(a) == multiset(b) && FirstOverride(a, threshold) < |a|
    ensures FirstOverride(b, threshold) < |b|
  {
    var v := a[FirstOverride(a, threshold)];
    assert v in multiset(a);
    assert v in b;
  }

  /** The action never depends on the order of the votes; nor does the confidence, except in strict mode. */
  lemma AggregatePermuted(a: seq<Vote>, b: seq<Vote>, mode: string, w: Weights, t: Thresholds)
    requires multiset(a) == multiset(b)
    ensures Aggregate(a, mode, w, t).action == Aggregate(b, mode, w, t).action
    ensures mode != "strict" ==> Aggregate(a, mode, w, t) == Aggregate(b, mode, w, t)
    ensures OverridesAgree(a, t.confidence) ==> Aggregate(a, mode, w, t) == Aggregate(b, mode, w, t)
  {
    SumPermuted(a, b, ScoreTerm(w));
    SumPermuted(a, b, WeightTerm(w));
    SumPermuted(a, b, ConfidenceTerm());
    SumPermuted(a, b, StrongTerm(BUY, t.confidence));
    SumPermuted(a, b, StrongTerm(SELL, t.confidence));
    if FirstOverride(a, t.confidence) < |a| {
      OverridePermuted(a, b, t.confidence);
      assert b[FirstOverride(b, t.confidence)] in multiset(a);
    } else if FirstOverride(b, t.confidence) < |b| {
      OverridePermuted(b, a, t.confidence);
    }
  }

  /** All votes that force a SELL are equally confident. */
  predicate OverridesAgree(votes: seq<Vote>, threshold: real)
  {
    forall u, v :: u in votes && v in votes && Overrides(u, threshold) && Overrides(v, threshold)
        ==> u.confidence == v.confidence
  }

  ghost predicate OrderIrrelevant(votes: seq<Vote>, mode: string, w: Weights, t: Thresholds)
  {
    forall other :: multiset(other) == multiset(votes) ==> Aggregate(other, mode, w, t) == Aggregate(votes, mode, w, t)
  }

  /** The same votes with the `i`-th moved to the front. */
  function Fronted(votes: seq<Vote>, i: nat): seq<Vote>
    requires i < |votes|
  {
    [votes[i]] + (votes[..i] + votes[i + 1..])
  }

  lemma FrontedSame(votes: seq<Vote>, i: nat)
    requires i < |votes|
    ensures multiset(Fronted(votes, i)) == multiset(votes)
  {
    assert votes == votes[..i] + [votes[i]] + votes[i + 1..];
  }

  /** An overriding vote in front decides alone. */
  lemma FrontDecides(votes: seq<Vote>, i: nat, w: Weights, t: Thresholds)
    requires i < |votes| && |votes| >= t.minSignals && Overrides(votes[i], t.confidence)
    ensures Aggregate(Fronted(votes, i), "strict", w, t) == Decision(SELL, votes[i].confidence)
  {
  }

  /**
   * The order of the votes changes no decision if and only if the mode is not strict, or there are too few
   * votes, or the votes that force a SELL are all equally confident.
   */
  lemma OrderIrrelevantIff(votes: seq<Vote>, mode: string, w: Weights, t: Thresholds)
    ensures OrderIrrelevant(votes, mode, w, t)
       <==> mode != "strict" || |votes| < t.minSignals || OverridesAgree(votes, t.confidence)
  {
    if mode != "strict" || |votes| < t.minSignals || OverridesAgree(votes, t.confidence) {
      forall other | multiset(other) == multiset(votes)
        ensures Aggregate(other, mode, w, t) == Aggregate(votes, mode, w, t)
      {
        AggregatePermuted(votes, other, mode, w, t);
        SumPermuted(votes, other, ConfidenceTerm());
      }
    } else {
      var u, v :| u in votes && v in votes && Overrides(u, t.confidence) && Overrides(v, t.confidence)
          && u.confidence != v.confidence;
      var i :| 0 <= i < |votes| && votes[i] == u;
      var j :| 0 <= j < |votes| && votes[j] == v;
      FrontedSame(votes, i);
      FrontedSame(votes, j);
      FrontDecides(votes, i, w, t);
      FrontDecides(votes, j, w, t);
      assert Aggregate(Fronted(votes, i), mode, w, t) != Aggregate(Fronted(votes, j), mode, w, t);
    }
  }

  function Opposite(a: Action): Action
  {
    match a
    case BUY => SELL
    case SELL => BUY
    case HOLD => HOLD
  }

  function Mirror(votes: seq<Vote>): seq<Vote>
  {
    seq(|votes|, i requires 0 <= i < |votes| => votes[i].(action := Opposite(votes[i].action)))
  }

  lemma {:induction false} SumMirrored(votes: seq<Vote>, f: Vote -> real, g: Vote -> real, sign: real)
    requires sign == 1.0 || sign == -1.0
    requires forall v: Vote :: f(v.(action := Opposite(v.action))) == (if sign == 1.0 then g(v) else -g(v))
    ensures Tally(Mirror(votes), f) == if sign == 1.0 then Tally(votes, g) else -Tally(votes, g)
  {
    if votes != [] {
      var n := |votes| - 1;
      assert Mirror(votes)[..n] == Mirror(votes[..n]);
      SumMirrored(votes[..n], f, g, sign);
    }
  }

  lemma DecideMirrored(score: real, weight: real, threshold: real)
    requires threshold >= 0.0
    ensures var d := Decide(score, weight, threshold);
            Decide(-score, weight, threshold) == Decision(Opposite(d.action), d.confidence)
  {
    if weight != 0.0 {
      NegatedQuotient(score, weight);
    }
  }

  lemma TermsMirrored(w: Weights, v: Vote)
    ensures ScoreTerm(w)(v.(action := Opposite(v.action))) == -ScoreTerm(w)(v)
    ensures WeightTerm(w)(v.(action := Opposite(v.action))) == WeightTerm(w)(v)
  {
  }

  lemma SumsMirrored(votes: seq<Vote>, w: Weights)
    ensures Tally(Mirror(votes), ScoreTerm(w)) == -Tally(votes, ScoreTerm(w))
    ensures Tally(Mirror(votes), WeightTerm(w)) == Tally(votes, WeightTerm(w))
  {
    var f, g := ScoreTerm(w), WeightTerm(w);
    forall v: Vote ensures f(v.(action := Opposite(v.action))) == -f(v) && g(v.(action := Opposite(v.action))) == g(v) {
      TermsMirrored(w, v);
    }
    SumMirrored(votes, f, f, -1.0);
    SumMirrored(votes, g, g, 1.0);
  }

  lemma WeightedMirrored(votes: seq<Vote>, w: Weights, threshold: real)
    requires threshold >= 0.0
    ensures var d := Weighted(votes, w, threshold);
            Weighted(Mirror(votes), w, threshold) == Decision(Opposite(d.action), d.confidence)
  {
    SumsMirrored(votes, w);
    DecideMirrored(Tally(votes, ScoreTerm(w)), Tally(votes, WeightTerm(w)), threshold);
  }

  lemma MajorityMirrored(votes: seq<Vote>, threshold: real)
    ensures var d := Majority(votes, threshold);
            Majority(Mirror(votes), threshold) == Decision(Opposite(d.action), d.confidence)
  {
    SumMirrored(votes, StrongTerm(BUY, threshold), StrongTerm(SELL, threshold), 1.0);
    SumMirrored(votes, StrongTerm(SELL, threshold), StrongTerm(BUY, threshold), 1.0);
    SumMirrored(votes, ConfidenceTerm(), ConfidenceTerm(), 1.0);
  }

  ghost predicate TreatsSidesAlike(threshold: real)
  {
    forall votes, w :: Weighted(Mirror(votes), w, threshold).action == Opposite(Weighted(votes, w, threshold).action)
  }

  /** The weighted vote treats buying and selling alike if and only if its action threshold is not negative. */
  lemma SidesAlikeIff(threshold: real)
    ensures TreatsSidesAlike(threshold) <==> threshold >= 0.0
  {
    if threshold >= 0.0 {
      forall votes, w
        ensures Weighted(Mirror(votes), w, threshold).action == Opposite(Weighted(votes, w, threshold).action)
      {
        WeightedMirrored(votes, w, threshold);
      }
    } else {
      var v := Vote("s", HOLD, 1.0);
      var w := Weights(map[], map[]);
      assert Mirror([v]) == [v];
      assert Tally([v][..0], ScoreTerm(w)) == 0.0 && Tally([v][..0], WeightTerm(w)) == 0.0;
      assert VoteWeight(w, v) == 0.15;
      assert Tally([v], ScoreTerm(w)) == 0.0 && Tally([v], WeightTerm(w)) == 0.15;
      assert Weighted([v], w, threshold).action == BUY;
    }
  }

  lemma MediantGrows(score: real, weight: real, x: real)
    requires weight > 0.0 && x >= 0.0 && score <= weight
    ensures (score + x) / (weight + x) >= score / weight
  {
    var a := score / weight;
    QuotientAtMost(score, weight, 1.0);
    ProductNonNegative(1.0 - a, x);
    assert a * weight == score;
    assert a * (weight + x) == a * weight + a * x;
    QuotientAtLeast(score + x, weight + x, a);
  }

  lemma TallyAppended(votes: seq<Vote>, v: Vote, f: Vote -> real)
    ensures Tally(votes + [v], f) == Tally(votes, f) + f(v)
  {
    assert (votes + [v])[..|votes|] == votes;
  }

  lemma FewerAreSensible(votes: seq<Vote>, v: Vote, w: Weights)
    requires Sensible(votes + [v], w)
    ensures Sensible(votes, w) && VoteWeight(w, v) >= 0.0
  {
    assert v in votes + [v] && forall x :: x in votes ==> x in votes + [v];
    ProductNonNegative(BaseWeight(w, v.strategy), v.confidence);
  }

  /** A BUY vote adds its weight to both totals. */
  lemma BuyAppended(votes: seq<Vote>, v: Vote, w: Weights)
    requires v.action == BUY
    ensures Tally(votes + [v], ScoreTerm(w)) == Tally(votes, ScoreTerm(w)) + VoteWeight(w, v)
    ensures Tally(votes + [v], WeightTerm(w)) == Tally(votes, WeightTerm(w)) + VoteWeight(w, v)
  {
    TallyAppended(votes, v, ScoreTerm(w));
    TallyAppended(votes, v, WeightTerm(w));
  }

  /** One more BUY vote never lowers the score, so a BUY stays a BUY. */
  lemma BuyVoteHelps(votes: seq<Vote>, v: Vote, w: Weights, threshold: real)
    requires Sensible(votes + [v], w) && v.action == BUY && Tally(votes, WeightTerm(w)) > 0.0
    ensures Tally(votes + [v], WeightTerm(w)) > 0.0
    ensures Tally(votes + [v], ScoreTerm(w)) / Tally(votes + [v], WeightTerm(w))
         >= Tally(votes, ScoreTerm(w)) / Tally(votes, WeightTerm(w))
    ensures Weighted(votes, w, threshold).action == BUY ==> Weighted(votes + [v], w, threshold).action == BUY
  {
    hide Tally, VoteWeight, WeightTerm, ScoreTerm, Sensible;
    FewerAreSensible(votes, v, w);
    ScoreWithinWeight(votes, w);
    BuyAppended(votes, v, w);
    MediantGrows(Tally(votes, ScoreTerm(w)), Tally(votes, WeightTerm(w)), VoteWeight(w, v));
  }

  // ---------------------------------------------------------------- what decides

  lemma QuotientAgainst(x: real, y: real, t: real)
    requires y > 0.0
    ensures x / y > t <==> x > t * y
    ensures x / y < t <==> x < t * y
  {
    QuotientTimes(x, y);
    LessTimes(t, x / y, y);
    LessTimes(x / y, t, y);
  }

  /** With positive total weight the vote buys, and sells, exactly when the score passes that share of the weight. */
  lemma WeightedIff(votes: seq<Vote>, w: Weights, threshold: real)
    requires Tally(votes, WeightTerm(w)) > 0.0
    ensures var score, weight := Tally(votes, ScoreTerm(w)), Tally(votes, WeightTerm(w));
            var action := Weighted(votes, w, threshold).action;
            && (action == BUY <==> score > threshold * weight)
            && (threshold >= 0.0 ==> (action == SELL <==> score < -threshold * weight))
            && (action == SELL ==> score < -threshold * weight)
  {
    hide Tally, ScoreTerm, WeightTerm;
    var score, weight := Tally(votes, ScoreTerm(w)), Tally(votes, WeightTerm(w));
    QuotientAgainst(score, weight, threshold);
    QuotientAgainst(score, weight, -threshold);
  }

  /** Without any weight it holds. */
  lemma WeightlessHolds(votes: seq<Vote>, w: Weights, threshold: real)
    requires Tally(votes, WeightTerm(w)) == 0.0
    ensures Weighted(votes, w, threshold) == Decision(HOLD, 0.0)
  {
  }

  /** Every vote has this action, positive confidence and positive weight. */
  ghost predicate Unanimous(votes: seq<Vote>, w: Weights, action: Action)
  {
    && votes != []
    && forall v :: v in votes ==> v.action == action && v.confidence > 0.0 && BaseWeight(w, v.strategy) > 0.0
  }

  lemma {:induction false} UnanimousTally(votes: seq<Vote>, w: Weights, action: Action)
    requires Unanimous(votes, w, action) && action != HOLD
    ensures Tally(votes, WeightTerm(w)) > 0.0
    ensures Tally(votes, ScoreTerm(w))
         == if action == BUY then Tally(votes, WeightTerm(w)) else -Tally(votes, WeightTerm(w))
  {
    var n := |votes| - 1;
    ProductPositive(BaseWeight(w, votes[n].strategy), votes[n].confidence);
    if n > 0 {
      UnanimousTally(votes[..n], w, action);
    }
  }

  /** Votes that all say BUY, or all say SELL, are followed with full confidence, for every threshold below one. */
  lemma UnanimousDecides(votes: seq<Vote>, w: Weights, action: Action, threshold: real)
    requires Unanimous(votes, w, action) && action != HOLD && 0.0 <= threshold < 1.0
    ensures Weighted(votes, w, threshold) == Decision(action, 1.0)
  {
    hide Tally, ScoreTerm, WeightTerm, Unanimous;
    UnanimousTally(votes, w, action);
    QuotientIs(Tally(votes, ScoreTerm(w)), Tally(votes, WeightTerm(w)), if action == BUY then 1.0 else -1.0);
  }

  /** A HOLD vote adds its weight and no score. */
  lemma HoldDilutes(votes: seq<Vote>, v: Vote, w: Weights)
    requires v.action == HOLD
    ensures Tally(votes + [v], ScoreTerm(w)) == Tally(votes, ScoreTerm(w))
    ensures Tally(votes + [v], WeightTerm(w)) == Tally(votes, WeightTerm(w)) + BaseWeight(w, v.strategy) * v.confidence
  {
    TallyAppended(votes, v, ScoreTerm(w));
    TallyAppended(votes, v, WeightTerm(w));
  }

  /** A BUY against a SELL: weight times confidence of the one against that of the other. */
  lemma TwoVotes(buy: Vote, sell: Vote, w: Weights, threshold: real)
    requires buy.action == BUY && sell.action == SELL && threshold >= 0.0
    requires buy.confidence > 0.0 && sell.confidence > 0.0
    requires BaseWeight(w, buy.strategy) > 0.0 && BaseWeight(w, sell.strategy) > 0.0
    ensures var b, s := BaseWeight(w, buy.strategy) * buy.confidence, BaseWeight(w, sell.strategy) * sell.confidence;
            var action := Weighted([buy, sell], w, threshold).action;
            && (action == BUY <==> b - s > threshold * (b + s)) && (action == SELL <==> s - b > threshold * (b + s))
  {
    hide Tally, ScoreTerm, WeightTerm, Weighted, BaseWeight, VoteWeight;
    var b, s := VoteWeight(w, buy), VoteWeight(w, sell);
    VoteWeightIs(w, buy);
    VoteWeightIs(w, sell);
    BothTallies(buy, sell, w);
    WeightedIff([buy, sell], w, threshold);
    NegatedShare(threshold, b + s);
  }

  lemma VoteWeightIs(w: Weights, v: Vote)
    ensures VoteWeight(w, v) == BaseWeight(w, v.strategy) * v.confidence
    ensures v.confidence > 0.0 && BaseWeight(w, v.strategy) > 0.0 ==> VoteWeight(w, v) > 0.0
  {
    if v.confidence > 0.0 && BaseWeight(w, v.strategy) > 0.0 {
      ProductPositive(BaseWeight(w, v.strategy), v.confidence);
    }
  }

  lemma NegatedShare(threshold: real, weight: real)
    ensures -threshold * weight == -(threshold * weight)
  {
  }

  lemma BothTallies(buy: Vote, sell: Vote, w: Weights)
    requires buy.action == BUY && sell.action == SELL
    ensures Tally([buy, sell], ScoreTerm(w)) == VoteWeight(w, buy) - VoteWeight(w, sell)
    ensures Tally([buy, sell], WeightTerm(w)) == VoteWeight(w, buy) + VoteWeight(w, sell)
  {
    hide VoteWeight;
    assert [buy, sell] == [] + [buy] + [sell];
    TallyAppended([], buy, ScoreTerm(w));
    TallyAppended([], buy, WeightTerm(w));
    TallyAppended([] + [buy], sell, ScoreTerm(w));
    TallyAppended([] + [buy], sell, WeightTerm(w));
  }

  /** A dynamic weight other than zero wins, then the configured one; a strategy without either weighs 0.15. */
  lemma WeightUsed(fixed: map<string, real>, dynamic: map<string, real>, name: string)
    ensures name in dynamic && dynamic[name] != 0.0 ==> BaseWeight(Weights(fixed, dynamic), name) == dynamic[name]
    ensures name !in dynamic || dynamic[name] == 0.0 ==>
              BaseWeight(Weights(fixed, dynamic), name)
              == BaseWeight(Weights(map[name := if name in fixed then fixed[name] else 0.15], map[name := 0.0]), name)
              == if name in fixed then fixed[name] else 0.15
  {
  }

  /** The votes of this action at least as confident as the threshold. */
  function Strong(votes: seq<Vote>, action: Action, threshold: real): seq<Vote>
  {
    if votes == [] then [] else
      var v := votes[|votes| - 1];
      Strong(votes[..|votes| - 1], action, threshold)
      + if v.action == action && v.confidence >= threshold then [v] else []
  }

  lemma {:induction false} StrongCount(votes: seq<Vote>, action: Action, threshold: real)
    ensures Tally(votes, StrongTerm(action, threshold)) == |Strong(votes, action, threshold)| as real
  {
    if votes != [] {
      StrongCount(votes[..|votes| - 1], action, threshold);
    }
  }

  /** The majority follows whichever side has more strong votes, and is as confident as all votes are on average. */
  lemma MajorityIff(votes: seq<Vote>, threshold: real)
    ensures var buys, sells := |Strong(votes, BUY, threshold)|, |Strong(votes, SELL, threshold)|;
            var d := Majority(votes, threshold);
            && (d.action == BUY <==> buys > sells) && (d.action == SELL <==> sells > buys)
            && d.confidence * |votes| as real == Tally(votes, ConfidenceTerm())
  {
    hide Tally, StrongTerm, Strong, ConfidenceTerm;
    StrongCount(votes, BUY, threshold);
    StrongCount(votes, SELL, threshold);
    if votes != [] {
      QuotientTimes(Tally(votes, ConfidenceTerm()), |votes| as real);
    } else {
      NoTally(ConfidenceTerm());
    }
  }

  lemma NoTally(f: Vote -> real)
    ensures Tally([], f) == 0.0
  {
  }

  /** Which rule each mode stands for, and what too few votes do in every one. */
  lemma ModesAre(votes: seq<Vote>, mode: string, w: Weights, t: Thresholds)
    ensures |votes| < t.minSignals ==> Aggregate(votes, mode, w, t) == Decision(HOLD, 0.0)
    ensures |votes| >= t.minSignals ==>
      && Aggregate(votes, "majority", w, t) == Majority(votes, t.confidence)
      && (mode !in {"strict", "majority"} ==> Aggregate(votes, mode, w, t) == Weighted(votes, w, t.action))
      && ((exists v :: v in votes && v.action == SELL && v.confidence >= t.confidence)
          ==> Aggregate(votes, "strict", w, t).action == SELL)
      && (!(exists v :: v in votes && v.action == SELL && v.confidence >= t.confidence)
          ==> Aggregate(votes, "strict", w, t) == Weighted(votes, w, t.action))
  {
    var i := FirstOverride(votes, t.confidence);
    if i < |votes| {
      assert Overrides(votes[i], t.confidence);
    }
  }

  /** Every strategy that voted has a nonzero dynamic weight. */
  ghost predicate FullyWeighted(votes: seq<Vote>, dynamic: map<string, real>)
  {
    forall v :: v in votes ==> v.strategy in dynamic && dynamic[v.strategy] != 0.0
  }

  ghost predicate Scaled(dynamic: map<string, real>, scaled: map<string, real>, c: real)
  {
    scaled.Keys == dynamic.Keys && forall k :: k in dynamic ==> scaled[k] == dynamic[k] * c
  }

  lemma ScaledProduct(x: real, y: real, c: real)
    ensures Product(x * c, y) == Product(x, y) * c
  {
  }

  lemma VoteScaled(v: Vote, w: Weights, scaled: map<string, real>, c: real)
    requires c != 0.0 && Scaled(w.dynamic, scaled, c) && v.strategy in w.dynamic && w.dynamic[v.strategy] != 0.0
    ensures VoteWeight(w.(dynamic := scaled), v) == VoteWeight(w, v) * c
  {
    var d := w.dynamic[v.strategy];
    assert scaled[v.strategy] == d * c != 0.0;
    ScaledProduct(d, v.confidence, c);
  }

  lemma {:induction false} SumScaled(votes: seq<Vote>, f: Vote -> real, g: Vote -> real, c: real)
    requires forall v :: v in votes ==> g(v) == f(v) * c
    ensures Tally(votes, g) == Tally(votes, f) * c
  {
    if votes != [] {
      var n := |votes| - 1;
      SumScaled(votes[..n], f, g, c);
      var x, y := Tally(votes[..n], f), f(votes[n]);
      assert (x + y) * c == x * c + y * c;
    }
  }

  lemma CommonFactor(x: real, y: real, c: real)
    requires y != 0.0 && c != 0.0
    ensures y * c != 0.0 && (x * c) / (y * c) == x / y
  {
    assert (x / y) * y == x;
    assert (x / y) * (y * c) == x * c;
  }

  lemma DecideScaled(score: real, weight: real, score': real, weight': real, c: real, threshold: real)
    requires c != 0.0 && score' == score * c && weight' == weight * c
    ensures Decide(score', weight', threshold) == Decide(score, weight, threshold)
  {
    if weight != 0.0 {
      CommonFactor(score, weight, c);
    } else {
      assert weight * c == 0.0;
    }
  }

  lemma SignedScaled(a: Action, x: real, y: real, c: real)
    requires y == x * c
    ensures Scored(a, y) == Scored(a, x) * c
  {
  }

  lemma TermsScaled(v: Vote, w: Weights, w': Weights, c: real)
    requires c != 0.0 && w' == w.(dynamic := w'.dynamic) && Scaled(w.dynamic, w'.dynamic, c)
    requires v.strategy in w.dynamic && w.dynamic[v.strategy] != 0.0
    ensures WeightTerm(w')(v) == WeightTerm(w)(v) * c
    ensures ScoreTerm(w')(v) == ScoreTerm(w)(v) * c
  {
    VoteScaled(v, w, w'.dynamic, c);
    SignedScaled(v.action, VoteWeight(w, v), VoteWeight(w', v), c);
  }

  lemma SumsScaled(votes: seq<Vote>, w: Weights, w': Weights, c: real)
    requires c != 0.0 && w' == w.(dynamic := w'.dynamic)
    requires Scaled(w.dynamic, w'.dynamic, c) && FullyWeighted(votes, w.dynamic)
    ensures Tally(votes, ScoreTerm(w')) == Tally(votes, ScoreTerm(w)) * c
    ensures Tally(votes, WeightTerm(w')) == Tally(votes, WeightTerm(w)) * c
  {
    hide WeightTerm, ScoreTerm, Tally, Scaled;
    var f, f', g, g' := WeightTerm(w), WeightTerm(w'), ScoreTerm(w), ScoreTerm(w');
    forall v | v in votes ensures f'(v) == f(v) * c && g'(v) == g(v) * c {
      TermsScaled(v, w, w', c);
    }
    SumScaled(votes, f, f', c);
    SumScaled(votes, g, g', c);
  }

  /** Scaling all dynamic weights changes no decision. */
  lemma ScalingChangesNothing(votes: seq<Vote>, w: Weights, scaled: map<string, real>, c: real, threshold: real)
    requires c != 0.0 && Scaled(w.dynamic, scaled, c) && FullyWeighted(votes, w.dynamic)
    ensures Weighted(votes, w.(dynamic := scaled), threshold) == Weighted(votes, w, threshold)
  {
    var w' := w.(dynamic := scaled);
    SumsScaled(votes, w, w', c);
    DecideScaled(Tally(votes, ScoreTerm(w)), Tally(votes, WeightTerm(w)),
                 Tally(votes, ScoreTerm(w')), Tally(votes, WeightTerm(w')), c, threshold);
  }

  // ---------------------------------------------------------------- nearly the same weights

  /** Totals of terms that differ by at most a share of the confidence differ by at most that share of its total. */
  lemma {:induction false} SumsClose(votes: seq<Vote>, f: Vote -> real, g: Vote -> real, share: real)
    requires forall v :: v in votes ==> Abs(g(v) - f(v)) <= Product(share, v.confidence)
    ensures Abs(Tally(votes, g) - Tally(votes, f)) <= Product(share, Tally(votes, ConfidenceTerm()))
  {
    if votes != [] {
      var n := |votes| - 1;
      SumsClose(votes[..n], f, g, share);
      ProductOfSum(share, Tally(votes[..n], ConfidenceTerm()), votes[n].confidence);
    }
  }

  /** Terms at least a share of the confidence add up to at least that share of its total. */
  lemma {:induction false} SumsAtLeast(votes: seq<Vote>, f: Vote -> real, share: real)
    requires forall v :: v in votes ==> f(v) >= Product(share, v.confidence)
    ensures Tally(votes, f) >= Product(share, Tally(votes, ConfidenceTerm()))
  {
    if votes != [] {
      var n := |votes| - 1;
      SumsAtLeast(votes[..n], f, share);
      ProductOfSum(share, Tally(votes[..n], ConfidenceTerm()), votes[n].confidence);
    }
  }

  lemma ProductOfSum(a: real, x: real, y: real)
    ensures Product(a, x + y) == Product(a, x) + Product(a, y)
  {
  }

  lemma ProductsClose(b: real, b': real, c: real, share: real)
    requires c >= 0.0 && Abs(b' - b) <= share
    ensures Abs(Product(b', c) - Product(b, c)) <= Product(share, c)
  {
    ProductNonNegative(share - (b' - b), c);
    ProductNonNegative(share + (b' - b), c);
    assert Product(b' - b, c) == Product(b', c) - Product(b, c);
    assert Product(share - (b' - b), c) == Product(share, c) - Product(b' - b, c);
    assert Product(share + (b' - b), c) == Product(share, c) + Product(b' - b, c);
  }

  /** Base weights that differ by at most `share` give terms that differ by at most that share of the confidence. */
  lemma TermsClose(v: Vote, w: Weights, w': Weights, share: real)
    requires v.confidence >= 0.0 && Abs(BaseWeight(w', v.strategy) - BaseWeight(w, v.strategy)) <= share
    ensures Abs(WeightTerm(w')(v) - WeightTerm(w)(v)) <= Product(share, v.confidence)
    ensures Abs(ScoreTerm(w')(v) - ScoreTerm(w)(v)) <= Product(share, v.confidence)
  {
    hide Product;
    ProductsClose(BaseWeight(w, v.strategy), BaseWeight(w', v.strategy), v.confidence, share);
  }

  lemma DifferenceTimes(n: real, n': real, y: real, y': real)
    ensures Product(n' - n, y') == Product(n', y') - Product(n, y) - Product(n, y' - y)
  {
  }

  lemma SmallFactor(n: real, d: real, e: real)
    requires Abs(n) <= 1.0 && Abs(d) <= e
    ensures Abs(Product(n, d)) <= e
  {
    ProductNonNegative(1.0 - n, e - d);
    ProductNonNegative(1.0 + n, e + d);
    ProductNonNegative(1.0 - n, e + d);
    ProductNonNegative(1.0 + n, e - d);
    assert (1.0 - n) * (e - d) + (1.0 + n) * (e + d) == 2.0 * e + 2.0 * (n * d);
    assert (1.0 - n) * (e + d) + (1.0 + n) * (e - d) == 2.0 * e - 2.0 * (n * d);
  }

  lemma AbsProduct(x: real, y: real)
    requires y > 0.0
    ensures Abs(Product(x, y)) == Product(Abs(x), y)
  {
    if x >= 0.0 {
      ProductNonNegative(x, y);
    } else {
      ProductNonNegative(-x, y);
    }
  }

  lemma FactorMoves(n: real, n': real, x: real, y: real, x': real, y': real, e: real)
    requires Product(n, y) == x && Product(n', y') == x' && y' > 0.0
    requires Abs(n) <= 1.0 && Abs(x' - x) <= e && Abs(y' - y) <= e
    ensures Product(Abs(n' - n), y') <= 2.0 * e
  {
    hide Product;
    DifferenceTimes(n, n', y, y');
    SmallFactor(n, y' - y, e);
    AbsProduct(n' - n, y');
  }

  lemma QuotientIsFactor(x: real, y: real)
    requires y != 0.0
    ensures Product(x / y, y) == x
  {
    QuotientTimes(x, y);
  }

  /** A quotient in [-1, 1] whose parts move by at most `e` moves by at most two `e` over the new divisor. */
  lemma QuotientMoves(x: real, y: real, x': real, y': real, e: real)
    requires y > 0.0 && y' > 0.0 && Abs(x) <= y && Abs(x' - x) <= e && Abs(y' - y) <= e
    ensures Product(Abs(x' / y' - x / y), y') <= 2.0 * e
  {
    hide Product;
    QuotientBounds(x, y);
    QuotientIsFactor(x, y);
    QuotientIsFactor(x', y');
    FactorMoves(x / y, x' / y', x, y, x', y', e);
  }

  /** The normalised score keeps more than this distance, times the scale, from both thresholds. */
  predicate FarFrom(score: real, weight: real, threshold: real, scale: real, distance: real)
    requires weight != 0.0
  {
    && Product(Abs(score / weight - threshold), scale) > distance
    && Product(Abs(score / weight + threshold), scale) > distance
  }

  /** A score that moves by less than its distance from the thresholds decides the same. */
  lemma FarDecidesSame(score: real, weight: real, score': real, weight': real, threshold: real, distance: real)
    requires weight > 0.0 && weight' > 0.0 && FarFrom(score, weight, threshold, weight', distance)
    requires Product(Abs(score' / weight' - score / weight), weight') <= distance
    ensures Decide(score', weight', threshold).action == Decide(score, weight, threshold).action
  {
    hide Product;
    SameSide(score / weight, score' / weight', threshold, weight', distance);
    SameSide(score / weight, score' / weight', -threshold, weight', distance);
  }

  lemma SmallerProduct(x: real, y: real, scale: real)
    requires scale > 0.0 && Product(x, scale) < Product(y, scale)
    ensures x < y
  {
    assert (x - y) * scale == x * scale - y * scale;
    if x >= y {
      ProductNonNegative(x - y, scale);
    }
  }

  lemma SameSide(n: real, n': real, t: real, scale: real, distance: real)
    requires scale > 0.0 && Product(Abs(n - t), scale) > distance && Product(Abs(n' - n), scale) <= distance
    ensures (n > t <==> n' > t) && (n < t <==> n' < t)
  {
    hide Product;
    SmallerProduct(Abs(n' - n), Abs(n - t), scale);
  }

  /**
   * Dynamic weights that each move by at most `share`, staying at least that large, shift the normalised score
   * by at most twice the share of the confidences over the new weight; a score farther than that from both
   * thresholds decides the same.
   */
  lemma NearlySameWeights(votes: seq<Vote>, w: Weights, w': Weights, threshold: real, share: real)
    requires share > 0.0 && Sensible(votes, w) && Tally(votes, ConfidenceTerm()) > 0.0
    requires forall v :: v in votes ==>
               && BaseWeight(w, v.strategy) >= share && BaseWeight(w', v.strategy) >= share
               && Abs(BaseWeight(w', v.strategy) - BaseWeight(w, v.strategy)) <= share
    ensures Tally(votes, WeightTerm(w)) > 0.0 && Tally(votes, WeightTerm(w')) > 0.0
    ensures var distance := 2.0 * Product(share, Tally(votes, ConfidenceTerm()));
            FarFrom(Tally(votes, ScoreTerm(w)), Tally(votes, WeightTerm(w)), threshold,
                    Tally(votes, WeightTerm(w')), distance)
            ==> Weighted(votes, w', threshold).action == Weighted(votes, w, threshold).action
  {
    hide Tally, FarFrom, Decide, ScoreTerm;
    var e := Product(share, Tally(votes, ConfidenceTerm()));
    AllTermsClose(votes, w, w', share);
    TotalsPositive(votes, w, share);
    TotalsPositive(votes, w', share);
    ScoreWithinWeight(votes, w);
    var score, weight := Tally(votes, ScoreTerm(w)), Tally(votes, WeightTerm(w));
    var score', weight' := Tally(votes, ScoreTerm(w')), Tally(votes, WeightTerm(w'));
    QuotientMoves(score, weight, score', weight', e);
    if FarFrom(score, weight, threshold, weight', 2.0 * e) {
      FarDecidesSame(score, weight, score', weight', threshold, 2.0 * e);
    }
  }

  lemma AllTermsClose(votes: seq<Vote>, w: Weights, w': Weights, share: real)
    requires Sensible(votes, w)
    requires forall v :: v in votes ==> Abs(BaseWeight(w', v.strategy) - BaseWeight(w, v.strategy)) <= share
    ensures Abs(Tally(votes, ScoreTerm(w')) - Tally(votes, ScoreTerm(w)))
            <= Product(share, Tally(votes, ConfidenceTerm()))
    ensures Abs(Tally(votes, WeightTerm(w')) - Tally(votes, WeightTerm(w)))
            <= Product(share, Tally(votes, ConfidenceTerm()))
  {
    hide WeightTerm, ScoreTerm, BaseWeight, Product, Tally;
    var f, f', g, g' := WeightTerm(w), WeightTerm(w'), ScoreTerm(w), ScoreTerm(w');
    forall v | v in votes
      ensures Abs(f'(v) - f(v)) <= Product(share, v.confidence) && Abs(g'(v) - g(v)) <= Product(share, v.confidence)
    {
      TermsClose(v, w, w', share);
    }
    SumsClose(votes, f, f', share);
    SumsClose(votes, g, g', share);
  }

  lemma TotalsPositive(votes: seq<Vote>, w: Weights, share: real)
    requires share > 0.0 && Tally(votes, ConfidenceTerm()) > 0.0
    requires forall v :: v in votes ==> v.confidence >= 0.0 && BaseWeight(w, v.strategy) >= share
    ensures Tally(votes, WeightTerm(w)) > 0.0
  {
    forall v | v in votes ensures WeightTerm(w)(v) >= Product(share, v.confidence) {
      ProductNonNegative(BaseWeight(w, v.strategy) - share, v.confidence);
    }
    SumsAtLeast(votes, WeightTerm(w), share);
    ProductPositive(share, Tally(votes, ConfidenceTerm()));
  }
}

/** The aggregator as the object it is; every method returns what `Voting` says. */
module SignalAggregators {
  import opened Signals
  import opened Arithmetic
  import opened Voting

  class SignalAggregator {
    const mode: string
    const strategyWeights: map<string, real>
    var dynamicWeights: map<string, real>
    const live: Thresholds
    const paper: Thresholds
    var isPaper: bool

    ghost function Used(): Weights
      reads this
    {
      Weights(strategyWeights, dynamicWeights)
    }

    function Limits(): Thresholds
      reads this
    {
      if isPaper then paper else live
    }

    constructor (mode: string, strategyWeights: map<string, real>, live: Thresholds, paper: Thresholds)
      ensures Used() == Weights(strategyWeights, map[]) && this.mode == mode && this.live == live && this.paper == paper
    {
      this.mode, this.strategyWeights, this.live, this.paper := mode, strategyWeights, live, paper;
      dynamicWeights, isPaper := map[], false;
    }

    method SetDynamicWeights(weights: map<string, real>)
      modifies this
      ensures Used() == Weights(strategyWeights, weights) && isPaper == old(isPaper)
    {
      dynamicWeights := weights;
    }

    method Aggregate(results: seq<Vote>, paperMode: bool) returns (d: Decision)
      modifies this
      ensures isPaper == paperMode && Used() == old(Used())
      ensures d == Voting.Aggregate(results, mode, Used(), if paperMode then paper else live)
    {
      isPaper := paperMode;
      if |results| < Limits().minSignals {
        return Decision(HOLD, 0.0);
      }
      if mode == "strict" {
        d := StrictAggregate(results);
      } else if mode == "majority" {
        d := MajorityAggregate(results);
      } else {
        d := WeightedAggregate(results);
      }
    }

    method StrictAggregate(results: seq<Vote>) returns (d: Decision)
      ensures d == Strict(results, Used(), Limits().confidence, Limits().action)
      ensures (exists v :: v in results && Overrides(v, Limits().confidence))
              ==> d.action == SELL && d.confidence >= Limits().confidence
    {
      for i := 0 to |results|
        invariant forall k :: 0 <= k < i ==> !Overrides(results[k], Limits().confidence)
      {
        if Overrides(results[i], Limits().confidence) {
          assert FirstOverride(results, Limits().confidence) == i;
          return Decision(SELL, results[i].confidence);
        }
      }
      d := WeightedAggregate(results);
    }

    method MajorityAggregate(results: seq<Vote>) returns (d: Decision)
      ensures d == Majority(results, Limits().confidence)
    {
      var buys, sells, total := 0.0, 0.0, 0.0;
      var t := Limits().confidence;
      for i := 0 to |results|
        invariant buys == Tally(results[..i], StrongTerm(BUY, t))
        invariant sells == Tally(results[..i], StrongTerm(SELL, t))
        invariant total == Tally(results[..i], ConfidenceTerm())
      {
        var r := results[i];
        assert results[..i + 1][..i] == results[..i];
        if r.confidence >= t {
          if r.action == BUY {
            buys := buys + 1.0;
          } else if r.action == SELL {
            sells := sells + 1.0;
          }
        }
        total := total + r.confidence;
      }
      assert results[..|results|] == results;
      var action := if buys > sells then BUY else if sells > buys then SELL else HOLD;
      d := Decision(action, if results == [] then 0.0 else total / |results| as real);
    }

    method WeightedAggregate(results: seq<Vote>) returns (d: Decision)
      ensures d == Weighted(results, Used(), Limits().action)
    {
      var totalScore, totalWeight := 0.0, 0.0;
      for i := 0 to |results|
        invariant totalScore == Tally(results[..i], ScoreTerm(Used()))
        invariant totalWeight == Tally(results[..i], WeightTerm(Used()))
      {
        var r := results[i];
        assert results[..i + 1][..i] == results[..i];
        var weight := VoteWeight(Weights(strategyWeights, dynamicWeights), r);
        totalScore := totalScore + Scored(r.action, weight);
        totalWeight := totalWeight + weight;
      }
      assert results[..|results|] == results;
      if totalWeight == 0.0 {
        return Decision(HOLD, 0.0);
      }
      var normalized := totalScore / totalWeight;
      var threshold := Limits().action;
      var action := if normalized > threshold then BUY else if normalized < -threshold then SELL else HOLD;
      d := Decision(action, Min(Abs(normalized), 1.0));
    }
  }
}
