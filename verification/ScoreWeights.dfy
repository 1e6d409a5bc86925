/** How accuracy and backtest scores are blended into published strategy weights. */
module Blending {
  import opened Collections
  import opened Voting
  import opened Arithmetic

  /** What the blend reads: configured weights of the enabled strategies, and the scores found for them. */
  datatype Scores = Scores(base: map<string, real>, backtest: map<string, real>, accuracy: map<string, real>)

  datatype Mix = Mix(backtest: real, accuracy: real)

  /** The largest value, or 1 when there is none. */
  ghost function MaxValue(m: map<string, real>): real
    decreases |m|
  {
    if m == map[] then 1.0 else
      var k := Pick(m);
      if |m| == 1 then m[k] else
        var rest := MaxValue(m - {k});
        if m[k] > rest then m[k] else rest
  }

  function Relative(score: real, max: real): real { if max > 0.0 then score / max else 0.5 }

  /** The factor a strategy's configured weight is multiplied by. */
  function Blended(s: Scores, name: string, mix: Mix, maxBacktest: real, maxAccuracy: real): real
  {
    if name in s.backtest && name in s.accuracy then
      Product(mix.backtest, Relative(s.backtest[name], maxBacktest))
      + Product(mix.accuracy, Relative(s.accuracy[name], maxAccuracy))
    else if name in s.backtest then Relative(s.backtest[name], maxBacktest)
    else if name in s.accuracy then Relative(s.accuracy[name], maxAccuracy)
    else 1.0
  }

  ghost function Raw(s: Scores, mix: Mix): map<string, real>
  {
    map n | n in s.base :: Product(s.base[n], Blended(s, n, mix, MaxValue(s.backtest), MaxValue(s.accuracy)))
  }

  function Quotients(m: map<string, real>, total: real): map<string, real>
    requires total != 0.0
  {
    map n | n in m :: m[n] / total
  }

  function Rounded(m: map<string, real>): map<string, real> { map n | n in m :: Round4(m[n]) }

  ghost function Published(s: Scores, mix: Mix): map<string, real>
  {
    var raw := Raw(s, mix);
    if Sum(raw) > 0.0 then Rounded(Quotients(raw, Sum(raw))) else raw
  }

  // ---------------------------------------------------------------- laws of the blend

  predicate InUnit(m: map<string, real>) { forall k :: k in m ==> 0.0 <= m[k] <= 1.0 }

  ghost predicate SensibleScores(s: Scores, mix: Mix)
  {
    && s.base != map[] && (forall k :: k in s.base ==> s.base[k] > 0.0)
    && s.backtest.Keys <= s.base.Keys && s.accuracy.Keys <= s.base.Keys
    && InUnit(s.backtest) && InUnit(s.accuracy)
    && mix.backtest > 0.0 && mix.accuracy > 0.0
  }

  lemma {:induction false} MaxIsMax(m: map<string, real>)
    requires m != map[]
    ensures forall k :: k in m ==> m[k] <= MaxValue(m)
    ensures exists k :: k in m && m[k] == MaxValue(m)
    decreases |m|
  {
    var k := Pick(m);
    var rest := m - {k};
    if |m| == 1 {
      assert m.Keys == {k} by {
        assert m.Keys - {k} == {} by {
          assert |m.Keys - {k}| == 0;
        }
      }
    } else {
      assert |rest.Keys| == |m.Keys| - 1;
      MaxIsMax(rest);
      assert forall j :: j in m ==> j == k || j in rest;
      var j :| j in rest && rest[j] == MaxValue(rest);
      assert m[j] == rest[j];
    }
  }

  lemma RelativeInUnit(score: real, max: real)
    requires 0.0 <= score <= 1.0 && (max > 0.0 ==> score <= max)
    ensures 0.0 <= Relative(score, max) <= 1.0
    ensures score == max ==> Relative(score, max) >= 0.5
  {
    if max > 0.0 {
      assert (score / max) * max == score;
    }
  }

  lemma PartOf(a: real, x: real)
    requires a > 0.0 && 0.0 <= x <= 1.0
    ensures 0.0 <= Product(a, x) <= a && (x > 0.0 ==> Product(a, x) > 0.0)
  {
    PositiveProduct(a, x);
    PositiveProduct(a, 1.0 - x);
    assert Product(a, 1.0 - x) == a - Product(a, x);
  }

  lemma MixNonNegative(a: real, x: real, b: real, y: real)
    requires a > 0.0 && b > 0.0 && 0.0 <= x <= 1.0 && 0.0 <= y <= 1.0
    ensures 0.0 <= Product(a, x) + Product(b, y) <= a + b
    ensures x > 0.0 || y > 0.0 ==> Product(a, x) + Product(b, y) > 0.0
  {
    PartOf(a, x);
    PartOf(b, y);
  }

  lemma MaxOrAbsent(m: map<string, real>, name: string)
    requires InUnit(m) && name in m
    ensures 0.0 <= Relative(m[name], MaxValue(m)) <= 1.0
    ensures m[name] == MaxValue(m) ==> Relative(m[name], MaxValue(m)) >= 0.5
  {
    MaxIsMax(m);
    RelativeInUnit(m[name], MaxValue(m));
  }

  /** No factor is negative, and with parts that add up to one every factor is in [0, 1]. */
  lemma FactorInUnit(s: Scores, mix: Mix, name: string)
    requires SensibleScores(s, mix) && name in s.base
    ensures Blended(s, name, mix, MaxValue(s.backtest), MaxValue(s.accuracy)) >= 0.0
    ensures mix.backtest + mix.accuracy == 1.0 ==>
      Blended(s, name, mix, MaxValue(s.backtest), MaxValue(s.accuracy)) <= 1.0
  {
    if name in s.backtest {
      MaxOrAbsent(s.backtest, name);
    }
    if name in s.accuracy {
      MaxOrAbsent(s.accuracy, name);
    }
    if name in s.backtest && name in s.accuracy {
      MixNonNegative(mix.backtest, Relative(s.backtest[name], MaxValue(s.backtest)),
                     mix.accuracy, Relative(s.accuracy[name], MaxValue(s.accuracy)));
    }
  }

  /** Some strategy keeps a positive factor: the best backtested one, else the most accurate one, else any. */
  lemma SomeFactorPositive(s: Scores, mix: Mix) returns (name: string)
    requires SensibleScores(s, mix)
    ensures name in s.base && Blended(s, name, mix, MaxValue(s.backtest), MaxValue(s.accuracy)) > 0.0
  {
    if s.backtest != map[] {
      MaxIsMax(s.backtest);
      name :| name in s.backtest && s.backtest[name] == MaxValue(s.backtest);
      MaxOrAbsent(s.backtest, name);
      if name in s.accuracy {
        MaxOrAbsent(s.accuracy, name);
        MixNonNegative(mix.backtest, Relative(s.backtest[name], MaxValue(s.backtest)),
                       mix.accuracy, Relative(s.accuracy[name], MaxValue(s.accuracy)));
      }
    } else if s.accuracy != map[] {
      MaxIsMax(s.accuracy);
      name :| name in s.accuracy && s.accuracy[name] == MaxValue(s.accuracy);
      MaxOrAbsent(s.accuracy, name);
    } else {
      name := Pick(s.base);
    }
  }

  // ---------------------------------------------------------------- what each score is worth

  /** The largest value of a dictionary. */
  ghost predicate Largest(max: real, m: map<string, real>)
  {
    (forall k :: k in m ==> m[k] <= max) && exists k :: k in m && m[k] == max
  }

  lemma LargestIs(max: real, m: map<string, real>)
    requires Largest(max, m)
    ensures m != map[] && MaxValue(m) == max
  {
    MaxIsMax(m);
  }

  /** `r` is the score's share of the largest one, and one half when that is not positive. */
  ghost predicate ShareOfLargest(r: real, m: map<string, real>, name: string)
    requires name in m
  {
    exists max :: Largest(max, m) && if max > 0.0 then r * max == m[name] else r == 0.5
  }

  lemma ShareIs(r: real, m: map<string, real>, name: string)
    requires name in m && ShareOfLargest(r, m, name)
    ensures Relative(m[name], MaxValue(m)) == r
  {
    var max :| Largest(max, m) && if max > 0.0 then r * max == m[name] else r == 0.5;
    LargestIs(max, m);
    if max > 0.0 {
      QuotientIs(m[name], max, r);
    }
  }

  /**
   * Before it is normalised, a configured weight is multiplied by the mix of the two shares, each with its own part;
   * by the one share there is; or by nothing.
   */
  lemma RawIs(s: Scores, mix: Mix, name: string, backtested: real, accurate: real)
    requires name in s.base
    requires name in s.backtest ==> ShareOfLargest(backtested, s.backtest, name)
    requires name in s.accuracy ==> ShareOfLargest(accurate, s.accuracy, name)
    ensures name in Raw(s, mix)
    ensures Raw(s, mix)[name] == s.base[name] * (
              if name in s.backtest && name in s.accuracy then mix.backtest * backtested + mix.accuracy * accurate
              else if name in s.backtest then backtested
              else if name in s.accuracy then accurate else 1.0)
  {
    hide ShareOfLargest, Relative;
    if name in s.backtest {
      ShareIs(backtested, s.backtest, name);
    }
    if name in s.accuracy {
      ShareIs(accurate, s.accuracy, name);
    }
  }

  /**
   * The best backtested strategy, never right so far, keeps the backtest's part of its weight; the most accurate
   * one, with the backtest score zero, keeps the accuracy's part.
   */
  lemma ExtremesKeepTheirPart(s: Scores, mix: Mix, name: string, best: real)
    requires SensibleScores(s, mix) && name in s.backtest && name in s.accuracy && best > 0.0
    ensures Largest(s.backtest[name], s.backtest) && s.backtest[name] > 0.0 && s.accuracy[name] == 0.0
            && Largest(best, s.accuracy)
            ==> Raw(s, mix)[name] == s.base[name] * mix.backtest
    ensures Largest(s.accuracy[name], s.accuracy) && s.accuracy[name] > 0.0 && s.backtest[name] == 0.0
            && Largest(best, s.backtest)
            ==> Raw(s, mix)[name] == s.base[name] * mix.accuracy
  {
    hide Largest, Raw;
    if Largest(s.backtest[name], s.backtest) && s.backtest[name] > 0.0 && s.accuracy[name] == 0.0
       && Largest(best, s.accuracy) {
      assert 1.0 * s.backtest[name] == s.backtest[name] && 0.0 * best == s.accuracy[name];
      RawIs(s, mix, name, 1.0, 0.0);
    }
    if Largest(s.accuracy[name], s.accuracy) && s.accuracy[name] > 0.0 && s.backtest[name] == 0.0
       && Largest(best, s.backtest) {
      assert 1.0 * s.accuracy[name] == s.accuracy[name] && 0.0 * best == s.backtest[name];
      RawIs(s, mix, name, 0.0, 1.0);
    }
  }

  lemma RelativeOrdered(x: real, y: real, max: real)
    requires x <= y
    ensures Relative(x, max) <= Relative(y, max)
    ensures x < y && max > 0.0 ==> Relative(x, max) < Relative(y, max)
  {
    if max > 0.0 {
      QuotientTimes(x, max);
      QuotientTimes(y, max);
      LessTimes(y / max, x / max, max);
      LessTimes(x / max, y / max, max);
    }
  }

  lemma MixOrdered(base: real, b: real, x: real, x': real, a: real, y: real, y': real)
    requires base > 0.0 && a > 0.0 && b > 0.0 && x <= x' && y <= y'
    ensures Product(base, Product(b, x) + Product(a, y)) <= Product(base, Product(b, x') + Product(a, y'))
    ensures x < x' || y < y' ==>
              Product(base, Product(b, x) + Product(a, y)) < Product(base, Product(b, x') + Product(a, y'))
  {
    hide Product;
    ProductOrdered(b, x, x');
    ProductOrdered(a, y, y');
    ProductOrdered(base, Product(b, x) + Product(a, y), Product(b, x') + Product(a, y'));
  }

  lemma ProductOrdered(c: real, x: real, y: real)
    requires c > 0.0
    ensures x <= y ==> Product(c, x) <= Product(c, y)
    ensures x < y ==> Product(c, x) < Product(c, y)
  {
    if x <= y {
      PositiveProduct(c, y - x);
    }
  }

  /** Of two strategies with the same configured weight, the one with no lower score in either has no lower weight. */
  lemma BetterScoresWeighMore(s: Scores, mix: Mix, a: string, b: string)
    requires SensibleScores(s, mix) && {a, b} <= s.backtest.Keys * s.accuracy.Keys
    requires s.base[a] == s.base[b] && s.backtest[a] <= s.backtest[b] && s.accuracy[a] <= s.accuracy[b]
    ensures Raw(s, mix)[a] <= Raw(s, mix)[b]
    ensures s.backtest[a] < s.backtest[b] || s.accuracy[a] < s.accuracy[b] ==> Raw(s, mix)[a] < Raw(s, mix)[b]
  {
    assert a in s.backtest && b in s.backtest && a in s.accuracy && b in s.accuracy;
    var maxB, maxA := MaxValue(s.backtest), MaxValue(s.accuracy);
    MaxIsMax(s.backtest);
    MaxIsMax(s.accuracy);
    hide Relative, Product;
    RelativeOrdered(s.backtest[a], s.backtest[b], maxB);
    RelativeOrdered(s.accuracy[a], s.accuracy[b], maxA);
    MixOrdered(s.base[a], mix.backtest, Relative(s.backtest[a], maxB), Relative(s.backtest[b], maxB),
               mix.accuracy, Relative(s.accuracy[a], maxA), Relative(s.accuracy[b], maxA));
  }

  lemma MirroredOrder(base: real, b: real, a: real, x: real, y: real)
    requires base > 0.0 && x > y
    ensures base * (b * x + a * y) > base * (b * y + a * x) <==> b > a
  {
    assert (b * x + a * y) - (b * y + a * x) == (b - a) * (x - y);
    var u, v := b * x + a * y, b * y + a * x;
    LessTimes(v, u, base);
    if b > a {
      ProductPositive(b - a, x - y);
    } else {
      ProductNonNegative(a - b, x - y);
      assert (a - b) * (x - y) == v - u;
    }
  }

  /**
   * Two strategies with the same configured weight and each other's shares: the better backtested one weighs more
   * if and only if the backtest's part of the mix is the larger.
   */
  lemma MirroredFollowTheMix(s: Scores, mix: Mix, a: string, b: string, high: real, low: real)
    requires SensibleScores(s, mix) && {a, b} <= s.backtest.Keys * s.accuracy.Keys && s.base[a] == s.base[b]
    requires high > low && ShareOfLargest(high, s.backtest, a) && ShareOfLargest(low, s.backtest, b)
    requires ShareOfLargest(low, s.accuracy, a) && ShareOfLargest(high, s.accuracy, b)
    ensures Raw(s, mix)[a] > Raw(s, mix)[b] <==> mix.backtest > mix.accuracy
  {
    hide Raw, ShareOfLargest;
    assert a in s.backtest && b in s.backtest && a in s.accuracy && b in s.accuracy;
    RawIs(s, mix, a, high, low);
    RawIs(s, mix, b, low, high);
    MirroredOrder(s.base[a], mix.backtest, mix.accuracy, high, low);
  }

  lemma PositiveProduct(x: real, y: real)
    requires x > 0.0
    ensures y >= 0.0 ==> Product(x, y) >= 0.0
    ensures y > 0.0 ==> Product(x, y) > 0.0
  {
  }

  lemma {:induction false} SumAtLeast(m: map<string, real>, k: string)
    requires k in m && forall j :: j in m ==> m[j] >= 0.0
    ensures Sum(m) >= m[k] >= 0.0
  {
    SumRemove(m, k);
    SumNonNegative(m - {k});
  }

  lemma {:induction false} SumNonNegative(m: map<string, real>)
    requires forall j :: j in m ==> m[j] >= 0.0
    ensures Sum(m) >= 0.0
    decreases |m|
  {
    if m != map[] {
      SumNonNegative(m - {Pick(m)});
    }
  }

  lemma TotalPositive(s: Scores, mix: Mix)
    requires SensibleScores(s, mix)
    ensures Sum(Raw(s, mix)) > 0.0 && forall k :: k in s.base ==> 0.0 <= Raw(s, mix)[k] <= Sum(Raw(s, mix))
  {
    var raw := Raw(s, mix);
    forall k | k in raw ensures raw[k] >= 0.0 {
      FactorInUnit(s, mix, k);
      PositiveProduct(s.base[k], Blended(s, k, mix, MaxValue(s.backtest), MaxValue(s.accuracy)));
    }
    var best := SomeFactorPositive(s, mix);
    PositiveProduct(s.base[best], Blended(s, best, mix, MaxValue(s.backtest), MaxValue(s.accuracy)));
    SumAtLeast(raw, best);
    forall k | k in raw ensures raw[k] <= Sum(raw) {
      SumAtLeast(raw, k);
    }
  }

  lemma QuotientOfSum(x: real, y: real, t: real)
    requires t > 0.0
    ensures (x + y) / t == x / t + y / t
  {
    var a, b := x / t, y / t;
    assert a * t == x && b * t == y;
    assert (a + b) * t == a * t + b * t;
    QuotientIs(x + y, t, a + b);
  }

  lemma QuotientAsProduct(x: real, t: real)
    requires t > 0.0
    ensures x / t == x * (1.0 / t)
  {
    var c := 1.0 / t;
    assert c * t == 1.0;
    assert (x * c) * t == x * (c * t);
    QuotientIs(x, t, x * c);
  }

  lemma {:induction false} SumOfQuotients(m: map<string, real>, total: real)
    requires total > 0.0
    ensures Sum(Quotients(m, total)) == Sum(m) / total
    decreases |m|
  {
    if m != map[] {
      var k := Pick(m);
      SumOfQuotients(m - {k}, total);
      SumRemove(Quotients(m, total), k);
      assert Quotients(m, total) - {k} == Quotients(m - {k}, total);
      QuotientOfSum(m[k], Sum(m - {k}), total);
    } else {
      assert Quotients(m, total) == map[];
    }
  }

  lemma {:induction false} SumOfRounded(m: map<string, real>)
    ensures Sum(m) - |m| as real * 0.00005 <= Sum(Rounded(m)) <= Sum(m) + |m| as real * 0.00005
    decreases |m|
  {
    if m != map[] {
      var k := Pick(m);
      var rest := m - {k};
      assert rest.Keys == m.Keys - {k};
      SumOfRounded(rest);
      SumRemove(Rounded(m), k);
      assert Rounded(m) - {k} == Rounded(rest);
      Round4Close(m[k]);
    } else {
      assert Rounded(m) == map[];
    }
  }

  lemma SharesInUnit(m: map<string, real>, total: real)
    requires total > 0.0 && forall k :: k in m ==> 0.0 <= m[k] <= total
    ensures InUnit(Quotients(m, total)) && InUnit(Rounded(Quotients(m, total)))
  {
    forall k | k in m ensures 0.0 <= m[k] / total <= 1.0 && 0.0 <= Round4(m[k] / total) <= 1.0 {
      QuotientInUnit(m[k], total);
      Round4Close(m[k] / total);
    }
  }

  /** The published weights are a distribution up to rounding. */
  lemma PublishedIsDistribution(s: Scores, mix: Mix)
    requires SensibleScores(s, mix)
    ensures var p := Published(s, mix);
            && p.Keys == s.base.Keys && InUnit(p)
            && 1.0 - |s.base| as real * 0.00005 <= Sum(p) <= 1.0 + |s.base| as real * 0.00005
  {
    var raw := Raw(s, mix);
    var total := Sum(raw);
    TotalPositive(s, mix);
    SharesInUnit(raw, total);
    SumOfQuotients(raw, total);
    QuotientIs(total, total, 1.0);
    SumOfRounded(Quotients(raw, total));
    assert Quotients(raw, total).Keys == s.base.Keys;
    assert |Quotients(raw, total)| == |Quotients(raw, total).Keys| == |s.base.Keys| == |s.base|;
  }

  /** The part of the total, give or take 0.00005 of it. */
  predicate IsShare(published: real, part: real, total: real) { Abs(published * total - part) <= 0.00005 * total }

  /** What is published is the share of the total, to the nearest 0.0001. */
  lemma PublishedIsShare(s: Scores, mix: Mix, name: string)
    requires SensibleScores(s, mix) && name in s.base
    ensures var total := Sum(Raw(s, mix));
            && name in Published(s, mix) && name in Raw(s, mix)
            && IsShare(Published(s, mix)[name], Raw(s, mix)[name], total)
  {
    hide Raw, Published, SensibleScores, IsShare;
    TotalPositive(s, mix);
    PublishedAt(s, mix, name);
    var raw, total, published := Raw(s, mix)[name], Sum(Raw(s, mix)), Published(s, mix)[name];
    RoundedShare(raw, total, raw / total, published);
  }

  lemma PublishedAt(s: Scores, mix: Mix, name: string)
    requires name in s.base && Sum(Raw(s, mix)) > 0.0
    ensures name in Raw(s, mix) && name in Published(s, mix)
    ensures Published(s, mix)[name] == Round4(Raw(s, mix)[name] / Sum(Raw(s, mix)))
  {
    hide Round4, Product, Blended;
  }

  lemma RoundedShare(raw: real, total: real, share: real, rounded: real)
    requires total > 0.0 && share == raw / total && rounded == Round4(share)
    ensures IsShare(rounded, raw, total)
  {
    hide IsShare;
    QuotientTimes(raw, total);
    Round4Close(share);
    var error := rounded - share;
    ErrorTimes(error, total, raw, rounded, share);
  }

  lemma ErrorTimes(error: real, total: real, raw: real, rounded: real, share: real)
    requires total > 0.0 && -0.00005 <= error <= 0.00005
    requires rounded == share + error && share * total == raw
    ensures IsShare(rounded, raw, total)
  {
    ProductNonNegative(0.00005 - error, total);
    ProductNonNegative(0.00005 + error, total);
    assert rounded * total == share * total + error * total;
  }

  lemma QuotientsAreScaled(m: map<string, real>, total: real)
    requires total > 0.0
    ensures 1.0 / total != 0.0 && Scaled(m, Quotients(m, total), 1.0 / total)
  {
    assert (1.0 / total) * total == 1.0;
    forall k | k in m ensures m[k] / total == m[k] * (1.0 / total) {
      QuotientAsProduct(m[k], total);
    }
  }

  /** Dividing by the total before rounding changes no weighted decision. */
  lemma NormalisingChangesNoSignal(s: Scores, mix: Mix, votes: seq<Vote>, fixed: map<string, real>, threshold: real)
    requires SensibleScores(s, mix) && FullyWeighted(votes, Raw(s, mix))
    ensures Sum(Raw(s, mix)) > 0.0
    ensures Weighted(votes, Weights(fixed, Quotients(Raw(s, mix), Sum(Raw(s, mix)))), threshold)
         == Weighted(votes, Weights(fixed, Raw(s, mix)), threshold)
  {
    TotalPositive(s, mix);
    var raw := Raw(s, mix);
    QuotientsAreScaled(raw, Sum(raw));
    ScalingChangesNothing(votes, Weights(fixed, raw), Quotients(raw, Sum(raw)), 1.0 / Sum(raw), threshold);
  }

  /** The shares of the total, and what is published of them. */
  function Shares(raw: map<string, real>, total: real, fixed: map<string, real>): Weights
    requires total != 0.0
  {
    Weights(fixed, Quotients(raw, total))
  }

  function RoundedShares(raw: map<string, real>, total: real, fixed: map<string, real>): Weights
    requires total != 0.0
  {
    Weights(fixed, Rounded(Quotients(raw, total)))
  }

  lemma SharesAreClose(raw: map<string, real>, total: real, fixed: map<string, real>, name: string)
    requires total > 0.0 && name in raw && 0.00005 < raw[name] / total
    ensures var exact := BaseWeight(Shares(raw, total, fixed), name);
            var rounded := BaseWeight(RoundedShares(raw, total, fixed), name);
            exact >= 0.00005 && rounded >= 0.00005 && Abs(rounded - exact) <= 0.00005
  {
    Round4Close(raw[name] / total);
  }

  /**
   * Rounding changes no decision when every strategy that voted has a share above 0.00005 and the normalised
   * score is farther from both thresholds than 0.0001 times the confidences over the rounded total weight.
   */
  lemma RoundingKeepsSignal(raw: map<string, real>, total: real, fixed: map<string, real>, votes: seq<Vote>,
                            threshold: real)
    requires total > 0.0 && Tally(votes, ConfidenceTerm()) > 0.0
    requires forall v :: v in votes ==>
               0.0 <= v.confidence <= 1.0 && v.strategy in raw && 0.00005 < raw[v.strategy] / total
    ensures var exact, rounded := Shares(raw, total, fixed), RoundedShares(raw, total, fixed);
            && Tally(votes, WeightTerm(exact)) > 0.0
            && (FarFrom(Tally(votes, ScoreTerm(exact)), Tally(votes, WeightTerm(exact)), threshold,
                        Tally(votes, WeightTerm(rounded)), 0.0001 * Tally(votes, ConfidenceTerm()))
                ==> Weighted(votes, rounded, threshold).action == Weighted(votes, exact, threshold).action)
  {
    hide Shares, RoundedShares, Tally, FarFrom, Weighted, WeightTerm, ScoreTerm;
    var exact, rounded := Shares(raw, total, fixed), RoundedShares(raw, total, fixed);
    forall v | v in votes
      ensures BaseWeight(exact, v.strategy) >= 0.00005 && BaseWeight(rounded, v.strategy) >= 0.00005
      ensures Abs(BaseWeight(rounded, v.strategy) - BaseWeight(exact, v.strategy)) <= 0.00005
    {
      SharesAreClose(raw, total, fixed, v.strategy);
    }
    NearlySameWeights(votes, exact, rounded, threshold, 0.00005);
    assert 2.0 * Product(0.00005, Tally(votes, ConfidenceTerm())) == 0.0001 * Tally(votes, ConfidenceTerm());
  }

  /** So the published weights decide as the blended ones do, unless the score is that close to a threshold. */
  lemma PublishedKeepsSignal(s: Scores, mix: Mix, fixed: map<string, real>, votes: seq<Vote>, threshold: real)
    requires SensibleScores(s, mix) && FullyWeighted(votes, Raw(s, mix)) && Tally(votes, ConfidenceTerm()) > 0.0
    requires forall v :: v in votes ==>
               0.0 <= v.confidence <= 1.0 && 0.00005 * Sum(Raw(s, mix)) < Raw(s, mix)[v.strategy]
    ensures Sum(Raw(s, mix)) > 0.0
    ensures var exact := Shares(Raw(s, mix), Sum(Raw(s, mix)), fixed);
            && Tally(votes, WeightTerm(exact)) > 0.0
            && (FarFrom(Tally(votes, ScoreTerm(exact)), Tally(votes, WeightTerm(exact)), threshold,
                        Tally(votes, WeightTerm(Weights(fixed, Published(s, mix)))),
                        0.0001 * Tally(votes, ConfidenceTerm()))
                ==> Weighted(votes, Weights(fixed, Published(s, mix)), threshold).action
                    == Weighted(votes, Weights(fixed, Raw(s, mix)), threshold).action)
  {
    hide Raw, Tally, Weighted, WeightTerm, ScoreTerm, FarFrom;
    TotalPositive(s, mix);
    var raw, total := Raw(s, mix), Sum(Raw(s, mix));
    forall v | v in votes ensures 0.00005 < raw[v.strategy] / total {
      ShareAbove(raw[v.strategy], total);
    }
    RoundingKeepsSignal(raw, total, fixed, votes, threshold);
    NormalisingChangesNoSignal(s, mix, votes, fixed, threshold);
  }

  lemma ShareAbove(x: real, total: real)
    requires total > 0.0 && 0.00005 * total < x
    ensures 0.00005 < x / total
  {
    QuotientTimes(x, total);
    if x / total <= 0.00005 {
      ProductNonNegative(0.00005 - x / total, total);
    }
  }

  /** Rounding does: a share of at most 0.00005 is published as zero, and the configured weight takes its place. */
  lemma RoundingRestoresFixedWeight(share: real, name: string, fixed: real)
    requires share >= 0.0 && fixed != 0.0
    ensures BaseWeight(Weights(map[name := fixed], map[name := Round4(share)]), name)
         == if share <= 0.00005 then fixed else Round4(share)
  {
    Round4Close(share);
  }

  // ---------------------------------------------------------------- publishing, step by step

  method LargestValue(m: map<string, real>) returns (max: real)
    ensures max == MaxValue(m)
  {
    if m == map[] {
      return 1.0;
    }
    var first :| first in m.Keys;
    max := m[first];
    var todo := m.Keys - {first};
    while todo != {}
      invariant todo <= m.Keys
      invariant forall k :: k in m && k !in todo ==> m[k] <= max
      invariant exists k :: k in m && m[k] == max
      decreases todo
    {
      var k :| k in todo;
      todo := todo - {k};
      if m[k] > max {
        max := m[k];
      }
    }
    MaxIsMax(m);
  }

  method Total(m: map<string, real>) returns (total: real)
    ensures total == Sum(m)
  {
    total := 0.0;
    var todo := m.Keys;
    ghost var seen: map<string, real> := map[];
    while todo != {}
      invariant todo <= m.Keys && seen.Keys == m.Keys - todo
      invariant forall k :: k in seen ==> seen[k] == m[k]
      invariant total == Sum(seen)
      decreases todo
    {
      var k :| k in todo;
      todo := todo - {k};
      total := total + m[k];
      SumAdd(seen, k, m[k]);
      seen := seen[k := m[k]];
    }
    assert seen == m;
  }

  /** Blends, divides by the total, and rounds. */
  method Blend(s: Scores, mix: Mix) returns (weights: map<string, real>)
    ensures weights == Published(s, mix)
  {
    var maxBacktest := LargestValue(s.backtest);
    var maxAccuracy := LargestValue(s.accuracy);
    weights := map[];
    ghost var raw := Raw(s, mix);
    var todo := s.base.Keys;
    while todo != {}
      invariant todo <= s.base.Keys && weights.Keys == s.base.Keys - todo
      invariant forall n :: n in weights ==> weights[n] == raw[n]
      decreases todo
    {
      var name :| name in todo;
      todo := todo - {name};
      weights := weights[name := Product(s.base[name], Blended(s, name, mix, maxBacktest, maxAccuracy))];
    }
    assert weights == raw;
    var total := Total(weights);
    if total > 0.0 {
      todo := weights.Keys;
      while todo != {}
        invariant todo <= weights.Keys == raw.Keys
        invariant forall n :: n in weights ==> weights[n] == if n in todo then raw[n] else Round4(raw[n] / total)
        decreases todo
      {
        var name :| name in todo;
        todo := todo - {name};
        weights := weights[name := Round4(weights[name] / total)];
      }
    }
    assert weights == Published(s, mix);
  }
}
