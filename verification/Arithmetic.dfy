/** Facts about products and quotients of reals that the solver needs one at a time. */
module Arithmetic {

  function Min(x: real, y: real): real { if y < x then y else x }

  function Abs(x: real): real { if x < 0.0 then -x else x }

  function Times(n: nat, x: real): real { n as real * x }

  lemma TimesNext(n: nat, x: real)
    ensures Times(n + 1, x) == Times(n, x) + x
  {
  }

  lemma TimesMonotone(n: nat, m: nat, x: real, y: real)
    requires n <= m && 0.0 <= x <= y
    ensures 0.0 <= Times(n, x) <= Times(m, y)
  {
    ProductNonNegative(n as real, x);
    ProductNonNegative(m as real - n as real, x);
    ProductNonNegative(m as real, y - x);
  }

  lemma ProductNonNegative(x: real, y: real)
    requires x >= 0.0 && y >= 0.0
    ensures x * y >= 0.0
  {
  }

  lemma ProductPositive(x: real, y: real)
    requires x > 0.0 && y > 0.0
    ensures x * y > 0.0
  {
  }

  lemma PositiveFactor(x: real, y: real)
    requires x > 0.0 && x * y > 0.0
    ensures y > 0.0
  {
  }

  lemma LessTimes(n: real, x: real, y: real)
    requires y != 0.0
    ensures n < x <==> if y > 0.0 then n * y < x * y else n * y > x * y
  {
    if n < x {
      ProductPositive(x - n, Abs(y));
    } else {
      ProductNonNegative(n - x, Abs(y));
    }
  }

  lemma QuotientTimes(x: real, y: real)
    requires y != 0.0
    ensures (x / y) * y == x
  {
  }

  lemma QuotientIs(x: real, y: real, q: real)
    requires y != 0.0 && q * y == x
    ensures x / y == q
  {
  }

  lemma QuotientAtLeast(x: real, y: real, q: real)
    requires y > 0.0 && x >= q * y
    ensures x / y >= q
  {
    QuotientTimes(x, y);
  }

  lemma QuotientAtMost(x: real, y: real, q: real)
    requires y > 0.0 && x <= q * y
    ensures x / y <= q
  {
    QuotientTimes(x, y);
  }

  lemma QuotientBelow(x: real, y: real, q: real)
    requires y > 0.0 && x < q * y
    ensures x / y < q
  {
    QuotientTimes(x, y);
  }

  lemma QuotientPositive(x: real, y: real)
    requires y > 0.0
    ensures x > 0.0 <==> x / y > 0.0
    ensures x >= 0.0 <==> x / y >= 0.0
  {
    QuotientTimes(x, y);
  }

  lemma NegatedQuotient(x: real, y: real)
    requires y != 0.0
    ensures (-x) / y == -(x / y)
  {
  }

  /** A share of a nonnegative whole is in [0, 1]. */
  lemma QuotientInUnit(x: real, y: real)
    requires y > 0.0 && 0.0 <= x <= y
    ensures 0.0 <= x / y <= 1.0
  {
    QuotientPositive(x, y);
    QuotientAtMost(x, y, 1.0);
  }

  /** The nearest integer, halves to even. */
  function Nearest(y: real): int
  {
    var f := y.Floor;
    var part := y - f as real;
    if part < 0.5 || (part == 0.5 && f % 2 == 0) then f else f + 1
  }

  /** No integer is nearer, and between two that are as near the even one is taken. */
  lemma NearestIs(y: real, k: int)
    ensures -0.5 <= Nearest(y) as real - y <= 0.5
    ensures y == k as real + 0.5 ==> Nearest(y) % 2 == 0
  {
    if y == k as real + 0.5 {
      assert y.Floor == k;
    }
  }

  /** Rounds to four decimals, halves to even. */
  function Round4(x: real): real { Nearest(x * 10000.0) as real / 10000.0 }

  function Round2(x: real): real { Nearest(x * 100.0) as real / 100.0 }

  function Round1(x: real): real { Nearest(x * 10.0) as real / 10.0 }

  lemma Round4Close(x: real)
    ensures -0.00005 <= Round4(x) - x <= 0.00005
    ensures 0.0 <= x <= 1.0 ==> 0.0 <= Round4(x) <= 1.0
    ensures x >= 0.0 ==> (Round4(x) == 0.0 <==> x <= 0.00005)
    ensures x > 0.00005 ==> Round4(x) >= 0.0001
  {
  }

  lemma Round2Close(x: real)
    ensures -0.005 <= Round2(x) - x <= 0.005
    ensures 0.0 <= x <= 100.0 ==> 0.0 <= Round2(x) <= 100.0
  {
  }

  lemma Round1Close(x: real)
    ensures -0.05 <= Round1(x) - x <= 0.05
    ensures 0.0 <= x <= 100.0 ==> 0.0 <= Round1(x) <= 100.0
  {
  }
}
