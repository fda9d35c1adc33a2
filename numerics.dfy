/**
 * Integer arithmetic behind the benchmark's report lines: powers, and the
 * `BigDecimal.divide(divisor, scale, RoundingMode.HALF_UP)` quotient computed
 * exactly on integers.  A quotient at scale `s` is represented by its unscaled
 * value: 4.0000 at scale 4 is 40000.
 */
module Numerics {
  import opened Wrappers

  function Abs(x: int): nat { if x < 0 then -x else x }

  function Pow10(k: nat): (r: nat)
    ensures r >= 1
  {
    if k == 0 then 1 else 10 * Pow10(k - 1)
  }

  /** `m` is the magnitude N/D rounded to the nearest integer, ties upwards. */
  ghost predicate NearestHalfUp(n: nat, d: nat, m: nat)
  {
    2 * m * d <= 2 * n + d < 2 * m * d + 2 * d
  }

  /**
   * The unscaled value of `n / d` at `scale` decimal places, rounded HALF_UP
   * (to the nearest neighbour, a tie away from zero), as BigDecimal does it.
   */
  function RoundHalfUp(n: int, d: int, scale: nat): (q: int)
    requires d != 0
    ensures NearestHalfUp(Abs(n) * Pow10(scale), Abs(d), Abs(q))
    ensures q > 0 ==> (n > 0) == (d > 0)
    ensures q < 0 ==> (n > 0) != (d > 0)
  {
    var m: int := HalfUp(Abs(n) * Pow10(scale), Abs(d));
    if (n < 0) != (d < 0) then -m else m
  }

  /** The magnitude num / den rounded to the nearest integer, ties upwards. */
  function HalfUp(num: nat, den: nat): (m: nat)
    requires den > 0
    ensures NearestHalfUp(num, den, m)
    ensures m > 0 ==> num > 0
  {
    HalfUpQuotient(num, den);
    var m := (2 * num + den) / (2 * den);
    if m > 0 then MulMonotone(1, m, 2 * den); m else m
  }

  lemma HalfUpQuotient(num: nat, den: nat)
    requires den > 0
    ensures NearestHalfUp(num, den, (2 * num + den) / (2 * den))
  {
    var m := (2 * num + den) / (2 * den);
    DivBounds(2 * num + den, 2 * den);
    assert 2 * den * m == 2 * m * den;
  }

  lemma DivBounds(a: nat, b: nat)
    requires b > 0
    ensures b * (a / b) <= a < b * (a / b) + b
  {
  }

  /** The division of line 151: ArithmeticException when the divisor is zero. */
  function DivideHalfUp(n: int, d: int, scale: nat): (r: Option<int>)
    ensures r.None? <==> d == 0
    ensures r.Some? ==> NearestHalfUp(Abs(n) * Pow10(scale), Abs(d), Abs(r.value))
    ensures r.Some? && r.value > 0 ==> (n > 0) == (d > 0)
    ensures r.Some? && r.value < 0 ==> (n > 0) != (d > 0)
  {
    if d == 0 then None else Some(RoundHalfUp(n, d, scale))
  }

  /** At most one magnitude satisfies the half-up characterisation. */
  lemma NearestHalfUpUnique(n: nat, d: nat, m1: nat, m2: nat)
    requires d > 0
    requires NearestHalfUp(n, d, m1) && NearestHalfUp(n, d, m2)
    ensures m1 == m2
  {
    if m1 < m2 {
      HalfUpOrdered(n, d, m1, m2);
    } else if m2 < m1 {
      HalfUpOrdered(n, d, m2, m1);
    }
  }

  lemma HalfUpOrdered(n: nat, d: nat, lo: nat, hi: nat)
    requires d > 0 && lo < hi
    requires NearestHalfUp(n, d, lo)
    ensures !NearestHalfUp(n, d, hi)
  {
    MulMonotone(lo + 1, hi, 2 * d);
  }

  lemma MulMonotone(a: nat, b: nat, c: nat)
    ensures a <= b ==> a * c <= b * c
  {
  }

  /** When the exact quotient has at most `scale` decimals, nothing is rounded. */
  lemma {:induction false} RoundHalfUpExact(n: int, d: int, scale: nat, m: nat)
    requires d != 0
    requires Abs(n) * Pow10(scale) == m * Abs(d)
    ensures Abs(RoundHalfUp(n, d, scale)) == m
  {
    var q := RoundHalfUp(n, d, scale);
    ExactIsNearest(Abs(n) * Pow10(scale), Abs(d), m);
    NearestHalfUpUnique(Abs(n) * Pow10(scale), Abs(d), Abs(q), m);
  }

  lemma ExactIsNearest(n: nat, d: nat, m: nat)
    requires d > 0 && n == m * d
    ensures NearestHalfUp(n, d, m)
  {
  }

  /** The sweep ratio of totals (1000, 250) is 4.0000. */
  lemma RatioExample()
    ensures DivideHalfUp(1000, 250, 4) == Some(40000)
  {
    RoundHalfUpExact(1000, 250, 4, 40000);
  }

  /** A tie rounds away from zero: 2.5 becomes 3 and -2.5 becomes -3. */
  lemma HalfUpTieExample()
    ensures RoundHalfUp(5, 2, 0) == 3
    ensures RoundHalfUp(-5, 2, 0) == -3
  {
  }

  lemma MulCancel(k: nat, x: int, y: int)
    requires k > 0
    ensures k * x <= k * y <==> x <= y
  {
    if x <= y {
      assert k * y - k * x == k * (y - x);
    } else {
      assert k * x - k * y == k * (x - y);
    }
  }

  /** Scaling numerator and denominator by the same factor does not move the nearest integer. */
  lemma NearestHalfUpScaled(n: nat, d: nat, m: nat, k: nat)
    requires k > 0
    ensures NearestHalfUp(k * n, k * d, m) <==> NearestHalfUp(n, d, m)
  {
    assert 2 * m * (k * d) == k * (2 * m * d);
    assert 2 * (k * n) + k * d == k * (2 * n + d);
    assert 2 * m * (k * d) + 2 * (k * d) == k * (2 * m * d + 2 * d);
    MulCancel(k, 2 * m * d, 2 * n + d);
    MulCancel(k, 2 * m * d + 2 * d, 2 * n + d);
  }

  /** The quotient depends only on the ratio n / d: multiplying both by k > 0 leaves it as it is. */
  lemma DivideHalfUpScaled(k: nat, n: int, d: int, scale: nat)
    requires k > 0
    ensures DivideHalfUp(k * n, k * d, scale) == DivideHalfUp(n, d, scale)
  {
    if d != 0 {
      ScaledSign(k, n);
      ScaledSign(k, d);
      var q1 := RoundHalfUp(k * n, k * d, scale);
      var q2 := RoundHalfUp(n, d, scale);
      var num := Abs(n) * Pow10(scale);
      ScaledNumerator(k, n, scale);
      NearestHalfUpScaled(num, Abs(d), Abs(q1), k);
      NearestHalfUpUnique(num, Abs(d), Abs(q1), Abs(q2));
      SameSign(q1, q2, n, d);
    }
  }

  lemma ScaledNumerator(k: nat, n: int, scale: nat)
    requires k > 0
    ensures Abs(k * n) * Pow10(scale) == k * (Abs(n) * Pow10(scale))
  {
    ScaledSign(k, n);
    MulAssoc(k, Abs(n), Pow10(scale));
  }

  lemma MulAssoc(a: int, b: int, c: int)
    ensures (a * b) * c == a * (b * c)
  {
  }

  lemma ScaledSign(k: nat, x: int)
    requires k > 0
    ensures Abs(k * x) == k * Abs(x) && (k * x > 0 <==> x > 0) && (k * x != 0 <==> x != 0)
  {
  }

  /** Two quotients of the same magnitude whose signs both agree with n / d are equal. */
  lemma SameSign(q1: int, q2: int, n: int, d: int)
    requires Abs(q1) == Abs(q2)
    requires q1 > 0 ==> (n > 0) == (d > 0)
    requires q1 < 0 ==> (n > 0) != (d > 0)
    requires q2 > 0 ==> (n > 0) == (d > 0)
    requires q2 < 0 ==> (n > 0) != (d > 0)
    ensures q1 == q2
  {
  }

  /** A nonnegative amount over a nonnegative one gives a nonnegative quotient, and 0 over anything gives 0. */
  lemma DivideHalfUpNonnegative(n: int, d: int, scale: nat)
    requires n >= 0 && d >= 0
    ensures DivideHalfUp(n, d, scale).Some? ==> DivideHalfUp(n, d, scale).value >= 0
    ensures n == 0 && d > 0 ==> DivideHalfUp(n, d, scale) == Some(0)
  {
    if d > 0 {
      var q := RoundHalfUp(n, d, scale);
      if n == 0 {
        MulMonotone(1, Abs(q), 2 * d);
      }
    }
  }
}
