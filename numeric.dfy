/** Numeric building blocks of the scoring engine: Python's min/max on
    floats, pandas' `astype(int)` (truncation toward zero), integer powers,
    the maximum of a column, and sums of columns with the algebra the
    allocation and regression proofs need. Floats are modelled as `real`. */
module Numeric {

  function Min(a: real, b: real): (r: real)
    ensures r <= a && r <= b
    ensures r == a || r == b
  {
    if a <= b then a else b
  }

  function Max(a: real, b: real): (r: real)
    ensures r >= a && r >= b
    ensures r == a || r == b
  {
    if a >= b then a else b
  }

  /** `astype(int)` on a float: the integer part, rounding toward zero. */
  function Trunc(x: real): (r: int)
    ensures x >= 0.0 ==> r >= 0 && r as real <= x < r as real + 1.0
    ensures x < 0.0 ==> r <= 0 && r as real - 1.0 < x <= r as real
  {
    if x >= 0.0 then x.Floor else -((-x).Floor)
  }

  lemma TruncMonotone(x: real, y: real)
    requires 0.0 <= x <= y
    ensures Trunc(x) <= Trunc(y)
  {
  }

  /** Truncation of a non-negative multiple is monotone in the multiplier. */
  lemma ScaledTruncMonotone(a: real, x: real, y: real)
    requires a >= 0.0 && 0.0 <= x <= y
    ensures 0 <= Trunc(a * x) <= Trunc(a * y)
  {
    MulNonNegative(a, x);
    MulMonotone(a, x, y);
    TruncMonotone(a * x, a * y);
  }

  lemma TruncBetween(x: real, n: int)
    requires 0 <= n && n as real <= x < n as real + 1.0
    ensures Trunc(x) == n
  {
  }

  lemma TruncOfInteger(n: int)
    ensures Trunc(n as real) == n
  {
  }

  lemma DivMul(a: real, b: real)
    requires b != 0.0
    ensures b * (a / b) == a
  {
  }

  lemma MulDivCancel(a: real, b: real)
    requires b != 0.0
    ensures (a * b) / b == a
  {
  }

  lemma QuotientAtLeastOne(a: real, b: real)
    requires 0.0 < b <= a
    ensures a / b >= 1.0
  {
  }

  lemma DivOrder(x: real, y: real, c: real)
    requires c > 0.0
    ensures x <= y <==> x / c <= y / c
  {
  }

  /** A value between zero and a non-zero bound, over that bound, is a fraction. */
  lemma FractionOf(x: real, t: real)
    requires 0.0 <= x <= t && t != 0.0
    ensures 0.0 <= x / t <= 1.0
  {
  }

  lemma CancelRatio(a: real, b: real)
    requires b != 0.0
    ensures a + (-(a / b)) * b == 0.0
  {
    DivMul(a, b);
  }

  lemma ScaleCombination(a: real, b: real, c: real, k: real)
    ensures a * (b + k * c) == a * b + k * (a * c)
  {
  }

  lemma UnitFactor(a: real, b: real)
    requires a == 1.0
    ensures a * b == b
  {
  }

  lemma Distribute(a: real, b: real, k: real)
    ensures (a + b) * k == a * k + b * k
  {
  }

  /** A square is never negative, and positive unless the base is zero. */
  lemma SquarePositive(a: real)
    ensures a * a >= 0.0
    ensures a != 0.0 ==> a * a > 0.0
  {
    if a > 0.0 {
      MulPositive(a, a);
    } else if a < 0.0 {
      MulNegative(a, a);
    }
  }

  lemma MulNegative(a: real, b: real)
    requires a < 0.0 && b < 0.0
    ensures a * b > 0.0
  {
    MulPositive(-a, -b);
    assert (-a) * (-b) == a * b;
  }

  lemma MulPositive(a: real, b: real)
    requires a > 0.0 && b > 0.0
    ensures a * b > 0.0
  {
  }

  lemma MulNonNegative(a: real, b: real)
    requires a >= 0.0 && b >= 0.0
    ensures a * b >= 0.0
  {
  }

  lemma MulMonotone(a: real, x: real, y: real)
    requires a >= 0.0 && x <= y
    ensures a * x <= a * y
  {
  }

  /** `b ** e` for a natural exponent. */
  function Pow(b: real, e: nat): (r: real)
    ensures b >= 0.0 ==> r >= 0.0
    ensures b >= 1.0 ==> r >= 1.0
  {
    if e == 0 then 1.0
    else
      var p := Pow(b, e - 1);
      assert b >= 1.0 ==> b * p >= p;
      b * p
  }

  lemma {:induction false} PowMonotone(b: real, e1: nat, e2: nat)
    requires b >= 1.0 && e1 <= e2
    ensures Pow(b, e1) <= Pow(b, e2)
  {
    if e1 < e2 {
      PowMonotone(b, e1, e2 - 1);
      var p := Pow(b, e2 - 1);
      assert b * p >= p;
    }
  }

  /** pandas `Series.max()` of a non-empty column: an element no smaller than any other. */
  function MaxOf(s: seq<real>): (m: real)
    requires |s| > 0
    ensures m in s
    ensures forall i :: 0 <= i < |s| ==> s[i] <= m
  {
    if |s| == 1 then s[0] else Max(s[0], MaxOf(s[1..]))
  }

  /** pandas `Series.sum()`. */
  function Sum(s: seq<real>): real
  {
    if s == [] then 0.0 else s[0] + Sum(s[1..])
  }

  function IntSum(s: seq<int>): int
  {
    if s == [] then 0 else s[0] + IntSum(s[1..])
  }

  lemma {:induction false} SumDivided(a: seq<real>, b: seq<real>, k: real)
    requires k != 0.0 && |a| == |b|
    requires forall i :: 0 <= i < |a| ==> b[i] == a[i] / k
    ensures Sum(b) == Sum(a) / k
  {
    if a != [] {
      SumDivided(a[1..], b[1..], k);
    }
  }

  lemma {:induction false} SumAtLeast(s: seq<real>, m: real)
    requires forall i :: 0 <= i < |s| ==> s[i] >= m
    ensures Sum(s) >= |s| as real * m
  {
    if s != [] {
      SumAtLeast(s[1..], m);
    }
  }

  /** A sum of non-negative terms is positive once one term is. */
  lemma {:induction false} SumPositive(s: seq<real>, k: int)
    requires forall i :: 0 <= i < |s| ==> s[i] >= 0.0
    requires 0 <= k < |s|
    ensures s[k] > 0.0 ==> Sum(s) > 0.0
  {
    SumNonNegative(s[1..]);
    if k > 0 {
      SumPositive(s[1..], k - 1);
    }
  }

  lemma {:induction false} SumNonNegative(s: seq<real>)
    requires forall i :: 0 <= i < |s| ==> s[i] >= 0.0
    ensures Sum(s) >= 0.0
    ensures forall i :: 0 <= i < |s| ==> s[i] <= Sum(s)
  {
    if s != [] {
      SumNonNegative(s[1..]);
      assert forall i :: 1 <= i < |s| ==> s[i] == s[1..][i - 1];
    }
  }
}
