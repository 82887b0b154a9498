/** `simple_linear_regression`: the closed-form least-squares line through
    paired samples, with slope 0 when every x is the same. */
module Regression {
  import opened Numeric

  function Mean(s: seq<real>): real
    requires |s| > 0
  {
    Sum(s) / |s| as real
  }

  /** The deviations of a column from a centre value: [s[i] - m]. */
  function Deviations(s: seq<real>, m: real): seq<real>
  {
    seq(|s|, i requires 0 <= i < |s| => s[i] - m)
  }

  /** The sum of pairwise products. */
  function Dot(u: seq<real>, v: seq<real>): real
    requires |u| == |v|
  {
    if u == [] then 0.0 else u[0] * v[0] + Dot(u[1..], v[1..])
  }

  /** The residuals y - (intercept + slope * x) of a line. */
  function Residuals(xs: seq<real>, ys: seq<real>, slope: real, intercept: real): seq<real>
    requires |xs| == |ys|
  {
    seq(|xs|, i requires 0 <= i < |xs| => ys[i] - (intercept + slope * xs[i]))
  }

  /** The least-squares slope and intercept of paired samples. The numerator is
      the sum of the products of the deviations from the means, the
      denominator the sum of the squared deviations of x. */
  function Fit(xs: seq<real>, ys: seq<real>): (r: (real, real))
    requires |xs| == |ys| > 0
    ensures r.1 + r.0 * Mean(xs) == Mean(ys)
  {
    var xMean := Mean(xs);
    var yMean := Mean(ys);
    var numerator := Dot(Deviations(xs, xMean), Deviations(ys, yMean));
    var denominator := Dot(Deviations(xs, xMean), Deviations(xs, xMean));
    var slope := if denominator == 0.0 then 0.0 else numerator / denominator;
    (slope, yMean - slope * xMean)
  }

  function Slope(xs: seq<real>, ys: seq<real>): real
    requires |xs| == |ys| > 0
  {
    Fit(xs, ys).0
  }

  function Intercept(xs: seq<real>, ys: seq<real>): real
    requires |xs| == |ys| > 0
  {
    Fit(xs, ys).1
  }

  /** The sum of x's squared deviations, the denominator of the slope. */
  function Spread(xs: seq<real>): real
    requires |xs| > 0
  {
    Dot(Deviations(xs, Mean(xs)), Deviations(xs, Mean(xs)))
  }

  // ---- algebra of sums and dot products ----

  lemma {:induction false} SumDeviations(s: seq<real>, m: real)
    ensures Sum(Deviations(s, m)) == Sum(s) - |s| as real * m
  {
    if s != [] {
      SumDeviations(s[1..], m);
      assert Deviations(s, m)[1..] == Deviations(s[1..], m);
    }
  }

  lemma DeviationsFromMeanSumToZero(s: seq<real>)
    requires |s| > 0
    ensures Sum(Deviations(s, Mean(s))) == 0.0
  {
    SumDeviations(s, Mean(s));
    assert |s| as real * Mean(s) == Sum(s);
  }

  /** The pointwise combination w + k * z. */
  function Combination(w: seq<real>, z: seq<real>, k: real): (v: seq<real>)
    requires |w| == |z|
    ensures |v| == |w|
  {
    seq(|w|, i requires 0 <= i < |w| => w[i] + k * z[i])
  }

  lemma CombinationTail(w: seq<real>, z: seq<real>, k: real)
    requires |w| == |z| > 0
    ensures Combination(w, z, k)[0] == w[0] + k * z[0]
    ensures Combination(w, z, k)[1..] == Combination(w[1..], z[1..], k)
  {
    var v, tail := Combination(w, z, k), Combination(w[1..], z[1..], k);
    forall j | 0 <= j < |tail|
      ensures v[1..][j] == tail[j]
    {
      assert w[1..][j] == w[j + 1] && z[1..][j] == z[j + 1];
    }
  }

  lemma {:induction false} SumCombine(w: seq<real>, z: seq<real>, k: real)
    requires |w| == |z|
    ensures Sum(Combination(w, z, k)) == Sum(w) + k * Sum(z)
  {
    if w != [] {
      SumCombine(w[1..], z[1..], k);
      CombinationTail(w, z, k);
      Distribute(z[0], Sum(z[1..]), k);
    }
  }

  lemma {:induction false} DotCombine(u: seq<real>, w: seq<real>, z: seq<real>, k: real)
    requires |u| == |w| == |z|
    ensures Dot(u, Combination(w, z, k)) == Dot(u, w) + k * Dot(u, z)
  {
    if u != [] {
      var v := Combination(w, z, k);
      DotCombine(u[1..], w[1..], z[1..], k);
      CombinationTail(w, z, k);
      ScaleCombination(u[0], w[0], z[0], k);
      Distribute(u[0] * z[0], Dot(u[1..], z[1..]), k);
    }
  }

  lemma {:induction false} DotScaled(u: seq<real>, v: seq<real>, z: seq<real>, k: real)
    requires |u| == |v| == |z|
    requires forall i :: 0 <= i < |v| ==> v[i] == k * z[i]
    ensures Dot(u, v) == k * Dot(u, z)
  {
    if u != [] {
      DotScaled(u[1..], v[1..], z[1..], k);
      assert u[0] * v[0] == k * (u[0] * z[0]);
    }
  }

  // ---- properties of the fitted line ----

  /** The residuals of the line through an intercept that passes through the
      means split into the y deviations minus slope times the x deviations. */
  lemma ResidualsAsDeviations(xs: seq<real>, ys: seq<real>, slope: real, intercept: real)
    requires |xs| == |ys| > 0
    requires intercept + slope * Mean(xs) == Mean(ys)
    ensures Residuals(xs, ys, slope, intercept)
      == Combination(Deviations(ys, Mean(ys)), Deviations(xs, Mean(xs)), -slope)
  {
    var dx, dy := Deviations(xs, Mean(xs)), Deviations(ys, Mean(ys));
    forall i | 0 <= i < |xs|
      ensures Residuals(xs, ys, slope, intercept)[i] == Combination(dy, dx, -slope)[i]
    {
      Distribute(xs[i], -Mean(xs), -slope);
    }
  }

  /** The residuals of the fitted line sum to zero, in every case. */
  lemma ResidualsSumToZero(xs: seq<real>, ys: seq<real>)
    requires |xs| == |ys| > 0
    ensures Sum(Residuals(xs, ys, Slope(xs, ys), Intercept(xs, ys))) == 0.0
  {
    var b := Slope(xs, ys);
    ResidualsAsDeviations(xs, ys, b, Intercept(xs, ys));
    SumCombine(Deviations(ys, Mean(ys)), Deviations(xs, Mean(xs)), -b);
    DeviationsFromMeanSumToZero(xs);
    DeviationsFromMeanSumToZero(ys);
  }

  /** The residuals are uncorrelated with x: the second normal equation, the
      first-order condition of least squares. On constant x every deviation
      is zero, so it holds there too. */
  lemma NormalEquation(xs: seq<real>, ys: seq<real>)
    requires |xs| == |ys| > 0
    ensures Dot(Deviations(xs, Mean(xs)), Residuals(xs, ys, Slope(xs, ys), Intercept(xs, ys))) == 0.0
  {
    var b := Slope(xs, ys);
    var dx, dy := Deviations(xs, Mean(xs)), Deviations(ys, Mean(ys));
    var residuals := Residuals(xs, ys, b, Intercept(xs, ys));
    if Spread(xs) == 0.0 {
      SpreadZeroIffConstantX(xs);
      ConstantXHasZeroSpread(xs);
      DotOfZeros(dx, residuals);
    } else {
      SlopeAsRatio(xs, ys);
      ResidualsAsDeviations(xs, ys, b, Intercept(xs, ys));
      DotOfCombination(dx, residuals, dy, dx, -b);
      CancelRatio(Dot(dx, dy), Spread(xs));
    }
  }

  lemma {:induction false} DotOfZeros(u: seq<real>, v: seq<real>)
    requires |u| == |v|
    requires forall i :: 0 <= i < |u| ==> u[i] == 0.0
    ensures Dot(u, v) == 0.0
  {
    if u != [] {
      DotOfZeros(u[1..], v[1..]);
    }
  }

  lemma DotOfCombination(u: seq<real>, v: seq<real>, w: seq<real>, z: seq<real>, k: real)
    requires |u| == |w| == |z|
    requires v == Combination(w, z, k)
    ensures Dot(u, v) == Dot(u, w) + k * Dot(u, z)
  {
    DotCombine(u, w, z, k);
  }

  /** The zero-variance guard fires when every x is the same. */
  lemma ConstantXHasZeroSpread(xs: seq<real>)
    requires |xs| > 0
    requires forall i :: 0 <= i < |xs| ==> xs[i] == xs[0]
    ensures Mean(xs) == xs[0]
    ensures Spread(xs) == 0.0
  {
    SumLineOf(xs, xs, 0.0, xs[0]);
    var dx := Deviations(xs, Mean(xs));
    DotScaled(dx, dx, dx, 0.0);
  }

  /** The pairwise products [u[i] * v[i]] that Dot adds up. */
  function Products(u: seq<real>, v: seq<real>): seq<real>
    requires |u| == |v|
  {
    seq(|u|, i requires 0 <= i < |u| => u[i] * v[i])
  }

  lemma {:induction false} DotAsSum(u: seq<real>, v: seq<real>)
    requires |u| == |v|
    ensures Dot(u, v) == Sum(Products(u, v))
  {
    if u != [] {
      DotAsSum(u[1..], v[1..]);
      forall j | 0 <= j < |u| - 1
        ensures Products(u, v)[1..][j] == Products(u[1..], v[1..])[j]
      {
        assert u[1..][j] == u[j + 1] && v[1..][j] == v[j + 1];
      }
      assert Products(u, v)[1..] == Products(u[1..], v[1..]);
    }
  }

  lemma ProductsNonNegative(u: seq<real>, v: seq<real>)
    requires |u| == |v|
    requires forall i :: 0 <= i < |u| ==> u[i] * v[i] >= 0.0
    ensures forall i :: 0 <= i < |u| ==> Products(u, v)[i] >= 0.0
  {
  }

  lemma ProductPositive(u: seq<real>, v: seq<real>, k: int)
    requires |u| == |v| && 0 <= k < |u|
    ensures u[k] * v[k] > 0.0 ==> Products(u, v)[k] > 0.0
  {
  }

  /** A sum of non-negative products is positive once one product is. */
  lemma DotPositive(u: seq<real>, v: seq<real>, k: int)
    requires |u| == |v| && 0 <= k < |u|
    requires forall i :: 0 <= i < |u| ==> Products(u, v)[i] >= 0.0
    ensures Dot(u, v) >= 0.0
    ensures Products(u, v)[k] > 0.0 ==> Dot(u, v) > 0.0
  {
    DotAsSum(u, v);
    SumNonNegative(Products(u, v));
    SumPositive(Products(u, v), k);
  }

  /** A sum of squares is never negative, and positive once one term is non-zero. */
  lemma SelfDotPositive(v: seq<real>, k: int)
    requires 0 <= k < |v|
    ensures Dot(v, v) >= 0.0
    ensures v[k] != 0.0 ==> Dot(v, v) > 0.0
  {
    forall i | 0 <= i < |v|
      ensures v[i] * v[i] >= 0.0
    {
      SquarePositive(v[i]);
    }
    SquarePositive(v[k]);
    ProductsNonNegative(v, v);
    ProductPositive(v, v, k);
    DotPositive(v, v, k);
  }

  /** The zero-variance guard fires only when every x is the same. */
  lemma ZeroSpreadMeansConstantX(xs: seq<real>)
    requires |xs| > 0
    requires Spread(xs) == 0.0
    ensures forall i :: 0 <= i < |xs| ==> xs[i] == xs[0]
  {
    var dx := Deviations(xs, Mean(xs));
    forall i | 0 <= i < |xs|
      ensures xs[i] == xs[0]
    {
      SelfDotPositive(dx, i);
      SelfDotPositive(dx, 0);
    }
  }

  /** The denominator of the slope is never negative, and it is zero exactly
      when every x is the same. */
  lemma SpreadZeroIffConstantX(xs: seq<real>)
    requires |xs| > 0
    ensures Spread(xs) >= 0.0
    ensures Spread(xs) == 0.0 <==> forall i :: 0 <= i < |xs| ==> xs[i] == xs[0]
  {
    SelfDotPositive(Deviations(xs, Mean(xs)), 0);
    if Spread(xs) == 0.0 {
      ZeroSpreadMeansConstantX(xs);
    }
    if forall i :: 0 <= i < |xs| ==> xs[i] == xs[0] {
      ConstantXHasZeroSpread(xs);
    }
  }

  /** With every x the same the slope is 0 and the intercept is the mean of y. */
  lemma ConstantXFit(xs: seq<real>, ys: seq<real>)
    requires |xs| == |ys| > 0
    requires forall i :: 0 <= i < |xs| ==> xs[i] == xs[0]
    ensures Slope(xs, ys) == 0.0 && Intercept(xs, ys) == Mean(ys)
  {
    ConstantXHasZeroSpread(xs);
  }

  /** Samples lying exactly on a line with x not constant give back that line. */
  lemma ExactLineRecovered(xs: seq<real>, ys: seq<real>, m: real, c: real)
    requires |xs| == |ys| > 0
    requires Spread(xs) != 0.0
    requires forall i :: 0 <= i < |xs| ==> ys[i] == m * xs[i] + c
    ensures Slope(xs, ys) == m
    ensures Intercept(xs, ys) == c
  {
    SlopeOfLine(xs, ys, m, c);
    MeanOfLine(xs, ys, m, c);
    InterceptThroughMeans(Intercept(xs, ys), Slope(xs, ys), Mean(xs), Mean(ys), m, c);
  }

  lemma InterceptThroughMeans(intercept: real, slope: real, xMean: real, yMean: real, m: real, c: real)
    requires slope == m && yMean == m * xMean + c
    requires intercept + slope * xMean == yMean
    ensures intercept == c
  {
  }

  lemma SlopeOfLine(xs: seq<real>, ys: seq<real>, m: real, c: real)
    requires |xs| == |ys| > 0
    requires Spread(xs) != 0.0
    requires forall i :: 0 <= i < |xs| ==> ys[i] == m * xs[i] + c
    ensures Slope(xs, ys) == m
  {
    CovarianceOfLine(xs, ys, m, c);
    SlopeAsRatio(xs, ys);
    MulDivCancel(m, Spread(xs));
  }

  /** When x varies, the slope is the co-deviation sum over the spread. */
  lemma SlopeAsRatio(xs: seq<real>, ys: seq<real>)
    requires |xs| == |ys| > 0
    requires Spread(xs) != 0.0
    ensures Slope(xs, ys) == Dot(Deviations(xs, Mean(xs)), Deviations(ys, Mean(ys))) / Spread(xs)
  {
  }

  /** On a line of slope m the co-deviation sum is m times the spread of x. */
  lemma CovarianceOfLine(xs: seq<real>, ys: seq<real>, m: real, c: real)
    requires |xs| == |ys| > 0
    requires forall i :: 0 <= i < |xs| ==> ys[i] == m * xs[i] + c
    ensures Dot(Deviations(xs, Mean(xs)), Deviations(ys, Mean(ys))) == m * Spread(xs)
  {
    MeanOfLine(xs, ys, m, c);
    var dx, dy := Deviations(xs, Mean(xs)), Deviations(ys, Mean(ys));
    forall i | 0 <= i < |xs|
      ensures dy[i] == m * dx[i]
    {
      assert dy[i] == (m * xs[i] + c) - (m * Mean(xs) + c);
    }
    DotScaled(dx, dy, dx, m);
  }

  lemma MeanOfLine(xs: seq<real>, ys: seq<real>, m: real, c: real)
    requires |xs| == |ys| > 0
    requires forall i :: 0 <= i < |xs| ==> ys[i] == m * xs[i] + c
    ensures Mean(ys) == m * Mean(xs) + c
  {
    SumLineOf(xs, ys, m, c);
    MeanOfAffine(c, m, Sum(xs), |xs| as real);
  }

  lemma MeanOfAffine(c: real, m: real, total: real, n: real)
    requires n != 0.0
    ensures (c * n + m * total) / n == m * (total / n) + c
  {
  }

  lemma {:induction false} SumLineOf(xs: seq<real>, ys: seq<real>, m: real, c: real)
    requires |xs| == |ys|
    requires forall i :: 0 <= i < |xs| ==> ys[i] == m * xs[i] + c
    ensures Sum(ys) == c * |xs| as real + m * Sum(xs)
  {
    if xs != [] {
      SumLineOf(xs[1..], ys[1..], m, c);
    }
  }

  /** [1, 2, 3] against [2, 4, 6] fits slope 2 and intercept 0. */
  lemma FitOfDoubling()
    ensures Fit([1.0, 2.0, 3.0], [2.0, 4.0, 6.0]) == (2.0, 0.0)
  {
    var xs, ys := [1.0, 2.0, 3.0], [2.0, 4.0, 6.0];
    assert Sum(xs) == 6.0 by {
      assert xs[1..] == [2.0, 3.0] && xs[1..][1..] == [3.0];
    }
    var dx := Deviations(xs, Mean(xs));
    assert dx == [-1.0, 0.0, 1.0];
    assert Dot(dx, dx) == 2.0 by {
      assert dx[1..] == [0.0, 1.0] && dx[1..][1..] == [1.0];
      assert Dot([1.0], [1.0]) == 1.0;
      assert Dot([0.0, 1.0], [0.0, 1.0]) == 1.0;
    }
    ExactLineRecovered(xs, ys, 2.0, 0.0);
  }

  /** [1, 1, 1] against [5, 7, 3] has zero spread: slope 0, intercept 5. */
  lemma FitOfConstantX()
    ensures Fit([1.0, 1.0, 1.0], [5.0, 7.0, 3.0]) == (0.0, 5.0)
  {
    var xs, ys := [1.0, 1.0, 1.0], [5.0, 7.0, 3.0];
    ConstantXFit(xs, ys);
    assert ys[1..] == [7.0, 3.0] && ys[1..][1..] == [3.0];
    assert Sum(ys) == 15.0;
  }
}
