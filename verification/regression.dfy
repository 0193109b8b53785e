/** The revenue forecaster of compare.js: an ordinary-least-squares line
    through the points (i, series[i]), extended past the last observation. */
module Regression {
  import opened Sums

  /** The sum 0 + 1 + ... + (n - 1) of the x values. */
  function SumX(n: nat): real {
    if n == 0 then 0.0 else SumX(n - 1) + (n - 1) as real
  }

  /** The sum of the squared x values. */
  function SumXX(n: nat): real {
    if n == 0 then 0.0 else SumXX(n - 1) + (n - 1) as real * (n - 1) as real
  }

  /** The sum of i * s[i]. */
  function SumXY(s: seq<real>): real
    decreases |s|
  {
    if |s| == 0 then 0.0 else SumXY(s[..|s| - 1]) + Times(|s| - 1, s[|s| - 1])
  }

  /** k * y written as k additions of y, so that sums of such terms stay
      linear for the prover; `TimesIsProduct` connects it to `*`. */
  function Times(k: nat, y: real): real {
    if k == 0 then 0.0 else Times(k - 1, y) + y
  }

  lemma {:induction false} TimesIsProduct(k: nat, y: real)
    ensures Times(k, y) == k as real * y
  {
    if k > 0 {
      TimesIsProduct(k - 1, y);
    }
  }

  lemma {:induction false} TimesDistributes(k: nat, y: real, z: real)
    ensures Times(k, y - z) == Times(k, y) - Times(k, z)
  {
    if k > 0 {
      TimesDistributes(k - 1, y, z);
    }
  }

  lemma {:induction false} TimesZero(k: nat)
    ensures Times(k, 0.0) == 0.0
  {
    if k > 0 {
      TimesZero(k - 1);
    }
  }

  /** Appending a value adds it to the sum. */
  lemma {:induction false} SumSnoc(a: seq<real>, y: real)
    ensures Sum(a + [y]) == Sum(a) + y
  {
    assert (a + [y])[..|a|] == a;
  }

  /** Appending a point adds its index-weighted value to the weighted sum. */
  lemma {:induction false} SumXYSnoc(a: seq<real>, y: real)
    ensures SumXY(a + [y]) == SumXY(a) + Times(|a|, y)
  {
    assert (a + [y])[..|a|] == a;
  }

  /** One more step of the accumulation loop of compare.js lines 69-74. */
  lemma {:induction false} PrefixSumsStep(s: seq<real>, i: nat)
    requires i < |s|
    ensures SumX(i + 1) == SumX(i) + i as real
    ensures SumXX(i + 1) == SumXX(i) + i as real * i as real
    ensures Sum(s[..i + 1]) == Sum(s[..i]) + s[i]
    ensures SumXY(s[..i + 1]) == SumXY(s[..i]) + i as real * s[i]
  {
    assert s[..i + 1] == s[..i] + [s[i]];
    assert |s[..i]| as real == i as real;
    SumSnoc(s[..i], s[i]);
    SumXYSnoc(s[..i], s[i]);
    TimesIsProduct(i, s[i]);
  }

  lemma {:induction false} SumXClosedForm(n: nat)
    ensures 2.0 * SumX(n) == n as real * (n as real - 1.0)
  {
    if n > 0 {
      SumXClosedForm(n - 1);
    }
  }

  lemma {:induction false} SumXXClosedForm(n: nat)
    ensures 6.0 * SumXX(n) == (n as real - 1.0) * n as real * (2.0 * n as real - 1.0)
  {
    if n > 0 {
      SumXXClosedForm(n - 1);
      SquareSumStep(n as real);
    }
  }

  lemma SquareSumStep(x: real)
    ensures (x - 2.0) * (x - 1.0) * (2.0 * x - 3.0) + 6.0 * (x - 1.0) * (x - 1.0)
            == (x - 1.0) * x * (2.0 * x - 1.0)
  {
  }

  /** `n * sumXX - sumX * sumX`, the divisor of the slope. */
  function Denominator(n: nat): real {
    n as real * SumXX(n) - SumX(n) * SumX(n)
  }

  /** The divisor equals n^2 (n^2 - 1) / 12, so it is positive whenever there
      are at least two points and the slope is always defined. */
  lemma {:induction false} DenominatorClosedForm(n: nat)
    ensures 12.0 * Denominator(n) == (n as real) * (n as real) * ((n as real) * (n as real) - 1.0)
    ensures n >= 2 ==> Denominator(n) > 0.0
  {
    SumXClosedForm(n);
    SumXXClosedForm(n);
    DenominatorAlgebra(n as real, SumX(n), SumXX(n));
  }

  lemma DenominatorAlgebra(x: real, sx: real, sxx: real)
    requires 2.0 * sx == x * (x - 1.0)
    requires 6.0 * sxx == (x - 1.0) * x * (2.0 * x - 1.0)
    ensures 12.0 * (x * sxx - sx * sx) == x * x * (x * x - 1.0)
    ensures x >= 2.0 ==> x * sxx - sx * sx > 0.0
  {
  }

  lemma {:induction false} DenominatorPositive(n: nat)
    requires n >= 2
    ensures Denominator(n) > 0.0
  {
    DenominatorClosedForm(n);
  }

  /** A straight line y = intercept + slope * x. */
  datatype Line = Line(intercept: real, slope: real) {
    function At(x: real): real {
      intercept + slope * x
    }
  }

  /** The residuals s[i] - l(i) of the points against a line. */
  function Residuals(s: seq<real>, l: Line): (r: seq<real>)
    ensures |r| == |s|
    decreases |s|
  {
    if |s| == 0 then []
    else Residuals(s[..|s| - 1], l) + [s[|s| - 1] - l.At((|s| - 1) as real)]
  }

  /** Each residual is the point's distance above the line. */
  lemma {:induction false} ResidualAt(s: seq<real>, l: Line, i: nat)
    requires i < |s|
    ensures Residuals(s, l)[i] == s[i] - l.At(i as real)
    decreases |s|
  {
    if i < |s| - 1 {
      ResidualAt(s[..|s| - 1], l, i);
    }
  }

  /** The least-squares normal equations: the residuals sum to zero and are
      uncorrelated with the index. */
  predicate NormalEquations(s: seq<real>, l: Line) {
    Sum(Residuals(s, l)) == 0.0 && SumXY(Residuals(s, l)) == 0.0
  }

  /** The line's values at x = 0 .. n - 1, added up. */
  function LineTotal(n: nat, l: Line): real {
    if n == 0 then 0.0 else LineTotal(n - 1, l) + l.At((n - 1) as real)
  }

  /** The line's values at x = 0 .. n - 1, each weighted by x, added up. */
  function WeightedLineTotal(n: nat, l: Line): real {
    if n == 0 then 0.0 else WeightedLineTotal(n - 1, l) + Times(n - 1, l.At((n - 1) as real))
  }

  /** The residuals' plain and weighted sums are the series' sums less the
      line's. */
  lemma {:induction false} ResidualSumTotal(s: seq<real>, l: Line)
    ensures Sum(Residuals(s, l)) == Sum(s) - LineTotal(|s|, l)
    decreases |s|
  {
    if |s| > 0 {
      var init := s[..|s| - 1];
      var m := |s| - 1;
      var last := s[m] - l.At(m as real);
      ResidualSumTotal(init, l);
      assert |init| == m;
      assert Residuals(s, l) == Residuals(init, l) + [last];
      SumSnoc(Residuals(init, l), last);
    }
  }

  lemma {:induction false} ResidualWeightedTotal(s: seq<real>, l: Line)
    ensures SumXY(Residuals(s, l)) == SumXY(s) - WeightedLineTotal(|s|, l)
    decreases |s|
  {
    if |s| > 0 {
      var init := s[..|s| - 1];
      var m := |s| - 1;
      var last := s[m] - l.At(m as real);
      ResidualWeightedTotal(init, l);
      assert |init| == m;
      assert Residuals(s, l) == Residuals(init, l) + [last];
      SumXYSnoc(Residuals(init, l), last);
      TimesDistributes(m, s[m], l.At(m as real));
    }
  }

  /** The line's total in closed form: n * intercept + slope * sumX. */
  lemma {:induction false} LineTotalClosedForm(n: nat, l: Line)
    ensures LineTotal(n, l) == n as real * l.intercept + l.slope * SumX(n)
  {
    if n > 0 {
      LineTotalClosedForm(n - 1, l);
      LineTotalStep(LineTotal(n, l), LineTotal(n - 1, l), SumX(n), SumX(n - 1),
                    (n - 1) as real, n as real, l.intercept, l.slope);
    }
  }

  lemma LineTotalStep(t: real, t0: real, sx: real, sx0: real, x: real, n: real, a: real, b: real)
    requires t == t0 + (a + b * x) && t0 == x * a + b * sx0
    requires sx == sx0 + x && n == x + 1.0
    ensures t == n * a + b * sx
  {
  }

  /** The weighted total in closed form: intercept * sumX + slope * sumXX. */
  lemma {:induction false} WeightedLineTotalClosedForm(n: nat, l: Line)
    ensures WeightedLineTotal(n, l) == l.intercept * SumX(n) + l.slope * SumXX(n)
  {
    if n > 0 {
      WeightedLineTotalClosedForm(n - 1, l);
      TimesIsProduct(n - 1, l.At((n - 1) as real));
      WeightedLineTotalStep(WeightedLineTotal(n, l), WeightedLineTotal(n - 1, l), SumX(n), SumX(n - 1),
                            SumXX(n), SumXX(n - 1), (n - 1) as real, l.intercept, l.slope);
    }
  }

  lemma WeightedLineTotalStep(t: real, t0: real, sx: real, sx0: real, sxx: real, sxx0: real,
                              x: real, a: real, b: real)
    requires t == t0 + x * (a + b * x) && t0 == a * sx0 + b * sxx0
    requires sx == sx0 + x && sxx == sxx0 + x * x
    ensures t == a * sx + b * sxx
  {
  }

  /** The line's n values add up to the series' sum. */
  predicate SumBalanced(n: real, sx: real, sy: real, a: real, b: real) {
    sy - n * a - b * sx == 0.0
  }

  /** The line's index-weighted values add up to the series' weighted sum. */
  predicate WeightBalanced(sx: real, sxx: real, sxy: real, a: real, b: real) {
    sxy - a * sx - b * sxx == 0.0
  }

  /** The normal equations written on the running sums: with n points and
      sums sx, sxx, sy, sxy, the line a + b x leaves no residual and no
      index-weighted residual. */
  predicate SolvesSums(n: real, sx: real, sxx: real, sy: real, sxy: real, a: real, b: real) {
    SumBalanced(n, sx, sy, a, b) && WeightBalanced(sx, sxx, sxy, a, b)
  }

  lemma {:induction false} ZeroResidualSum(s: seq<real>, l: Line)
    ensures Sum(Residuals(s, l)) == 0.0 <==> SumBalanced(|s| as real, SumX(|s|), Sum(s), l.intercept, l.slope)
  {
    ResidualSumTotal(s, l);
    LineTotalBalance(|s|, l, Sum(s));
  }

  /** The series' sum minus the line's total vanishes exactly when the sums
      balance. */
  lemma {:induction false} LineTotalBalance(n: nat, l: Line, sy: real)
    ensures sy - LineTotal(n, l) == 0.0 <==> SumBalanced(n as real, SumX(n), sy, l.intercept, l.slope)
  {
    LineTotalClosedForm(n, l);
    BalanceIff(sy - LineTotal(n, l), sy, LineTotal(n, l), n as real, SumX(n), l.intercept, l.slope);
  }

  lemma BalanceIff(r: real, sy: real, t: real, n: real, sx: real, a: real, b: real)
    requires r == sy - t && t == n * a + b * sx
    ensures r == 0.0 <==> SumBalanced(n, sx, sy, a, b)
  {
  }

  lemma {:induction false} ZeroResidualWeightedSum(s: seq<real>, l: Line)
    ensures SumXY(Residuals(s, l)) == 0.0 <==> WeightBalanced(SumX(|s|), SumXX(|s|), SumXY(s), l.intercept, l.slope)
  {
    ResidualWeightedTotal(s, l);
    WeightedLineTotalBalance(|s|, l, SumXY(s));
  }

  /** The series' weighted sum minus the line's vanishes exactly when the
      weighted sums balance. */
  lemma {:induction false} WeightedLineTotalBalance(n: nat, l: Line, sxy: real)
    ensures sxy - WeightedLineTotal(n, l) == 0.0 <==> WeightBalanced(SumX(n), SumXX(n), sxy, l.intercept, l.slope)
  {
    WeightedLineTotalClosedForm(n, l);
    WeightBalanceIff(sxy - WeightedLineTotal(n, l), sxy, WeightedLineTotal(n, l), SumX(n), SumXX(n),
                     l.intercept, l.slope);
  }

  lemma WeightBalanceIff(r: real, sxy: real, t: real, sx: real, sxx: real, a: real, b: real)
    requires r == sxy - t && t == a * sx + b * sxx
    ensures r == 0.0 <==> WeightBalanced(sx, sxx, sxy, a, b)
  {
  }

  /** The normal equations are exactly the equations on the series' sums. */
  lemma {:induction false} NormalEquationsAsSums(s: seq<real>, l: Line)
    ensures NormalEquations(s, l) <==>
            SolvesSums(|s| as real, SumX(|s|), SumXX(|s|), Sum(s), SumXY(s), l.intercept, l.slope)
  {
    ZeroResidualSum(s, l);
    ZeroResidualWeightedSum(s, l);
  }

  /** The line compare.js lines 77-78 compute from the four running sums. */
  function FitFromSums(n: real, sx: real, sxx: real, sy: real, sxy: real): Line
    requires n != 0.0 && n * sxx - sx * sx != 0.0
  {
    var slope := (n * sxy - sx * sy) / (n * sxx - sx * sx);
    Line((sy - slope * sx) / n, slope)
  }

  /** Whenever the divisor is not zero, the computed line solves the sum
      equations. */
  lemma FitFromSumsSolves(n: real, sx: real, sxx: real, sy: real, sxy: real)
    requires n != 0.0 && n * sxx - sx * sx != 0.0
    ensures var l := FitFromSums(n, sx, sxx, sy, sxy);
            SolvesSums(n, sx, sxx, sy, sxy, l.intercept, l.slope)
  {
    var d := n * sxx - sx * sx;
    var b := (n * sxy - sx * sy) / d;
    var a := (sy - b * sx) / n;
    assert b * d == n * sxy - sx * sy;
    assert n * a == sy - b * sx;
    assert n * (sxy - a * sx - b * sxx) == n * sxy - (sy - b * sx) * sx - n * b * sxx;
  }

  /** The fitted line of a series with at least two points. */
  function OlsFit(s: seq<real>): (l: Line)
    requires |s| >= 2
  {
    FitOfSums(|s|, SumX(|s|), SumXX(|s|), Sum(s), SumXY(s))
  }

  /** The line for `n` points whose x-sums are those of 0 .. n-1; for such
      sums the divisor is positive, so the caller need not show it. */
  function FitOfSums(n: nat, sx: real, sxx: real, sy: real, sxy: real): Line
    requires n >= 2 && sx == SumX(n) && sxx == SumXX(n)
  {
    DenominatorPositive(n);
    FitFromSums(n as real, sx, sxx, sy, sxy)
  }

  /** The fitted line is a least-squares line: it solves the normal equations. */
  lemma {:induction false} OlsFitSolvesNormalEquations(s: seq<real>)
    requires |s| >= 2
    ensures NormalEquations(s, OlsFit(s))
  {
    DenominatorPositive(|s|);
    FitFromSumsSolves(|s| as real, SumX(|s|), SumXX(|s|), Sum(s), SumXY(s));
    NormalEquationsAsSums(s, OlsFit(s));
  }

  /** With at least two points the normal equations have only one solution. */
  lemma {:induction false} NormalEquationsUnique(s: seq<real>, l1: Line, l2: Line)
    requires |s| >= 2
    requires NormalEquations(s, l1) && NormalEquations(s, l2)
    ensures l1 == l2
  {
    NormalEquationsAsSums(s, l1);
    NormalEquationsAsSums(s, l2);
    SumsSolutionUnique(|s|, SumX(|s|), SumXX(|s|), Sum(s), SumXY(s), l1, l2);
  }

  lemma {:induction false} SumsSolutionUnique(n: nat, sx: real, sxx: real, sy: real, sxy: real, l1: Line, l2: Line)
    requires n >= 2 && sx == SumX(n) && sxx == SumXX(n)
    requires SolvesSums(n as real, sx, sxx, sy, sxy, l1.intercept, l1.slope)
    requires SolvesSums(n as real, sx, sxx, sy, sxy, l2.intercept, l2.slope)
    ensures l1 == l2
  {
    DenominatorPositive(n);
    UniqueAlgebra(n as real, sx, sxx, sy, sxy, l1.intercept, l1.slope, l2.intercept, l2.slope);
  }

  lemma UniqueAlgebra(n: real, sx: real, sxx: real, sy: real, sxy: real,
                      a1: real, b1: real, a2: real, b2: real)
    requires n * sxx - sx * sx > 0.0
    requires SolvesSums(n, sx, sxx, sy, sxy, a1, b1) && SolvesSums(n, sx, sxx, sy, sxy, a2, b2)
    ensures a1 == a2 && b1 == b2
  {
    var da, db := a1 - a2, b1 - b2;
    assert n * da + db * sx == 0.0;
    assert da * sx + db * sxx == 0.0;
    assert db * (n * sxx - sx * sx) == n * (da * sx + db * sxx) - sx * (n * da + db * sx);
    assert db == 0.0;
    assert n * da == 0.0;
  }

  /** Every point of `s` lies on `l`. */
  predicate OnLine(s: seq<real>, l: Line) {
    forall i :: 0 <= i < |s| ==> s[i] == l.At(i as real)
  }

  /** Points exactly on a line are fitted by that very line. */
  lemma {:induction false} PerfectLineIsFitted(s: seq<real>, l: Line)
    requires |s| >= 2 && OnLine(s, l)
    ensures OlsFit(s) == l
  {
    var r := Residuals(s, l);
    forall i | 0 <= i < |r|
      ensures r[i] == 0.0
    {
      ResidualAt(s, l, i);
    }
    ZeroSums(r);
    OlsFitSolvesNormalEquations(s);
    NormalEquationsUnique(s, OlsFit(s), l);
  }

  lemma {:induction false} ZeroSums(r: seq<real>)
    requires forall i :: 0 <= i < |r| ==> r[i] == 0.0
    ensures Sum(r) == 0.0 && SumXY(r) == 0.0
    decreases |r|
  {
    if |r| > 0 {
      ZeroSums(r[..|r| - 1]);
      TimesZero(|r| - 1);
    }
  }

  /** `regressionForecast(series, count)` as a value: `count` points; zeros
      for an empty series, copies of the only point for a single one, and
      otherwise the fitted line at x = n - 1 + 1, n - 1 + 2, ... */
  function Forecast(series: seq<real>, count: nat): (r: seq<real>)
    ensures |r| == count
    ensures |series| == 0 ==> forall j :: 0 <= j < count ==> r[j] == 0.0
    ensures |series| == 1 ==> forall j :: 0 <= j < count ==> r[j] == series[0]
  {
    if |series| < 2 then
      Fill(count, if |series| == 1 then series[0] else 0.0)
    else
      Extrapolate(OlsFit(series), |series|, count)
  }

  /** `Array(count).fill(v)`. */
  function Fill(count: nat, v: real): (r: seq<real>)
    ensures |r| == count && forall j :: 0 <= j < count ==> r[j] == v
  {
    seq(count, _ => v)
  }

  /** The line at x = n - 1 + 1, ..., n - 1 + count: the `count` points after
      the last of `n` observations. */
  function Extrapolate(fit: Line, n: nat, count: nat): (r: seq<real>)
    ensures |r| == count
  {
    seq(count, j => fit.At((n - 1 + (j + 1)) as real))
  }

  lemma {:induction false} ExtrapolateSnoc(fit: Line, n: nat, c: nat)
    ensures Extrapolate(fit, n, c + 1) == Extrapolate(fit, n, c) + [fit.At((n - 1 + (c + 1)) as real)]
  {
    assert Extrapolate(fit, n, c + 1)[..c] == Extrapolate(fit, n, c);
  }

  /** From two points on, the forecast extends whichever line solves the
      least-squares normal equations for the series. */
  lemma {:induction false} ForecastExtendsLeastSquaresLine(series: seq<real>, count: nat, l: Line)
    requires |series| >= 2 && NormalEquations(series, l)
    ensures forall j :: 0 <= j < count ==> Forecast(series, count)[j] == l.At((|series| - 1 + (j + 1)) as real)
  {
    OlsFitSolvesNormalEquations(series);
    NormalEquationsUnique(series, OlsFit(series), l);
  }

  /** A series exactly on y = a + b x is continued exactly. */
  lemma {:induction false} PerfectLineForecast(series: seq<real>, count: nat, l: Line)
    requires |series| >= 2 && OnLine(series, l)
    ensures forall j :: 0 <= j < count ==> Forecast(series, count)[j] == l.At((|series| - 1 + (j + 1)) as real)
  {
    PerfectLineIsFitted(series, l);
  }

  /** A non-empty constant series forecasts that constant, whatever its length. */
  lemma {:induction false} ConstantForecast(series: seq<real>, c: real, count: nat)
    requires |series| >= 1
    requires forall i :: 0 <= i < |series| ==> series[i] == c
    ensures forall j :: 0 <= j < count ==> Forecast(series, count)[j] == c
  {
    if |series| >= 2 {
      PerfectLineForecast(series, count, Line(c, 0.0));
    }
  }

  /** A worked case: 1, 2, 3, 4 continues with 5, 6, 7. */
  lemma ForecastOfOneToFour()
    ensures Forecast([1.0, 2.0, 3.0, 4.0], 3) == [5.0, 6.0, 7.0]
  {
    var s := [1.0, 2.0, 3.0, 4.0];
    PerfectLineForecast(s, 3, Line(1.0, 1.0));
  }

  /** The accumulation loop of compare.js lines 67-75: one pass over the
      series for the four running sums. */
  method RunningSums(series: seq<real>) returns (sumX: real, sumXX: real, sumY: real, sumXY: real)
    ensures sumX == SumX(|series|) && sumXX == SumXX(|series|)
    ensures sumY == Sum(series) && sumXY == SumXY(series)
  {
    sumX, sumY, sumXY, sumXX := 0.0, 0.0, 0.0, 0.0;
    var i := 0;
    while i < |series|
      invariant 0 <= i <= |series|
      invariant sumX == SumX(i) && sumXX == SumXX(i)
      invariant sumY == Sum(series[..i]) && sumXY == SumXY(series[..i])
    {
      PrefixSumsStep(series, i);
      sumX := sumX + i as real;
      sumY := sumY + series[i];
      sumXY := sumXY + i as real * series[i];
      sumXX := sumXX + i as real * i as real;
      i := i + 1;
    }
    assert series[..i] == series;
  }

  /** The extrapolation loop of compare.js lines 82-85: the line at
      x = n - 1 + i for i = 1 .. count. */
  method ExtendLine(fit: Line, n: nat, count: nat) returns (out: seq<real>)
    ensures out == Extrapolate(fit, n, count)
  {
    out := [];
    var k := 1;
    while k <= count
      invariant 1 <= k <= count + 1
      invariant |out| == k - 1
      invariant out == Extrapolate(fit, n, |out|)
    {
      var x := n - 1 + k;
      ghost var prev := out;
      ExtrapolateSnoc(fit, n, |prev|);
      assert x == n - 1 + (|prev| + 1);
      out := out + [fit.intercept + fit.slope * x as real];
      assert |out| == |prev| + 1;
      k := k + 1;
    }
    assert |out| == count;
  }

  /** `regressionForecast` as the source computes it: the short-series
      fallback, or the two loops around the fitted line. */
  method RegressionForecast(series: seq<real>, count: nat) returns (out: seq<real>)
    ensures out == Forecast(series, count)
  {
    var n := |series|;
    if n < 2 {
      out := Fill(count, if n == 1 then series[0] else 0.0);
    } else {
      out := FitAndExtend(series, count);
    }
  }

  /** The body of `regressionForecast` from two points on. */
  method FitAndExtend(series: seq<real>, count: nat) returns (out: seq<real>)
    requires |series| >= 2
    ensures out == Extrapolate(OlsFit(series), |series|, count)
  {
    var n := |series|;
    var sumX, sumXX, sumY, sumXY := RunningSums(series);
    var fit := FitOfSums(n, sumX, sumXX, sumY, sumXY);
    out := ExtendLine(fit, n, count);
  }
}
