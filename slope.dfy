/** The log-linear slope estimator of the state-machine engine
    (`StateMachineEngine._calculate_slope`): an ordinary-least-squares slope
    of log(value) against the sample index 0..n-1, times 100, i.e. a growth
    rate in percent per sample. */
module Slope {
  import opened Series

  /** The one law of `math.log` the model relies on. The logarithm itself is
      a parameter of every member that needs it, so nothing else about its
      values is assumed. */
  ghost predicate LogLaw(log: real -> real)
  {
    forall a: real, b: real :: 0.0 < a && 0.0 < b ==> log(Product(a, b)) == log(a) + log(b)
  }

  /** a * b, named so that the law above is used only where a proof
      mentions a product of two positive reals. */
  function Product(a: real, b: real): (r: real)
  {
    a * b
  }

  /** `sum(range(n))`, whose quotient by n is the regression's x_mean. */
  function IndexSum(n: nat): (r: real)
  {
    if n == 0 then 0.0 else IndexSum(n - 1) + (n - 1) as real
  }

  /** Sum over i < k of (i - xMean) * (ys[i] - yMean): the regression numerator. */
  function CrossSum(ys: seq<real>, k: nat, xMean: real, yMean: real): (r: real)
    requires k <= |ys|
  {
    if k == 0 then 0.0
    else CrossSum(ys, k - 1, xMean, yMean) + ((k - 1) as real - xMean) * (ys[k - 1] - yMean)
  }

  /** Sum over i < k of (i - xMean)^2: the regression denominator. */
  function SquareSum(k: nat, xMean: real): (r: real)
  {
    if k == 0 then 0.0
    else SquareSum(k - 1, xMean) + ((k - 1) as real - xMean) * ((k - 1) as real - xMean)
  }

  /** Least-squares slope of ys against the indices 0..n-1, or 0.0 when the
      denominator is 0. */
  function RegressionSlope(ys: seq<real>): (r: real)
    requires |ys| >= 1
  {
    var n := |ys| as real;
    var xMean := IndexSum(|ys|) / n;
    var yMean := Sum(ys) / n;
    var denominator := SquareSum(|ys|, xMean);
    if denominator == 0.0 then 0.0 else CrossSum(ys, |ys|, xMean, yMean) / denominator
  }

  /** `[v for v in s if v > 0]` */
  function Positives(s: seq<real>): (r: seq<real>)
    ensures |r| == CountPositive(s) <= |s|
    ensures forall x :: x in r <==> x in s && x > 0.0
    ensures forall i :: 0 <= i < |r| ==> r[i] > 0.0
    ensures |r| == |s| ==> r == s
    ensures (forall i :: 0 <= i < |s| ==> s[i] > 0.0) ==> r == s
  {
    if s == [] then []
    else if s[0] > 0.0 then [s[0]] + Positives(s[1..])
    else Positives(s[1..])
  }

  /** The filter keeps the order of its input: filtering a concatenation
      concatenates the filtered parts. */
  lemma {:induction false} PositivesAppend(a: seq<real>, b: seq<real>)
    ensures Positives(a + b) == Positives(a) + Positives(b)
  {
    if a != [] {
      assert (a + b)[1..] == a[1..] + b;
      PositivesAppend(a[1..], b);
    } else {
      assert a + b == b;
    }
  }

  /** One value is kept exactly when it is positive. */
  lemma PositivesSingle(x: real)
    ensures Positives([x]) == if x > 0.0 then [x] else []
  {
    assert [x][1..] == [];
  }

  /** `[log(v) for v in s]` */
  function Logs(log: real -> real, s: seq<real>): (r: seq<real>)
    ensures |r| == |s|
    ensures forall i :: 0 <= i < |s| ==> r[i] == log(s[i])
  {
    seq(|s|, i requires 0 <= i < |s| => log(s[i]))
  }

  /** The values the regression reads: the last `periods` values, replaced
      by only their positive members when some of them are not positive.
      Every value in it is positive, so `math.log` never fails on it. */
  function Window(values: seq<real>, periods: nat): (w: seq<real>)
    requires 1 <= periods <= |values|
    ensures |w| <= periods
    ensures forall i :: 0 <= i < |w| ==> w[i] > 0.0
    ensures |w| == periods ==> w == values[|values| - periods..]
    ensures (forall j :: |values| - periods <= j < |values| ==> values[j] > 0.0) ==>
      w == values[|values| - periods..]
    ensures |w| < periods ==> w == Positives(values[|values| - periods..])
  {
    var recent := values[|values| - periods..];
    assert forall i :: 0 <= i < |recent| ==> recent[i] == values[|values| - periods + i];
    RecentWindow(recent, periods)
  }

  /** The window chosen from the last `periods` values. */
  function RecentWindow(recent: seq<real>, periods: nat): (w: seq<real>)
  {
    var valid := Positives(recent);
    if |valid| < periods then valid else recent
  }

  /** `_calculate_slope(values, periods)`. Callers always pass a positive
      window size. */
  function CalculateSlope(log: real -> real, values: seq<real>, periods: nat): (r: real)
    requires periods >= 1
    ensures |values| < periods ==> r == 0.0
    ensures |values| >= periods && |Window(values, periods)| < 2 ==> r == 0.0
  {
    if |values| < periods then 0.0
    else
      var window := Window(values, periods);
      if |window| < periods && |window| < 2 then 0.0
      else RegressionSlope(Logs(log, window)) * 100.0
  }

  // ---------------------------------------------------------------------
  // The regression's denominator

  lemma {:induction false} IndexSumClosedForm(n: nat)
    ensures IndexSum(n) == (n as real) * (n as real - 1.0) / 2.0
  {
    if n > 0 {
      IndexSumClosedForm(n - 1);
    }
  }

  lemma {:induction false} SquareSumGrows(k: nat, j: nat, xMean: real)
    requires j <= k
    ensures SquareSum(j, xMean) <= SquareSum(k, xMean)
  {
    if j < k {
      SquareSumGrows(k - 1, j, xMean);
      var t := (k - 1) as real - xMean;
      assert t * t >= 0.0;
    }
  }

  /** The denominator vanishes for a single point and only then. */
  lemma SquareSumPositive(k: nat, xMean: real)
    requires k >= 2
    ensures SquareSum(k, xMean) > 0.0
  {
    SquareSumGrows(k, 2, xMean);
    var t0, t1 := 0.0 - xMean, 1.0 - xMean;
    assert SquareSum(1, xMean) == t0 * t0;
    assert SquareSum(2, xMean) == t0 * t0 + t1 * t1;
    if t0 == 0.0 {
      assert t1 * t1 > 0.0;
    } else {
      assert t0 * t0 > 0.0;
      assert t1 * t1 >= 0.0;
    }
  }

  /** With n >= 2 values in the window the denominator is never 0, and with
      one value it always is. */
  lemma DenominatorZeroIffSinglePoint(ys: seq<real>)
    requires |ys| >= 1
    ensures (SquareSum(|ys|, IndexSum(|ys|) / |ys| as real) == 0.0) <==> |ys| == 1
  {
    if |ys| >= 2 {
      SquareSumPositive(|ys|, IndexSum(|ys|) / |ys| as real);
    }
  }

  // ---------------------------------------------------------------------
  // Shifting every log-value by a constant

  function Shift(c: real, s: seq<real>): (r: seq<real>)
    ensures |r| == |s|
  {
    seq(|s|, i requires 0 <= i < |s| => s[i] + c)
  }

  function Scale(k: real, s: seq<real>): (r: seq<real>)
    ensures |r| == |s|
  {
    if s == [] then [] else [Product(k, s[0])] + Scale(k, s[1..])
  }

  lemma {:induction false} ScaleAt(k: real, s: seq<real>, i: nat)
    requires i < |s|
    ensures Scale(k, s)[i] == Product(k, s[i])
  {
    if i > 0 {
      ScaleAt(k, s[1..], i - 1);
    }
  }

  lemma ProductSign(k: real, x: real)
    requires k > 0.0
    ensures Product(k, x) > 0.0 <==> x > 0.0
  {
    if x > 0.0 {
      assert k * x > 0.0;
    } else {
      assert k * x <= 0.0;
    }
  }

  lemma {:induction false} ScaleSuffix(k: real, s: seq<real>, m: nat)
    requires m <= |s|
    ensures Scale(k, s)[m..] == Scale(k, s[m..])
  {
    if m > 0 {
      assert s[1..][m - 1..] == s[m..];
      ScaleSuffix(k, s[1..], m - 1);
    }
  }

  lemma {:induction false} SumShift(c: real, ys: seq<real>)
    ensures Sum(Shift(c, ys)) == Sum(ys) + |ys| as real * c
  {
    if ys != [] {
      assert Shift(c, ys)[1..] == Shift(c, ys[1..]);
      SumShift(c, ys[1..]);
    }
  }

  /** Two series whose deviations from their means agree point by point have
      the same regression numerator. */
  lemma {:induction false} CrossSumCongruent(ys: seq<real>, zs: seq<real>, k: nat, xMean: real, yMean: real, zMean: real)
    requires k <= |ys| && k <= |zs|
    requires forall i :: 0 <= i < k ==> ys[i] - yMean == zs[i] - zMean
    ensures CrossSum(ys, k, xMean, yMean) == CrossSum(zs, k, xMean, zMean)
  {
    if k > 0 {
      CrossSumCongruent(ys, zs, k - 1, xMean, yMean, zMean);
      var t, dy, dz := (k - 1) as real - xMean, ys[k - 1] - yMean, zs[k - 1] - zMean;
      assert dy == dz;
      assert t * dy == t * dz;
      assert CrossSum(ys, k, xMean, yMean) == CrossSum(ys, k - 1, xMean, yMean) + t * dy;
      assert CrossSum(zs, k, xMean, zMean) == CrossSum(zs, k - 1, xMean, zMean) + t * dz;
    }
  }

  lemma RegressionShift(c: real, ys: seq<real>)
    requires |ys| >= 1
    ensures RegressionSlope(Shift(c, ys)) == RegressionSlope(ys)
  {
    var n := |ys| as real;
    var zs := Shift(c, ys);
    SumShift(c, ys);
    var yMean, zMean := Sum(ys) / n, Sum(zs) / n;
    assert zMean == yMean + c by {
      assert Sum(zs) == Sum(ys) + n * c;
      assert (Sum(ys) + n * c) / n == Sum(ys) / n + c;
    }
    CrossSumCongruent(ys, zs, |ys|, IndexSum(|ys|) / n, yMean, zMean);
  }

  lemma ScaleCons(k: real, x: real, rest: seq<real>)
    ensures Scale(k, [x] + rest) == [Product(k, x)] + Scale(k, rest)
  {
    var xs := [x] + rest;
    assert xs[0] == x && xs[1..] == rest;
  }

  lemma {:induction false} PositivesScale(k: real, s: seq<real>)
    requires k > 0.0
    ensures Positives(Scale(k, s)) == Scale(k, Positives(s))
  {
    if s != [] {
      var scaled, tail := Scale(k, s), Scale(k, s[1..]);
      assert scaled == [Product(k, s[0])] + tail;
      assert scaled[0] == Product(k, s[0]) && scaled[1..] == tail;
      PositivesScale(k, s[1..]);
      ProductSign(k, s[0]);
      var rest := Positives(s[1..]);
      if s[0] > 0.0 {
        ScaleCons(k, s[0], rest);
        calc {
          Positives(scaled);
          [Product(k, s[0])] + Positives(tail);
          [Product(k, s[0])] + Scale(k, rest);
          Scale(k, [s[0]] + rest);
          Scale(k, Positives(s));
        }
      } else {
        assert Positives(s) == rest;
        assert Positives(scaled) == Positives(tail);
      }
    }
  }

  lemma WindowScale(k: real, values: seq<real>, periods: nat)
    requires k > 0.0
    requires 1 <= periods <= |values|
    ensures Window(Scale(k, values), periods) == Scale(k, Window(values, periods))
  {
    var recent := values[|values| - periods..];
    ScaleSuffix(k, values, |values| - periods);
    PositivesScale(k, recent);
  }

  lemma LogsScale(log: real -> real, k: real, w: seq<real>)
    requires LogLaw(log)
    requires k > 0.0
    requires forall i :: 0 <= i < |w| ==> w[i] > 0.0
    ensures Logs(log, Scale(k, w)) == Shift(log(k), Logs(log, w))
  {
    forall i | 0 <= i < |w|
      ensures Logs(log, Scale(k, w))[i] == Shift(log(k), Logs(log, w))[i]
    {
      ScaleAt(k, w, i);
      assert log(Product(k, w[i])) == log(k) + log(w[i]);
    }
  }

  /** Multiplying every value by one positive constant leaves the slope
      unchanged: the constant only shifts every log-value. */
  lemma ScaleInvariance(log: real -> real, k: real, values: seq<real>, periods: nat)
    requires LogLaw(log)
    requires k > 0.0
    requires periods >= 1
    ensures CalculateSlope(log, Scale(k, values), periods) == CalculateSlope(log, values, periods)
  {
    if |values| >= periods {
      var w := Window(values, periods);
      WindowScale(k, values, periods);
      if !(|w| < periods && |w| < 2) {
        LogsScale(log, k, w);
        RegressionShift(log(k), Logs(log, w));
      }
    }
  }

  // ---------------------------------------------------------------------
  // Log-values on a straight line

  lemma {:induction false} SumAffine(ys: seq<real>, a: real, b: real)
    requires forall i :: 0 <= i < |ys| ==> ys[i] == a + b * i as real
    ensures Sum(ys) == |ys| as real * a + b * IndexSum(|ys|)
  {
    if ys != [] {
      var n := |ys|;
      forall i | 0 <= i < n - 1
        ensures ys[1..][i] == (a + b) + b * i as real
      {
        assert ys[1..][i] == ys[i + 1];
      }
      SumAffine(ys[1..], a + b, b);
      IndexSumClosedForm(n);
      IndexSumClosedForm(n - 1);
      assert Sum(ys) == a + ((n - 1) as real * (a + b) + b * IndexSum(n - 1));
    }
  }

  lemma {:induction false} CrossSumLinear(ys: seq<real>, k: nat, xMean: real, yMean: real, b: real)
    requires k <= |ys|
    requires forall i :: 0 <= i < k ==> ys[i] - yMean == b * (i as real - xMean)
    ensures CrossSum(ys, k, xMean, yMean) == b * SquareSum(k, xMean)
  {
    if k > 0 {
      CrossSumLinear(ys, k - 1, xMean, yMean, b);
      var t := (k - 1) as real - xMean;
      assert ys[k - 1] - yMean == b * t;
      assert t * (b * t) == b * (t * t);
    }
  }

  /** Points exactly on a line a + b*i have regression slope b. */
  lemma RegressionOfLine(ys: seq<real>, a: real, b: real)
    requires |ys| >= 2
    requires forall i :: 0 <= i < |ys| ==> ys[i] == a + b * i as real
    ensures RegressionSlope(ys) == b
  {
    var n := |ys| as real;
    var xMean := IndexSum(|ys|) / n;
    SumAffine(ys, a, b);
    var yMean := Sum(ys) / n;
    assert yMean == a + b * xMean by {
      assert (n * a + b * IndexSum(|ys|)) / n == a + b * (IndexSum(|ys|) / n);
    }
    forall i | 0 <= i < |ys|
      ensures ys[i] - yMean == b * (i as real - xMean)
    {
    }
    CrossSumLinear(ys, |ys|, xMean, yMean, b);
    SquareSumPositive(|ys|, xMean);
  }

  /** If the log-values of the last `periods` values are a + b*i, the slope
      is 100*b percent per sample. */
  lemma LinearLogSlope(log: real -> real, values: seq<real>, periods: nat, a: real, b: real)
    requires 2 <= periods <= |values|
    requires forall j :: |values| - periods <= j < |values| ==> values[j] > 0.0
    requires forall j :: |values| - periods <= j < |values| ==>
      log(values[j]) == a + b * (j - (|values| - periods)) as real
    ensures CalculateSlope(log, values, periods) == 100.0 * b
  {
    var recent := values[|values| - periods..];
    assert forall i :: 0 <= i < periods ==> recent[i] == values[|values| - periods + i];
    assert Window(values, periods) == recent;
    RegressionOfLine(Logs(log, recent), a, b);
  }

  lemma {:induction false} PositivesOfNonPositives(s: seq<real>)
    requires forall i :: 0 <= i < |s| ==> s[i] <= 0.0
    ensures Positives(s) == []
  {
    if s != [] {
      PositivesOfNonPositives(s[1..]);
    }
  }

  /** A constant series has slope 0.0, whatever the constant. */
  lemma ConstantSeriesSlopeZero(log: real -> real, values: seq<real>, periods: nat, c: real)
    requires periods >= 1
    requires forall i :: 0 <= i < |values| ==> values[i] == c
    ensures CalculateSlope(log, values, periods) == 0.0
  {
    if |values| >= periods {
      var recent := values[|values| - periods..];
      if c <= 0.0 {
        PositivesOfNonPositives(recent);
      } else if periods >= 2 {
        LinearLogSlope(log, values, periods, log(c), 0.0);
      }
    }
  }

  /** The slope reads only the last `periods` values. */
  lemma SlopeOfSuffix(log: real -> real, older: seq<real>, values: seq<real>, periods: nat)
    requires 1 <= periods <= |values|
    ensures CalculateSlope(log, older + values, periods) == CalculateSlope(log, values, periods)
  {
    WindowOfSuffix(older, values, periods);
  }

  lemma WindowOfSuffix(older: seq<real>, values: seq<real>, periods: nat)
    requires 1 <= periods <= |values|
    ensures Window(older + values, periods) == Window(values, periods)
  {
    var all := older + values;
    assert all[|all| - periods..] == values[|values| - periods..];
    assert Window(all, periods) == RecentWindow(all[|all| - periods..], periods);
  }

  // ---------------------------------------------------------------------
  // Geometric series

  function Power(r: real, i: nat): (v: real)
  {
    if i == 0 then 1.0 else Product(Power(r, i - 1), r)
  }

  lemma {:induction false} PowerPositive(r: real, i: nat)
    requires r > 0.0
    ensures Power(r, i) > 0.0
  {
    if i > 0 {
      PowerPositive(r, i - 1);
      ProductSign(Power(r, i - 1), r);
      assert Product(Power(r, i - 1), r) == Product(r, Power(r, i - 1));
    }
  }

  lemma ProductAssoc(a: real, b: real, c: real)
    ensures Product(a, Product(b, c)) == Product(Product(a, b), c)
  {
  }

  /** The point a + b*i of a line, built by repeated addition. */
  function Line(a: real, b: real, i: nat): (y: real)
  {
    if i == 0 then a else Line(a, b, i - 1) + b
  }

  lemma {:induction false} LineClosedForm(a: real, b: real, i: nat)
    ensures Line(a, b, i) == a + b * i as real
  {
    if i > 0 {
      LineClosedForm(a, b, i - 1);
      assert b * (i - 1) as real + b == b * i as real;
    }
  }

  /** LinearLogSlope, with the line given point by point. */
  lemma LineLogSlope(log: real -> real, values: seq<real>, periods: nat, a: real, b: real)
    requires 2 <= periods <= |values|
    requires forall j :: |values| - periods <= j < |values| ==> values[j] > 0.0
    requires forall j :: |values| - periods <= j < |values| ==>
      log(values[j]) == Line(a, b, j - (|values| - periods))
    ensures CalculateSlope(log, values, periods) == 100.0 * b
  {
    forall j | |values| - periods <= j < |values|
      ensures log(values[j]) == a + b * (j - (|values| - periods)) as real
    {
      LineClosedForm(a, b, j - (|values| - periods));
    }
    LinearLogSlope(log, values, periods, a, b);
  }

  lemma {:induction false} LogOfGeometricTerm(log: real -> real, v0: real, r: real, i: nat)
    requires LogLaw(log)
    requires v0 > 0.0 && r > 0.0
    ensures log(Product(v0, Power(r, i))) == Line(log(v0), log(r), i)
  {
    if i == 0 {
      assert Product(v0, Power(r, 0)) == v0;
    } else {
      LogOfGeometricTerm(log, v0, r, i - 1);
      var q := Power(r, i - 1);
      var p := Product(v0, q);
      PowerPositive(r, i - 1);
      ProductSign(v0, q);
      ProductAssoc(v0, q, r);
      assert Product(v0, Power(r, i)) == Product(p, r);
      assert log(Product(p, r)) == log(p) + log(r);
    }
  }

  /** `v0, v0*r, v0*r^2, ...` */
  function Geometric(v0: real, r: real, n: nat): (s: seq<real>)
    ensures |s| == n
  {
    seq(n, i requires 0 <= i < n => Product(v0, Power(r, i)))
  }

  /** A window growing by a constant ratio r per sample has slope
      100*log(r), whatever values precede it. */
  lemma GeometricSlope(log: real -> real, older: seq<real>, v0: real, r: real, periods: nat)
    requires LogLaw(log)
    requires v0 > 0.0 && r > 0.0
    requires periods >= 2
    ensures CalculateSlope(log, older + Geometric(v0, r, periods), periods) == 100.0 * log(r)
  {
    var values := Geometric(v0, r, periods);
    SlopeOfSuffix(log, older, values, periods);
    forall j | |values| - periods <= j < |values|
      ensures values[j] > 0.0
      ensures log(values[j]) == Line(log(v0), log(r), j - (|values| - periods))
    {
      assert j - (|values| - periods) == j;
      assert values[j] == Product(v0, Power(r, j));
      PowerPositive(r, j);
      ProductSign(v0, Power(r, j));
      LogOfGeometricTerm(log, v0, r, j);
    }
    LineLogSlope(log, values, periods, log(v0), log(r));
  }

}
