/**
 * GPMetrics: the diagnostics computed from the regression model's predicted
 * means and standard deviations at the validation points, against the true
 * validation observations. The predictions themselves (the GP posterior) and the
 * NLL are library numerics and enter as values; what is modelled is the exact
 * arithmetic the class does with them.
 */
module GPMetrics {
  import opened Floats

  /** Metrics that read the predicted means, so need them refreshed first. */
  const RequiresMean: set<string> := {"mae", "calibration_err", "residuals", "pis"}

  /** Metrics that read the predicted standard deviations. */
  const RequiresStddev: set<string> := {"sharpness", "variation"}

  /** The metric properties of the class. */
  const Properties: set<string> :=
    {"nll", "mae", "sharpness", "variation", "calibration_err", "residuals", "pis"}

  /** The other members of a GPMetrics instance: fields, methods, class constants. */
  const OtherMembers: set<string> :=
    {"REQUIRES_MEAN", "REQUIRES_STDDEV", "val_points", "val_obs", "gp_trainer", "gprm",
     "mean", "stddevs", "update_mean", "update_stddevs", "sharpness_plot", "calibration_plot"}

  /** The members every Python object inherits from `object` (CPython 3.6 to 3.10). */
  const ObjectMembers: set<string> :=
    {"__class__", "__delattr__", "__dict__", "__dir__", "__doc__", "__eq__", "__format__",
     "__ge__", "__getattribute__", "__gt__", "__hash__", "__init__", "__init_subclass__",
     "__le__", "__lt__", "__module__", "__ne__", "__new__", "__reduce__", "__reduce_ex__",
     "__repr__", "__setattr__", "__sizeof__", "__str__", "__subclasshook__", "__weakref__"}

  /** Every name `getattr(gp_metrics, name)` resolves. */
  const Attributes: set<string> := Properties + OtherMembers + ObjectMembers

  /** The metrics whose value depends on the predicted means. */
  const MeanReaders: set<string> := {"mae", "calibration_err", "residuals", "pis"}

  /** The metrics whose value depends on the predicted standard deviations. */
  const StddevReaders: set<string> := {"sharpness", "variation", "calibration_err", "pis"}

  /**
   * What is fixed for one GPMetrics instance: the true validation observations,
   * the 100 standard-normal quantiles `norm.quantile(linspace(0, 1, 100))` and
   * numpy's square root, the last two being foreign numerics.
   */
  datatype Validation = Validation(obs: seq<real>, bounds: seq<Float>, sqrt: real -> real)

  /** The cached `mean` and `stddevs` of a GPMetrics instance. */
  datatype Predictions = Predictions(mean: seq<real>, stddevs: seq<real>)

  /** Predictions and observations line up, and there is one bound per level. */
  predicate Fits(p: Predictions, v: Validation) {
    |p.mean| == |v.obs| && |p.stddevs| == |v.obs| && |v.bounds| == 100
  }

  /** `residuals`: predicted mean minus observation, point by point. */
  function Residuals(mean: seq<real>, obs: seq<real>): (r: seq<real>)
    requires |mean| == |obs|
    ensures |r| == |mean|
    ensures forall i :: 0 <= i < |r| ==> obs[i] + r[i] == mean[i]
  {
    seq(|mean|, i requires 0 <= i < |mean| => mean[i] - obs[i])
  }

  function SumAbs(xs: seq<real>): (r: real)
    ensures r >= 0.0
  {
    if xs == [] then 0.0 else (if xs[0] < 0.0 then -xs[0] else xs[0]) + SumAbs(xs[1..])
  }

  function SumSquares(xs: seq<real>): (r: real)
    ensures r >= 0.0
  {
    if xs == [] then 0.0 else xs[0] * xs[0] + SumSquares(xs[1..])
  }

  function Sum(xs: seq<real>): real {
    if xs == [] then 0.0 else xs[0] + Sum(xs[1..])
  }

  /** `mae`: the mean absolute residual; NaN on an empty validation set. */
  function Mae(mean: seq<real>, obs: seq<real>): (r: Float)
    requires |mean| == |obs|
    ensures r.NaN? <==> |mean| == 0
    ensures r.Num? ==> r.v >= 0.0
  {
    if |mean| == 0 then NaN
    else Num(SumAbs(Residuals(mean, obs)) / (|mean| as real))
  }

  /** `np.mean(np.square(stddevs))` for a non-empty vector. */
  function MeanSquare(stddevs: seq<real>): (r: real)
    requires |stddevs| > 0
    ensures r >= 0.0
  {
    SumSquares(stddevs) / (|stddevs| as real)
  }

  /** What the sharpness of non-empty stddevs is: the non-negative root of their mean square. */
  ghost predicate IsSharpness(stddevs: seq<real>, s: real) {
    |stddevs| > 0 && s >= 0.0 && s * s == MeanSquare(stddevs)
  }

  /** `sharpness`: root mean square of the stddevs; NaN on an empty vector. */
  function Sharpness(stddevs: seq<real>, sqrt: real -> real): (r: Float)
    ensures r.NaN? <==> |stddevs| == 0
    ensures |stddevs| > 0 && sqrt(MeanSquare(stddevs)) >= 0.0
            && sqrt(MeanSquare(stddevs)) * sqrt(MeanSquare(stddevs)) == MeanSquare(stddevs)
            ==> r.Num? && IsSharpness(stddevs, r.v)
  {
    if |stddevs| == 0 then NaN else Num(sqrt(MeanSquare(stddevs)))
  }

  /** The stddevs minus their mean, the dispersion `variation` measures. */
  function Deviations(stddevs: seq<real>): (r: seq<real>)
    requires |stddevs| > 0
    ensures |r| == |stddevs|
  {
    var m := Sum(stddevs) / (|stddevs| as real);
    seq(|stddevs|, i requires 0 <= i < |stddevs| => stddevs[i] - m)
  }

  /**
   * `variation`: the root of the summed squared deviations divided by
   * mean * (n - 1), with numpy's division: a single point or a zero mean divides
   * by zero. NaN on an empty vector.
   */
  function Variation(stddevs: seq<real>, sqrt: real -> real): (r: Float)
    ensures |stddevs| == 0 ==> r.NaN?
  {
    if |stddevs| == 0 then NaN
    else
      var m := Sum(stddevs) / (|stddevs| as real);
      Div(Num(sqrt(SumSquares(Deviations(stddevs)))), Num(m * ((|stddevs| - 1) as real)))
  }

  lemma {:induction false} SumOfConstant(xs: seq<real>, c: real)
    requires forall i :: 0 <= i < |xs| ==> xs[i] == c
    ensures Sum(xs) == (|xs| as real) * c
  {
    if xs != [] {
      assert forall i :: 0 <= i < |xs[1..]| ==> xs[1..][i] == xs[i + 1];
      SumOfConstant(xs[1..], c);
    }
  }

  /**
   * With a single validation point the divisor mean * (n - 1) is zero and the
   * deviation is zero too, so `variation` is 0 / 0 = NaN.
   */
  lemma VariationOfOnePoint(s: real, sqrt: real -> real)
    requires sqrt(0.0) == 0.0
    ensures Variation([s], sqrt).NaN?
  {
    assert Sum([s]) == s + Sum([]);
    assert Deviations([s]) == [0.0];
    assert SumSquares([0.0]) == 0.0 * 0.0 + SumSquares([]);
  }

  /**
   * Identical non-zero stddevs over two or more points have no dispersion:
   * `variation` is exactly 0.
   */
  lemma VariationOfConstant(stddevs: seq<real>, c: real, sqrt: real -> real)
    requires |stddevs| >= 2 && c != 0.0 && sqrt(0.0) == 0.0
    requires forall i :: 0 <= i < |stddevs| ==> stddevs[i] == c
    ensures Variation(stddevs, sqrt) == Num(0.0)
  {
    var n := |stddevs| as real;
    SumOfConstant(stddevs, c);
    assert Sum(stddevs) / n == c;
    var d := Deviations(stddevs);
    assert forall i :: 0 <= i < |d| ==> d[i] == 0.0;
    SumSquaresOfZeros(d);
    PositiveProduct(n - 1.0, if c > 0.0 then c else -c);
    assert c * (n - 1.0) != 0.0;
  }

  /** `np.linspace(0, 1, 100)`: the nominal levels of the percentile intervals. */
  function Levels(): (r: seq<real>)
    ensures |r| == 100 && r[0] == 0.0 && r[99] == 1.0
    ensures forall i :: 0 <= i < 100 ==> r[i] == i as real / 99.0
    ensures forall i :: 0 <= i < 100 ==> 0.0 <= r[i] <= 1.0
    ensures forall i, j :: 0 <= i < j < 100 ==> r[i] < r[j]
  {
    seq(100, i requires 0 <= i < 100 => i as real / 99.0)
  }

  /** `residuals / stddevs` with numpy's division (a zero stddev gives an infinity or NaN). */
  function Normalised(mean: seq<real>, obs: seq<real>, stddevs: seq<real>): (r: seq<Float>)
    requires |mean| == |obs| == |stddevs|
    ensures |r| == |mean|
    ensures forall i :: 0 <= i < |r| && stddevs[i] != 0.0 ==> r[i] == Num((mean[i] - obs[i]) / stddevs[i])
  {
    var res := Residuals(mean, obs);
    seq(|mean|, i requires 0 <= i < |mean| => Div(Num(res[i]), Num(stddevs[i])))
  }

  /** `np.count_nonzero(xs <= b)`. */
  function CountAtMost(xs: seq<Float>, b: Float): (r: nat)
    ensures r <= |xs|
  {
    if xs == [] then 0 else (if AtMost(xs[0], b) then 1 else 0) + CountAtMost(xs[1..], b)
  }

  datatype Intervals = Intervals(predicted: seq<real>, observed: seq<Float>)

  /**
   * `pis`: the nominal levels, and for each quantile bound the fraction of
   * normalised residuals at or below it (0 / 0 = NaN on an empty validation set).
   */
  function Pis(p: Predictions, v: Validation): (r: Intervals)
    requires Fits(p, v)
    ensures r.predicted == Levels()
    ensures |r.observed| == 100
    ensures forall i :: 0 <= i < 100 ==>
      r.observed[i] == Div(Num(CountAtMost(Normalised(p.mean, v.obs, p.stddevs), v.bounds[i]) as real),
                           Num(|p.mean| as real))
  {
    var nr := Normalised(p.mean, v.obs, p.stddevs);
    Intervals(Levels(), seq(100, i requires 0 <= i < 100 =>
      Div(Num(CountAtMost(nr, v.bounds[i]) as real), Num(|nr| as real))))
  }

  /** `np.sum(np.square(predicted - observed))` over two equally long vectors. */
  function SumSquaredGaps(predicted: seq<real>, observed: seq<Float>): (r: Float)
    requires |predicted| == |observed|
    // A sum of squares is never negative: a number at least 0, +inf once a gap is
    // infinite, and NaN exactly when some observed value is NaN.
    ensures !r.NegInf? && (r.Num? ==> r.v >= 0.0)
    ensures r.NaN? <==> exists i :: 0 <= i < |observed| && observed[i].NaN?
    ensures (forall i :: 0 <= i < |observed| ==> observed[i].Num?) ==> r.Num?
  {
    if predicted == [] then Num(0.0)
    else
      var rest := SumSquaredGaps(predicted[1..], observed[1..]);
      assert forall i :: 1 <= i < |observed| ==> observed[i] == observed[1..][i - 1];
      Add(Square(Sub(Num(predicted[0]), observed[0])), rest)
  }

  /**
   * `calibration_err`: the summed squared gap between nominal and observed
   * coverage; a finite number at least 0 on a non-empty validation set, NaN
   * (every coverage being 0 / 0) on an empty one.
   */
  function CalibrationErr(p: Predictions, v: Validation): (r: Float)
    requires Fits(p, v)
    ensures |p.mean| > 0 ==> r.Num? && r.v >= 0.0
    ensures |p.mean| == 0 ==> r.NaN?
  {
    var pis := Pis(p, v);
    PisObservedInUnitInterval(p, v);
    if |p.mean| == 0 then
      assert pis.observed[0].NaN?;
      SumSquaredGaps(pis.predicted, pis.observed)
    else SumSquaredGaps(pis.predicted, pis.observed)
  }

  /** The metrics whose value is a single float. */
  const ScalarMetrics: set<string> := {"nll", "mae", "sharpness", "variation", "calibration_err"}

  /** What `getattr(gp_metrics, name)` can return. */
  datatype Value =
    | Number(x: Float)
    | Vector(xs: seq<real>)
    | Coverage(intervals: Intervals)
    | Member  // a field, method or constant that is not a metric

  /**
   * `getattr(gp_metrics, name)` for a name that resolves; `nll` is the
   * regression model's negative log probability, computed by the library and
   * passed in.
   */
  function Attribute(name: string, p: Predictions, v: Validation, nll: Float): (r: Value)
    requires Fits(p, v)
    ensures r.Number? <==> name in ScalarMetrics
    ensures r.Vector? <==> name == "residuals"
    ensures r.Coverage? <==> name == "pis"
  {
    if name == "nll" then Number(nll)
    else if name == "mae" then Number(Mae(p.mean, v.obs))
    else if name == "sharpness" then Number(Sharpness(p.stddevs, v.sqrt))
    else if name == "variation" then Number(Variation(p.stddevs, v.sqrt))
    else if name == "calibration_err" then Number(CalibrationErr(p, v))
    else if name == "residuals" then Vector(Residuals(p.mean, v.obs))
    else if name == "pis" then Coverage(Pis(p, v))
    else Member
  }

  lemma {:induction false} SumAbsZeroIff(xs: seq<real>)
    ensures SumAbs(xs) == 0.0 <==> forall i :: 0 <= i < |xs| ==> xs[i] == 0.0
  {
    if xs != [] {
      SumAbsZeroIff(xs[1..]);
      assert (forall i :: 0 <= i < |xs| ==> xs[i] == 0.0) <==>
        xs[0] == 0.0 && forall i :: 0 <= i < |xs[1..]| ==> xs[1..][i] == 0.0;
    }
  }

  /** A sum of squares is zero exactly when every term is zero. */
  lemma SumSquaresZeroIff(xs: seq<real>)
    ensures SumSquares(xs) == 0.0 <==> forall i :: 0 <= i < |xs| ==> xs[i] == 0.0
  {
    if forall i :: 0 <= i < |xs| ==> xs[i] == 0.0 {
      SumSquaresOfZeros(xs);
    } else {
      var k :| 0 <= k < |xs| && xs[k] != 0.0;
      SumSquaresPositive(xs, k);
    }
  }

  /** One non-zero term makes a sum of squares positive. */
  lemma SumSquaresPositive(xs: seq<real>, k: nat)
    requires k < |xs| && xs[k] != 0.0
    ensures SumSquares(xs) > 0.0
  {
    var z := seq(|xs|, i => 0.0);
    forall i | 0 <= i < |xs| ensures SquareAtMost(z[i], xs[i]) {
      SquareFromZero(xs[i]);
    }
    SquareFromZero(xs[k]);
    SumSquaresBelow(z, xs, k);
    SumSquaresOfZeros(z);
  }

  /** No square is below 0 squared, and only 0 has a square equal to it. */
  lemma SquareFromZero(x: real)
    ensures SquareAtMost(0.0, x)
    ensures x != 0.0 ==> SquareBelow(0.0, x)
  {
    if x > 0.0 {
      PositiveProduct(x, x);
    } else if x < 0.0 {
      PositiveProduct(-x, -x);
      assert x * x == -x * -x;
    }
  }

  predicate SquareAtMost(x: real, y: real) { x * x <= y * y }

  predicate SquareBelow(x: real, y: real) { x * x < y * y }

  /** A pointwise bound on the squares, strict at one index, bounds the sums strictly. */
  lemma {:induction false} SumSquaresBelow(a: seq<real>, b: seq<real>, m: nat)
    requires |a| == |b| && m < |a|
    requires forall i :: 0 <= i < |a| ==> SquareAtMost(a[i], b[i])
    requires SquareBelow(a[m], b[m])
    ensures SumSquares(a) < SumSquares(b)
  {
    assert forall i :: 0 <= i < |a[1..]| ==> a[1..][i] == a[i + 1] && b[1..][i] == b[i + 1];
    assert SumSquares(a) == a[0] * a[0] + SumSquares(a[1..]);
    assert SumSquares(b) == b[0] * b[0] + SumSquares(b[1..]);
    assert SquareAtMost(a[0], b[0]);
    if m == 0 {
      assert a[0] * a[0] < b[0] * b[0];
      SumSquaresAtMost(a[1..], b[1..]);
    } else {
      SumSquaresBelow(a[1..], b[1..], m - 1);
    }
  }

  lemma {:induction false} SumSquaresAtMost(a: seq<real>, b: seq<real>)
    requires |a| == |b|
    requires forall i :: 0 <= i < |a| ==> SquareAtMost(a[i], b[i])
    ensures SumSquares(a) <= SumSquares(b)
  {
    if a != [] {
      assert forall i :: 0 <= i < |a[1..]| ==> a[1..][i] == a[i + 1] && b[1..][i] == b[i + 1];
      SumSquaresAtMost(a[1..], b[1..]);
    }
  }

  /** The sharpness of non-empty stddevs is zero exactly when every stddev is zero. */
  lemma SharpnessZeroIff(stddevs: seq<real>, s: real)
    requires IsSharpness(stddevs, s)
    ensures s == 0.0 <==> forall i :: 0 <= i < |stddevs| ==> stddevs[i] == 0.0
  {
    RootPositiveIff(s, MeanSquare(stddevs));
    QuotientPositiveIff(SumSquares(stddevs), |stddevs| as real, MeanSquare(stddevs));
    if forall i :: 0 <= i < |stddevs| ==> stddevs[i] == 0.0 {
      SumSquaresOfZeros(stddevs);
    } else {
      var k :| 0 <= k < |stddevs| && stddevs[k] != 0.0;
      SumSquaresPositive(stddevs, k);
    }
  }

  /** A non-negative root is positive exactly when its square is. */
  lemma RootPositiveIff(s: real, m: real)
    requires s >= 0.0 && s * s == m
    ensures s > 0.0 <==> m > 0.0
  {
    if s > 0.0 {
      ProductPositive(s, s, m);
    } else {
      ProductZero(s, s, m);
    }
  }

  /** A quotient by a positive number is positive exactly when its dividend is. */
  lemma QuotientPositiveIff(a: real, n: real, q: real)
    requires n > 0.0 && q == a / n
    ensures q > 0.0 <==> a > 0.0
  {
    assert a == q * n;
    if q > 0.0 {
      ProductPositive(q, n, a);
    } else if q == 0.0 {
      ProductZero(q, n, a);
    } else {
      ProductPositive(-q, n, -a);
    }
  }

  /** The product `m` of two positive factors is positive. */
  lemma ProductPositive(s: real, t: real, m: real)
    requires s > 0.0 && t > 0.0 && m == s * t
    ensures m > 0.0
  {
  }

  /** The product `m` of zero and anything is zero. */
  lemma ProductZero(s: real, t: real, m: real)
    requires s == 0.0 && m == s * t
    ensures m == 0.0
  {
  }

  /** On a non-empty validation set the MAE is zero exactly when every mean hits its observation. */
  lemma MaeZeroIff(mean: seq<real>, obs: seq<real>)
    requires |mean| == |obs| > 0
    ensures Mae(mean, obs) == Num(0.0) <==> mean == obs
  {
    var r := Residuals(mean, obs);
    SumAbsZeroIff(r);
    var n := |mean| as real;
    assert Mae(mean, obs) == Num(SumAbs(r) / n);
    assert SumAbs(r) / n == 0.0 <==> SumAbs(r) == 0.0;
    if mean == obs {
      assert forall i :: 0 <= i < |r| ==> r[i] == 0.0;
    } else {
      var i :| 0 <= i < |mean| && mean[i] != obs[i];
      assert r[i] != 0.0;
    }
  }

  /** Raising the bound never lowers the count of values at or below it. */
  lemma {:induction false} CountAtMostMonotone(xs: seq<Float>, b: Float, c: Float)
    requires AtMost(b, c)
    ensures CountAtMost(xs, b) <= CountAtMost(xs, c)
  {
    if xs != [] {
      CountAtMostMonotone(xs[1..], b, c);
      if AtMost(xs[0], b) {
        AtMostTransitive(xs[0], b, c);
      }
    }
  }

  /** With no NaN among the values, every one is at most +inf and none at most -inf. */
  lemma {:induction false} CountAtInfinities(xs: seq<Float>)
    requires forall i :: 0 <= i < |xs| ==> xs[i].Num?
    ensures CountAtMost(xs, PosInf) == |xs|
    ensures CountAtMost(xs, NegInf) == 0
  {
    if xs != [] {
      assert forall i :: 0 <= i < |xs[1..]| ==> xs[1..][i] == xs[i + 1];
      CountAtInfinities(xs[1..]);
    }
  }

  /**
   * Each observed coverage is a count over the n normalised residuals divided
   * by n, so it lies in [0, 1]; with no validation point every one is NaN.
   */
  lemma PisObservedInUnitInterval(p: Predictions, v: Validation)
    requires Fits(p, v)
    ensures |p.mean| > 0 ==> forall i :: 0 <= i < 100 ==>
      Pis(p, v).observed[i].Num? && 0.0 <= Pis(p, v).observed[i].v <= 1.0
    ensures |p.mean| == 0 ==> forall i :: 0 <= i < 100 ==> Pis(p, v).observed[i].NaN?
  {
    var nr := Normalised(p.mean, v.obs, p.stddevs);
    var n := |p.mean| as real;
    forall i | 0 <= i < 100
      ensures |p.mean| > 0 ==> Pis(p, v).observed[i].Num? && 0.0 <= Pis(p, v).observed[i].v <= 1.0
    {
      var c := CountAtMost(nr, v.bounds[i]) as real;
      if |p.mean| > 0 {
        assert c <= n;
        assert c / n <= 1.0;
      }
    }
  }

  lemma DivideBothSides(a: real, b: real, n: real)
    requires a <= b && n > 0.0
    ensures a / n <= b / n
  {
    assert b / n - a / n == (b - a) / n;
  }

  /** Sorted quantile bounds give non-decreasing observed coverage. */
  lemma PisMonotone(p: Predictions, v: Validation)
    requires Fits(p, v) && |p.mean| > 0
    requires forall i, j :: 0 <= i < j < 100 ==> AtMost(v.bounds[i], v.bounds[j])
    ensures forall i, j :: 0 <= i < j < 100 ==>
      Pis(p, v).observed[i].Num? && Pis(p, v).observed[j].Num? &&
      Pis(p, v).observed[i].v <= Pis(p, v).observed[j].v
  {
    var nr := Normalised(p.mean, v.obs, p.stddevs);
    var n := |p.mean| as real;
    var r := Pis(p, v);
    forall i, j | 0 <= i < j < 100
      ensures r.observed[i].Num? && r.observed[j].Num? && r.observed[i].v <= r.observed[j].v
    {
      CountAtMostMonotone(nr, v.bounds[i], v.bounds[j]);
      var ci := CountAtMost(nr, v.bounds[i]) as real;
      var cj := CountAtMost(nr, v.bounds[j]) as real;
      assert r.observed[i] == Num(ci / n) && r.observed[j] == Num(cj / n);
      DivideBothSides(ci, cj, n);
    }
  }

  /** With no zero stddev every normalised residual is a finite number. */
  lemma NormalisedFinite(mean: seq<real>, obs: seq<real>, stddevs: seq<real>)
    requires |mean| == |obs| == |stddevs|
    requires forall i :: 0 <= i < |stddevs| ==> stddevs[i] != 0.0
    ensures forall i :: 0 <= i < |mean| ==> Normalised(mean, obs, stddevs)[i].Num?
  {
    var nr := Normalised(mean, obs, stddevs);
    forall i | 0 <= i < |mean| ensures nr[i].Num? {
      assert nr[i] == Num((mean[i] - obs[i]) / stddevs[i]);
    }
  }

  /**
   * When no predicted stddev is zero, the level-0 bound (-inf) covers no
   * residual and the level-1 bound (+inf) covers all of them.
   */
  lemma PisEndpoints(p: Predictions, v: Validation)
    requires Fits(p, v) && |p.mean| > 0
    requires forall i :: 0 <= i < |p.stddevs| ==> p.stddevs[i] != 0.0
    requires v.bounds[0] == NegInf && v.bounds[99] == PosInf
    ensures Pis(p, v).observed[0] == Num(0.0)
    ensures Pis(p, v).observed[99] == Num(1.0)
  {
    NormalisedFinite(p.mean, v.obs, p.stddevs);
    CountAtInfinities(Normalised(p.mean, v.obs, p.stddevs));
    PisAt(p, v, 0);
    PisAt(p, v, 99);
    var n := |p.mean| as real;
    assert n / n == 1.0;
  }

  /** The observed coverage at one level of a non-empty validation set, as a plain quotient. */
  lemma PisAt(p: Predictions, v: Validation, i: nat)
    requires Fits(p, v) && |p.mean| > 0 && i < 100
    ensures Pis(p, v).observed[i] ==
      Num((CountAtMost(Normalised(p.mean, v.obs, p.stddevs), v.bounds[i]) as real) / (|p.mean| as real))
  {
  }

  /** The gaps between levels and observed coverage, when every coverage is a number. */
  function Gaps(predicted: seq<real>, observed: seq<Float>): (r: seq<real>)
    requires |predicted| == |observed|
    requires forall i :: 0 <= i < |observed| ==> observed[i].Num?
    ensures |r| == |predicted|
    ensures forall i :: 0 <= i < |r| ==> r[i] == predicted[i] - observed[i].v
  {
    seq(|predicted|, i requires 0 <= i < |predicted| => predicted[i] - observed[i].v)
  }

  /** Without NaN among the observed values the sum is the exact sum of squared gaps. */
  lemma {:induction false} GapsFinite(predicted: seq<real>, observed: seq<Float>)
    requires |predicted| == |observed|
    requires forall i :: 0 <= i < |observed| ==> observed[i].Num?
    ensures SumSquaredGaps(predicted, observed) == Num(SumSquares(Gaps(predicted, observed)))
  {
    if predicted != [] {
      var p', o' := predicted[1..], observed[1..];
      assert forall i :: 0 <= i < |o'| ==> o'[i] == observed[i + 1];
      GapsFinite(p', o');
      assert Gaps(predicted, observed)[1..] == Gaps(p', o');
    }
  }

  /** A NaN anywhere among the observed values makes the sum NaN. */
  lemma {:induction false} GapsNaN(predicted: seq<real>, observed: seq<Float>, k: nat)
    requires |predicted| == |observed| && k < |observed| && observed[k].NaN?
    ensures SumSquaredGaps(predicted, observed).NaN?
  {
    if k > 0 {
      GapsNaN(predicted[1..], observed[1..], k - 1);
    }
  }

  /** A vector of zeros has a zero sum of squares. */
  lemma {:induction false} SumSquaresOfZeros(xs: seq<real>)
    requires forall i :: 0 <= i < |xs| ==> xs[i] == 0.0
    ensures SumSquares(xs) == 0.0
  {
    if xs != [] {
      assert forall i :: 0 <= i < |xs[1..]| ==> xs[1..][i] == xs[i + 1];
      SumSquaresOfZeros(xs[1..]);
    }
  }

  /**
   * The calibration error is 0 exactly when the observed coverage equals every
   * nominal level: an empty set gives NaN, and one gap off zero makes the sum positive.
   */
  lemma CalibrationErrZero(p: Predictions, v: Validation)
    requires Fits(p, v)
    ensures CalibrationErr(p, v) == Num(0.0) <==>
            forall i :: 0 <= i < 100 ==> Pis(p, v).observed[i] == Num(Levels()[i])
  {
    var pis := Pis(p, v);
    if forall i :: 0 <= i < 100 ==> pis.observed[i] == Num(Levels()[i]) {
      ZeroGaps(pis.predicted, pis.observed);
    } else if |p.mean| > 0 {
      var k :| 0 <= k < 100 && pis.observed[k] != Num(Levels()[k]);
      PisObservedInUnitInterval(p, v);
      GapsFinite(pis.predicted, pis.observed);
      SumSquaresPositive(Gaps(pis.predicted, pis.observed), k);
    }
  }

  lemma ZeroGaps(predicted: seq<real>, observed: seq<Float>)
    requires |predicted| == |observed|
    requires forall i :: 0 <= i < |observed| ==> observed[i] == Num(predicted[i])
    ensures SumSquaredGaps(predicted, observed) == Num(0.0)
  {
    assert forall i :: 0 <= i < |observed| ==> observed[i].Num?;
    GapsFinite(predicted, observed);
    ZeroGapsAreZero(predicted, observed);
  }

  /** Gaps against observed values equal to their levels are all zero, so their squares sum to 0. */
  lemma ZeroGapsAreZero(predicted: seq<real>, observed: seq<Float>)
    requires |predicted| == |observed|
    requires forall i :: 0 <= i < |observed| ==> observed[i] == Num(predicted[i])
    ensures SumSquares(Gaps(predicted, observed)) == 0.0
  {
    var g := Gaps(predicted, observed);
    assert forall i :: 0 <= i < |g| ==> g[i] == 0.0;
    SumSquaresOfZeros(g);
  }

  /**
   * Which cached prediction each metric reads: a metric outside the mean
   * readers does not change with the mean, one outside the stddev readers does
   * not change with the stddevs.
   */
  lemma AttributeReads(name: string, p: Predictions, q: Predictions, v: Validation, nll: Float)
    requires Fits(p, v) && Fits(q, v)
    ensures name !in MeanReaders && p.stddevs == q.stddevs ==> Attribute(name, p, v, nll) == Attribute(name, q, v, nll)
    ensures name !in StddevReaders && p.mean == q.mean ==> Attribute(name, p, v, nll) == Attribute(name, q, v, nll)
  {
  }

  /** A GPMetrics instance: its validation data and the predictions it caches. */
  class Metrics {
    const validation: Validation
    var mean: seq<real>
    var stddevs: seq<real>

    function Current(): Predictions
      reads this
    {
      Predictions(mean, stddevs)
    }

    /** Construction computes the model's mean and stddev once. */
    constructor (v: Validation, initial: Predictions)
      ensures validation == v && Current() == initial
    {
      validation := v;
      mean := initial.mean;
      stddevs := initial.stddevs;
    }

    /** `update_mean`: overwrite the cached means with the model's current ones. */
    method UpdateMean(latest: seq<real>)
      modifies this
      ensures mean == latest && stddevs == old(stddevs)
    {
      mean := latest;
    }

    /** `update_stddevs`: overwrite the cached stddevs with the model's current ones. */
    method UpdateStddevs(latest: seq<real>)
      modifies this
      ensures stddevs == latest && mean == old(mean)
    {
      stddevs := latest;
    }
  }
}
