/** The "linear_regression" strategy: an ordinary least-squares line through
    the samples, taken at x = 0, 1, ..., n - 1, and extended past the last
    one. */
module LinearRegression {
  import opened Results
  import opened Series

  /** The abscissae `range(n)`. */
  function Indices(n: nat): (r: seq<real>)
    ensures |r| == n
    ensures forall k :: 0 <= k < n ==> r[k] == k as real
  {
    seq(n, k requires 0 <= k => k as real)
  }

  /** `statistics.mean(range(n))` */
  function XMean(n: nat): real
    requires n > 0
  {
    Mean(Indices(n))
  }

  /** Each sample minus `m`. */
  function Deviations(s: seq<real>, m: real): (r: seq<real>)
    ensures |r| == |s|
    ensures forall k :: 0 <= k < |s| ==> r[k] == s[k] - m
  {
    seq(|s|, k requires 0 <= k < |s| => s[k] - m)
  }

  /** The sum of the products of the first `n` pairs, added from the left as
      `sum` over a generator does. */
  function Dot(a: seq<real>, b: seq<real>, n: nat): real
    requires n <= |a| && n <= |b|
  {
    if n == 0 then 0.0 else Dot(a, b, n - 1) + a[n - 1] * b[n - 1]
  }

  /** The deviations of the abscissae `0, ..., n - 1` from their mean. */
  function XDeviations(n: nat): (r: seq<real>)
    requires n > 0
    ensures |r| == n
  {
    Deviations(Indices(n), XMean(n))
  }

  /** The numerator of the slope: the sum of `(x - x_mean) * (y - y_mean)`. */
  function Numerator(data: seq<real>): real
    requires |data| > 0
  {
    Dot(XDeviations(|data|), Deviations(data, Mean(data)), |data|)
  }

  /** The denominator of the slope: the sum of `(x - x_mean) ** 2`. */
  function Denominator(n: nat): real
    requires n > 0
  {
    Dot(XDeviations(n), XDeviations(n), n)
  }

  /** A fitted line. */
  datatype Fit = Fit(slope: real, intercept: real)

  /** The line's value at abscissa `x`. */
  function Predict(f: Fit, x: nat): real
  {
    f.slope * x as real + f.intercept
  }

  /** `numerator / denominator`, defined from two samples on. */
  function Slope(data: seq<real>): real
    requires |data| >= 2
  {
    DenominatorPositive(|data|);
    Numerator(data) / Denominator(|data|)
  }

  /** The least-squares coefficients of two or more samples. The line passes
      through the centroid of the samples. */
  function FitLine(data: seq<real>): (f: Fit)
    requires |data| >= 2
    ensures f.slope * XMean(|data|) + f.intercept == Mean(data)
  {
    Fit(Slope(data), Mean(data) - Slope(data) * XMean(|data|))
  }

  /** `n` clamped predictions, the first at abscissa `from`. */
  function Extend(f: Fit, from: nat, n: nat): (r: seq<real>)
    ensures |r| == n
    ensures forall i :: 0 <= i < n ==> r[i] == Max0(Predict(f, from + i))
  {
    seq(n, i requires 0 <= i => Max0(Predict(f, from + i)))
  }

  /** `_linear_regression_forecast`. An empty series raises on `data[-1]`; a
      single sample is repeated; a zero denominator repeats the mean; otherwise
      the fitted line is extended from abscissa n on, clamped at zero. */
  function Forecast(data: seq<real>, hours: int): (r: Result<seq<real>, Fault>)
    ensures r.Failure? <==> |data| == 0
    ensures r.Failure? ==> r.error == IndexOutOfRange
    ensures r.Success? ==> |r.value| == Horizon(hours)
    ensures |data| == 1 ==> r == Success(Repeat(data[0], Horizon(hours)))
  {
    var n := |data|;
    if n == 0 then Failure(IndexOutOfRange)
    else if n < 2 then Success(Repeat(data[n - 1], Horizon(hours)))
    else if Denominator(n) == 0.0 then Success(Repeat(Mean(data), Horizon(hours)))
    else Success(Extend(FitLine(data), n, Horizon(hours)))
  }

  /** A sum of squares only grows with more terms. */
  lemma {:induction false} DotSelfGrows(a: seq<real>, n: nat, m: nat)
    requires m <= n <= |a|
    ensures Dot(a, a, n) >= Dot(a, a, m)
  {
    if n > m {
      DotSelfGrows(a, n - 1, m);
      assert Square(a[n - 1]) == a[n - 1] * a[n - 1];
      SquareZero(a[n - 1]);
    }
  }

  /** The denominator is positive as soon as there are two abscissae: 0 and 1
      cannot both sit on the mean. */
  lemma {:induction false} DenominatorPositive(n: nat)
    requires n >= 2
    ensures Denominator(n) > 0.0
  {
    var dx := XDeviations(n);
    DotSelfGrows(dx, n, 2);
    assert Dot(dx, dx, 1) == dx[0] * dx[0];
    assert Dot(dx, dx, 2) == dx[0] * dx[0] + dx[1] * dx[1];
    assert dx[1] == dx[0] + 1.0;
    assert Square(dx[0]) == dx[0] * dx[0] && Square(dx[1]) == dx[1] * dx[1];
    SquareZero(dx[0]);
    SquareZero(dx[1]);
  }

  /** From two samples on, the zero-denominator fallback is unreachable: the
      forecast is always the extended line. */
  lemma {:induction false} FallbackUnreachable(data: seq<real>, hours: int)
    requires |data| >= 2
    ensures Forecast(data, hours) == Success(Extend(FitLine(data), |data|, Horizon(hours)))
  {
    DenominatorPositive(|data|);
  }

  /** Every prediction from two or more samples is at least zero. */
  lemma {:induction false} NonNegative(data: seq<real>, hours: int)
    requires |data| >= 2
    ensures forall i :: 0 <= i < |Forecast(data, hours).value| ==> Forecast(data, hours).value[i] >= 0.0
  {
    FallbackUnreachable(data, hours);
  }

  /** The sums of products are linear in their second argument: if each `r`
      is `e - s * d`, then so is the sum of `d * r`, with the sum of `d * d`
      in place of `d`. */
  lemma {:induction false} DotLinear(ds: seq<real>, es: seq<real>, rs: seq<real>, n: nat, s: real)
    requires n <= |ds| && n <= |es| && n <= |rs|
    requires forall k :: 0 <= k < n ==> rs[k] == es[k] - s * ds[k]
    ensures Dot(ds, rs, n) == Dot(ds, es, n) - s * Dot(ds, ds, n)
  {
    if n > 0 {
      DotLinear(ds, es, rs, n - 1, s);
      LinearStep(ds, es, rs, n, s);
    }
  }

  lemma {:induction false} LinearStep(ds: seq<real>, es: seq<real>, rs: seq<real>, n: nat, s: real)
    requires 0 < n <= |ds| && n <= |es| && n <= |rs|
    requires rs[n - 1] == es[n - 1] - s * ds[n - 1]
    requires Dot(ds, rs, n - 1) == Dot(ds, es, n - 1) - s * Dot(ds, ds, n - 1)
    ensures Dot(ds, rs, n) == Dot(ds, es, n) - s * Dot(ds, ds, n)
  {
    DotStep(Dot(ds, rs, n - 1), Dot(ds, es, n - 1), Dot(ds, ds, n - 1), ds[n - 1], es[n - 1], rs[n - 1], s);
  }

  /** The inductive step of `DotLinear`, as plain arithmetic. */
  lemma DotStep(c0: real, c1: real, q0: real, d: real, e: real, r: real, s: real)
    requires c0 == c1 - s * q0 && r == e - s * d
    ensures c0 + d * r == (c1 + d * e) - s * (q0 + d * d)
  {
    assert d * r == d * e - s * (d * d);
  }

  /** When every `e` is `a` times its `d`, the sum of products of `d` and
      `e` is `a` times the sum of squares of `d`. */
  lemma {:induction false} DotProportional(ds: seq<real>, es: seq<real>, n: nat, a: real)
    requires n <= |ds| && n <= |es|
    requires forall k :: 0 <= k < n ==> es[k] == a * ds[k]
    ensures Dot(ds, es, n) == a * Dot(ds, ds, n)
  {
    if n > 0 {
      DotProportional(ds, es, n - 1, a);
      ProportionalStep(Dot(ds, es, n - 1), Dot(ds, ds, n - 1), ds[n - 1], es[n - 1], a);
    }
  }

  /** The inductive step of `DotProportional`, as plain arithmetic. */
  lemma ProportionalStep(c: real, q: real, d: real, e: real, a: real)
    requires c == a * q && e == a * d
    ensures c + d * e == a * (q + d * d)
  {
    assert d * e == a * (d * d);
  }

  /** Samples lying on the line `a * k + b`. */
  predicate OnLine(ys: seq<real>, a: real, b: real)
  {
    forall k :: 0 <= k < |ys| ==> ys[k] == a * k as real + b
  }

  /** Adding up samples that lie on a line. */
  lemma {:induction false} TotalOnLine(ys: seq<real>, n: nat, a: real, b: real)
    requires n <= |ys| && OnLine(ys, a, b)
    ensures Total(ys, n) == a * Total(Indices(|ys|), n) + n as real * b
  {
    if n > 0 {
      TotalOnLine(ys, n - 1, a, b);
      TotalOnLineStep(ys, n, a, b);
    }
  }

  lemma TotalOnLineStep(ys: seq<real>, n: nat, a: real, b: real)
    requires 0 < n <= |ys|
    requires ys[n - 1] == a * (n - 1) as real + b
    requires Total(ys, n - 1) == a * Total(Indices(|ys|), n - 1) + (n - 1) as real * b
    ensures Total(ys, n) == a * Total(Indices(|ys|), n) + n as real * b
  {
    LineStep(Total(ys, n - 1), Total(Indices(|ys|), n - 1), (n - 1) as real, a, b);
  }

  lemma LineStep(t: real, i: real, x: real, a: real, b: real)
    requires t == a * i + x * b
    ensures t + (a * x + b) == a * (i + x) + (x + 1.0) * b
  {
  }

  /** The mean of samples on a line is the line at the mean abscissa. */
  lemma {:induction false} MeanOnLine(ys: seq<real>, a: real, b: real)
    requires |ys| > 0 && OnLine(ys, a, b)
    ensures Mean(ys) == a * XMean(|ys|) + b
  {
    TotalOnLine(ys, |ys|, a, b);
    TotalIsSum(ys, |ys|);
    TotalIsSum(Indices(|ys|), |ys|);
    assert ys[..|ys|] == ys;
    assert Indices(|ys|)[..|ys|] == Indices(|ys|);
    MeanStep(Sum(ys), Sum(Indices(|ys|)), |ys| as real, a, b);
  }

  lemma MeanStep(t: real, i: real, n: real, a: real, b: real)
    requires n > 0.0 && t == a * i + n * b
    ensures t / n == a * (i / n) + b
  {
  }

  /** For samples on a line, the numerator is the slope times the
      denominator. */
  lemma {:induction false} NumeratorOnLine(ys: seq<real>, a: real, b: real)
    requires |ys| > 0 && OnLine(ys, a, b)
    ensures Numerator(ys) == a * Denominator(|ys|)
  {
    DeviationsOnLine(ys, a, b);
    DotProportional(XDeviations(|ys|), Deviations(ys, Mean(ys)), |ys|, a);
  }

  /** On a line, each sample's deviation from the mean is the slope times
      the abscissa's deviation. */
  lemma {:induction false} DeviationsOnLine(ys: seq<real>, a: real, b: real)
    requires |ys| > 0 && OnLine(ys, a, b)
    ensures forall k :: 0 <= k < |ys| ==> Deviations(ys, Mean(ys))[k] == a * XDeviations(|ys|)[k]
  {
    MeanOnLine(ys, a, b);
    forall k | 0 <= k < |ys|
      ensures Deviations(ys, Mean(ys))[k] == a * XDeviations(|ys|)[k]
    {
      OnLineDeviation(ys[k], k as real, Mean(ys), XMean(|ys|), a, b);
    }
  }

  /** A point of a line deviates from a point of the same line by the slope
      times the abscissae's difference. */
  lemma OnLineDeviation(y: real, x: real, ym: real, xm: real, a: real, b: real)
    requires y == a * x + b && ym == a * xm + b
    ensures y - ym == a * (x - xm)
  {
  }

  /** Samples on a line are fitted by that very line. */
  lemma {:induction false} FitsLine(data: seq<real>, a: real, b: real)
    requires |data| >= 2 && OnLine(data, a, b)
    ensures FitLine(data) == Fit(a, b)
  {
    var n := |data|;
    var xm, ym := XMean(n), Mean(data);
    MeanOnLine(data, a, b);
    NumeratorOnLine(data, a, b);
    DenominatorPositive(n);
    DivideBack(Numerator(data), Denominator(n), a);
    assert FitLine(data).slope == a;
  }

  lemma DivideBack(x: real, den: real, a: real)
    requires den > 0.0 && x == a * den
    ensures x / den == a
  {
  }

  /** A perfectly linear series is extended exactly: step i is the line at
      abscissa n + i, clamped at zero. */
  lemma {:induction false} ExtendsLine(data: seq<real>, a: real, b: real, hours: int)
    requires |data| >= 2 && OnLine(data, a, b)
    ensures Forecast(data, hours).Success?
    ensures forall i :: 0 <= i < Horizon(hours) ==>
      Forecast(data, hours).value[i] == Max0(a * (|data| + i) as real + b)
  {
    FallbackUnreachable(data, hours);
    FitsLine(data, a, b);
  }

  /** A constant non-negative series is forecast as itself. */
  lemma {:induction false} ConstantPersists(data: seq<real>, c: real, hours: int)
    requires |data| >= 2 && c >= 0.0
    requires forall k :: 0 <= k < |data| ==> data[k] == c
    ensures Forecast(data, hours) == Success(Repeat(c, Horizon(hours)))
  {
    assert OnLine(data, 0.0, c);
    FallbackUnreachable(data, hours);
    FitsLine(data, 0.0, c);
    LevelLine(c, |data|, Horizon(hours));
  }

  lemma {:induction false} LevelLine(c: real, from: nat, n: nat)
    requires c >= 0.0
    ensures Extend(Fit(0.0, c), from, n) == Repeat(c, n)
  {
    var r := Extend(Fit(0.0, c), from, n);
    forall i | 0 <= i < n
      ensures r[i] == c
    {
      assert Predict(Fit(0.0, c), from + i) == c;
    }
  }

  /** What the fitted line leaves unexplained at each sample. */
  function Residuals(data: seq<real>, f: Fit): (r: seq<real>)
    ensures |r| == |data|
    ensures forall k :: 0 <= k < |r| ==> r[k] + Predict(f, k) == data[k]
  {
    seq(|data|, k requires 0 <= k < |data| => data[k] - Predict(f, k))
  }

  /** The residuals of any line of slope `s` through `(xm, ym)`: each is the
      sample's deviation from `ym` less `s` times the abscissa's deviation
      from `xm`. */
  lemma {:induction false} CentredResiduals(data: seq<real>, s: real, xm: real, ym: real)
    ensures forall k :: 0 <= k < |data| ==>
      Residuals(data, Fit(s, ym - s * xm))[k] == Deviations(data, ym)[k] - s * Deviations(Indices(|data|), xm)[k]
  {
    var rs := Residuals(data, Fit(s, ym - s * xm));
    forall k | 0 <= k < |data|
      ensures rs[k] == (data[k] - ym) - s * (k as real - xm)
    {
      assert s * (k as real - xm) == s * k as real - s * xm;
    }
  }

  /** The first `n` samples added from the left: `Sum` by index. */
  function Total(s: seq<real>, n: nat): real
    requires n <= |s|
  {
    if n == 0 then 0.0 else Total(s, n - 1) + s[n - 1]
  }

  lemma {:induction false} TotalIsSum(s: seq<real>, n: nat)
    requires n <= |s|
    ensures Total(s, n) == Sum(s[..n])
  {
    if n > 0 {
      TotalIsSum(s, n - 1);
      assert s[..n][..n - 1] == s[..n - 1];
    }
  }

  /** Sums are linear: if each `r` is `e - s * d`, the sum of the `r` is the
      sum of the `e` less `s` times the sum of the `d`. */
  lemma {:induction false} TotalLinear(ds: seq<real>, es: seq<real>, rs: seq<real>, n: nat, s: real)
    requires n <= |ds| && n <= |es| && n <= |rs|
    requires forall k :: 0 <= k < n ==> rs[k] == es[k] - s * ds[k]
    ensures Total(rs, n) == Total(es, n) - s * Total(ds, n)
  {
    if n > 0 {
      TotalLinear(ds, es, rs, n - 1, s);
      TotalLinearStep(ds, es, rs, n, s);
    }
  }

  lemma TotalLinearStep(ds: seq<real>, es: seq<real>, rs: seq<real>, n: nat, s: real)
    requires 0 < n <= |ds| && n <= |es| && n <= |rs|
    requires rs[n - 1] == es[n - 1] - s * ds[n - 1]
    requires Total(rs, n - 1) == Total(es, n - 1) - s * Total(ds, n - 1)
    ensures Total(rs, n) == Total(es, n) - s * Total(ds, n)
  {
    SumStep(Total(rs, n), Total(es, n), Total(ds, n), Total(rs, n - 1), Total(es, n - 1), Total(ds, n - 1),
            ds[n - 1], es[n - 1], rs[n - 1], s);
  }

  /** The inductive step of `TotalLinear`, as plain arithmetic. */
  lemma SumStep(cr: real, ce: real, cd: real, c0: real, c1: real, c2: real, d: real, e: real, r: real, s: real)
    requires cr == c0 + r && ce == c1 + e && cd == c2 + d
    requires c0 == c1 - s * c2 && r == e - s * d
    ensures cr == ce - s * cd
  {
  }

  /** The deviations from `m` sum to the sum less `m` once per sample. */
  lemma {:induction false} TotalDeviations(s: seq<real>, n: nat, m: real)
    requires n <= |s|
    ensures Total(Deviations(s, m), n) == Total(s, n) - n as real * m
  {
    if n > 0 {
      TotalDeviations(s, n - 1, m);
      DeviationStep(Total(Deviations(s, m), n - 1), Total(s, n - 1), (n - 1) as real, s[n - 1], m);
    }
  }

  lemma DeviationStep(a: real, b: real, x: real, y: real, m: real)
    requires a == b - x * m
    ensures a + (y - m) == (b + y) - (x + 1.0) * m
  {
  }

  /** The deviations from the mean sum to zero. */
  lemma {:induction false} DeviationsFromMean(s: seq<real>)
    requires |s| > 0
    ensures Total(Deviations(s, Mean(s)), |s|) == 0.0
  {
    TotalDeviations(s, |s|, Mean(s));
    TotalIsSum(s, |s|);
    assert s[..|s|] == s;
    MeanTimesLength(s);
  }

  lemma {:induction false} MeanTimesLength(s: seq<real>)
    requires |s| > 0
    ensures |s| as real * Mean(s) == Sum(s)
  {
  }

  /** Residuals `e - s * d` of deviations `d` and `e` that each sum to zero
      sum to zero. */
  lemma {:induction false} CentredSumZero(ds: seq<real>, es: seq<real>, rs: seq<real>, s: real)
    requires |ds| == |es| == |rs|
    requires forall k :: 0 <= k < |rs| ==> rs[k] == es[k] - s * ds[k]
    requires Total(ds, |ds|) == 0.0 && Total(es, |es|) == 0.0
    ensures Sum(rs) == 0.0
  {
    TotalLinear(ds, es, rs, |rs|, s);
    TotalIsSum(rs, |rs|);
    assert rs[..|rs|] == rs;
  }

  /** The fitted line solves the first normal equation of least squares: its
      residuals sum to zero. */
  lemma {:induction false} ResidualsSumToZero(data: seq<real>)
    requires |data| >= 2
    ensures Sum(Residuals(data, FitLine(data))) == 0.0
  {
    FittedDeviations(data);
    DeviationsFromMean(data);
    DeviationsFromMean(Indices(|data|));
    CentredSumZero(XDeviations(|data|), Deviations(data, Mean(data)), Residuals(data, FitLine(data)), Slope(data));
  }

  /** The fitted line solves the second normal equation of least squares: its
      residuals are uncorrelated with the abscissa. */
  lemma {:induction false} ResidualsUncorrelated(data: seq<real>)
    requires |data| >= 2
    ensures Dot(XDeviations(|data|), Residuals(data, FitLine(data)), |data|) == 0.0
  {
    FittedDeviations(data);
    SlopeIsRatio(data);
    SlopeUncorrelated(XDeviations(|data|), Deviations(data, Mean(data)), Residuals(data, FitLine(data)), |data|, Slope(data));
  }

  /** The slope is the ratio of the two sums, whose divisor is positive. */
  lemma {:induction false} SlopeIsRatio(data: seq<real>)
    requires |data| >= 2
    ensures Dot(XDeviations(|data|), XDeviations(|data|), |data|) > 0.0
    ensures Slope(data) == Dot(XDeviations(|data|), Deviations(data, Mean(data)), |data|) / Dot(XDeviations(|data|), XDeviations(|data|), |data|)
  {
    DenominatorPositive(|data|);
  }

  /** Each residual of the fitted line is the sample's deviation less the
      slope times the abscissa's deviation. */
  lemma {:induction false} FittedDeviations(data: seq<real>)
    requires |data| >= 2
    ensures forall k :: 0 <= k < |data| ==>
      Residuals(data, FitLine(data))[k] == Deviations(data, Mean(data))[k] - Slope(data) * XDeviations(|data|)[k]
  {
    CentredResiduals(data, Slope(data), XMean(|data|), Mean(data));
  }

  /** With `s` the ratio of the two sums, the residuals `e - s * d` have a
      zero sum of products with `d`. */
  lemma {:induction false} SlopeUncorrelated(ds: seq<real>, es: seq<real>, rs: seq<real>, n: nat, s: real)
    requires n <= |ds| && n <= |es| && n <= |rs|
    requires forall k :: 0 <= k < n ==> rs[k] == es[k] - s * ds[k]
    requires Dot(ds, ds, n) > 0.0 && s == Dot(ds, es, n) / Dot(ds, ds, n)
    ensures Dot(ds, rs, n) == 0.0
  {
    DotLinear(ds, es, rs, n, s);
    SlopeCancels(Dot(ds, es, n), Dot(ds, ds, n), s);
  }

  lemma SlopeCancels(cross: real, den: real, slope: real)
    requires den > 0.0 && slope == cross / den
    ensures cross - slope * den == 0.0
  {
  }

  /** The abscissae of seven samples, their mean and their deviations. */
  lemma SevenIndices()
    ensures Indices(7) == [0.0, 1.0, 2.0, 3.0, 4.0, 5.0, 6.0]
    ensures XMean(7) == 3.0
    ensures XDeviations(7) == [-3.0, -2.0, -1.0, 0.0, 1.0, 2.0, 3.0]
  {
    assert Indices(7) == [0.0, 1.0, 2.0, 3.0, 4.0, 5.0, 6.0];
    assert Sum([0.0]) == 0.0;
    assert [0.0, 1.0][..1] == [0.0];
    assert Sum([0.0, 1.0]) == 1.0;
    assert [0.0, 1.0, 2.0][..2] == [0.0, 1.0];
    assert Sum([0.0, 1.0, 2.0]) == 3.0;
    assert [0.0, 1.0, 2.0, 3.0][..3] == [0.0, 1.0, 2.0];
    assert Sum([0.0, 1.0, 2.0, 3.0]) == 6.0;
    assert [0.0, 1.0, 2.0, 3.0, 4.0][..4] == [0.0, 1.0, 2.0, 3.0];
    assert Sum([0.0, 1.0, 2.0, 3.0, 4.0]) == 10.0;
    assert [0.0, 1.0, 2.0, 3.0, 4.0, 5.0][..5] == [0.0, 1.0, 2.0, 3.0, 4.0];
    assert Sum([0.0, 1.0, 2.0, 3.0, 4.0, 5.0]) == 15.0;
    assert [0.0, 1.0, 2.0, 3.0, 4.0, 5.0, 6.0][..6] == [0.0, 1.0, 2.0, 3.0, 4.0, 5.0];
    assert Sum([0.0, 1.0, 2.0, 3.0, 4.0, 5.0, 6.0]) == 21.0;
  }

  /** The denominator for seven samples. */
  lemma SevenDenominator()
    ensures Denominator(7) == 28.0
  {
    SevenIndices();
    var dx := [-3.0, -2.0, -1.0, 0.0, 1.0, 2.0, 3.0];
    assert Dot(dx, dx, 1) == 9.0;
    assert Dot(dx, dx, 2) == 13.0;
    assert Dot(dx, dx, 3) == 14.0;
    assert Dot(dx, dx, 4) == 14.0;
    assert Dot(dx, dx, 5) == 15.0;
    assert Dot(dx, dx, 6) == 19.0;
  }

  lemma SevenMean()
    ensures Mean([10.0, 12.0, 11.0, 13.0, 12.0, 14.0, 13.0]) == 85.0 / 7.0
  {
    assert Sum([10.0]) == 10.0;
    assert [10.0, 12.0][..1] == [10.0];
    assert Sum([10.0, 12.0]) == 22.0;
    assert [10.0, 12.0, 11.0][..2] == [10.0, 12.0];
    assert Sum([10.0, 12.0, 11.0]) == 33.0;
    assert [10.0, 12.0, 11.0, 13.0][..3] == [10.0, 12.0, 11.0];
    assert Sum([10.0, 12.0, 11.0, 13.0]) == 46.0;
    assert [10.0, 12.0, 11.0, 13.0, 12.0][..4] == [10.0, 12.0, 11.0, 13.0];
    assert Sum([10.0, 12.0, 11.0, 13.0, 12.0]) == 58.0;
    assert [10.0, 12.0, 11.0, 13.0, 12.0, 14.0][..5] == [10.0, 12.0, 11.0, 13.0, 12.0];
    assert Sum([10.0, 12.0, 11.0, 13.0, 12.0, 14.0]) == 72.0;
    assert [10.0, 12.0, 11.0, 13.0, 12.0, 14.0, 13.0][..6] == [10.0, 12.0, 11.0, 13.0, 12.0, 14.0];
    assert Sum([10.0, 12.0, 11.0, 13.0, 12.0, 14.0, 13.0]) == 85.0;
  }

  /** The numerator for the seven example samples. */
  lemma SevenNumerator()
    ensures Numerator([10.0, 12.0, 11.0, 13.0, 12.0, 14.0, 13.0]) == 14.0
  {
    var data := [10.0, 12.0, 11.0, 13.0, 12.0, 14.0, 13.0];
    SevenIndices();
    SevenMean();
    var dx := [-3.0, -2.0, -1.0, 0.0, 1.0, 2.0, 3.0];
    var dy := Deviations(data, 85.0 / 7.0);
    assert dy == [-15.0 / 7.0, -1.0 / 7.0, -8.0 / 7.0, 6.0 / 7.0, -1.0 / 7.0, 13.0 / 7.0, 6.0 / 7.0];
    assert Dot(dx, dy, 1) == 45.0 / 7.0;
    assert Dot(dx, dy, 2) == 47.0 / 7.0;
    assert Dot(dx, dy, 3) == 55.0 / 7.0;
    assert Dot(dx, dy, 4) == 55.0 / 7.0;
    assert Dot(dx, dy, 5) == 54.0 / 7.0;
    assert Dot(dx, dy, 6) == 80.0 / 7.0;
  }

  /** Seven samples around 12 rising by half a unit per step on average:
      the fitted slope is 1/2, the intercept 149/14, and the next three
      steps are 99/7, 205/14 and 106/7. */
  lemma SevenSampleExample()
    ensures FitLine([10.0, 12.0, 11.0, 13.0, 12.0, 14.0, 13.0]) == Fit(0.5, 149.0 / 14.0)
    ensures Forecast([10.0, 12.0, 11.0, 13.0, 12.0, 14.0, 13.0], 3) == Success([99.0 / 7.0, 205.0 / 14.0, 106.0 / 7.0])
  {
    var data := [10.0, 12.0, 11.0, 13.0, 12.0, 14.0, 13.0];
    SevenIndices();
    SevenDenominator();
    SevenMean();
    SevenNumerator();
    assert FitLine(data) == Fit(0.5, 149.0 / 14.0);
    FallbackUnreachable(data, 3);
    var e := Extend(Fit(0.5, 149.0 / 14.0), 7, 3);
    assert e[0] == Max0(Predict(Fit(0.5, 149.0 / 14.0), 7)) == 99.0 / 7.0;
    assert e[1] == Max0(Predict(Fit(0.5, 149.0 / 14.0), 8)) == 205.0 / 14.0;
    assert e[2] == Max0(Predict(Fit(0.5, 149.0 / 14.0), 9)) == 106.0 / 7.0;
    assert e == [99.0 / 7.0, 205.0 / 14.0, 106.0 / 7.0];
  }
}
