/** Arithmetic over a cleaned discharge series: the pieces of Python's
    `statistics` module and of list slicing that the forecasting strategies
    and the uncertainty estimator share. Floats are modelled as `real`. */
module Series {

  /** The exceptions a strategy raises when handed a series that is too short.
      The forecast service catches them as a generic failure. */
  datatype Fault =
    | IndexOutOfRange   // `data[-1]` on an empty list
    | EmptyMean         // `statistics.mean([])`
    | UnboundVariance   // the local `variance` read without being assigned

  /** Number of steps `range(hours)` (or `[x] * hours`) yields: a negative
      horizon behaves as an empty one. */
  function Horizon(hours: int): (n: nat)
    ensures hours >= 0 ==> n == hours
    ensures hours < 0 ==> n == 0
  {
    if hours < 0 then 0 else hours
  }

  /** Python's `max(0, x)`: the clamp every strategy applies to a prediction. */
  function Max0(x: real): (r: real)
    ensures r >= 0.0
    ensures x >= 0.0 ==> r == x
  {
    if x > 0.0 then x else 0.0
  }

  /** `[x] * n` */
  function Repeat(x: real, n: nat): (r: seq<real>)
    ensures |r| == n
    ensures forall i :: 0 <= i < n ==> r[i] == x
  {
    seq(n, _ => x)
  }

  /** The most recent `cap` samples: `s[-cap:] if len(s) >= cap else s`. */
  function Window(s: seq<real>, cap: nat): (w: seq<real>)
    ensures |w| == if |s| >= cap then cap else |s|
    ensures w == s[|s| - |w|..]
  {
    if |s| >= cap then s[|s| - cap..] else s
  }

  function Sum(s: seq<real>): real
  {
    if |s| == 0 then 0.0 else Sum(s[..|s| - 1]) + s[|s| - 1]
  }

  /** `statistics.mean` */
  function Mean(s: seq<real>): real
    requires |s| > 0
  {
    Sum(s) / |s| as real
  }

  /** `x * x`. The second factor goes through `Copy` so that the solver
      reasons about a product of two terms, whose sign it can decide, rather
      than about a power of one. */
  function Square(x: real): real
  {
    x * Copy(x)
  }

  function Copy(x: real): real
  {
    x
  }

  /** Sum of squared deviations of the samples from `m`. */
  function SquaredDeviations(s: seq<real>, m: real): real
  {
    if |s| == 0 then 0.0
    else SquaredDeviations(s[..|s| - 1], m) + Square(s[|s| - 1] - m)
  }

  /** The sample variance `statistics.stdev` takes the square root of
      (divisor n - 1, computed exactly). */
  function SampleVariance(s: seq<real>): real
    requires |s| >= 2
  {
    SquaredDeviations(s, Mean(s)) / (|s| - 1) as real
  }

  /** Every sample equals the first one. */
  predicate Flat(s: seq<real>)
  {
    forall i :: 0 <= i < |s| ==> s[i] == s[0]
  }

  /** What a square-root function has to satisfy. Dafny's reals have no
      square root, so the one `statistics.stdev` uses is a parameter of the
      model, constrained by this predicate. */
  ghost predicate IsSqrt(sqrt: real -> real)
  {
    forall x: real :: x >= 0.0 ==> sqrt(x) >= 0.0 && Square(sqrt(x)) == x
  }

  /** `statistics.stdev`: defined for two or more samples, never negative, and
      zero exactly when the window is flat. */
  function Stdev(s: seq<real>, sqrt: real -> real): (r: real)
    requires |s| >= 2
    requires IsSqrt(sqrt)
    ensures r >= 0.0
    ensures Square(r) == SampleVariance(s)
    ensures r == 0.0 <==> Flat(s)
  {
    VarianceZeroIffFlat(s);
    var r := sqrt(SampleVariance(s));
    SquareZero(r);
    r
  }

  /** Any two functions satisfying `IsSqrt` agree: a non-negative number has
      one non-negative square root. So nothing the model computes depends on
      which of them is passed. */
  lemma SqrtUnique(sqrt1: real -> real, sqrt2: real -> real, x: real)
    requires IsSqrt(sqrt1) && IsSqrt(sqrt2) && x >= 0.0
    ensures sqrt1(x) == sqrt2(x)
  {
    var a, b := sqrt1(x), sqrt2(x);
    assert Square(a) == Square(b);
    if a < b {
      SquareLess(a, b);
    } else if b < a {
      SquareLess(b, a);
    }
  }

  lemma SquareLess(a: real, b: real)
    requires 0.0 <= a < b
    ensures Square(a) < Square(b)
  {
    var x, y := b - a, b + a;
    ProductPositive(x, y);
    assert Square(b) - Square(a) == x * y;
  }

  lemma ProductPositive(x: real, y: real)
    requires x > 0.0 && y > 0.0
    ensures x * y > 0.0
  {
  }

  /** The standard deviation does not depend on the square root passed. */
  lemma StdevUnique(s: seq<real>, sqrt1: real -> real, sqrt2: real -> real)
    requires |s| >= 2 && IsSqrt(sqrt1) && IsSqrt(sqrt2)
    ensures Stdev(s, sqrt1) == Stdev(s, sqrt2)
  {
    VarianceZeroIffFlat(s);
    SqrtUnique(sqrt1, sqrt2, SampleVariance(s));
  }

  /** `0.95 ** i`, the damping of the moving-average momentum. */
  function Decay(i: nat): (r: real)
    ensures 0.0 < r <= 1.0
  {
    if i == 0 then 1.0 else 0.95 * Decay(i - 1)
  }

  /** `m * 0.95 ** i`, computed by damping `m` once per step. */
  function Damp(m: real, i: nat): real
  {
    if i == 0 then m else 0.95 * Damp(m, i - 1)
  }

  /** Damping step by step is scaling by the power. */
  lemma {:induction false} DampIsScaling(m: real, i: nat)
    ensures Damp(m, i) == m * Decay(i)
  {
    if i > 0 {
      DampIsScaling(m, i - 1);
      assert 0.95 * (m * Decay(i - 1)) == m * (0.95 * Decay(i - 1));
    }
  }

  lemma {:induction false} DecayDecreasing(i: nat, j: nat)
    requires i < j
    ensures Decay(j) < Decay(i)
  {
    if j == i + 1 {
    } else {
      DecayDecreasing(i, j - 1);
    }
  }

  lemma SquareOfPositive(d: real)
    requires d > 0.0
    ensures Square(d) > 0.0
  {
  }

  lemma SquareOfNegative(d: real)
    requires d < 0.0
    ensures Square(d) > 0.0
  {
  }

  /** A square is never negative, and zero only for zero. */
  lemma SquareZero(d: real)
    ensures Square(d) >= 0.0
    ensures Square(d) == 0.0 <==> d == 0.0
  {
    if d > 0.0 {
      SquareOfPositive(d);
    } else if d < 0.0 {
      SquareOfNegative(d);
    }
  }

  lemma Max0Monotone(x: real, y: real)
    requires x <= y
    ensures Max0(x) <= Max0(y)
  {
  }

  lemma ScaleMonotone(c: real, a: real, b: real)
    requires c >= 0.0 && a <= b
    ensures c * a <= c * b
  {
    assert c * b - c * a == c * (b - a);
  }

  lemma ScaleAntitone(c: real, a: real, b: real)
    requires c <= 0.0 && a <= b
    ensures c * a >= c * b
  {
    assert c * a - c * b == (-c) * (b - a);
  }

  lemma {:induction false} SumFlat(s: seq<real>, c: real)
    requires forall i :: 0 <= i < |s| ==> s[i] == c
    ensures Sum(s) == |s| as real * c
  {
    if |s| > 0 {
      SumFlat(s[..|s| - 1], c);
    }
  }

  /** The mean of a flat window is its common value. */
  lemma MeanFlat(s: seq<real>)
    requires |s| > 0 && Flat(s)
    ensures Mean(s) == s[0]
  {
    SumFlat(s, s[0]);
  }

  lemma {:induction false} SumPositive(s: seq<real>)
    requires |s| > 0 && forall i :: 0 <= i < |s| ==> s[i] > 0.0
    ensures Sum(s) > 0.0
  {
    if |s| > 1 {
      SumPositive(s[..|s| - 1]);
    }
  }

  /** Positive samples have a positive mean. */
  lemma PositiveMean(s: seq<real>)
    requires |s| > 0 && forall i :: 0 <= i < |s| ==> s[i] > 0.0
    ensures Mean(s) > 0.0
  {
    SumPositive(s);
  }

  lemma {:induction false} SquaredDeviationsNonNegative(s: seq<real>, m: real)
    ensures SquaredDeviations(s, m) >= 0.0
  {
    if |s| > 0 {
      SquaredDeviationsNonNegative(s[..|s| - 1], m);
      SquareZero(s[|s| - 1] - m);
    }
  }

  /** The squared deviations from `m` vanish exactly when every sample is `m`. */
  lemma {:induction false} SquaredDeviationsZero(s: seq<real>, m: real)
    ensures SquaredDeviations(s, m) == 0.0 <==> forall i :: 0 <= i < |s| ==> s[i] == m
  {
    if |s| > 0 {
      var p := s[..|s| - 1];
      var d := s[|s| - 1] - m;
      SquaredDeviationsZero(p, m);
      SquaredDeviationsNonNegative(p, m);
      SquareZero(d);
      if SquaredDeviations(s, m) == 0.0 {
        assert d == 0.0;
        forall i | 0 <= i < |s| ensures s[i] == m {
          if i < |s| - 1 {
            assert s[i] == p[i];
          }
        }
      }
      if forall i :: 0 <= i < |s| ==> s[i] == m {
        assert forall i :: 0 <= i < |p| ==> p[i] == s[i];
      }
    }
  }

  /** The sample variance is zero exactly when the window is flat. */
  lemma VarianceZeroIffFlat(s: seq<real>)
    requires |s| >= 2
    ensures SampleVariance(s) >= 0.0
    ensures SampleVariance(s) == 0.0 <==> Flat(s)
  {
    var m := Mean(s);
    SquaredDeviationsNonNegative(s, m);
    SquaredDeviationsZero(s, m);
    if Flat(s) {
      MeanFlat(s);
    }
  }
}
