/** The "simple" strategy: extrapolate the average rise of the last seven
    samples from the last sample. */
module SimpleTrend {
  import opened Results
  import opened Series

  /** How many recent samples the slope is read from. */
  const TrendWindow: nat := 7

  /** The slope over the recent window: its rise divided by the window's
      length (not by the number of steps it spans, which is one fewer). */
  function Slope(data: seq<real>): real
    requires |data| >= 2
  {
    var w := Window(data, TrendWindow);
    (w[|w| - 1] - w[0]) / |w| as real
  }

  /** `_simple_trend_forecast`. An empty series raises on `data[-1]`; a single
      sample is repeated; otherwise step i (counted from 1) is the last sample
      plus i slopes, clamped at zero. */
  function Forecast(data: seq<real>, hours: int): (r: Result<seq<real>, Fault>)
    ensures r.Failure? <==> |data| == 0
    ensures r.Failure? ==> r.error == IndexOutOfRange
    ensures r.Success? ==> |r.value| == Horizon(hours)
    ensures |data| == 1 ==> r == Success(Repeat(data[0], Horizon(hours)))
    ensures |data| >= 2 ==> forall i :: 0 <= i < |r.value| ==> r.value[i] >= 0.0
  {
    if |data| == 0 then Failure(IndexOutOfRange)
    else if |data| < 2 then Success(Repeat(data[|data| - 1], Horizon(hours)))
    else
      Success(Steps(data[|data| - 1], Slope(data), Horizon(hours)))
  }

  /** The straight line from `last` with the given slope, `k` steps on. */
  function Line(last: real, slope: real, k: nat): real
  {
    last + slope * k as real
  }

  /** The clamped line, `n` steps long, step i (from 0) lying `i + 1` steps
      beyond the last sample. */
  function Steps(last: real, slope: real, n: nat): (r: seq<real>)
    ensures |r| == n
    ensures forall i :: 0 <= i < n ==> r[i] == Max0(Line(last, slope, i + 1))
  {
    seq(n, i requires 0 <= i => Max0(Line(last, slope, i + 1)))
  }

  /** Along a non-negative slope the clamped line never falls, along a
      non-positive one it never rises. */
  lemma StepsMonotone(last: real, slope: real, n: nat, i: nat, j: nat)
    requires i <= j < n
    ensures slope >= 0.0 ==> Steps(last, slope, n)[i] <= Steps(last, slope, n)[j]
    ensures slope <= 0.0 ==> Steps(last, slope, n)[i] >= Steps(last, slope, n)[j]
  {
    var a, b := Line(last, slope, i + 1), Line(last, slope, j + 1);
    LineMonotone(last, slope, i + 1, j + 1);
    if slope >= 0.0 {
      Max0Monotone(a, b);
    }
    if slope <= 0.0 {
      Max0Monotone(b, a);
    }
  }

  lemma LineMonotone(last: real, slope: real, k1: nat, k2: nat)
    requires k1 <= k2
    ensures slope >= 0.0 ==> Line(last, slope, k1) <= Line(last, slope, k2)
    ensures slope <= 0.0 ==> Line(last, slope, k1) >= Line(last, slope, k2)
  {
    var x1, x2 := k1 as real, k2 as real;
    assert x1 <= x2;
    if slope >= 0.0 {
      ScaleMonotone(slope, x1, x2);
    }
    if slope <= 0.0 {
      ScaleAntitone(slope, x1, x2);
    }
  }

  /** The slope has the sign of the window's rise. */
  lemma SlopeSign(data: seq<real>)
    requires |data| >= 2
    ensures Window(data, TrendWindow)[0] == data[|data| - 1] ==> Slope(data) == 0.0
    ensures Window(data, TrendWindow)[0] <= data[|data| - 1] ==> Slope(data) >= 0.0
    ensures Window(data, TrendWindow)[0] >= data[|data| - 1] ==> Slope(data) <= 0.0
  {
    var w := Window(data, TrendWindow);
    assert w[|w| - 1] == data[|data| - 1];
    assert |w| as real > 0.0;
  }

  /** A window that ends where it started gives a flat forecast at the last
      sample. */
  lemma LevelWindowPersists(data: seq<real>, hours: int, i: nat)
    requires |data| >= 2 && data[|data| - 1] >= 0.0
    requires Window(data, TrendWindow)[0] == data[|data| - 1]
    requires i < Horizon(hours)
    ensures Forecast(data, hours).value[i] == data[|data| - 1]
  {
    SlopeSign(data);
    assert Forecast(data, hours).value == Steps(data[|data| - 1], Slope(data), Horizon(hours));
  }

  /** A window that rose gives a forecast that never falls. */
  lemma RisingWindowNeverFalls(data: seq<real>, hours: int, i: nat, j: nat)
    requires |data| >= 2 && Window(data, TrendWindow)[0] <= data[|data| - 1]
    requires i <= j < Horizon(hours)
    ensures Forecast(data, hours).value[i] <= Forecast(data, hours).value[j]
  {
    assert Forecast(data, hours).value == Steps(data[|data| - 1], Slope(data), Horizon(hours));
    SlopeSign(data);
    StepsMonotone(data[|data| - 1], Slope(data), Horizon(hours), i, j);
  }

  /** A window that fell gives a forecast that never rises. */
  lemma FallingWindowNeverRises(data: seq<real>, hours: int, i: nat, j: nat)
    requires |data| >= 2 && Window(data, TrendWindow)[0] >= data[|data| - 1]
    requires i <= j < Horizon(hours)
    ensures Forecast(data, hours).value[i] >= Forecast(data, hours).value[j]
  {
    assert Forecast(data, hours).value == Steps(data[|data| - 1], Slope(data), Horizon(hours));
    SlopeSign(data);
    StepsMonotone(data[|data| - 1], Slope(data), Horizon(hours), i, j);
  }

  /** Samples that rise by `d` at every step. */
  predicate SteadyRise(w: seq<real>, d: real)
  {
    forall k :: 0 <= k < |w| - 1 ==> w[k + 1] - w[k] == d
  }

  lemma {:induction false} SteadyRiseSpan(w: seq<real>, d: real)
    requires |w| >= 1 && SteadyRise(w, d)
    ensures w[|w| - 1] - w[0] == (|w| - 1) as real * d
  {
    if |w| > 1 {
      var p := w[..|w| - 1];
      assert SteadyRise(p, d);
      SteadyRiseSpan(p, d);
    }
  }

  /** On a window rising by `d` per step the slope is only `d * (w - 1) / w`:
      a steady rise is extrapolated more slowly than it was observed. */
  lemma SteadyRiseUnderestimated(data: seq<real>, d: real)
    requires |data| >= 2
    requires SteadyRise(Window(data, TrendWindow), d)
    ensures var w := |Window(data, TrendWindow)| as real; Slope(data) * w == (w - 1.0) * d
  {
    SteadyRiseSpan(Window(data, TrendWindow), d);
  }
}
