/** The "moving_average" strategy: the mean of the last seven samples plus a
    momentum term, the last sample's distance from that mean, which fades by a
    factor 0.95 per step. */
module MovingAverage {
  import opened Results
  import opened Series

  /** How many recent samples are averaged. */
  const AverageWindow: nat := 7

  /** The mean shifted by `momentum` damped `i` times. */
  function Blend(avg: real, momentum: real, i: nat): real
  {
    avg + Damp(momentum, i)
  }

  /** `n` clamped blends, one per step. */
  function Path(avg: real, momentum: real, n: nat): (r: seq<real>)
    ensures |r| == n
    ensures forall i :: 0 <= i < n ==> r[i] == Max0(Blend(avg, momentum, i))
  {
    seq(n, i requires 0 <= i => Max0(Blend(avg, momentum, i)))
  }

  /** The mean of the averaging window. */
  function RecentMean(data: seq<real>): real
    requires |data| > 0
  {
    Mean(Window(data, AverageWindow))
  }

  /** `_moving_average_forecast`, computed the way the source does: the trend
      factor is the last sample's distance from the mean in standard
      deviations (zero when the window is flat), and the momentum of step i
      is that factor times the standard deviation, damped `i` times.

      With no samples `statistics.mean` raises; with exactly one, the local
      `variance` is never assigned, so the first loop iteration raises (an
      empty horizon never reads it). */
  function Forecast(data: seq<real>, hours: int, sqrt: real -> real): (r: Result<seq<real>, Fault>)
    requires IsSqrt(sqrt)
    ensures r.Failure? <==> |data| == 0 || (|data| == 1 && Horizon(hours) > 0)
    ensures |data| == 0 ==> r == Failure(EmptyMean)
    ensures |data| == 1 && Horizon(hours) > 0 ==> r == Failure(UnboundVariance)
    ensures r.Success? ==> |r.value| == Horizon(hours)
    ensures r.Success? ==> forall i :: 0 <= i < |r.value| ==> r.value[i] >= 0.0
  {
    var recent := Window(data, AverageWindow);
    if |recent| == 0 then Failure(EmptyMean)
    else
      var avg := Mean(recent);
      if |recent| > 1 then
        Success(Path(avg, Momentum(recent, sqrt), Horizon(hours)))
      else if Horizon(hours) == 0 then Success([])
      else Failure(UnboundVariance)
  }

  /** The same forecast without any standard deviation: the momentum is just
      the last sample minus the mean of the window. */
  function Damped(data: seq<real>, hours: int): (r: seq<real>)
    requires |data| >= 2
    ensures |r| == Horizon(hours)
  {
    Path(RecentMean(data), data[|data| - 1] - RecentMean(data), Horizon(hours))
  }

  /** The trend factor of a window of two or more samples. */
  function TrendFactor(recent: seq<real>, sqrt: real -> real): real
    requires IsSqrt(sqrt) && |recent| >= 2
  {
    var sd := Stdev(recent, sqrt);
    if sd > 0.0 then (recent[|recent| - 1] - Mean(recent)) / sd else 0.0
  }

  /** The undamped momentum: the trend factor times the standard deviation. */
  function Momentum(recent: seq<real>, sqrt: real -> real): real
    requires IsSqrt(sqrt) && |recent| >= 2
  {
    TrendFactor(recent, sqrt) * Stdev(recent, sqrt)
  }

  /** Trend factor times standard deviation is the last sample's distance
      from the mean. */
  lemma TrendTimesStdev(recent: seq<real>, sqrt: real -> real)
    requires IsSqrt(sqrt) && |recent| >= 2
    ensures Momentum(recent, sqrt) == recent[|recent| - 1] - Mean(recent)
  {
    var sd := Stdev(recent, sqrt);
    var x := recent[|recent| - 1] - Mean(recent);
    if sd > 0.0 {
      assert (x / sd) * sd == x;
    } else {
      MeanFlat(recent);
    }
  }

  /** The standard deviation cancels out: whatever square root is used, the
      forecast from two or more samples is the damped one. When the deviation
      is positive, the trend factor times the deviation is the last sample's
      distance from the mean; when it is zero, the window is flat and that
      distance is zero too. */
  lemma StdevCancels(data: seq<real>, hours: int, sqrt: real -> real)
    requires IsSqrt(sqrt) && |data| >= 2
    ensures Forecast(data, hours, sqrt) == Success(Damped(data, hours))
  {
    var recent := Window(data, AverageWindow);
    var avg := Mean(recent);
    assert |recent| >= 2;
    assert recent[|recent| - 1] == data[|data| - 1];
    assert RecentMean(data) == avg;
    TrendTimesStdev(recent, sqrt);
    assert Forecast(data, hours, sqrt) == Success(Path(avg, Momentum(recent, sqrt), Horizon(hours)));
    assert Damped(data, hours) == Path(avg, data[|data| - 1] - avg, Horizon(hours));
  }

  /** The first step reproduces the last sample. */
  lemma FirstStepIsLastSample(data: seq<real>, hours: int)
    requires |data| >= 2 && data[|data| - 1] >= 0.0 && Horizon(hours) > 0
    ensures Damped(data, hours)[0] == data[|data| - 1]
  {
  }

  /** A flat window is forecast as its constant mean at every step. */
  lemma FlatWindowIsConstant(data: seq<real>, hours: int, i: nat)
    requires |data| >= 2 && Flat(Window(data, AverageWindow)) && data[|data| - 1] >= 0.0
    requires i < Horizon(hours)
    ensures Damped(data, hours)[i] == RecentMean(data)
    ensures Damped(data, hours)[i] == data[|data| - 1]
  {
    var w := Window(data, AverageWindow);
    MeanFlat(w);
    var avg, last := RecentMean(data), data[|data| - 1];
    assert w[|w| - 1] == last;
    assert avg == last;
    DampFades(last - avg, i);
    assert Damped(data, hours)[i] == Max0(Blend(avg, last - avg, i));
  }

  /** The damped momentum stays on the side of zero the momentum is on, is
      no larger than it, and shrinks by 5% per step. */
  lemma {:induction false} DampFades(m: real, i: nat)
    ensures m >= 0.0 ==> 0.0 <= Damp(m, i) <= m
    ensures m <= 0.0 ==> m <= Damp(m, i) <= 0.0
    ensures m == 0.0 ==> Damp(m, i) == 0.0
  {
    if i > 0 {
      DampFades(m, i - 1);
    }
  }

  /** Between a positive mean and a positive last sample, every blend lies
      between the two, and each is no farther from the mean than the one
      before. */
  lemma PathBetween(avg: real, last: real, n: nat, i: nat)
    requires avg > 0.0 && last > 0.0 && i < n
    ensures avg <= last ==> avg <= Path(avg, last - avg, n)[i] <= last
    ensures last <= avg ==> last <= Path(avg, last - avg, n)[i] <= avg
    ensures i + 1 < n && avg <= last ==> Path(avg, last - avg, n)[i + 1] <= Path(avg, last - avg, n)[i]
    ensures i + 1 < n && last <= avg ==> Path(avg, last - avg, n)[i] <= Path(avg, last - avg, n)[i + 1]
  {
    DampFades(last - avg, i);
  }

  /** For a positive series every step lies between the window's mean and the
      last sample, and each step is no farther from the mean than the one
      before. */
  lemma BetweenMeanAndLast(data: seq<real>, hours: int, i: nat)
    requires |data| >= 2 && forall k :: 0 <= k < |data| ==> data[k] > 0.0
    requires i < Horizon(hours)
    ensures var avg, last := RecentMean(data), data[|data| - 1];
      && (avg <= last ==> avg <= Damped(data, hours)[i] <= last)
      && (last <= avg ==> last <= Damped(data, hours)[i] <= avg)
      && (i + 1 < Horizon(hours) && avg <= last ==> Damped(data, hours)[i + 1] <= Damped(data, hours)[i])
      && (i + 1 < Horizon(hours) && last <= avg ==> Damped(data, hours)[i] <= Damped(data, hours)[i + 1])
  {
    PositiveMean(Window(data, AverageWindow));
    PathBetween(RecentMean(data), data[|data| - 1], Horizon(hours), i);
  }

  /** The forecast does not depend on which square root is passed. */
  lemma ForecastUnique(data: seq<real>, hours: int, sqrt1: real -> real, sqrt2: real -> real)
    requires IsSqrt(sqrt1) && IsSqrt(sqrt2)
    ensures Forecast(data, hours, sqrt1) == Forecast(data, hours, sqrt2)
  {
    if |data| >= 2 {
      StdevCancels(data, hours, sqrt1);
      StdevCancels(data, hours, sqrt2);
    }
  }
}
