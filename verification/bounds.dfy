/** The uncertainty band around a forecast: a relative spread read from the
    recent history (its coefficient of variation) that widens by 5% of itself
    per step. */
module Bounds {
  import opened Series

  /** How many recent samples the spread is read from. */
  const BandWindow: nat := 24

  /** The spread used when the recent mean is not positive. */
  const DefaultCv: real := 0.2

  /** The band of a history shorter than two samples: -20% / +20%. */
  const ShortLow: real := 0.8
  const ShortHigh: real := 1.2

  /** The `min` and `max` lists, one entry per forecast value. */
  datatype MinMax = MinMax(lower: seq<real>, upper: seq<real>)

  /** The coefficient of variation of the last 24 samples, or 0.2 when their
      mean is not positive. */
  function Cv(history: seq<real>, sqrt: real -> real): (cv: real)
    requires |history| >= 2 && IsSqrt(sqrt)
    ensures cv >= 0.0
    ensures Mean(Window(history, BandWindow)) <= 0.0 ==> cv == DefaultCv
    ensures Mean(Window(history, BandWindow)) > 0.0 ==>
      cv * Mean(Window(history, BandWindow)) == Stdev(Window(history, BandWindow), sqrt)
  {
    var recent := Window(history, BandWindow);
    var mean := Mean(recent);
    if mean > 0.0 then Stdev(recent, sqrt) / mean else DefaultCv
  }

  /** `1 + i * 0.05`: the uncertainty grows by 5% per step. */
  function Uncertainty(i: nat): (u: real)
    ensures u >= 1.0
  {
    1.0 + i as real * 0.05
  }

  /** The half-width of the band around `v` at step `i`. */
  function Variation(v: real, cv: real, i: nat): real
  {
    v * cv * Uncertainty(i)
  }

  /** `_calculate_min_max_bounds`. */
  function Calculate(history: seq<real>, forecast: seq<real>, sqrt: real -> real): (b: MinMax)
    requires IsSqrt(sqrt)
    ensures |b.lower| == |forecast| && |b.upper| == |forecast|
    ensures |history| >= 2 ==> forall i :: 0 <= i < |forecast| ==> b.lower[i] >= 0.0
  {
    if |history| < 2 then
      MinMax(seq(|forecast|, i requires 0 <= i < |forecast| => forecast[i] * ShortLow),
             seq(|forecast|, i requires 0 <= i < |forecast| => forecast[i] * ShortHigh))
    else
      Spread(forecast, Cv(history, sqrt))
  }

  /** The band of relative spread `cv`, widening step by step. */
  function Spread(forecast: seq<real>, cv: real): (b: MinMax)
    ensures |b.lower| == |forecast| && |b.upper| == |forecast|
    ensures forall i :: 0 <= i < |forecast| ==> b.lower[i] == Max0(forecast[i] - Variation(forecast[i], cv, i))
    ensures forall i :: 0 <= i < |forecast| ==> b.upper[i] == forecast[i] + Variation(forecast[i], cv, i)
  {
    MinMax(seq(|forecast|, i requires 0 <= i < |forecast| => Max0(forecast[i] - Variation(forecast[i], cv, i))),
           seq(|forecast|, i requires 0 <= i < |forecast| => forecast[i] + Variation(forecast[i], cv, i)))
  }

  /** The entries at step `i` of a long history's band. */
  lemma SpreadAt(history: seq<real>, forecast: seq<real>, sqrt: real -> real, i: nat)
    requires IsSqrt(sqrt) && |history| >= 2 && i < |forecast|
    ensures var b, v := Calculate(history, forecast, sqrt), forecast[i];
      && b.lower[i] == Max0(v - Variation(v, Cv(history, sqrt), i))
      && b.upper[i] == v + Variation(v, Cv(history, sqrt), i)
  {
    assert Calculate(history, forecast, sqrt) == Spread(forecast, Cv(history, sqrt));
  }

  /** A non-negative spread of a non-negative value is non-negative. */
  lemma VariationNonNegative(v: real, cv: real, i: nat)
    requires v >= 0.0 && cv >= 0.0
    ensures Variation(v, cv, i) >= 0.0
  {
    assert v * cv >= 0.0;
  }

  /** Every non-negative forecast value lies inside its band. */
  lemma Brackets(history: seq<real>, forecast: seq<real>, sqrt: real -> real, i: nat)
    requires IsSqrt(sqrt) && i < |forecast| && forecast[i] >= 0.0
    ensures Calculate(history, forecast, sqrt).lower[i] <= forecast[i] <= Calculate(history, forecast, sqrt).upper[i]
  {
    if |history| >= 2 {
      VariationNonNegative(forecast[i], Cv(history, sqrt), i);
      SpreadAt(history, forecast, sqrt, i);
    }
  }

  /** The band of a history shorter than two samples is the same 40%-wide
      band at every step, from 20% below the value to 20% above it. */
  lemma ShortHistory(history: seq<real>, forecast: seq<real>, sqrt: real -> real, i: nat)
    requires IsSqrt(sqrt) && |history| < 2 && i < |forecast|
    ensures var b, v := Calculate(history, forecast, sqrt), forecast[i];
      && b.upper[i] - b.lower[i] == 0.4 * v
      && b.upper[i] - v == v - b.lower[i] == 0.2 * v
  {
  }

  /** Away from the clamp the band is symmetric about the value. */
  lemma Symmetric(history: seq<real>, forecast: seq<real>, sqrt: real -> real, i: nat)
    requires IsSqrt(sqrt) && |history| >= 2 && i < |forecast|
    requires Variation(forecast[i], Cv(history, sqrt), i) <= forecast[i]
    ensures var b, v := Calculate(history, forecast, sqrt), forecast[i];
      b.upper[i] - v == v - b.lower[i]
  {
    SpreadAt(history, forecast, sqrt, i);
  }

  /** The spread grows with the step: for the same positive value and a
      positive spread, a later step's half-width is strictly larger. */
  lemma VariationGrows(v: real, cv: real, i: nat, j: nat)
    requires v > 0.0 && cv > 0.0 && i < j
    ensures Variation(v, cv, i) < Variation(v, cv, j)
  {
    var k := v * cv;
    assert k > 0.0;
    assert Uncertainty(i) < Uncertainty(j);
    assert k * Uncertainty(j) - k * Uncertainty(i) == k * (Uncertainty(j) - Uncertainty(i));
  }

  /** For a forecast holding the same positive value at steps `i < j`, the
      upper bound at `j` is strictly higher, the lower bound no higher and the
      band strictly wider, unless the recent history is flat. */
  lemma Widens(history: seq<real>, forecast: seq<real>, sqrt: real -> real, i: nat, j: nat)
    requires IsSqrt(sqrt) && |history| >= 2 && i < j < |forecast|
    requires forecast[i] == forecast[j] > 0.0
    requires !Flat(Window(history, BandWindow))
    ensures var b := Calculate(history, forecast, sqrt);
      b.upper[i] < b.upper[j] && b.lower[j] <= b.lower[i]
    ensures var b := Calculate(history, forecast, sqrt);
      b.upper[i] - b.lower[i] < b.upper[j] - b.lower[j]
  {
    CvPositive(history, sqrt);
    VariationGrows(forecast[i], Cv(history, sqrt), i, j);
    SpreadAt(history, forecast, sqrt, i);
    SpreadAt(history, forecast, sqrt, j);
    Max0Monotone(forecast[i] - Variation(forecast[i], Cv(history, sqrt), j),
                 forecast[i] - Variation(forecast[i], Cv(history, sqrt), i));
  }

  /** A recent history that is not flat has a positive spread. */
  lemma CvPositive(history: seq<real>, sqrt: real -> real)
    requires IsSqrt(sqrt) && |history| >= 2
    requires !Flat(Window(history, BandWindow))
    ensures Cv(history, sqrt) > 0.0
  {
    if Mean(Window(history, BandWindow)) > 0.0 {
      QuotientPositive(Cv(history, sqrt), Mean(Window(history, BandWindow)), Stdev(Window(history, BandWindow), sqrt));
    }
  }

  lemma QuotientPositive(q: real, d: real, n: real)
    requires d > 0.0 && n > 0.0 && q * d == n
    ensures q > 0.0
  {
  }

  /** A flat recent history with a positive level has no spread: the band
      collapses onto every non-negative forecast value. */
  lemma FlatHistoryCollapses(history: seq<real>, forecast: seq<real>, sqrt: real -> real, i: nat)
    requires IsSqrt(sqrt) && |history| >= 2 && i < |forecast| && forecast[i] >= 0.0
    requires Flat(Window(history, BandWindow)) && history[|history| - 1] > 0.0
    ensures Calculate(history, forecast, sqrt).lower[i] == forecast[i]
    ensures Calculate(history, forecast, sqrt).upper[i] == forecast[i]
  {
    var cv := Cv(history, sqrt);
    assert cv == 0.0 by {
      CvOfFlat(history, sqrt);
    }
    SpreadAt(history, forecast, sqrt, i);
    assert Variation(forecast[i], cv, i) == 0.0;
  }

  /** A flat recent history with a positive level has no spread. */
  lemma CvOfFlat(history: seq<real>, sqrt: real -> real)
    requires IsSqrt(sqrt) && |history| >= 2
    requires Flat(Window(history, BandWindow)) && history[|history| - 1] > 0.0
    ensures Cv(history, sqrt) == 0.0
  {
    var recent := Window(history, BandWindow);
    assert Mean(recent) > 0.0 by {
      MeanFlat(recent);
      assert recent[|recent| - 1] == history[|history| - 1];
    }
    assert Stdev(recent, sqrt) == 0.0;
    ZeroOverPositive(Cv(history, sqrt), Mean(recent));
  }

  lemma ZeroOverPositive(cv: real, mean: real)
    requires mean > 0.0 && cv * mean == 0.0
    ensures cv == 0.0
  {
  }

  /** Every value of a non-negative forecast lies inside its band. */
  lemma BracketsAll(history: seq<real>, forecast: seq<real>, sqrt: real -> real)
    requires IsSqrt(sqrt) && forall i :: 0 <= i < |forecast| ==> forecast[i] >= 0.0
    ensures var b := Calculate(history, forecast, sqrt);
      forall i :: 0 <= i < |forecast| ==> b.lower[i] <= forecast[i] <= b.upper[i]
  {
    forall i | 0 <= i < |forecast|
      ensures Calculate(history, forecast, sqrt).lower[i] <= forecast[i] <= Calculate(history, forecast, sqrt).upper[i]
    {
      Brackets(history, forecast, sqrt, i);
    }
  }

  /** The band does not depend on which square root is passed. */
  lemma CalculateUnique(history: seq<real>, forecast: seq<real>, sqrt1: real -> real, sqrt2: real -> real)
    requires IsSqrt(sqrt1) && IsSqrt(sqrt2)
    ensures Calculate(history, forecast, sqrt1) == Calculate(history, forecast, sqrt2)
  {
    if |history| >= 2 {
      StdevUnique(Window(history, BandWindow), sqrt1, sqrt2);
      assert Cv(history, sqrt1) == Cv(history, sqrt2);
    }
  }
}
