/** `generate_forecast`: the forecast service's entry point. It applies an
    optional algorithm override, cleans the raw records, runs the selected
    strategy, surrounds each predicted value with its uncertainty band and
    reports the result, or the reason there is none. Timestamps and the
    rounding to three decimals are not modelled. */
module Service {
  import opened Results
  import opened Series
  import opened Cleaner
  import Algorithms
  import Bounds
  import SimpleTrend
  import MovingAverage
  import LinearRegression

  /** One forecast step: the predicted value, its band and the label of the
      algorithm that produced it. */
  datatype ForecastPoint = ForecastPoint(value: real, low: real, high: real, algorithmLabel: string)

  /** What a successful call reports. */
  datatype Report = Report(
    algorithmUsed: string,        // `algorithme_utilise`
    count: nat,                   // `nombre_previsions`
    hours: int,                   // the horizon requested, as in `periode_prevision`
    historicalUsed: nat,          // `donnees_historiques_utilisees`
    points: seq<ForecastPoint>)   // `previsions`

  /** Why a call reports no forecast. */
  datatype Problem =
    | NoHistoricalData        // the record list was empty
    | InsufficientData        // fewer than two samples survived cleaning
    | InternalError(f: Fault) // an exception caught by the catch-all handler

  /** A call either raises (an unknown override escapes the handler) or
      returns a report. */
  datatype Outcome = Raised(error: Algorithms.RegistryError) | Returned(result: Result<Report, Problem>)

  /** The outcome together with the registry as the call leaves it. */
  datatype Response = Response(registry: Algorithms.Registry, outcome: Outcome)

  /** The selected strategy applied to a clean series. */
  function Run(a: Algorithms.Algorithm, clean: seq<real>, hours: int, sqrt: real -> real): (r: Result<seq<real>, Fault>)
    requires IsSqrt(sqrt)
    ensures r.Success? ==> |r.value| == Horizon(hours)
    ensures |clean| >= 2 ==> r.Success? && forall i :: 0 <= i < |r.value| ==> r.value[i] >= 0.0
  {
    match a
    case Simple => SimpleTrend.Forecast(clean, hours)
    case MovingAverage => MovingAverage.Forecast(clean, hours, sqrt)
    case LinearRegression =>
      if |clean| >= 2 then LinearRegression.NonNegative(clean, hours); LinearRegression.Forecast(clean, hours)
      else LinearRegression.Forecast(clean, hours)
  }

  /** The values zipped with their bands, each point tagged with the
      algorithm label `tag`. */
  function Points(values: seq<real>, band: Bounds.MinMax, tag: string): (r: seq<ForecastPoint>)
    requires |band.lower| == |values| && |band.upper| == |values|
    ensures |r| == |values|
    ensures forall i :: 0 <= i < |r| ==>
      r[i] == ForecastPoint(values[i], band.lower[i], band.upper[i], tag)
  {
    seq(|values|, i requires 0 <= i < |values| => ForecastPoint(values[i], band.lower[i], band.upper[i], tag))
  }

  /** The points are well formed: every value and every lower bound is at
      least zero, every value lies inside its band, and every point carries
      `tag`. */
  predicate WellFormed(points: seq<ForecastPoint>, tag: string)
  {
    forall i :: 0 <= i < |points| ==>
      && 0.0 <= points[i].low <= points[i].value <= points[i].high
      && points[i].algorithmLabel == tag
  }

  /** The part of `generate_forecast` after the override, for the selected
      algorithm `a`. */
  function Produce(a: Algorithms.Algorithm, raw: seq<Observation>, hours: int, sqrt: real -> real): (r: Result<Report, Problem>)
    requires IsSqrt(sqrt)
    ensures r == Failure(NoHistoricalData) <==> |raw| == 0
    ensures r == Failure(InsufficientData) <==> |raw| > 0 && |Clean(raw)| < 2
    ensures r.Success? <==> |raw| > 0 && |Clean(raw)| >= 2
    ensures r.Success? ==>
      && r.value.algorithmUsed == Algorithms.Label(a)
      && r.value.count == |r.value.points| == Horizon(hours)
      && r.value.hours == hours
      && r.value.historicalUsed == |Clean(raw)|
      && WellFormed(r.value.points, Algorithms.Label(a))
  {
    if |raw| == 0 then Failure(NoHistoricalData)
    else
      var clean := Clean(raw);
      if |clean| < 2 then Failure(InsufficientData)
      else
        match Run(a, clean, hours, sqrt)
        case Failure(f) => Failure(InternalError(f))
        case Success(values) =>
          var band := Bounds.Calculate(clean, values, sqrt);
          Bounds.BracketsAll(clean, values, sqrt);
          var points := Points(values, band, Algorithms.Label(a));
          Success(Report(Algorithms.Label(a), |points|, hours, |clean|, points))
  }

  /** The registry after the override: `if algorithm_name:` skips a missing
      or empty name. */
  function Select(reg: Algorithms.Registry, override: Option<string>): (s: Algorithms.Selection)
    ensures override.None? || override.value == "" ==> s == Algorithms.Selection(reg, None)
    ensures override.Some? && override.value != "" ==> s == Algorithms.SetAlgorithm(reg, override.value)
  {
    if override.Some? && override.value != "" then Algorithms.SetAlgorithm(reg, override.value)
    else Algorithms.Selection(reg, None)
  }

  /** `generate_forecast`. The override is applied first, before any look at
      the data; if it names no algorithm its error escapes and nothing else
      happens. Otherwise the new selection is kept whatever the outcome. */
  function GenerateForecast(reg: Algorithms.Registry, raw: seq<Observation>, hours: int,
                            override: Option<string>, sqrt: real -> real): (r: Response)
    requires IsSqrt(sqrt)
    ensures r.outcome.Raised? <==> override.Some? && override.value != "" && override.value !in Algorithms.Names()
    ensures r.outcome.Raised? ==>
      r.registry == reg && r.outcome.error == Algorithms.InvalidAlgorithm(override.value, Algorithms.Names())
    ensures r.outcome.Returned? && override.Some? && override.value != "" ==>
      Algorithms.Name(r.registry.current) == override.value
    ensures override.None? || override.value == "" ==> r.registry == reg
    ensures r.outcome.Returned? ==> r.outcome.result == Produce(r.registry.current, raw, hours, sqrt)
  {
    var s := Select(reg, override);
    if s.raised.Some? then Response(reg, Raised(s.raised.value))
    else Response(s.registry, Returned(Produce(s.registry.current, raw, hours, sqrt)))
  }

  /** The catch-all handler never fires: a clean series of two or more samples
      never makes a strategy raise. */
  lemma NoInternalError(reg: Algorithms.Registry, raw: seq<Observation>, hours: int,
                        override: Option<string>, sqrt: real -> real)
    requires IsSqrt(sqrt)
    ensures GenerateForecast(reg, raw, hours, override, sqrt).outcome != Returned(Failure(InternalError(IndexOutOfRange)))
    ensures GenerateForecast(reg, raw, hours, override, sqrt).outcome != Returned(Failure(InternalError(EmptyMean)))
    ensures GenerateForecast(reg, raw, hours, override, sqrt).outcome != Returned(Failure(InternalError(UnboundVariance)))
  {
  }

  /** A successful forecast's values are the selected strategy's values on
      the cleaned series, and its bands are the bands of those values. */
  lemma PointsFollowStrategy(a: Algorithms.Algorithm, raw: seq<Observation>, hours: int, sqrt: real -> real, i: nat)
    requires IsSqrt(sqrt) && |raw| > 0 && |Clean(raw)| >= 2
    requires i < Horizon(hours)
    ensures Produce(a, raw, hours, sqrt).Success?
    ensures var clean := Clean(raw);
      var values := Run(a, clean, hours, sqrt).value;
      var band := Bounds.Calculate(clean, values, sqrt);
      Produce(a, raw, hours, sqrt).value.points[i] ==
        ForecastPoint(values[i], band.lower[i], band.upper[i], Algorithms.Label(a))
  {
  }

  /** An override is applied even when the data then turns out to be empty or
      too short: the selection persists past a failed forecast. */
  lemma OverridePersists(reg: Algorithms.Registry, raw: seq<Observation>, hours: int,
                         a: Algorithms.Algorithm, sqrt: real -> real)
    requires IsSqrt(sqrt)
    ensures GenerateForecast(reg, raw, hours, Some(Algorithms.Name(a)), sqrt).registry == Algorithms.Registry(a)
    ensures |raw| == 0 ==>
      GenerateForecast(reg, raw, hours, Some(Algorithms.Name(a)), sqrt).outcome == Returned(Failure(NoHistoricalData))
  {
    Algorithms.SelectByName(reg, a);
  }

  /** The response does not depend on which square root is passed. */
  lemma SqrtIrrelevant(reg: Algorithms.Registry, raw: seq<Observation>, hours: int,
                       override: Option<string>, sqrt1: real -> real, sqrt2: real -> real)
    requires IsSqrt(sqrt1) && IsSqrt(sqrt2)
    ensures GenerateForecast(reg, raw, hours, override, sqrt1) == GenerateForecast(reg, raw, hours, override, sqrt2)
  {
    var s := Select(reg, override);
    if s.raised.None? && |raw| > 0 && |Clean(raw)| >= 2 {
      var a, clean := s.registry.current, Clean(raw);
      MovingAverage.ForecastUnique(clean, hours, sqrt1, sqrt2);
      assert Run(a, clean, hours, sqrt1) == Run(a, clean, hours, sqrt2);
      Bounds.CalculateUnique(clean, Run(a, clean, hours, sqrt1).value, sqrt1, sqrt2);
    }
  }
}
