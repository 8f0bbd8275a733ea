/** The unit conversion the observation endpoints apply before answering: the
    discharge field of each record is read as litres per second and replaced
    by its value in cubic metres per second, rounded to three decimals, and
    the unit is recorded. The daily elaborated series converts
    `resultat_obs_elab`, the real-time series `resultat_obs`. */
module Conversion {
  import opened Results
  import opened Cleaner

  /** The unit recorded on a converted record. */
  const CubicMetresPerSecond: string := "m³/s"

  /** Litres in a cubic metre. */
  const LitresPerCubicMetre: real := 1000.0

  function Abs(x: real): real
  {
    if x < 0.0 then -x else x
  }

  /** `round(y, 3)` counted in thousandths: the integer next to `1000 * y`,
      a tie going to the even neighbour. */
  function Thousandths(y: real): (n: int)
    ensures -0.5 <= n as real - 1000.0 * y <= 0.5
  {
    var k := (1000.0 * y).Floor;
    var f := 1000.0 * y - k as real;
    if f > 0.5 then k + 1
    else if f < 0.5 then k
    else if k % 2 == 0 then k else k + 1
  }

  /** Python's `round(y, 3)` on the exact value of `y`. */
  function Round3(y: real): (r: real)
    ensures r * 1000.0 == Thousandths(y) as real
  {
    Thousandths(y) as real / 1000.0
  }

  /** No count of thousandths is nearer to `1000 * y` than the rounded one. */
  lemma ThousandthsNearest(y: real, m: int)
    ensures Abs(Thousandths(y) as real - 1000.0 * y) <= Abs(m as real - 1000.0 * y)
  {
    var n := Thousandths(y);
    if m < n {
      assert m as real <= n as real - 1.0;
    } else if m > n {
      assert m as real >= n as real + 1.0;
    }
  }

  /** Halfway between two thousandths, the even one is taken. */
  lemma ThousandthsTie(y: real, k: int)
    requires 1000.0 * y == k as real + 0.5
    ensures Thousandths(y) % 2 == 0
    ensures Thousandths(y) == k || Thousandths(y) == k + 1
  {
    assert (1000.0 * y).Floor == k;
  }

  /** A whole number of thousandths is kept as it is. */
  lemma ThousandthsExact(n: int)
    ensures Thousandths(n as real / 1000.0) == n
  {
    assert 1000.0 * (n as real / 1000.0) == n as real;
  }

  /** A float stored back into a record: Python's truth test makes 0.0
      falsy. */
  function FromFloat(x: real): (f: FieldValue)
    ensures f.Number? <==> x != 0.0
    ensures f.Number? ==> f.x == x
    ensures !f.Number? ==> f == Falsy
  {
    if x == 0.0 then Falsy else Number(x)
  }

  /** Which field a series converts. */
  datatype Series = Elaborated | RealTime

  /** The field `series` converts. */
  function Discharge(o: Observation, series: Series): FieldValue
  {
    match series
    case Elaborated => o.resultatObsElab
    case RealTime => o.resultatObs
  }

  /** One record converted: when the discharge field is truthy and parses,
      it is divided by 1000, rounded to three decimals, and the unit is set;
      otherwise the record is returned as it was. */
  function Convert(o: Observation, series: Series): (r: Observation)
    ensures Discharge(o, series).Number? ==>
      && Discharge(r, series) == FromFloat(Round3(Discharge(o, series).x / LitresPerCubicMetre))
      && r.unite == Some(CubicMetresPerSecond)
    ensures !Discharge(o, series).Number? ==> r == o
  {
    match Discharge(o, series)
    case Number(x) =>
      (match series
       case Elaborated => o.(resultatObsElab := FromFloat(Round3(x / LitresPerCubicMetre)), unite := Some(CubicMetresPerSecond))
       case RealTime => o.(resultatObs := FromFloat(Round3(x / LitresPerCubicMetre)), unite := Some(CubicMetresPerSecond)))
    case _ => o
  }

  /** The loop over the records: each is converted on its own. */
  function ConvertAll(obs: seq<Observation>, series: Series): (r: seq<Observation>)
    ensures |r| == |obs|
    ensures forall i :: 0 <= i < |obs| ==> r[i] == Convert(obs[i], series)
  {
    seq(|obs|, i requires 0 <= i < |obs| => Convert(obs[i], series))
  }

  /** The numeric value a converted field stands for, 0 for a falsy one. */
  function Amount(f: FieldValue): real
    requires f.Number? || f == Falsy
  {
    if f.Number? then f.x else 0.0
  }

  /** The conversion can be undone up to the rounding: multiplying the new
      value by 1000 gives back the value read to within half a litre per
      second, and exactly when that value is a whole number of litres per
      second. Every other field is untouched. */
  lemma ConvertInverse(o: Observation, series: Series)
    requires Discharge(o, series).Number?
    ensures var r, x := Convert(o, series), Discharge(o, series).x;
      && Abs(Amount(Discharge(r, series)) * LitresPerCubicMetre - x) <= 0.5
      && (x.Floor as real == x ==> Amount(Discharge(r, series)) * LitresPerCubicMetre == x)
      && r.valeur == o.valeur
      && (series == Elaborated ==> r.resultatObs == o.resultatObs)
      && (series == RealTime ==> r.resultatObsElab == o.resultatObsElab)
  {
    var x := Discharge(o, series).x;
    assert 1000.0 * (x / LitresPerCubicMetre) == x;
    if x.Floor as real == x {
      ThousandthsExact(x.Floor);
    }
  }

  /** A positive reading keeps a value exactly when it exceeds half a litre
      per second, and that value is positive and strictly smaller; a smaller
      reading rounds to 0.0, which is stored as a falsy field. */
  lemma ConvertShrinks(o: Observation, series: Series)
    requires Discharge(o, series).Number? && Discharge(o, series).x > 0.0
    ensures var r, x := Discharge(Convert(o, series), series), Discharge(o, series).x;
      && (r.Number? <==> x > 0.5)
      && (r.Number? ==> 0.0 < r.x < x)
      && (!r.Number? ==> r == Falsy)
  {
    var x := Discharge(o, series).x;
    var n := Thousandths(x / LitresPerCubicMetre);
    assert 1000.0 * (x / LitresPerCubicMetre) == x;
    if x < 0.5 {
      assert n == 0;
    } else if x == 0.5 {
      ThousandthsTie(x / LitresPerCubicMetre, 0);
    } else {
      assert n >= 1;
    }
  }

  /** The conversion is not idempotent: a second pass changes every value
      the first pass kept, since it divides by 1000 again. */
  lemma ConvertTwice(o: Observation, series: Series)
    requires Discharge(Convert(o, series), series).Number?
    ensures Discharge(Convert(Convert(o, series), series), series) != Discharge(Convert(o, series), series)
    ensures Convert(Convert(o, series), series).unite == Some(CubicMetresPerSecond)
  {
    var y := Discharge(Convert(o, series), series).x;
    var n := Thousandths(Discharge(o, series).x / LitresPerCubicMetre);
    assert y * 1000.0 == n as real;
    var m := Thousandths(y / LitresPerCubicMetre);
    assert 1000.0 * (y / LitresPerCubicMetre) == n as real / 1000.0;
  }

  /** A real-time reading of 2500 L/s becomes 2.5 m³/s; 1234.5678 L/s
      becomes 1.235 m³/s; 0.4 L/s rounds to a falsy 0.0 although the unit is
      still set; 1234 L/s converted twice becomes 0.001 m³/s; a value that
      does not parse is returned unchanged. */
  lemma ConvertExamples()
    ensures Convert(Observation(Absent, Number(2500.0), Absent, None), RealTime)
      == Observation(Absent, Number(2.5), Absent, Some("m³/s"))
    ensures Convert(Observation(Number(1234.5678), Absent, Absent, None), Elaborated)
      == Observation(Number(1.235), Absent, Absent, Some("m³/s"))
    ensures Convert(Observation(Absent, Number(0.4), Absent, None), RealTime)
      == Observation(Absent, Falsy, Absent, Some("m³/s"))
    ensures Convert(Convert(Observation(Absent, Number(1234.0), Absent, None), RealTime), RealTime)
      == Observation(Absent, Number(0.001), Absent, Some("m³/s"))
    ensures Convert(Observation(Unparsable, Absent, Absent, None), Elaborated)
      == Observation(Unparsable, Absent, Absent, None)
  {
    assert (1000.0 * 2.5).Floor == 2500;
    assert (1000.0 * (1234.5678 / 1000.0)).Floor == 1234;
    assert (1000.0 * (0.4 / 1000.0)).Floor == 0;
    assert (1000.0 * (1234.0 / 1000.0)).Floor == 1234;
    assert (1000.0 * (1.234 / 1000.0)).Floor == 1;
  }
}
