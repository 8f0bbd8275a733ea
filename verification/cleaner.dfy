/** The sample cleaner of the forecast service: it turns raw Hub'Eau
    observation records into the strictly positive, unit-normalised discharge
    series the strategies work on. */
module Cleaner {
  import opened Results

  /** What a record holds under one field name, as far as Python's truth test
      and `float()` can tell. */
  datatype FieldValue =
    | Absent           // the key is missing
    | Falsy            // None, numeric 0, "" — skipped by `obs[k] and ...`
    | Unparsable       // truthy, but `float()` raises ValueError or TypeError
    | Number(x: real)  // truthy, and `float()` returns x (the string "0" gives Number(0.0))

  /** A raw observation, reduced to the three magnitude fields the cleaner
      probes and the unit field the unit conversion sets. */
  datatype Observation = Observation(
    resultatObsElab: FieldValue,
    resultatObs: FieldValue,
    valeur: FieldValue,
    unite: Option<string>)

  /** The readings above this are taken to be litres per second. */
  const Threshold: real := 1000.0

  predicate Truthy(f: FieldValue)
  {
    f.Unparsable? || f.Number?
  }

  /** The value chosen for a record: the first truthy field, in priority
      order `resultat_obs_elab`, `resultat_obs`, `valeur`, parsed; `None` when
      no field is truthy, `Failure` when the chosen one does not parse. */
  function Probe(o: Observation): Result<Option<real>, FieldValue>
  {
    var f :=
      if Truthy(o.resultatObsElab) then o.resultatObsElab
      else if Truthy(o.resultatObs) then o.resultatObs
      else o.valeur;
    match f
    case Number(x) => Success(Some(x))
    case Unparsable => Failure(f)
    case _ => Success(None)
  }

  /** Litres per second to cubic metres per second, applied only above the
      threshold (1000 itself is left alone). */
  function Normalise(x: real): (r: real)
    requires x > 0.0
    ensures r > 0.0
    ensures x > Threshold ==> r * Threshold == x
    ensures x <= Threshold ==> r == x
    ensures r <= x
  {
    if x > Threshold then x / Threshold else x
  }

  /** The sample one record contributes, if any. */
  function CleanRecord(o: Observation): Option<real>
  {
    match Probe(o)
    case Success(Some(x)) => if x > 0.0 then Some(Normalise(x)) else None
    case _ => None
  }

  /** `_clean_historical_data`: the contributions of the records, in order. */
  function Clean(obs: seq<Observation>): (r: seq<real>)
    ensures |r| <= |obs|
    ensures forall i :: 0 <= i < |r| ==> r[i] > 0.0
  {
    if |obs| == 0 then []
    else Contribution(obs[0]) + Clean(obs[1..])
  }

  function Contribution(o: Observation): (r: seq<real>)
    ensures |r| <= 1
    ensures forall i :: 0 <= i < |r| ==> r[i] > 0.0
  {
    match CleanRecord(o)
    case Some(v) => [v]
    case None => []
  }

  /** Cleaning is done record by record: a record is never affected by its
      neighbours, so the output keeps the input order and a bad record drops
      out without aborting the batch. */
  lemma {:induction false} CleanAppend(a: seq<Observation>, b: seq<Observation>)
    ensures Clean(a + b) == Clean(a) + Clean(b)
  {
    if |a| == 0 {
      assert a + b == b;
    } else {
      assert (a + b)[1..] == a[1..] + b;
      CleanAppend(a[1..], b);
    }
  }

  /** A record that yields no sample is skipped and the rest of the batch is
      cleaned as if it were not there. */
  lemma SkippedRecord(a: seq<Observation>, o: Observation, b: seq<Observation>)
    requires CleanRecord(o) == None
    ensures Clean(a + [o] + b) == Clean(a) + Clean(b)
  {
    CleanAppend(a + [o], b);
    CleanAppend(a, [o]);
    assert [o][1..] == [];
    assert Clean([o]) == [];
    assert Clean(a + [o]) == Clean(a);
  }

  /** A value lands in the clean series exactly when some record yields it. */
  lemma {:induction false} CleanMembers(obs: seq<Observation>, v: real)
    ensures v in Clean(obs) <==> exists i :: 0 <= i < |obs| && CleanRecord(obs[i]) == Some(v)
  {
    if |obs| > 0 {
      CleanMembers(obs[1..], v);
      if v in Clean(obs[1..]) {
        var i :| 0 <= i < |obs[1..]| && CleanRecord(obs[1..][i]) == Some(v);
        assert CleanRecord(obs[i + 1]) == Some(v);
      }
      if exists i :: 0 <= i < |obs| && CleanRecord(obs[i]) == Some(v) {
        var i :| 0 <= i < |obs| && CleanRecord(obs[i]) == Some(v);
        if i > 0 {
          assert CleanRecord(obs[1..][i - 1]) == Some(v);
        }
      }
    }
  }

  /** Field priority: the first truthy field decides, whatever the later
      fields hold. A truthy field that does not parse, or parses to a value
      that is not positive, drops the record instead of falling through. */
  lemma FieldPriority(o: Observation)
    ensures Truthy(o.resultatObsElab) ==>
      CleanRecord(o) == CleanRecord(Observation(o.resultatObsElab, Absent, Absent, None))
    ensures !Truthy(o.resultatObsElab) && Truthy(o.resultatObs) ==>
      CleanRecord(o) == CleanRecord(Observation(Absent, o.resultatObs, Absent, None))
    ensures !Truthy(o.resultatObsElab) && !Truthy(o.resultatObs) ==>
      CleanRecord(o) == CleanRecord(Observation(Absent, Absent, o.valeur, None))
    ensures !Truthy(o.resultatObsElab) && !Truthy(o.resultatObs) && !Truthy(o.valeur) ==>
      CleanRecord(o) == None
  {
  }

  /** What one field, alone in its record, contributes. */
  lemma SingleField(f: FieldValue)
    ensures f.Number? && f.x > 0.0 ==> CleanRecord(Observation(f, Absent, Absent, None)) == Some(Normalise(f.x))
    ensures !(f.Number? && f.x > 0.0) ==> CleanRecord(Observation(f, Absent, Absent, None)) == None
  {
  }

  /** A truthy value that does not parse blocks the fields behind it. */
  lemma UnparsableDoesNotFallThrough(o: Observation)
    requires o.resultatObsElab == Unparsable
    ensures CleanRecord(o) == None
  {
  }

  /** The unit heuristic at and around its threshold. */
  lemma NormaliseExamples()
    ensures Normalise(500.0) == 500.0
    ensures Normalise(1000.0) == 1000.0
    ensures Normalise(1000.1) == 1.0001
    ensures Normalise(1500.0) == 1.5
  {
  }

  /** Records whose `valeur` is 5, 0, -3, "abc" and 7 clean to [5, 7]. */
  lemma MixedBatchExample()
    ensures Clean([
      Observation(Absent, Absent, Number(5.0), None),
      Observation(Absent, Absent, Falsy, None),
      Observation(Absent, Absent, Number(-3.0), None),
      Observation(Absent, Absent, Unparsable, None),
      Observation(Absent, Absent, Number(7.0), None)]) == [5.0, 7.0]
  {
    var batch := [
      Observation(Absent, Absent, Number(5.0), None),
      Observation(Absent, Absent, Falsy, None),
      Observation(Absent, Absent, Number(-3.0), None),
      Observation(Absent, Absent, Unparsable, None),
      Observation(Absent, Absent, Number(7.0), None)];
    assert batch[1..][1..][1..][1..][1..] == [];
  }
}
