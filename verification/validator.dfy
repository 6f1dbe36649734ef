/**
 The range check `check_sensor_data` of Python1.py: one alert per reading
 outside its inclusive ideal range, in the order the readings are visited,
 with nested group members checked in place.
 */
module Validator {
  import opened Errors
  import opened Readings
  import opened Quantities
  import opened Assessment

  /** An alert records the variable's name, its value and its ideal range. */
  datatype Alert = Alert(name: string, value: real, ideal: Band)

  /** The alerts for a sequence of leaves, in order. */
  function Alerts(leaves: seq<Leaf>): (r: seq<Alert>)
    ensures forall k :: 0 <= k < |r| ==> !Contains(r[k].ideal, r[k].value)
  {
    if |leaves| == 0 then []
    else
      var l := leaves[|leaves| - 1];
      Alerts(leaves[..|leaves| - 1]) + (if InBand(l) then [] else [Alert(l.name, l.value, l.band)])
  }

  /** `check_sensor_data(sensor_data, thresholds)`. A reading set with no
      readings is not an error here: it simply raises no alert. */
  function CheckSensorData(sensorData: seq<Reading>, thresholds: Thresholds): (r: Result<seq<Alert>>)
    ensures r.Ok? <==> forall i :: 0 <= i < |sensorData| ==> EntryResolves(sensorData[i], thresholds)
    ensures r.Err? ==> r.error == Resolve(sensorData, thresholds).error
    ensures r.Ok? ==> (r.value == [] <==> AllInBand(Resolve(sensorData, thresholds).value))
    ensures r.Ok? ==> |r.value| == CountOutOfBand(Resolve(sensorData, thresholds).value)
  {
    match Resolve(sensorData, thresholds)
    case Err(e) => Err(e)
    case Ok(leaves) =>
      AlertsEmptyIffInBand(leaves);
      AlertsCount(leaves);
      Ok(Alerts(leaves))
  }

  /** One alert per leaf outside its inclusive range. */
  lemma {:induction false} AlertsCount(leaves: seq<Leaf>)
    ensures |Alerts(leaves)| == CountOutOfBand(leaves)
  {
    if |leaves| > 0 {
      AlertsCount(leaves[..|leaves| - 1]);
    }
  }

  /** No alert at all exactly when every leaf lies inside its range. */
  lemma {:induction false} AlertsEmptyIffInBand(leaves: seq<Leaf>)
    ensures Alerts(leaves) == [] <==> AllInBand(leaves)
  {
    if |leaves| > 0 {
      var init := leaves[..|leaves| - 1];
      AlertsEmptyIffInBand(init);
      if AllInBand(leaves) {
        assert AllInBand(init) by {
          forall i | 0 <= i < |init| ensures InBand(init[i]) {
            assert init[i] == leaves[i];
          }
        }
      }
      if Alerts(leaves) == [] {
        forall i | 0 <= i < |leaves| ensures InBand(leaves[i]) {
          if i < |init| { assert init[i] == leaves[i]; }
        }
      }
    }
  }

  /** Every alert records the name, the value and the range of an input leaf
      that lies outside that range. */
  lemma {:induction false} AlertsRecordLeaves(leaves: seq<Leaf>)
    ensures forall k :: 0 <= k < |Alerts(leaves)| ==>
              exists i :: 0 <= i < |leaves| && !InBand(leaves[i])
                       && Alerts(leaves)[k] == Alert(leaves[i].name, leaves[i].value, leaves[i].band)
  {
    if |leaves| > 0 {
      var init := leaves[..|leaves| - 1];
      var l := leaves[|leaves| - 1];
      AlertsRecordLeaves(init);
      assert Alerts(leaves) == Alerts(init) + (if InBand(l) then [] else [Alert(l.name, l.value, l.band)]);
      forall k | 0 <= k < |Alerts(leaves)|
        ensures exists i :: 0 <= i < |leaves| && !InBand(leaves[i])
                         && Alerts(leaves)[k] == Alert(leaves[i].name, leaves[i].value, leaves[i].band)
      {
        if k < |Alerts(init)| {
          var i :| 0 <= i < |init| && !InBand(init[i])
                && Alerts(init)[k] == Alert(init[i].name, init[i].value, init[i].band);
          assert leaves[i] == init[i];
          assert Alerts(leaves)[k] == Alerts(init)[k];
        } else {
          assert Alerts(leaves)[k] == Alert(l.name, l.value, l.band);
          assert !InBand(leaves[|leaves| - 1]);
        }
      }
    } else {
      assert Alerts(leaves) == [];
    }
  }

  /** Every input leaf outside its range has an alert recording its name,
      its value and its range. */
  lemma {:induction false} AlertsCoverLeaves(leaves: seq<Leaf>)
    ensures forall i :: 0 <= i < |leaves| && !InBand(leaves[i]) ==>
              exists k :: 0 <= k < |Alerts(leaves)|
                       && Alerts(leaves)[k] == Alert(leaves[i].name, leaves[i].value, leaves[i].band)
  {
    if |leaves| > 0 {
      var init := leaves[..|leaves| - 1];
      var l := leaves[|leaves| - 1];
      AlertsCoverLeaves(init);
      assert Alerts(leaves) == Alerts(init) + (if InBand(l) then [] else [Alert(l.name, l.value, l.band)]);
      forall i | 0 <= i < |leaves| && !InBand(leaves[i])
        ensures exists k :: 0 <= k < |Alerts(leaves)| && Alerts(leaves)[k] == Alert(leaves[i].name, leaves[i].value, leaves[i].band)
      {
        if i < |init| {
          assert init[i] == leaves[i];
          var k :| 0 <= k < |Alerts(init)| && Alerts(init)[k] == Alert(init[i].name, init[i].value, init[i].band);
          assert Alerts(leaves)[k] == Alerts(init)[k];
        } else {
          assert Alerts(leaves)[|Alerts(leaves)| - 1] == Alert(l.name, l.value, l.band);
        }
      }
    }
  }

  /** Alerts come in input order: those of `a` before those of `b`. */
  lemma {:induction false} AlertsAppend(a: seq<Leaf>, b: seq<Leaf>)
    ensures Alerts(a + b) == Alerts(a) + Alerts(b)
    decreases |b|
  {
    if |b| == 0 {
      assert a + b == a;
    } else {
      var b' := b[..|b| - 1];
      assert (a + b)[..|a + b| - 1] == a + b';
      assert (a + b)[|a + b| - 1] == b[|b| - 1];
      AlertsAppend(a, b');
    }
  }

  /** The bounds are inclusive: a value equal to either end of a proper range
      raises no alert. */
  lemma BoundsNeverAlert(l: Leaf)
    requires l.band.lo <= l.band.hi
    requires l.value == l.band.lo || l.value == l.band.hi
    ensures Alerts([l]) == []
  {
    assert [l][..0] == [];
  }

  /** The validator and the assessor see the same problems: the k-th
      suggestion of the assessor is the remedy for the k-th alert. */
  lemma {:induction false} SuggestionsRemedyAlerts(variant: Variant, soilVolume: real, leaves: seq<Leaf>)
    ensures |Suggestions(variant, soilVolume, leaves)| == |Alerts(leaves)|
    ensures forall k :: 0 <= k < |Alerts(leaves)| ==>
              Remedies(variant, soilVolume, Suggestions(variant, soilVolume, leaves)[k], Alerts(leaves)[k])
  {
    if |leaves| > 0 {
      var init := leaves[..|leaves| - 1];
      SuggestionsRemedyAlerts(variant, soilVolume, init);
      var l := leaves[|leaves| - 1];
      var s := Suggestions(variant, soilVolume, leaves);
      var a := Alerts(leaves);
      assert s == Suggestions(variant, soilVolume, init) + Step(variant, soilVolume, l);
      if !InBand(l) {
        var k := |a| - 1;
        assert a[k] == Alert(l.name, l.value, l.band);
        assert s[k] == Step(variant, soilVolume, l)[0];
      }
    }
  }

  /** Whether suggestion `s` is what the assessor emits for alert `a`. */
  predicate Remedies(variant: Variant, soilVolume: real, s: Suggestion, a: Alert) {
    if a.ideal.lo <= a.value then
      s == Decrease(a.name, a.value, a.ideal.hi)
    else
      match s
      case AddFertilizer(n, g) =>
        variant == WithQuantities && n == a.name && g == NutrientNeeded(a.value, a.ideal.lo, SoilMass(soilVolume))
      case AddWater(w) =>
        variant == WithQuantities && a.name == SoilMoisture && w == WaterNeeded(a.value, a.ideal.lo, soilVolume)
      case Increase(n, c, m) => n == a.name && c == a.value && m == a.ideal.lo
      case Decrease(_, _, _) => false
  }
}
