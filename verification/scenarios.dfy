/**
 The engine on the scripts' own six-reading layout and default thresholds,
 and the worked examples for it: all readings ideal, a nitrogen deficit, a
 soil-moisture deficit and an excess temperature.
 */
module Scenarios {
  import opened Errors
  import opened Readings
  import opened Scoring
  import opened Quantities
  import opened Assessment
  import opened Validator

  /** On the default layout the engine scores the six default leaves, in
      order, and lists their suggestions. */
  lemma DefaultAssessment(variant: Variant, d: SensorData, soilVolume: real)
    ensures |ScoreList(DefaultLeaves(d))| == 6
    ensures Assess(variant, Layout(d), DefaultThresholds, soilVolume)
         == Ok(Report(Mean(ScoreList(DefaultLeaves(d))), Suggestions(variant, soilVolume, DefaultLeaves(d))))
  {
    DefaultLayoutResolves(d);
  }

  /** The suggestions on the default layout are the six leaves' steps, nutrients
      first. */
  lemma DefaultSuggestions(variant: Variant, d: SensorData, soilVolume: real)
    ensures Suggestions(variant, soilVolume, DefaultLeaves(d))
         == Step(variant, soilVolume, DefaultLeaves(d)[0]) + Step(variant, soilVolume, DefaultLeaves(d)[1])
          + Step(variant, soilVolume, DefaultLeaves(d)[2]) + Step(variant, soilVolume, DefaultLeaves(d)[3])
          + Step(variant, soilVolume, DefaultLeaves(d)[4]) + Step(variant, soilVolume, DefaultLeaves(d)[5])
  {
    var ls := DefaultLeaves(d);
    var sugg := (i: nat) requires i < 6 => Step(variant, soilVolume, ls[i]);
    assert ls[..1][..0] == [];
    assert ls[..2][..1] == ls[..1];
    assert ls[..3][..2] == ls[..2];
    assert ls[..4][..3] == ls[..3];
    assert ls[..5][..4] == ls[..4];
    assert ls[..6][..5] == ls[..5];
    assert ls[..6] == ls;
    assert Suggestions(variant, soilVolume, ls[..1]) == sugg(0);
    assert Suggestions(variant, soilVolume, ls[..2]) == sugg(0) + sugg(1);
    assert Suggestions(variant, soilVolume, ls[..3]) == sugg(0) + sugg(1) + sugg(2);
    assert Suggestions(variant, soilVolume, ls[..4]) == sugg(0) + sugg(1) + sugg(2) + sugg(3);
    assert Suggestions(variant, soilVolume, ls[..5]) == sugg(0) + sugg(1) + sugg(2) + sugg(3) + sugg(4);
  }

  /** Python's `sum` over six scores. */
  lemma SumOfSix(xs: seq<real>)
    requires |xs| == 6
    ensures Sum(xs) == xs[0] + xs[1] + xs[2] + xs[3] + xs[4] + xs[5]
  {
    assert xs[..1][..0] == [];
    assert xs[..2][..1] == xs[..1];
    assert xs[..3][..2] == xs[..2];
    assert xs[..4][..3] == xs[..3];
    assert xs[..5][..4] == xs[..4];
    assert xs[..6][..5] == xs[..5];
    assert xs[..6] == xs;
    assert Sum(xs[..1]) == xs[0];
    assert Sum(xs[..2]) == xs[0] + xs[1];
    assert Sum(xs[..3]) == xs[0] + xs[1] + xs[2];
    assert Sum(xs[..4]) == xs[0] + xs[1] + xs[2] + xs[3];
    assert Sum(xs[..5]) == xs[0] + xs[1] + xs[2] + xs[3] + xs[4];
  }

  /** Readings inside every default range give a perfect score and no
      suggestion, whatever the variant and soil volume. */
  lemma IdealReadingsNeedNothing(variant: Variant, d: SensorData, soilVolume: real)
    requires AllInBand(DefaultLeaves(d))
    ensures Assess(variant, Layout(d), DefaultThresholds, soilVolume) == Ok(Report(1.0, []))
  {
    DefaultLayoutResolves(d);
  }

  const IdealReadings: SensorData := SensorData(50.0, 30.0, 25.0, 60.0, 20.0, 30.0)

  lemma AllIdealExample()
    ensures Assess(WithQuantities, Layout(IdealReadings), DefaultThresholds, 1.0) == Ok(Report(1.0, []))
  {
    var ls := DefaultLeaves(IdealReadings);
    assert InBand(ls[0]) && InBand(ls[1]) && InBand(ls[2]) && InBand(ls[3]) && InBand(ls[4]) && InBand(ls[5]);
    IdealReadingsNeedNothing(WithQuantities, IdealReadings, 1.0);
  }

  /** Nitrogen 20 mg/kg, everything else ideal, one cubic metre: nitrogen
      scores 0, the total is 5/6, and the only suggestion is 26 grams of
      nitrogen fertilizer. */
  lemma NitrogenDeficitExample()
    ensures Assess(WithQuantities, Layout(IdealReadings.(nitrogen := 20.0)), DefaultThresholds, 1.0)
         == Ok(Report(5.0 / 6.0, [AddFertilizer("Nitrogen", 26.0)]))
  {
    var d := IdealReadings.(nitrogen := 20.0);
    DefaultAssessment(WithQuantities, d, 1.0);
    OnlyOneSuggests(WithQuantities, d, 1.0, 0);
    NitrogenStep();
    NitrogenMean();
  }

  lemma NitrogenMean()
    ensures Mean(ScoreList(DefaultLeaves(IdealReadings.(nitrogen := 20.0)))) == 5.0 / 6.0
  {
    SixScores(IdealReadings.(nitrogen := 20.0), [0.0, 1.0, 1.0, 1.0, 1.0, 1.0]);
  }

  lemma NitrogenStep()
    ensures Step(WithQuantities, 1.0, DefaultLeaves(IdealReadings.(nitrogen := 20.0))[0])
         == [AddFertilizer("Nitrogen", 26.0)]
  {
    NitrogenExampleAmount();
  }

  /** Soil moisture 15%, everything else ideal, one cubic metre: moisture
      scores 1/3, the total is 8/9, and the only suggestion is 100 litres of
      water. */
  lemma SoilMoistureDeficitExample()
    ensures Assess(WithQuantities, Layout(IdealReadings.(soilMoisture := 15.0)), DefaultThresholds, 1.0)
         == Ok(Report(8.0 / 9.0, [AddWater(100.0)]))
  {
    var d := IdealReadings.(soilMoisture := 15.0);
    DefaultAssessment(WithQuantities, d, 1.0);
    OnlyOneSuggests(WithQuantities, d, 1.0, 5);
    MoistureStep();
    MoistureMean();
  }

  lemma MoistureMean()
    ensures Mean(ScoreList(DefaultLeaves(IdealReadings.(soilMoisture := 15.0)))) == 8.0 / 9.0
  {
    MoistureScore();
    SixScores(IdealReadings.(soilMoisture := 15.0), [1.0, 1.0, 1.0, 1.0, 1.0, 1.0 / 3.0]);
    assert (1.0 + 1.0 + 1.0 + 1.0 + 1.0 + 1.0 / 3.0) / 6.0 == 8.0 / 9.0;
  }

  lemma MoistureStep()
    ensures Step(WithQuantities, 1.0, DefaultLeaves(IdealReadings.(soilMoisture := 15.0))[5]) == [AddWater(100.0)]
  {
    MoistureExampleAmount();
  }

  lemma MoistureScore()
    ensures LeafScore(DefaultLeaves(IdealReadings.(soilMoisture := 15.0))[5]) == 1.0 / 3.0
  {
    assert Score(15.0, 25.0, 40.0) == (15.0 - 10.0) / (25.0 - 10.0);
  }

  /** Temperature 30 degrees Celsius, everything else ideal: temperature
      scores 0.5, the total is 11/12, and the only suggestion is a
      qualitative decrease. */
  lemma TemperatureExcessExample()
    ensures Assess(WithQuantities, Layout(IdealReadings.(temperature := 30.0)), DefaultThresholds, 1.0)
         == Ok(Report(11.0 / 12.0, [Decrease("Temperature", 30.0, 25.0)]))
  {
    var d := IdealReadings.(temperature := 30.0);
    DefaultAssessment(WithQuantities, d, 1.0);
    OnlyOneSuggests(WithQuantities, d, 1.0, 4);
    TemperatureMean();
  }

  lemma TemperatureMean()
    ensures Mean(ScoreList(DefaultLeaves(IdealReadings.(temperature := 30.0)))) == 11.0 / 12.0
  {
    TemperatureScore();
    SixScores(IdealReadings.(temperature := 30.0), [1.0, 1.0, 1.0, 1.0, 0.5, 1.0]);
  }

  lemma TemperatureScore()
    ensures LeafScore(DefaultLeaves(IdealReadings.(temperature := 30.0))[4]) == 0.5
  {
    assert Score(30.0, 15.0, 25.0) == (35.0 - 30.0) / (35.0 - 25.0);
  }

  /** PyResult-File.py on the nitrogen deficit: the same total, but only an
      instruction to increase nitrogen towards its ideal minimum. */
  lemma QualitativeNitrogenExample()
    ensures Assess(QualitativeOnly, Layout(IdealReadings.(nitrogen := 20.0)), DefaultThresholds, 1.0)
         == Ok(Report(5.0 / 6.0, [Increase("Nitrogen", 20.0, 40.0)]))
  {
    var d := IdealReadings.(nitrogen := 20.0);
    DefaultAssessment(QualitativeOnly, d, 1.0);
    OnlyOneSuggests(QualitativeOnly, d, 1.0, 0);
    NitrogenMean();
  }

  /** When only the `j`-th of the six default leaves may be out of range,
      the suggestions are that leaf's step alone. */
  lemma OnlyOneSuggests(variant: Variant, d: SensorData, soilVolume: real, j: nat)
    requires j < 6
    requires forall i :: 0 <= i < 6 && i != j ==> InBand(DefaultLeaves(d)[i])
    ensures Suggestions(variant, soilVolume, DefaultLeaves(d)) == Step(variant, soilVolume, DefaultLeaves(d)[j])
  {
    DefaultSuggestions(variant, d, soilVolume);
    var ls := DefaultLeaves(d);
    var s := Step(variant, soilVolume, ls[j]);
    assert forall i :: 0 <= i < 6 && i != j ==> Step(variant, soilVolume, ls[i]) == [];
    if j == 0 {
      assert s + [] + [] + [] + [] + [] == s;
    } else if j == 1 {
      assert [] + s + [] + [] + [] + [] == s;
    } else if j == 2 {
      assert [] + [] + s + [] + [] + [] == s;
    } else if j == 3 {
      assert [] + [] + [] + s + [] + [] == s;
    } else if j == 4 {
      assert [] + [] + [] + [] + s + [] == s;
    } else {
      assert [] + [] + [] + [] + [] + s == s;
    }
  }

  /** The validator on the nitrogen deficit raises exactly one alert. */
  lemma ValidatorNitrogenExample()
    ensures CheckSensorData(Layout(IdealReadings.(nitrogen := 20.0)), DefaultThresholds)
         == Ok([Alert("Nitrogen", 20.0, NitrogenBand)])
  {
    var d := IdealReadings.(nitrogen := 20.0);
    var ls := DefaultLeaves(d);
    var alert := Alert("Nitrogen", 20.0, NitrogenBand);
    DefaultLayoutResolves(d);
    assert ls[..1][..0] == [];
    assert ls[..2][..1] == ls[..1];
    assert ls[..3][..2] == ls[..2];
    assert ls[..4][..3] == ls[..3];
    assert ls[..5][..4] == ls[..4];
    assert ls[..6][..5] == ls[..5];
    assert ls[..6] == ls;
    assert Alerts(ls[..1]) == [alert];
    assert Alerts(ls[..2]) == [alert];
    assert Alerts(ls[..3]) == [alert];
    assert Alerts(ls[..4]) == [alert];
    assert Alerts(ls[..5]) == [alert];
  }

  /** The scores of the six default leaves, given explicitly, and their mean. */
  lemma SixScores(d: SensorData, expected: seq<real>)
    requires |expected| == 6
    requires forall i :: 0 <= i < 6 ==> LeafScore(DefaultLeaves(d)[i]) == expected[i]
    ensures Mean(ScoreList(DefaultLeaves(d)))
         == (expected[0] + expected[1] + expected[2] + expected[3] + expected[4] + expected[5]) / 6.0
  {
    var scores := ScoreList(DefaultLeaves(d));
    assert scores == expected;
    SumOfSix(expected);
  }

  /** A reading set that yields no score at all fails instead of dividing
      by zero; an empty NPK group alone is such a set. */
  lemma NoScoresFail(variant: Variant, soilVolume: real)
    ensures Assess(variant, [], DefaultThresholds, soilVolume) == Err(NoReadings)
    ensures Assess(variant, [Group(NpkGroup, [])], DefaultThresholds, soilVolume) == Err(NoReadings)
  {
    assert [Group(NpkGroup, [])][..0] == [];
  }

  /** A reading with no entry in the table fails the call with its name. */
  lemma UnknownReadingFails(variant: Variant, d: SensorData, soilVolume: real)
    ensures Assess(variant, Layout(d) + [Plain("pH", 6.5)], DefaultThresholds, soilVolume)
         == Err(MissingThreshold("pH"))
  {
    var rs := Layout(d) + [Plain("pH", 6.5)];
    DefaultLayoutResolves(d);
    assert rs[..|rs| - 1] == Layout(d);
    assert "pH" !in DefaultThresholds;
  }

  /** A nested group with no members contributes nothing and looks nothing up,
      even when the table has no entry for it. */
  lemma EmptyGroupIsSkipped(variant: Variant, d: SensorData, soilVolume: real)
    ensures Assess(variant, [Group("Micronutrients", [])] + Layout(d), DefaultThresholds, soilVolume)
         == Assess(variant, Layout(d), DefaultThresholds, soilVolume)
  {
    var g := [Group("Micronutrients", [])];
    DefaultLayoutResolves(d);
    assert g[..0] == [];
    assert Resolve(g, DefaultThresholds) == Ok([]);
    ResolveAppend(g, Layout(d), DefaultThresholds);
    assert [] + DefaultLeaves(d) == DefaultLeaves(d);
  }
}
