/**
 The health assessor `assess_soil_health`: one score per leaf, their mean as
 the overall health score, and one remediation suggestion per leaf that
 scores below 1.

 The four scripts share this logic. The three copies under pythonNASA/
 compute a quantity for deficits (`WithQuantities`); PyResult-File.py only
 says increase or decrease (`QualitativeOnly`).
 */
module Assessment {
  import opened Errors
  import opened Readings
  import opened Scoring
  import opened Quantities

  /** A remediation suggestion; the scripts render each as a sentence. */
  datatype Suggestion =
    | AddFertilizer(nutrient: string, grams: real)
    | AddWater(liters: real)
    | Increase(name: string, current: real, idealMin: real)
    | Decrease(name: string, current: real, idealMax: real)

  datatype Variant = WithQuantities | QualitativeOnly

  /** The overall score and the suggestions, in the order the leaves were visited. */
  datatype Report = Report(total: real, suggestions: seq<Suggestion>)

  /** What one entry of the reading set adds to the lists `scores` and
      `suggestions`. */
  datatype Contribution = Contribution(scores: seq<real>, suggestions: seq<Suggestion>)

  function LeafScore(l: Leaf): real {
    Score(l.value, l.band.lo, l.band.hi)
  }

  /** The suggestion for a leaf below its ideal minimum. */
  function Deficit(variant: Variant, soilVolume: real, l: Leaf): (r: Suggestion)
    ensures !r.Decrease?
    ensures r.AddFertilizer? || r.AddWater? ==> variant == WithQuantities
  {
    match variant
    case QualitativeOnly => Increase(l.name, l.value, l.band.lo)
    case WithQuantities =>
      if l.kind == Nutrient then
        AddFertilizer(l.name, NutrientNeeded(l.value, l.band.lo, SoilMass(soilVolume)))
      else if l.name == SoilMoisture then
        AddWater(WaterNeeded(l.value, l.band.lo, soilVolume))
      else
        Increase(l.name, l.value, l.band.lo)
  }

  /** What one pass of the scripts' loop body appends to the suggestions for
      one leaf: nothing for a leaf inside its range, one suggestion otherwise,
      chosen by the side of the range the value falls on, the kind of leaf
      and the variant. */
  function Step(variant: Variant, soilVolume: real, l: Leaf): (r: seq<Suggestion>)
    ensures |r| <= 1
    ensures |r| == 1 <==> !InBand(l)
    ensures |r| == 1 ==> (r[0].Decrease? <==> l.band.lo <= l.value)
    ensures |r| == 1 && r[0].Decrease? ==> r[0] == Decrease(l.name, l.value, l.band.hi) && l.value > l.band.hi
    ensures |r| == 1 ==> (r[0].AddFertilizer? <==>
              variant == WithQuantities && l.kind == Nutrient && l.value < l.band.lo)
    ensures |r| == 1 ==> (r[0].AddWater? <==>
              variant == WithQuantities && l.kind == TopLevel && l.name == SoilMoisture && l.value < l.band.lo)
    ensures |r| == 1 && r[0].AddFertilizer? ==>
              r[0] == AddFertilizer(l.name, NutrientNeeded(l.value, l.band.lo, SoilMass(soilVolume)))
    ensures |r| == 1 && r[0].AddWater? ==> r[0] == AddWater(WaterNeeded(l.value, l.band.lo, soilVolume))
    ensures |r| == 1 && r[0].Increase? ==> r[0] == Increase(l.name, l.value, l.band.lo)
  {
    if LeafScore(l) < 1.0 then
      if l.value < l.band.lo then [Deficit(variant, soilVolume, l)]
      else if l.value > l.band.hi then [Decrease(l.name, l.value, l.band.hi)]
      else []
    else []
  }

  /** The suggestions for a sequence of leaves, in order. */
  function Suggestions(variant: Variant, soilVolume: real, leaves: seq<Leaf>): (r: seq<Suggestion>)
    ensures |r| <= |leaves|
  {
    if |leaves| == 0 then []
    else Suggestions(variant, soilVolume, leaves[..|leaves| - 1]) + Step(variant, soilVolume, leaves[|leaves| - 1])
  }

  /** The list `scores` the scripts build: one score per leaf. */
  function ScoreList(leaves: seq<Leaf>): (r: seq<real>)
    ensures |r| == |leaves|
  {
    seq(|leaves|, i requires 0 <= i < |leaves| => LeafScore(leaves[i]))
  }

  /** Python's `sum`, a left fold from 0. */
  function Sum(xs: seq<real>): real {
    if |xs| == 0 then 0.0 else Sum(xs[..|xs| - 1]) + xs[|xs| - 1]
  }

  predicate AllUnit(xs: seq<real>) {
    forall i :: 0 <= i < |xs| ==> 0.0 <= xs[i] <= 1.0
  }

  /** `sum(scores) / len(scores)`; the empty case is the caller's error. */
  function Mean(xs: seq<real>): (m: real)
    requires |xs| > 0
    ensures m * |xs| as real == Sum(xs)
  {
    Sum(xs) / |xs| as real
  }

  /** The mean of scores in [0, 1] lies in [0, 1]. */
  lemma MeanInUnitInterval(xs: seq<real>)
    requires |xs| > 0 && AllUnit(xs)
    ensures 0.0 <= Mean(xs) <= 1.0
  {
    SumBounds(xs);
    MeanBounds(Sum(xs), |xs| as real);
  }

  /** The mean of scores in [0, 1] is perfect exactly when every score is. */
  lemma MeanIsOneIffAllOne(xs: seq<real>)
    requires |xs| > 0 && AllUnit(xs)
    ensures Mean(xs) == 1.0 <==> forall i :: 0 <= i < |xs| ==> xs[i] == 1.0
  {
    SumBounds(xs);
    MeanBounds(Sum(xs), |xs| as real);
  }

  /** The functional description of `assess_soil_health`. */
  function Assess(variant: Variant, sensorData: seq<Reading>, thresholds: Thresholds, soilVolume: real)
    : (r: Result<Report>)
    ensures Resolve(sensorData, thresholds).Err? ==> r == Err(Resolve(sensorData, thresholds).error)
    ensures r == Err(NoReadings) <==> Resolve(sensorData, thresholds) == Ok([])
    ensures r.Ok? <==> Resolve(sensorData, thresholds).Ok? && |Resolve(sensorData, thresholds).value| > 0
    ensures r.Ok? ==> 0.0 <= r.value.total <= 1.0
    ensures r.Ok? ==> (r.value.total == 1.0 <==> AllInBand(Resolve(sensorData, thresholds).value))
    ensures r.Ok? ==> (r.value.suggestions == [] <==> AllInBand(Resolve(sensorData, thresholds).value))
    ensures r.Ok? ==> |r.value.suggestions| == CountOutOfBand(Resolve(sensorData, thresholds).value)
  {
    match Resolve(sensorData, thresholds)
    case Err(e) => Err(e)
    case Ok(leaves) =>
      if |leaves| == 0 then Err(NoReadings)
      else
        var scores := ScoreList(leaves);
        ScoresAreUnit(leaves);
        ScoresFullIffInBand(leaves);
        MeanInUnitInterval(scores);
        MeanIsOneIffAllOne(scores);
        SuggestionsEmptyIffInBand(variant, soilVolume, leaves);
        SuggestionsCount(variant, soilVolume, leaves);
        Ok(Report(Mean(scores), Suggestions(variant, soilVolume, leaves)))
  }

  /** `assess_soil_health`: gather the scores and suggestions of every entry,
      then divide the sum of the scores by their number. */
  method AssessSoilHealth(variant: Variant, sensorData: seq<Reading>, thresholds: Thresholds, soilVolume: real)
    returns (r: Result<Report>)
    ensures r == Assess(variant, sensorData, thresholds, soilVolume)
  {
    var gathered := GatherScores(variant, sensorData, thresholds, soilVolume);
    if gathered.Err? {
      return Err(gathered.error);
    }
    var scores := gathered.value.scores;
    if |scores| == 0 {
      return Err(NoReadings);
    }
    r := Ok(Report(Sum(scores) / |scores| as real, gathered.value.suggestions));
  }

  /** The scripts' loop over the sensor dictionary: visit every top-level
      entry in order, looking up its range and appending its scores and
      suggestions. A failed lookup ends the call. */
  method GatherScores(variant: Variant, sensorData: seq<Reading>, thresholds: Thresholds, soilVolume: real)
    returns (r: Result<Contribution>)
    ensures Resolve(sensorData, thresholds).Err? ==> r == Err(Resolve(sensorData, thresholds).error)
    ensures Resolve(sensorData, thresholds).Ok? ==>
              r == Ok(Contribution(ScoreList(Resolve(sensorData, thresholds).value),
                                   Suggestions(variant, soilVolume, Resolve(sensorData, thresholds).value)))
  {
    ghost var leaves: seq<Leaf> := [];
    var scores: seq<real> := [];
    var suggestions: seq<Suggestion> := [];
    var i := 0;
    while i < |sensorData|
      invariant 0 <= i <= |sensorData|
      invariant Resolve(sensorData[..i], thresholds) == Ok(leaves)
      invariant scores == ScoreList(leaves)
      invariant suggestions == Suggestions(variant, soilVolume, leaves)
    {
      assert sensorData[..i + 1][..i] == sensorData[..i];
      assert sensorData[..i + 1][i] == sensorData[i];
      var part := AssessEntry(variant, soilVolume, sensorData[i], thresholds);
      if part.Err? {
        assert Resolve(sensorData[..i + 1], thresholds) == Err(part.error);
        ResolvePrefixErr(sensorData, i + 1, thresholds);
        return Err(part.error);
      }
      ghost var more := ResolveEntry(sensorData[i], thresholds).value;
      ScoreListAppend(leaves, more);
      SuggestionsAppend(variant, soilVolume, leaves, more);
      scores := scores + part.value.scores;
      suggestions := suggestions + part.value.suggestions;
      leaves := leaves + more;
      i := i + 1;
    }
    assert sensorData[..i] == sensorData;
    r := Ok(Contribution(scores, suggestions));
  }

  /** One top-level entry: a plain reading contributes one score, a nested
      group runs the inner loop over its members. */
  method AssessEntry(variant: Variant, soilVolume: real, entry: Reading, thresholds: Thresholds)
    returns (r: Result<Contribution>)
    ensures ResolveEntry(entry, thresholds).Err? ==> r == Err(ResolveEntry(entry, thresholds).error)
    ensures ResolveEntry(entry, thresholds).Ok? ==>
              r == Ok(Contribution(ScoreList(ResolveEntry(entry, thresholds).value),
                                   Suggestions(variant, soilVolume, ResolveEntry(entry, thresholds).value)))
  {
    match entry {
      case Plain(name, value) =>
        if name !in thresholds {
          return Err(MissingThreshold(name));
        }
        if !thresholds[name].Range? {
          return Err(ShapeMismatch(name));
        }
        var l := Leaf(TopLevel, name, value, thresholds[name].band);
        assert ResolveEntry(entry, thresholds) == Ok([l]);
        assert [] + [l] == [l];
        AppendLeaf(variant, soilVolume, [], l);
        assert Suggestions(variant, soilVolume, [l]) == [] + Step(variant, soilVolume, l) == Step(variant, soilVolume, l);
        assert ScoreList([l]) == [LeafScore(l)];
        r := Ok(Contribution([LeafScore(l)], Step(variant, soilVolume, l)));
      case Group(name, members) =>
        if |members| == 0 {
          return Ok(Contribution([], []));
        }
        if name !in thresholds {
          return Err(MissingThreshold(name));
        }
        if !thresholds[name].Nested? {
          return Err(ShapeMismatch(name));
        }
        assert ResolveEntry(entry, thresholds) == ResolveMembers(members, thresholds[name].bands);
        r := AssessMembers(variant, soilVolume, members, thresholds[name].bands);
    }
  }

  /** The inner loop over the members of a nested group (NPK_levels). */
  method AssessMembers(variant: Variant, soilVolume: real, members: seq<Member>, bands: map<string, Band>)
    returns (r: Result<Contribution>)
    ensures ResolveMembers(members, bands).Err? ==> r == Err(ResolveMembers(members, bands).error)
    ensures ResolveMembers(members, bands).Ok? ==>
              r == Ok(Contribution(ScoreList(ResolveMembers(members, bands).value),
                                   Suggestions(variant, soilVolume, ResolveMembers(members, bands).value)))
  {
    ghost var leaves: seq<Leaf> := [];
    var scores: seq<real> := [];
    var suggestions: seq<Suggestion> := [];
    var j := 0;
    while j < |members|
      invariant 0 <= j <= |members|
      invariant ResolveMembers(members[..j], bands) == Ok(leaves)
      invariant scores == ScoreList(leaves)
      invariant suggestions == Suggestions(variant, soilVolume, leaves)
    {
      var m := members[j];
      assert members[..j + 1][..j] == members[..j];
      assert members[..j + 1][j] == m;
      if m.name !in bands {
        r := Err(MissingThreshold(m.name));
        ResolveMembersPrefixErr(members, j + 1, bands);
        return;
      }
      var l := Leaf(Nutrient, m.name, m.value, bands[m.name]);
      AppendLeaf(variant, soilVolume, leaves, l);
      scores := scores + [LeafScore(l)];
      suggestions := suggestions + Step(variant, soilVolume, l);
      leaves := leaves + [l];
      j := j + 1;
    }
    assert members[..j] == members;
    r := Ok(Contribution(scores, suggestions));
  }

  // ---------------------------------------------------------------------------
  // Lemmas
  // ---------------------------------------------------------------------------

  /** Appending a leaf appends its score and its step's suggestions. */
  lemma AppendLeaf(variant: Variant, soilVolume: real, leaves: seq<Leaf>, l: Leaf)
    ensures ScoreList(leaves + [l]) == ScoreList(leaves) + [LeafScore(l)]
    ensures Suggestions(variant, soilVolume, leaves + [l])
         == Suggestions(variant, soilVolume, leaves) + Step(variant, soilVolume, l)
  {
    assert (leaves + [l])[..|leaves|] == leaves;
  }

  lemma ScoreListAppend(a: seq<Leaf>, b: seq<Leaf>)
    ensures ScoreList(a + b) == ScoreList(a) + ScoreList(b)
  {
  }

  lemma {:induction false} SumBounds(xs: seq<real>)
    ensures AllUnit(xs) ==> 0.0 <= Sum(xs) <= |xs| as real
    ensures AllUnit(xs) ==> (Sum(xs) == |xs| as real <==> forall i :: 0 <= i < |xs| ==> xs[i] == 1.0)
  {
    if |xs| > 0 {
      var init := xs[..|xs| - 1];
      SumBounds(init);
      if AllUnit(xs) {
        assert AllUnit(init) by {
          forall i | 0 <= i < |init| ensures 0.0 <= init[i] <= 1.0 {
            assert init[i] == xs[i];
          }
        }
        if Sum(xs) == |xs| as real {
          forall i | 0 <= i < |xs| ensures xs[i] == 1.0 {
            if i < |init| { assert init[i] == xs[i]; }
          }
        }
        if forall i :: 0 <= i < |xs| ==> xs[i] == 1.0 {
          assert forall i :: 0 <= i < |init| ==> init[i] == 1.0 by {
            forall i | 0 <= i < |init| ensures init[i] == 1.0 {
              assert init[i] == xs[i];
            }
          }
        }
      }
    }
  }

  lemma MeanBounds(s: real, n: real)
    requires n > 0.0
    ensures 0.0 <= s <= n ==> 0.0 <= s / n <= 1.0 && (s / n == 1.0 <==> s == n)
  {
    if 0.0 <= s <= n {
      RampFacts(s, n);
    }
  }

  lemma ScoresAreUnit(leaves: seq<Leaf>)
    ensures AllUnit(ScoreList(leaves))
  {
  }

  /** Every score is 1 exactly when every leaf lies inside its range. */
  lemma ScoresFullIffInBand(leaves: seq<Leaf>)
    ensures (forall i :: 0 <= i < |leaves| ==> ScoreList(leaves)[i] == 1.0) <==> AllInBand(leaves)
  {
    var scores := ScoreList(leaves);
    if forall i :: 0 <= i < |leaves| ==> scores[i] == 1.0 {
      forall i | 0 <= i < |leaves| ensures InBand(leaves[i]) {
        assert scores[i] == LeafScore(leaves[i]);
      }
    }
  }

  /** One suggestion per leaf outside its inclusive range. */
  lemma {:induction false} SuggestionsCount(variant: Variant, soilVolume: real, leaves: seq<Leaf>)
    ensures |Suggestions(variant, soilVolume, leaves)| == CountOutOfBand(leaves)
  {
    if |leaves| > 0 {
      SuggestionsCount(variant, soilVolume, leaves[..|leaves| - 1]);
    }
  }

  /** No suggestion at all exactly when every leaf lies inside its range. */
  lemma {:induction false} SuggestionsEmptyIffInBand(variant: Variant, soilVolume: real, leaves: seq<Leaf>)
    ensures Suggestions(variant, soilVolume, leaves) == [] <==> AllInBand(leaves)
  {
    if |leaves| > 0 {
      var init := leaves[..|leaves| - 1];
      SuggestionsEmptyIffInBand(variant, soilVolume, init);
      if AllInBand(leaves) {
        assert AllInBand(init) by {
          forall i | 0 <= i < |init| ensures InBand(init[i]) {
            assert init[i] == leaves[i];
          }
        }
      }
      if Suggestions(variant, soilVolume, leaves) == [] {
        forall i | 0 <= i < |leaves| ensures InBand(leaves[i]) {
          if i < |init| { assert init[i] == leaves[i]; }
        }
      }
    }
  }

  /** Suggestions come in input order: those of `a` before those of `b`. */
  lemma {:induction false} SuggestionsAppend(variant: Variant, soilVolume: real, a: seq<Leaf>, b: seq<Leaf>)
    ensures Suggestions(variant, soilVolume, a + b)
         == Suggestions(variant, soilVolume, a) + Suggestions(variant, soilVolume, b)
    decreases |b|
  {
    if |b| == 0 {
      assert a + b == a;
    } else {
      var b' := b[..|b| - 1];
      assert (a + b)[..|a + b| - 1] == a + b';
      assert (a + b)[|a + b| - 1] == b[|b| - 1];
      SuggestionsAppend(variant, soilVolume, a, b');
    }
  }

  /** PyResult-File.py never computes a quantity: every suggestion is an
      Increase or a Decrease. */
  lemma {:induction false} QualitativeNeverQuantifies(soilVolume: real, leaves: seq<Leaf>)
    ensures forall k :: 0 <= k < |Suggestions(QualitativeOnly, soilVolume, leaves)| ==>
              Suggestions(QualitativeOnly, soilVolume, leaves)[k].Increase?
              || Suggestions(QualitativeOnly, soilVolume, leaves)[k].Decrease?
  {
    if |leaves| > 0 {
      QualitativeNeverQuantifies(soilVolume, leaves[..|leaves| - 1]);
    }
  }

  /** The two variants agree on everything but the treatment of deficits:
      the same number of suggestions and the same Decrease suggestions at the
      same positions. */
  lemma {:induction false} VariantsAgreeOnSuggestions(v1: real, v2: real, leaves: seq<Leaf>)
    ensures |Suggestions(WithQuantities, v1, leaves)| == |Suggestions(QualitativeOnly, v2, leaves)|
    ensures forall k :: 0 <= k < |Suggestions(WithQuantities, v1, leaves)| ==>
              (Suggestions(WithQuantities, v1, leaves)[k].Decrease? <==> Suggestions(QualitativeOnly, v2, leaves)[k].Decrease?)
    ensures forall k :: 0 <= k < |Suggestions(WithQuantities, v1, leaves)| && Suggestions(WithQuantities, v1, leaves)[k].Decrease? ==>
              Suggestions(WithQuantities, v1, leaves)[k] == Suggestions(QualitativeOnly, v2, leaves)[k]
  {
    if |leaves| > 0 {
      VariantsAgreeOnSuggestions(v1, v2, leaves[..|leaves| - 1]);
    }
  }

  /** The overall score does not depend on the variant or on the soil volume:
      it depends only on the values and their ranges. */
  lemma TotalIndependentOfVariant(v1: Variant, v2: Variant, sensorData: seq<Reading>, thresholds: Thresholds,
                                  vol1: real, vol2: real)
    ensures Assess(v1, sensorData, thresholds, vol1).Ok? == Assess(v2, sensorData, thresholds, vol2).Ok?
    ensures Assess(v1, sensorData, thresholds, vol1).Ok? ==>
              Assess(v1, sensorData, thresholds, vol1).value.total == Assess(v2, sensorData, thresholds, vol2).value.total
  {
  }
}
