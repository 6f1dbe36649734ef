/**
 The reading set and the threshold table, and how a reading set is matched
 against the table.

 A reading set is the sensor dictionary in insertion order: plain readings
 (Humidity, Temperature, Soil_Moisture) and nested groups (NPK_levels). The
 threshold table maps each top-level name to a range or to a nested table of
 ranges. Resolving a reading set looks every value up in the table, in the
 order the scripts' loops visit them, and flattens it into a sequence of
 leaves, each carrying its own range.
 */
module Readings {
  import opened Errors

  /** An inclusive ideal range `(ideal_min, ideal_max)`. */
  datatype Band = Band(lo: real, hi: real)

  predicate Contains(b: Band, v: real) {
    b.lo <= v <= b.hi
  }

  /** A named value inside a nested group, such as `'Nitrogen': 20.0`. */
  datatype Member = Member(name: string, value: real)

  /** One top-level entry of the sensor dictionary. */
  datatype Reading =
    | Plain(name: string, value: real)
    | Group(name: string, members: seq<Member>)

  /** One top-level entry of the threshold table. */
  datatype Threshold =
    | Range(band: Band)
    | Nested(bands: map<string, Band>)

  type Thresholds = map<string, Threshold>

  /** The engine tells the two kinds of leaf apart only by nesting: every member
      of a nested group is treated as a nutrient. */
  datatype Kind = Nutrient | TopLevel

  /** One scored variable together with the range it is scored against. */
  datatype Leaf = Leaf(kind: Kind, name: string, value: real, band: Band)

  predicate InBand(l: Leaf) {
    Contains(l.band, l.value)
  }

  predicate AllInBand(leaves: seq<Leaf>) {
    forall i :: 0 <= i < |leaves| ==> InBand(leaves[i])
  }

  /** Number of leaves whose value lies outside their inclusive range. */
  function CountOutOfBand(leaves: seq<Leaf>): nat {
    if |leaves| == 0 then 0
    else CountOutOfBand(leaves[..|leaves| - 1]) + (if InBand(leaves[|leaves| - 1]) then 0 else 1)
  }

  // ---------------------------------------------------------------------------
  // Resolution
  // ---------------------------------------------------------------------------

  /** Looks up the members of a nested group, in order, in the group's table. */
  function ResolveMembers(members: seq<Member>, bands: map<string, Band>): (r: Result<seq<Leaf>>)
    ensures r.Ok? <==> forall i :: 0 <= i < |members| ==> members[i].name in bands
    ensures r.Ok? ==> |r.value| == |members|
    ensures r.Ok? ==> forall i :: 0 <= i < |members| ==>
                        r.value[i] == Leaf(Nutrient, members[i].name, members[i].value, bands[members[i].name])
    ensures r.Err? ==> exists i :: 0 <= i < |members| && members[i].name !in bands
                                   && r.error == MissingThreshold(members[i].name)
                                   && forall j :: 0 <= j < i ==> members[j].name in bands
  {
    if |members| == 0 then Ok([])
    else
      var m := members[|members| - 1];
      match ResolveMembers(members[..|members| - 1], bands)
      case Err(e) => Err(e)
      case Ok(leaves) =>
        if m.name in bands then Ok(leaves + [Leaf(Nutrient, m.name, m.value, bands[m.name])])
        else Err(MissingThreshold(m.name))
  }

  /** Whether one entry of the reading set finds a matching entry in the table.
      A group's own name is looked up only when its first member is, so an
      empty group never fails. */
  predicate EntryResolves(r: Reading, th: Thresholds) {
    match r
    case Plain(name, _) => name in th && th[name].Range?
    case Group(name, members) =>
      || |members| == 0
      || (&& name in th
          && th[name].Nested?
          && forall i :: 0 <= i < |members| ==> members[i].name in th[name].bands)
  }

  /** Number of scores one entry contributes. */
  function Width(r: Reading): nat {
    match r
    case Plain(_, _) => 1
    case Group(_, members) => |members|
  }

  function LeafCount(rs: seq<Reading>): nat {
    if |rs| == 0 then 0 else LeafCount(rs[..|rs| - 1]) + Width(rs[|rs| - 1])
  }

  /** Looks up one top-level entry of the reading set. */
  function ResolveEntry(r: Reading, th: Thresholds): (res: Result<seq<Leaf>>)
    ensures res.Ok? <==> EntryResolves(r, th)
    ensures res.Ok? ==> |res.value| == Width(r)
    ensures r.Plain? && res.Ok? ==> res.value == [Leaf(TopLevel, r.name, r.value, th[r.name].band)]
    ensures r.Group? && res.Ok? ==> forall i :: 0 <= i < |r.members| ==>
              res.value[i] == Leaf(Nutrient, r.members[i].name, r.members[i].value, th[r.name].bands[r.members[i].name])
    ensures Width(r) > 0 && r.name !in th ==> res == Err(MissingThreshold(r.name))
    ensures Width(r) == 0 ==> res == Ok([])
  {
    match r
    case Plain(name, value) =>
      if name !in th then Err(MissingThreshold(name))
      else
        (match th[name]
         case Range(b) => Ok([Leaf(TopLevel, name, value, b)])
         case Nested(_) => Err(ShapeMismatch(name)))
    case Group(name, members) =>
      if |members| == 0 then Ok([])
      else if name !in th then Err(MissingThreshold(name))
      else
        (match th[name]
         case Range(_) => Err(ShapeMismatch(name))
         case Nested(bands) => ResolveMembers(members, bands))
  }

  /** Looks up every entry of the reading set, in order, and flattens the
      result; the first entry that fails decides the error. */
  function Resolve(rs: seq<Reading>, th: Thresholds): (res: Result<seq<Leaf>>)
    ensures res.Ok? <==> forall i :: 0 <= i < |rs| ==> EntryResolves(rs[i], th)
    ensures res.Ok? ==> |res.value| == LeafCount(rs)
    ensures res.Err? ==> exists i :: 0 <= i < |rs| && !EntryResolves(rs[i], th)
                                     && res.error == ResolveEntry(rs[i], th).error
                                     && forall j :: 0 <= j < i ==> EntryResolves(rs[j], th)
  {
    if |rs| == 0 then Ok([])
    else
      assert forall i :: 0 <= i < |rs| - 1 ==> rs[..|rs| - 1][i] == rs[i];
      match Resolve(rs[..|rs| - 1], th)
      case Err(e) => Err(e)
      case Ok(leaves) =>
        match ResolveEntry(rs[|rs| - 1], th)
        case Err(e) => Err(e)
        case Ok(more) => Ok(leaves + more)
  }

  /** Resolution distributes over concatenation of reading sets: the leaves of
      `a` come first, then those of `b`. */
  lemma {:induction false} ResolveAppend(a: seq<Reading>, b: seq<Reading>, th: Thresholds)
    requires Resolve(a, th).Ok? && Resolve(b, th).Ok?
    ensures Resolve(a + b, th) == Ok(Resolve(a, th).value + Resolve(b, th).value)
    decreases |b|
  {
    var ra := Resolve(a, th).value;
    if |b| == 0 {
      assert a + b == a;
      assert ra + [] == ra;
    } else {
      var b', last := b[..|b| - 1], b[|b| - 1];
      assert b == b' + [last];
      assert a + b == (a + b') + [last];
      ResolveSnoc(b', last, th);
      var rb := Resolve(b', th).value;
      var more := ResolveEntry(last, th).value;
      assert Resolve(a + b', th) == Ok(ra + rb) by {
        ResolveAppend(a, b', th);
      }
      assert Resolve(a + b, th) == Ok(ra + rb + more) by {
        ResolveSnoc(a + b', last, th);
      }
      ConcatAssoc(ra, rb, more);
    }
  }

  /** Associativity of `+`, stated once as a lemma so that `ResolveAppend`
      does not make the solver rediscover it inline, which is costly. */
  lemma ConcatAssoc<T>(x: seq<T>, y: seq<T>, z: seq<T>)
    ensures x + y + z == x + (y + z)
  {
  }

  /** One unfolding of `Resolve` at a reading set's last entry. */
  lemma ResolveSnoc(init: seq<Reading>, last: Reading, th: Thresholds)
    ensures Resolve(init + [last], th).Ok? <==> Resolve(init, th).Ok? && ResolveEntry(last, th).Ok?
    ensures Resolve(init + [last], th).Ok? ==>
              Resolve(init + [last], th).value == Resolve(init, th).value + ResolveEntry(last, th).value
  {
    assert (init + [last])[..|init|] == init;
  }

  /** Once a prefix fails, the whole reading set fails with the same error. */
  lemma {:induction false} ResolvePrefixErr(rs: seq<Reading>, k: nat, th: Thresholds)
    requires k <= |rs|
    requires Resolve(rs[..k], th).Err?
    ensures Resolve(rs, th) == Resolve(rs[..k], th)
    decreases |rs| - k
  {
    if k < |rs| {
      assert rs[..|rs| - 1][..k] == rs[..k];
      ResolvePrefixErr(rs[..|rs| - 1], k, th);
    } else {
      assert rs[..k] == rs;
    }
  }

  /** Once a prefix of a group fails, the whole group fails with the same error. */
  lemma {:induction false} ResolveMembersPrefixErr(ms: seq<Member>, k: nat, bands: map<string, Band>)
    requires k <= |ms|
    requires ResolveMembers(ms[..k], bands).Err?
    ensures ResolveMembers(ms, bands) == ResolveMembers(ms[..k], bands)
    decreases |ms| - k
  {
    if k < |ms| {
      assert ms[..|ms| - 1][..k] == ms[..k];
      ResolveMembersPrefixErr(ms[..|ms| - 1], k, bands);
    } else {
      assert ms[..k] == ms;
    }
  }

  // ---------------------------------------------------------------------------
  // The default layout and thresholds shared by all the scripts
  // ---------------------------------------------------------------------------

  /** The six readings the scripts acquire. */
  datatype SensorData = SensorData(
    nitrogen: real, phosphorus: real, potassium: real,
    humidity: real, temperature: real, soilMoisture: real)

  const NpkGroup: string := "NPK_levels"
  const SoilMoisture: string := "Soil_Moisture"

  /** The sensor dictionary built from six readings, in the scripts' insertion order. */
  function Layout(d: SensorData): (r: seq<Reading>)
    ensures |r| == 4 && LeafCount(r) == 6
    ensures forall i :: 0 <= i < |r| ==> Width(r[i]) > 0
  {
    var r := [ Group(NpkGroup, [Member("Nitrogen", d.nitrogen),
                                Member("Phosphorus", d.phosphorus),
                                Member("Potassium", d.potassium)]),
               Plain("Humidity", d.humidity),
               Plain("Temperature", d.temperature),
               Plain(SoilMoisture, d.soilMoisture) ];
    assert r[..1][..0] == [] && r[..1][0] == r[0];
    assert LeafCount(r[..1]) == 3;
    assert r[..2][..1] == r[..1];
    assert LeafCount(r[..2]) == 4;
    assert r[..3][..2] == r[..2];
    assert LeafCount(r[..3]) == 5;
    assert r[..3] == r[..|r| - 1];
    r
  }

  const NitrogenBand: Band := Band(40.0, 60.0)
  const PhosphorusBand: Band := Band(25.0, 35.0)
  const PotassiumBand: Band := Band(20.0, 30.0)
  const HumidityBand: Band := Band(50.0, 75.0)
  const TemperatureBand: Band := Band(15.0, 25.0)
  const SoilMoistureBand: Band := Band(25.0, 40.0)

  /** The `ideal_thresholds` table every script defines. */
  const DefaultThresholds: Thresholds := map[
    NpkGroup := Nested(map["Nitrogen" := NitrogenBand,
                           "Phosphorus" := PhosphorusBand,
                           "Potassium" := PotassiumBand]),
    "Humidity" := Range(HumidityBand),
    "Temperature" := Range(TemperatureBand),
    SoilMoisture := Range(SoilMoistureBand)
  ]

  /** The six leaves of the default layout, nutrients first. */
  function DefaultLeaves(d: SensorData): seq<Leaf> {
    [ Leaf(Nutrient, "Nitrogen", d.nitrogen, NitrogenBand),
      Leaf(Nutrient, "Phosphorus", d.phosphorus, PhosphorusBand),
      Leaf(Nutrient, "Potassium", d.potassium, PotassiumBand),
      Leaf(TopLevel, "Humidity", d.humidity, HumidityBand),
      Leaf(TopLevel, "Temperature", d.temperature, TemperatureBand),
      Leaf(TopLevel, SoilMoisture, d.soilMoisture, SoilMoistureBand) ]
  }

  /** The NPK group of the default layout resolves to its three nutrient leaves. */
  lemma DefaultNutrientsResolve(d: SensorData)
    ensures ResolveEntry(Layout(d)[0], DefaultThresholds) == Ok(DefaultLeaves(d)[..3])
  {
    var leaves := DefaultLeaves(d);
    var bands := DefaultThresholds[NpkGroup].bands;
    assert "Nitrogen" in bands && "Phosphorus" in bands && "Potassium" in bands;
    assert EntryResolves(Layout(d)[0], DefaultThresholds);
    var npk := ResolveEntry(Layout(d)[0], DefaultThresholds).value;
    assert |npk| == 3;
    assert npk[0] == leaves[0] && npk[1] == leaves[1] && npk[2] == leaves[2];
    assert npk == leaves[..3];
  }

  /** Every reading of the default layout finds its range in the default
      table, yielding exactly six leaves in iteration order. */
  lemma DefaultLayoutResolves(d: SensorData)
    ensures Resolve(Layout(d), DefaultThresholds) == Ok(DefaultLeaves(d))
  {
    var rs := Layout(d);
    var th := DefaultThresholds;
    var leaves := DefaultLeaves(d);
    DefaultNutrientsResolve(d);
    assert ResolveEntry(rs[1], th) == Ok([leaves[3]]);
    assert ResolveEntry(rs[2], th) == Ok([leaves[4]]);
    assert ResolveEntry(rs[3], th) == Ok([leaves[5]]);
    assert rs[..1][..0] == [];
    assert rs[..1][0] == rs[0];
    assert [] + leaves[..3] == leaves[..3];
    assert Resolve(rs[..1], th) == Ok(leaves[..3]);
    assert rs[..2][..1] == rs[..1];
    assert leaves[..3] + [leaves[3]] == leaves[..4];
    assert Resolve(rs[..2], th) == Ok(leaves[..4]);
    assert rs[..3][..2] == rs[..2];
    assert leaves[..4] + [leaves[4]] == leaves[..5];
    assert Resolve(rs[..3], th) == Ok(leaves[..5]);
    assert rs[..4][..3] == rs[..3];
    assert leaves[..5] + [leaves[5]] == leaves;
    assert rs[..4] == rs;
  }
}
