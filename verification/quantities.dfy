/**
 The remediation quantities: litres of water for a soil-moisture deficit and
 grams of fertilizer for a nutrient deficit. Both are first-order unit
 conversions, not physical models.
 */
module Quantities {

  /** Assumed bulk density of soil, in kg per cubic metre. */
  const SoilBulkDensity: real := 1300.0

  /** Mass in kg of `volume` cubic metres of soil at the assumed density. */
  function SoilMass(volume: real): (kg: real)
    ensures volume > 0.0 ==> kg > 0.0
    ensures volume == 1.0 ==> kg == 1300.0
  {
    SoilBulkDensity * volume
  }

  /** `calculate_water_needed`: the moisture deficit in percentage points,
      read as a volumetric water fraction of `volume` cubic metres of soil,
      in litres. */
  function WaterNeeded(currentPct: real, idealPct: real, volume: real): (liters: real)
    ensures currentPct < idealPct && volume > 0.0 ==> liters > 0.0
    ensures currentPct == idealPct || volume == 0.0 ==> liters == 0.0
  {
    var moistureDeficit := (idealPct - currentPct) / 100.0;
    var waterVolumeM3 := moistureDeficit * volume;
    waterVolumeM3 * 1000.0
  }

  /** `calculate_nutrient_needed`: the deficit in mg per kg times the soil
      mass in kg, in grams. The scripts' unused `nutrient_name` argument is
      dropped. */
  function NutrientNeeded(currentLevel: real, idealLevel: real, soilMassKg: real): (grams: real)
    ensures currentLevel < idealLevel && soilMassKg > 0.0 ==> grams > 0.0
    ensures currentLevel == idealLevel || soilMassKg == 0.0 ==> grams == 0.0
  {
    var deficitMgPerKg := idealLevel - currentLevel;
    var totalMg := deficitMgPerKg * soilMassKg;
    totalMg / 1000.0
  }

  /** Adding the computed water to the soil raises its moisture percentage
      from `currentPct` exactly to `idealPct`. */
  lemma WaterRestoresMoisture(currentPct: real, idealPct: real, volume: real)
    requires volume != 0.0
    ensures currentPct + WaterNeeded(currentPct, idealPct, volume) / 1000.0 / volume * 100.0 == idealPct
  {
    var liters := WaterNeeded(currentPct, idealPct, volume);
    assert liters / 1000.0 == (idealPct - currentPct) / 100.0 * volume;
    assert liters / 1000.0 / volume == (idealPct - currentPct) / 100.0;
  }

  /** Spreading the computed fertilizer through the soil mass raises the
      nutrient level from `currentLevel` exactly to `idealLevel`. */
  lemma FertilizerRestoresLevel(currentLevel: real, idealLevel: real, soilMassKg: real)
    requires soilMassKg != 0.0
    ensures currentLevel + NutrientNeeded(currentLevel, idealLevel, soilMassKg) * 1000.0 / soilMassKg == idealLevel
  {
    var grams := NutrientNeeded(currentLevel, idealLevel, soilMassKg);
    assert grams * 1000.0 == (idealLevel - currentLevel) * soilMassKg;
    assert grams * 1000.0 / soilMassKg == idealLevel - currentLevel;
  }

  /** Both amounts scale linearly with the amount of soil treated. */
  lemma AmountsAreLinearInVolume(current: real, ideal: real, v1: real, v2: real)
    ensures WaterNeeded(current, ideal, v1 + v2) == WaterNeeded(current, ideal, v1) + WaterNeeded(current, ideal, v2)
    ensures NutrientNeeded(current, ideal, SoilMass(v1 + v2))
         == NutrientNeeded(current, ideal, SoilMass(v1)) + NutrientNeeded(current, ideal, SoilMass(v2))
  {
    var dw := (ideal - current) / 100.0;
    assert dw * (v1 + v2) * 1000.0 == dw * v1 * 1000.0 + dw * v2 * 1000.0;
    var dn := ideal - current;
    assert dn * (SoilBulkDensity * (v1 + v2)) == dn * (SoilBulkDensity * v1) + dn * (SoilBulkDensity * v2);
  }

  /** Nitrogen at 20 mg/kg against an ideal minimum of 40, in one cubic metre
      of soil, needs 26 grams of fertilizer. */
  lemma NitrogenExampleAmount()
    ensures NutrientNeeded(20.0, 40.0, SoilMass(1.0)) == 26.0
  {
  }

  /** Soil moisture at 15% against an ideal minimum of 25%, in one cubic metre
      of soil, needs 100 litres of water. */
  lemma MoistureExampleAmount()
    ensures WaterNeeded(15.0, 25.0, 1.0) == 100.0
  {
  }
}
