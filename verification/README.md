# Soil-health scoring and recommendation engine, in Dafny

This project models the scoring and recommendation engine of the Aquiferst
soil-health scripts. It covers:

- the piecewise-linear per-variable score `compute_score`;
- the assessor `assess_soil_health`, which averages one score per sensor
  variable into an overall health score between 0 and 1 and emits one
  remediation suggestion per variable outside its ideal range;
- the remediation quantities `calculate_water_needed` and
  `calculate_nutrient_needed`;
- the range check `check_sensor_data` of `Python1.py`.

The assessor exists in four near-identical copies.

- The three scripts under `pythonNASA/` compute grams of fertilizer for a
  nutrient deficit and litres of water for a soil-moisture deficit.
  These are modelled as `Variant.WithQuantities`.
- `PyResult-File.py` only says "increase" or "decrease".
  This is modelled as `Variant.QualitativeOnly`.

Modules, one per file:

- `Errors` (`errors.dfy`): the ways an assessment call fails.
  - `MissingThreshold(name)` models Python's `KeyError` on the threshold table.
  - `ShapeMismatch(name)` covers a plain reading against a nested table entry, or the reverse. In `assess_soil_health` Python raises `TypeError`/`ValueError` there. In `check_sensor_data` a plain reading against a nested entry raises `KeyError: 0`, and a group against a plain range raises `TypeError`.
  - `NoReadings` is the `ZeroDivisionError` of `sum(scores) / len(scores)` when nothing was scored.
- `Readings` (`readings.dfy`): the data model and how a reading set is resolved against a table.
  - A reading set is the sensor dictionary in insertion order: plain readings and nested groups such as `NPK_levels`.
  - The threshold table maps each name to a range `(ideal_min, ideal_max)` or to a nested table of ranges.
  - Resolving looks every value up in the order the scripts' loops visit them, and flattens the set into leaves.
  - The module also holds the default six-reading layout and the default thresholds.
- `Scoring` (`scoring.dfy`): `compute_score`, and an independent "clamped tent" definition that it is proved equal to.
- `Quantities` (`quantities.dfy`): soil mass, water and fertilizer amounts, and the proofs that each amount closes exactly the deficit it was computed for.
- `Assessment` (`assessment.dfy`):
  - a functional description `Assess`;
  - the loop-based `AssessSoilHealth` with `GatherScores`, `AssessEntry` and `AssessMembers`, which follow the scripts' nested loops and are proved to compute `Assess`;
  - the properties of the score and the suggestions.
- `Validator` (`validator.dfy`): `check_sensor_data`, and the correspondence between its alerts and the assessor's suggestions.
- `Scenarios` (`scenarios.dfy`): the engine on the scripts' default layout and thresholds, with worked examples.

Where the code differs from what its comments or the design would suggest,
the model follows the code.

- An empty or inverted ideal range (`ideal_min >= ideal_max`) is not rejected.
  - `compute_score` never divides by zero: both ramps are reachable only when `ideal_max - ideal_min > 0`.
  - An inverted range scores 0 everywhere.
  - A zero-width range scores 1 on its single point and 0 elsewhere.
- The water suggestion is chosen by the top-level name `Soil_Moisture`.
  - A value nested in a group is always treated as a nutrient, whatever its name.
- A group's own name is looked up only when its first member is.
  - A nested group with no members therefore never fails and contributes nothing.
  - If nothing at all is scored, the call fails with `NoReadings`.
- A threshold lookup failure aborts the whole call.
  - The scores and suggestions gathered so far are discarded.
  - The first failing entry, in visiting order, names the error.

## Model

| member | source | states |
|---|---|---|
| Scoring.Score | pythonNASA/PyResultwRecomendation.py:74-89 | The score lies in [0, 1] for every real input. It is 1 exactly when the value is inside the inclusive range. A degenerate range scores only 0 or 1. The score is 0 at or beyond one range-width outside a proper range. |
| Scoring.ScoreIsClampedTent | pythonNASA/soil_health.py:81-96 | For a proper range, the scripts' branch-by-branch score equals an independent definition: 1 minus the distance outside the range in range widths, floored at 0. |
| Scoring.ScoreNondecreasingBelow | PyResult-File.py:80-84 | Below the ideal minimum, a higher value never scores lower. |
| Scoring.ScoreNonincreasingAbove | PyResult-File.py:85-89 | Above the ideal maximum, a higher value never scores higher. |
| Scoring.ScoreMirror | pythonNASA/tempCodeRunnerFile.py:78-93 | The two ramps are symmetric: being x below the minimum scores the same as being x above the maximum. |
| Quantities.SoilMass | pythonNASA/PyResultwRecomendation.py:109-111 | Soil mass is positive for a positive volume, and 1300 kg for one cubic metre. |
| Quantities.WaterNeeded | pythonNASA/PyResultwRecomendation.py:92-97 | The water amount is positive for a moisture deficit in a positive volume. It is zero when there is no deficit or no soil. |
| Quantities.NutrientNeeded | pythonNASA/PyResultwRecomendation.py:100-106 | The fertilizer amount is positive for a nutrient deficit in a positive soil mass. It is zero when there is no deficit or no soil. |
| Quantities.WaterRestoresMoisture | pythonNASA/soil_health.py:99-102 | The computed litres, spread through the soil volume, raise the moisture percentage exactly to the ideal. |
| Quantities.FertilizerRestoresLevel | pythonNASA/soil_health.py:105-108 | The computed grams, spread through the soil mass, raise the nutrient level in mg/kg exactly to the ideal. |
| Quantities.AmountsAreLinearInVolume | pythonNASA/tempCodeRunnerFile.py:96-110 | Water and fertilizer for two volumes together equal the sums of the amounts for each. |
| Quantities.NitrogenExampleAmount | pythonNASA/soil_health.py:105-113 | 20 mg/kg of nitrogen against a minimum of 40, in one cubic metre, needs 26 g. |
| Quantities.MoistureExampleAmount | pythonNASA/soil_health.py:99-102 | 15% moisture against a minimum of 25%, in one cubic metre, needs 100 litres. |
| Readings.ResolveMembers | pythonNASA/PyResultwRecomendation.py:118-119 | A group resolves exactly when every member's name is in its table, with one leaf per member carrying that member's range. Otherwise the first missing member is named. |
| Readings.ResolveEntry | pythonNASA/PyResultwRecomendation.py:115-136 | An entry resolves exactly when its name and shape match the table. A plain reading gives one leaf with its range, a group gives its members' leaves, and an empty group gives none. A non-empty entry with an unknown name fails with that name. |
| Readings.Resolve | pythonNASA/soil_health.py:117-130 | A reading set resolves exactly when every entry does, into as many leaves as the entries' widths add up to. Otherwise the error is that of the first failing entry. |
| Readings.ResolveAppend | pythonNASA/tempCodeRunnerFile.py:114-127 | Leaves follow the dictionary's order: resolving two reading sets one after the other gives the first set's leaves, then the second's. |
| Readings.ResolvePrefixErr | pythonNASA/PyResultwRecomendation.py:115-136 | Once a prefix of the reading set fails, the whole set fails with the same error. |
| Readings.ResolveMembersPrefixErr | pythonNASA/PyResultwRecomendation.py:118-119 | Once a prefix of a group's members fails, the whole group fails with the same error. |
| Readings.Layout | pythonNASA/PyResultwRecomendation.py:51-60 | The scripts' sensor dictionary has four entries, none of them an empty group, holding six readings in all. Its leaves and their ranges are given by the Readings.DefaultLayoutResolves row. |
| Readings.DefaultLayoutResolves | pythonNASA/PyResultwRecomendation.py:51-72 | The scripts' six readings resolve against the default table into six leaves: nitrogen, phosphorus and potassium as nutrients, then humidity, temperature and soil moisture, each with its default range. |
| Assessment.Step | pythonNASA/PyResultwRecomendation.py:122-156 | A leaf gets a suggestion exactly when it lies outside its range, and at most one. It is a Decrease with the ideal maximum exactly when the value is above the range. Below the range it is fertilizer exactly for a nutrient under quantities, water exactly for top-level Soil_Moisture under quantities, and otherwise an Increase with the ideal minimum. Each carries the computed amount. |
| Assessment.Deficit | pythonNASA/PyResultwRecomendation.py:123-152 | The suggestion for a value below its minimum is never a Decrease. Fertilizer and water amounts appear only in the quantities variant. Which one applies to which leaf is pinned by the Assessment.Step row. |
| Assessment.Suggestions | pythonNASA/PyResultwRecomendation.py:114-156 | The `suggestions` list has at most one entry per scored leaf. Its exact length, emptiness and order are carried by the Assessment.SuggestionsCount, Assessment.SuggestionsEmptyIffInBand and Assessment.SuggestionsAppend rows. |
| Assessment.ScoreList | pythonNASA/PyResultwRecomendation.py:113-138 | The `scores` list has one score per leaf. Each score lies in [0, 1] by the Scoring.Score row. When the list is all ones is carried by the Assessment.ScoresFullIffInBand row. |
| Assessment.Mean | pythonNASA/PyResultwRecomendation.py:157 | `sum(scores) / len(scores)`: the mean times the number of scores is the sum. Its bounds are carried by the next two rows. |
| Assessment.MeanInUnitInterval | pythonNASA/PyResultwRecomendation.py:157 | The mean of scores in [0, 1] lies in [0, 1]. |
| Assessment.MeanIsOneIffAllOne | pythonNASA/soil_health.py:142 | The mean of scores in [0, 1] is 1 exactly when every score is 1. |
| Assessment.Assess | pythonNASA/soil_health.py:111-143 | The call succeeds exactly when every lookup succeeds and at least one leaf is scored. A lookup error fails it with that error, and nothing scored fails it with NoReadings. On success the total lies in [0, 1]. The total is 1 exactly when every leaf is in range, and so is an empty suggestion list. There is one suggestion per out-of-range leaf. |
| Assessment.AssessSoilHealth | pythonNASA/PyResultwRecomendation.py:108-158 | Gathering the scores and dividing their sum by their number computes exactly Assess. It fails with the lookup error, or with NoReadings when nothing was scored. |
| Assessment.GatherScores | pythonNASA/PyResultwRecomendation.py:113-156 | The loop over the sensor dictionary yields one score and that leaf's suggestions per leaf of the resolved reading set, in order. A failed lookup gives the error of the first failing entry. |
| Assessment.AssessEntry | pythonNASA/tempCodeRunnerFile.py:114-137 | One pass of the outer loop yields that entry's scores and suggestions, or its lookup error. |
| Assessment.AssessMembers | pythonNASA/PyResultwRecomendation.py:116-133 | The inner loop over a group's members yields their scores and suggestions in order, or the first missing member's error. |
| Assessment.SumBounds | pythonNASA/tempCodeRunnerFile.py:139 | The sum of n scores in [0, 1] lies in [0, n], and equals n exactly when every score is 1. |
| Assessment.ScoresFullIffInBand | pythonNASA/soil_health.py:121-131 | Every leaf scores 1 exactly when every leaf lies inside its range. |
| Assessment.SuggestionsCount | pythonNASA/tempCodeRunnerFile.py:120-137 | There are exactly as many suggestions as leaves outside their range. |
| Assessment.SuggestionsEmptyIffInBand | pythonNASA/soil_health.py:123-140 | There is no suggestion exactly when every leaf lies inside its range. |
| Assessment.SuggestionsAppend | pythonNASA/PyResultwRecomendation.py:114-156 | Suggestions follow the visiting order: those for one run of leaves come before those for the next. |
| Assessment.QualitativeNeverQuantifies | PyResult-File.py:101-123 | The qualitative script only ever suggests an increase or a decrease. |
| Assessment.VariantsAgreeOnSuggestions | PyResult-File.py:94-123 | Both variants make the same number of suggestions, at any soil volumes. The Decrease suggestions are identical and at the same positions. |
| Assessment.TotalIndependentOfVariant | PyResult-File.py:91-125 | Whether the call succeeds, and the overall score, depend neither on the variant nor on the soil volume. |
| Validator.Alerts | Python1.py:52-61 | Every alert records a value outside its recorded range. What the alert records is pinned by the next two rows. |
| Validator.AlertsRecordLeaves | Python1.py:55-61 | Every alert carries the name, the value and the threshold pair of an input leaf that lies outside that pair's inclusive range. |
| Validator.AlertsCoverLeaves | Python1.py:55-61 | Every input leaf outside its inclusive range has an alert carrying its name, its value and its threshold pair. |
| Validator.CheckSensorData | Python1.py:50-62 | The check succeeds exactly when every entry resolves, and otherwise fails with the lookup error. It raises no alert exactly when every value is in range, and one alert per out-of-range value. |
| Validator.AlertsCount | Python1.py:51-62 | The number of alerts is the number of out-of-range leaves. |
| Validator.AlertsEmptyIffInBand | Python1.py:56-61 | There is no alert exactly when every leaf is in range. |
| Validator.AlertsAppend | Python1.py:52-61 | Alerts follow the visiting order. |
| Validator.BoundsNeverAlert | Python1.py:56 | The range check is inclusive: a value equal to either bound raises no alert. |
| Validator.SuggestionsRemedyAlerts | pythonNASA/PyResultwRecomendation.py:122-156 | The assessor and the validator flag the same leaves. The k-th suggestion is the remedy for the k-th alert: a Decrease to the alert's maximum above the range, and below it an Increase to its minimum or the amount that closes the deficit. |
| Scenarios.DefaultAssessment | pythonNASA/PyResultwRecomendation.py:51-72 | On the default layout the engine succeeds with six scores. The total is their mean, and the suggestions are those of the six default leaves. |
| Scenarios.DefaultSuggestions | pythonNASA/PyResultwRecomendation.py:115-156 | On the default layout the suggestions are the six leaves' steps in order, nutrients first. |
| Scenarios.IdealReadingsNeedNothing | pythonNASA/soil_health.py:69-78 | Readings inside every default range give total 1 and no suggestion, for any variant and volume. |
| Scenarios.AllIdealExample | pythonNASA/PyResultwRecomendation.py:63-72 | Mid-range readings give total 1 and no suggestion. |
| Scenarios.NitrogenDeficitExample | pythonNASA/PyResultwRecomendation.py:122-129 | Nitrogen at 20 with the rest ideal gives total 5/6 and the single suggestion of 26 g of nitrogen fertilizer. |
| Scenarios.SoilMoistureDeficitExample | pythonNASA/PyResultwRecomendation.py:139-148 | Soil moisture at 15% with the rest ideal gives total 8/9 and the single suggestion of 100 litres of water. |
| Scenarios.TemperatureExcessExample | pythonNASA/PyResultwRecomendation.py:153-156 | Temperature at 30 degrees with the rest ideal gives total 11/12 and a single Decrease to the maximum 25. |
| Scenarios.QualitativeNitrogenExample | PyResult-File.py:101-105 | The qualitative script on the nitrogen deficit gives the same total 5/6 and a single Increase towards 40. |
| Scenarios.ValidatorNitrogenExample | Python1.py:55-57 | The range check on the nitrogen deficit raises exactly one alert, for nitrogen at 20 against (40, 60). |
| Scenarios.NoScoresFail | pythonNASA/PyResultwRecomendation.py:157 | An empty reading set, and a lone empty NPK group, fail with NoReadings instead of dividing by zero. |
| Scenarios.UnknownReadingFails | pythonNASA/PyResultwRecomendation.py:136 | A reading with no table entry fails the call, naming that reading. |
| Scenarios.EmptyGroupIsSkipped | pythonNASA/PyResultwRecomendation.py:116-119 | An empty group with no table entry changes nothing in the assessment. |

## Left out

- Sensor acquisition is outside the model. This covers the HTML parsing of `fetch_sensor_data` and `get_float_from_text`, the HTTP fetch at module level in `Python1.py`, file reading, `exit(1)` on a missing value, and the substitution of 0 for a missing value in `soil_health.py` and `tempCodeRunnerFile.py`. The model starts from an already-built reading set.
- `main`, logging and `print` are output only: the report lines and the "All conditions are ideal" message.
- The web endpoint `pythonNASA/app.py` and the browser scripts `pythonNASA/app.js` and `pythonNASA/static/app.js` are not part of this model. They are transport around the engine.
- Numbers are exact reals, not IEEE doubles. Rounding, NaN, infinities and non-numeric values are not modelled. Python's int-versus-float distinction in the default table is immaterial for reals.
- Suggestions and alerts are data, not the scripts' sentences. The `.2f` formatting and the wording are left out, including the nutrient messages' extra " level".
- The `isinstance(value, dict)` dispatch is the `Plain`/`Group` tag. A dictionary's unique keys are not enforced on the sequence that models it.
- `ShapeMismatch` collapses the different Python exceptions that a plain-versus-nested mismatch raises. In `assess_soil_health`, Python raises `TypeError` on tuple indexing, or `ValueError`/`TypeError` on unpacking a dict. In `check_sensor_data`, indexing a nested table with `0` raises `KeyError: 0`, and indexing a range tuple with a member name raises `TypeError`. Only the fact that the call fails is modelled.
- `calculate_nutrient_needed`'s unused `nutrient_name` parameter is dropped.
- `soil_volume_m3` is a parameter with no default. The scripts' default of 1.0 is used in the scenarios.
