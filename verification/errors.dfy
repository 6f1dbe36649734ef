/**
 Failure values of the soil-health engine. Each corresponds to an exception the
 Python scripts would raise part-way through an assessment or a range check.
 */
module Errors {

  datatype Error =
      /** A reading (or a member of a nested group) has no entry in the
          threshold table: Python's `KeyError`. */
    | MissingThreshold(name: string)
      /** A nested group of readings met a plain range, or a plain reading met
          a nested table. In `assess_soil_health` the tuple/dict confusion
          ends in `TypeError` or `ValueError`. In `check_sensor_data` a plain
          reading against a nested table indexes it with `0`, which raises
          `KeyError: 0`, and a group against a plain range raises `TypeError`. */
    | ShapeMismatch(name: string)
      /** No score was produced, so `sum(scores) / len(scores)` divides by
          zero: Python's `ZeroDivisionError`. */
    | NoReadings

  /** The outcome of an operation that may fail with an `Error`. */
  datatype Result<+T> = Ok(value: T) | Err(error: Error)
}
