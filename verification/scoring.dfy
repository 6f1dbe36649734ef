/**
 The per-variable score `compute_score`: a piecewise-linear tent that is 1
 inside the inclusive ideal range and falls linearly to 0 over a margin equal
 to the range's width on either side.
 */
module Scoring {

  /** `compute_score(value, ideal_min, ideal_max)`. Every division sits in a
      branch that is reachable only when `idealMax - idealMin > 0`, so the score
      is defined for all reals, including empty and inverted ranges. */
  function Score(value: real, idealMin: real, idealMax: real): (r: real)
    ensures 0.0 <= r <= 1.0
    ensures r == 1.0 <==> idealMin <= value <= idealMax
    ensures idealMin >= idealMax ==> r == 0.0 || r == 1.0
    ensures idealMin < idealMax && value <= idealMin - (idealMax - idealMin) ==> r == 0.0
    ensures idealMin < idealMax && value >= idealMax + (idealMax - idealMin) ==> r == 0.0
  {
    var delta := idealMax - idealMin;
    var minVal := idealMin - delta;
    var maxVal := idealMax + delta;
    if idealMin <= value <= idealMax then 1.0
    else if value < idealMin then
      if value >= minVal then
        RampFacts(value - minVal, idealMin - minVal);
        (value - minVal) / (idealMin - minVal)
      else 0.0
    else
      if value <= maxVal then
        RampFacts(maxVal - value, maxVal - idealMax);
        (maxVal - value) / (maxVal - idealMax)
      else 0.0
  }

  /** How far a value lies outside the range `[lo, hi]`; 0 inside it. */
  function DistanceOutside(value: real, lo: real, hi: real): real {
    if value < lo then lo - value else if value > hi then value - hi else 0.0
  }

  /** The tent written independently of the scripts' branches: one minus the
      distance outside the range measured in range widths, floored at 0. */
  function ClampedTent(value: real, lo: real, hi: real): real
    requires lo < hi
  {
    var t := 1.0 - DistanceOutside(value, lo, hi) / (hi - lo);
    if t < 0.0 then 0.0 else t
  }

  /** For a proper range, the scripts' piecewise score is the clamped tent. */
  lemma ScoreIsClampedTent(value: real, lo: real, hi: real)
    requires lo < hi
    ensures Score(value, lo, hi) == ClampedTent(value, lo, hi)
  {
    var delta := hi - lo;
    if value < lo {
      assert value - (lo - delta) == delta - (lo - value);
      DivComplement(lo - value, delta);
      if value < lo - delta {
        DivMono(delta, lo - value, delta);
        RampFacts(delta, delta);
      }
    } else if value > hi {
      assert hi + delta - value == delta - (value - hi);
      DivComplement(value - hi, delta);
      if value > hi + delta {
        DivMono(delta, value - hi, delta);
        RampFacts(delta, delta);
      }
    }
  }

  /** Below the range the score never decreases as the value rises. */
  lemma ScoreNondecreasingBelow(x: real, y: real, lo: real, hi: real)
    requires x <= y <= lo
    ensures Score(x, lo, hi) <= Score(y, lo, hi)
  {
    var delta := hi - lo;
    if lo < hi && lo - delta <= x && y < lo {
      DivMono(x - (lo - delta), y - (lo - delta), delta);
    }
  }

  /** Above the range the score never increases as the value rises. */
  lemma ScoreNonincreasingAbove(x: real, y: real, lo: real, hi: real)
    requires hi <= x <= y
    ensures Score(x, lo, hi) >= Score(y, lo, hi)
  {
    var delta := hi - lo;
    if lo < hi && hi < x && y <= hi + delta {
      DivMono(hi + delta - y, hi + delta - x, delta);
    }
  }

  /** The two ramps are mirror images: a value `x` below the range scores the
      same as a value `x` above it. */
  lemma ScoreMirror(x: real, lo: real, hi: real)
    requires x >= 0.0
    ensures Score(lo - x, lo, hi) == Score(hi + x, lo, hi)
  {
    var delta := hi - lo;
    if lo < hi && 0.0 < x <= delta {
      assert lo - x - (lo - delta) == hi + delta - (hi + x);
    }
  }

  // ---------------------------------------------------------------------------
  // Facts about real division used by the ramps
  // ---------------------------------------------------------------------------

  lemma RampFacts(num: real, delta: real)
    requires delta > 0.0
    requires 0.0 <= num <= delta
    ensures 0.0 <= num / delta <= 1.0
    ensures num < delta ==> num / delta < 1.0
    ensures num == 0.0 ==> num / delta == 0.0
  {
    assert (num / delta) * delta == num;
  }

  lemma DivMono(a: real, b: real, d: real)
    requires d > 0.0 && a <= b
    ensures a / d <= b / d
  {
    assert (a / d) * d == a;
    assert (b / d) * d == b;
  }

  lemma DivComplement(a: real, d: real)
    requires d > 0.0
    ensures (d - a) / d == 1.0 - a / d
  {
    var q1 := (d - a) / d;
    var q2 := a / d;
    assert q1 * d == d - a;
    assert q2 * d == a;
    assert (q1 + q2 - 1.0) * d == 0.0;
    ZeroProduct(q1 + q2 - 1.0, d);
  }

  lemma ZeroProduct(x: real, d: real)
    requires d > 0.0 && x * d == 0.0
    ensures x == 0.0
  {
    assert x == (x * d) / d;
  }
}
