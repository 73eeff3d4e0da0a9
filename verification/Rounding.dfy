/** The half-away-from-zero rounding of `math.Round`, on reals, and the two scalings the engine uses. */
module Rounding {

  function Round(x: real): int {
    if x >= 0.0 then (x + 0.5).Floor else -((-x + 0.5).Floor)
  }

  function Round2(x: real): real {
    Round(x * 100.0) as real / 100.0
  }

  function Round4(x: real): real {
    Round(x * 10000.0) as real / 10000.0
  }

  /** The integer nearest to y, and of two nearest the one further from zero. */
  ghost predicate IsRounded(r: real, y: real) {
    && r.Floor as real == r && -0.5 <= r - y <= 0.5
    && (r - y == 0.5 ==> y > 0.0) && (r - y == -0.5 ==> y < 0.0)
  }

  lemma RoundMonotone(x: real, y: real)
    requires x <= y
    ensures Round(x) <= Round(y)
  {
    if x >= 0.0 {
      FloorMonotone(x + 0.5, y + 0.5);
    } else if y < 0.0 {
      FloorMonotone(-y + 0.5, -x + 0.5);
    } else {
      FloorMonotone(0.5, -x + 0.5);
      FloorMonotone(0.5, y + 0.5);
    }
  }

  lemma FloorMonotone(x: real, y: real)
    requires x <= y
    ensures x.Floor <= y.Floor
  {
  }

  lemma Round2Monotone(x: real, y: real)
    requires x <= y
    ensures Round2(x) <= Round2(y)
  {
    RoundMonotone(x * 100.0, y * 100.0);
  }

  /** Rounding is the nearest multiple: the error is at most half a unit of the last place kept. */
  lemma Round2Error(x: real)
    ensures -0.005 <= Round2(x) - x <= 0.005
  {
    var v := x * 100.0;
    assert -0.5 <= Round(v) as real - v <= 0.5;
  }

  /** Both roundings give the nearest multiple of their last place; a tie goes away from zero. */
  lemma RoundsHalfAway(x: real)
    ensures IsRounded(Round2(x) * 100.0, x * 100.0) && IsRounded(Round4(x) * 10000.0, x * 10000.0)
  {
    RoundIsRounded(x * 100.0);
    RoundIsRounded(x * 10000.0);
  }

  lemma RoundIsRounded(y: real)
    ensures IsRounded(Round(y) as real, y)
  {
  }

  /** A percentage rounded to two places is a hundred times the fraction rounded to four. */
  lemma PercentOfFraction(x: real)
    ensures Round2(x * 100.0) == 100.0 * Round4(x)
  {
    assert x * 100.0 * 100.0 == x * 10000.0;
  }

  lemma Round2Zero()
    ensures Round2(0.0) == 0.0 && Round4(0.0) == 0.0
  {
  }
}
