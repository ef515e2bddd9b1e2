/** Python's `round` and JavaScript's `Math.round`, on exact numbers. */
module Rounding {
  /** Nearest integer, ties to even. */
  function RoundHalfEven(x: real): (r: int)
    ensures x - 0.5 <= r as real <= x + 0.5
  {
    var f := x.Floor;
    var d := x - f as real;
    if d < 0.5 || (d == 0.5 && f % 2 == 0) then f else f + 1
  }

  /** round(x, 2) */
  function Round2(x: real): (r: real)
    ensures x - 0.005 <= r <= x + 0.005
  {
    RoundHalfEven(x * 100.0) as real / 100.0
  }

  /** Math.round: ties towards plus infinity. */
  function MathRound(x: real): (r: int)
    ensures x - 0.5 < r as real <= x + 0.5
  {
    (x + 0.5).Floor
  }

  lemma RoundMonotone(x: real, y: real)
    requires x <= y
    ensures RoundHalfEven(x) <= RoundHalfEven(y)
  {
    if x.Floor == y.Floor {
      assert x - x.Floor as real <= y - y.Floor as real;
    } else {
      assert x.Floor + 1 <= y.Floor;
    }
  }

  lemma Round2Monotone(x: real, y: real)
    requires x <= y
    ensures Round2(x) <= Round2(y)
  {
    RoundMonotone(x * 100.0, y * 100.0);
  }

  lemma Round2Zero()
    ensures Round2(0.0) == 0.0
  {
  }

  lemma Round2One()
    ensures Round2(1.0) == 1.0
  {
    assert RoundHalfEven(100.0) == 100;
  }

  /** A value 0.1 further along is still strictly further along after rounding. */
  lemma Round2Strict(x: real, y: real)
    requires y - x >= 0.1
    ensures Round2(x) < Round2(y)
  {
  }
}
