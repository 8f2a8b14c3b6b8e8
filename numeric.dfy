/**
 * The arithmetic the game takes from JavaScript's Math object, over exact reals.
 */
module Numeric {

  function MinR(a: real, b: real): real { if a <= b then a else b }

  function MaxR(a: real, b: real): real { if a >= b then a else b }

  function MinI(a: int, b: int): int { if a <= b then a else b }

  function MaxI(a: int, b: int): int { if a >= b then a else b }

  function Abs(x: real): real { if x < 0.0 then -x else x }

  /** Math.round: the nearest integer, a half rounding up (towards +infinity). */
  function Round(x: real): (r: int)
    ensures r as real - 0.5 <= x < r as real + 0.5
  {
    (x + 0.5).Floor
  }

  /** s raised to a natural power (Math.pow with a rank as exponent). */
  function Pow(s: real, n: nat): real {
    if n == 0 then 1.0 else s * Pow(s, n - 1)
  }

  lemma {:induction false} PowAtLeastOne(s: real, n: nat)
    requires s >= 1.0
    ensures Pow(s, n) >= 1.0
  {
    if n > 0 {
      PowAtLeastOne(s, n - 1);
      var p := Pow(s, n - 1);
      assert s * p >= 1.0 * p by {
        assert (s - 1.0) * p >= 0.0;
      }
    }
  }

  /**
   * Math.hypot(dx, dy) < r, stated without the square root: the hypotenuse is
   * never negative, so it is below r exactly when r is positive and its square
   * is below r * r.
   */
  predicate Within(dx: real, dy: real, r: real) {
    r > 0.0 && dx * dx + dy * dy < r * r
  }
}
