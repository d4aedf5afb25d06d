/** Python's built-in `round` applied to a number with no digit count: the
    nearest integer, with ties going to the even neighbour ("banker's
    rounding"). */
module Rounding {

  predicate Even(k: int) {
    k % 2 == 0
  }

  /** `k` is what Python's `round(x)` returns: an integer at distance at most
      one half from `x`, and an even one when the distance is exactly one half. */
  predicate RoundsTo(x: real, k: int) {
    -0.5 <= x - k as real <= 0.5 && ((x - k as real == 0.5 || x - k as real == -0.5) ==> Even(k))
  }

  function RoundHalfEven(x: real): (k: int)
    ensures RoundsTo(x, k)
  {
    var f := x.Floor;
    var frac := x - f as real;
    if frac < 0.5 then f
    else if frac > 0.5 then f + 1
    else if Even(f) then f
    else f + 1
  }

  /** There is only one integer `round` may return. */
  lemma RoundsToUnique(x: real, j: int, k: int)
    requires RoundsTo(x, j) && RoundsTo(x, k)
    ensures j == k
  {
  }

  /** Rounding never reverses the order of two numbers. */
  lemma RoundMonotone(x: real, y: real)
    requires x <= y
    ensures RoundHalfEven(x) <= RoundHalfEven(y)
  {
    var j, k := RoundHalfEven(x), RoundHalfEven(y);
    if x < y {
      assert j as real - 0.5 <= x < y <= k as real + 0.5;
    }
  }

  /** A whole number rounds to itself. */
  lemma RoundOfInteger(k: int)
    ensures RoundHalfEven(k as real) == k
  {
    assert RoundsTo(k as real, k);
    RoundsToUnique(k as real, k, RoundHalfEven(k as real));
  }
}
