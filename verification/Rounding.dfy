/** Rounding of exact rational amounts to whole units, ties upwards, as the services round to cents. */
module Rounding {

  function RoundHalfUp(x: real): int {
    (x + 0.5).Floor
  }

  /** The rounded value is the nearest integer, and the upper one on a tie. */
  lemma RoundNearest(x: real)
    ensures x - 0.5 < RoundHalfUp(x) as real <= x + 0.5
  {
  }

  /** Rounding never passes an integer that bounds its argument, on either side. */
  lemma RoundRespectsBounds(x: real, n: int)
    ensures x <= n as real ==> RoundHalfUp(x) <= n
    ensures n as real <= x ==> n <= RoundHalfUp(x)
    ensures x == n as real ==> RoundHalfUp(x) == n
  {
    RoundNearest(x);
  }

  lemma RoundMonotone(x: real, y: real)
    requires x <= y
    ensures RoundHalfUp(x) <= RoundHalfUp(y)
  {
    RoundNearest(x);
    RoundNearest(y);
  }

  /** Adding whole units commutes with rounding. */
  lemma RoundShift(x: real, n: int)
    ensures RoundHalfUp(x + n as real) == RoundHalfUp(x) + n
  {
    RoundNearest(x);
    RoundNearest(x + n as real);
  }

  /** Multiplying both sides by a positive factor preserves the order. */
  lemma ScaleOrder(a: real, b: real, factor: real)
    requires factor > 0.0
    ensures a <= b <==> a * factor <= b * factor
  {
    assert (b - a) * factor == b * factor - a * factor;
  }
}
