/** The few facts about products and rounding that the timers need. Products go through
    Times, so that proofs reason by these facts and not by the solver's own search. */
module Arithmetic {

  function Times(a: real, b: real): real {
    a * b
  }

  lemma Product(x: real, y: real)
    requires x >= 0.0 && y >= 0.0
    ensures Times(x, y) >= 0.0
  {
  }

  lemma PositiveProduct(x: real, y: real)
    requires x > 0.0 && y > 0.0
    ensures Times(x, y) > 0.0
  {
  }

  lemma Swapped(a: real, b: real)
    ensures Times(a, b) == Times(b, a)
  {
  }

  lemma Regrouped(a: real, b: real, c: real)
    ensures Times(Times(a, b), c) == Times(a, Times(b, c))
  {
    assert (a * b) * c == a * (b * c);
  }

  lemma Split(i: real, a: real, d: real)
    ensures Times(i, a + d) == Times(i, a) + Times(i, d)
  {
    assert i * (a + d) == i * a + i * d;
  }

  lemma Scaled(i: real, a: real, b: real)
    requires 0.0 <= i && a <= b
    ensures Times(i, a) <= Times(i, b)
  {
    Product(i, b - a);
    Split(i, a, b - a);
  }

  lemma ScaledStrictly(i: real, a: real, b: real)
    requires 0.0 < i && a < b
    ensures Times(i, a) < Times(i, b)
  {
    PositiveProduct(i, b - a);
    Split(i, a, b - a);
  }

  lemma FloorNear(x: real)
    ensures x - 1.0 < x.Floor as real <= x
  {
  }

  lemma FloorAtLeast(x: real, low: int)
    requires low as real <= x
    ensures low <= x.Floor
  {
  }

  lemma FloorAtMost(x: real, high: int)
    requires x <= high as real
    ensures x.Floor <= high
  {
  }

  /** A duration with jitter, cut to a whole number. */
  function Jittered(delay: int, jitter: real): int {
    Times(delay as real, jitter).Floor
  }

  lemma JitterBounds(delay: int, jitter: real, low: real, high: real)
    requires delay > 0 && 0.0 <= low <= jitter < high
    ensures 0 <= Jittered(delay, jitter)
    ensures Times(delay as real, low) - 1.0 < Jittered(delay, jitter) as real < Times(delay as real, high)
  {
    var d := delay as real;
    Scaled(d, low, jitter);
    ScaledStrictly(d, jitter, high);
    Product(d, low);
    FloorNear(Times(d, jitter));
    FloorAtLeast(Times(d, jitter), 0);
  }
}
