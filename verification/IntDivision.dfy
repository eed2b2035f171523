/** Floor division of non-negative integers, one fact at a time. */
module IntDivision {

  lemma FloorBounds(a: int, d: int)
    requires d > 0
    ensures (a / d) * d <= a < (a / d + 1) * d
  {
  }

  lemma MulMono(x: int, y: int, k: int)
    requires x <= y && 0 <= k
    ensures x * k <= y * k
  {
  }

  /** The defining property of the floor: `a / d` is the largest k with k*d <= a. */
  lemma FloorAtLeast(a: int, d: int, k: int)
    requires d > 0
    ensures a / d >= k <==> a >= k * d
  {
    FloorBounds(a, d);
    if a / d >= k {
      MulMono(k, a / d, d);
    } else {
      MulMono(a / d + 1, k, d);
    }
  }

  lemma FloorMono(a: int, b: int, d: int)
    requires d > 0 && a <= b
    ensures a / d <= b / d
  {
    FloorBounds(a, d);
    FloorAtLeast(b, d, a / d);
  }

  lemma FloorNonNeg(a: int, d: int)
    requires d > 0 && a >= 0
    ensures a / d >= 0
  {
    FloorAtLeast(a, d, 0);
  }
}
