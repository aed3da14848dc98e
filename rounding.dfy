/**
 * Rational rounding to the nearest integer with ties to the even neighbour.
 * This is the rule of Python's `round` and of numpy's `round` (used by
 * pandas `Series.round`), applied exactly to a quotient n / d.
 */
module Rounding {

  /** n / d rounded to the nearest integer, ties going to the even integer. */
  function RoundHalfEven(n: int, d: int): (r: int)
    requires d > 0
    ensures -d <= 2 * (n - r * d) <= d
    ensures 2 * (n - r * d) == d || 2 * (n - r * d) == -d ==> r % 2 == 0
  {
    var q, m := n / d, n % d;
    QuotientNeighbours(n, d);
    var r := if 2 * m < d then q else if 2 * m > d then q + 1 else if q % 2 == 0 then q else q + 1;
    assert n - r * d == (if r == q then m else m - d);
    r
  }

  /** The remainders left by the floor quotient and by the next integer. */
  lemma QuotientNeighbours(n: int, d: int)
    requires d > 0
    ensures n - (n / d) * d == n % d
    ensures n - (n / d + 1) * d == n % d - d
  {
  }

  /** The two postconditions of RoundHalfEven determine its result. */
  lemma {:induction false} RoundHalfEvenUnique(n: int, d: int, r: int)
    requires d > 0
    requires -d <= 2 * (n - r * d) <= d
    requires 2 * (n - r * d) == d || 2 * (n - r * d) == -d ==> r % 2 == 0
    ensures r == RoundHalfEven(n, d)
  {
    var s := RoundHalfEven(n, d);
    var x, y := n - r * d, n - s * d;
    assert x - y == (s - r) * d by { DifferenceOfRemainders(n, d, r, s); }
    ProductCases(s - r, d);
  }

  lemma DifferenceOfRemainders(n: int, d: int, r: int, s: int)
    ensures (n - r * d) - (n - s * d) == (s - r) * d
  {
  }

  /** What the sign and size of a factor say about a product with a positive d. */
  lemma ProductCases(e: int, d: int)
    requires d > 0
    ensures e >= 2 ==> e * d >= 2 * d
    ensures e <= -2 ==> e * d <= -2 * d
    ensures e == 1 ==> e * d == d
    ensures e == -1 ==> e * d == -d
    ensures e == 0 ==> e * d == 0
  {
  }

  /** An exact quotient is not changed by rounding. */
  lemma RoundHalfEvenExact(k: int, d: int)
    requires d > 0
    ensures RoundHalfEven(k * d, d) == k
  {
    RoundHalfEvenUnique(k * d, d, k);
  }
}
