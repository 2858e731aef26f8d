/** Rounding a ratio `a / b` of integers to an integer, computed exactly:
    JavaScript's `Math.round` (halves go up) and Python's `round` (halves go
    to the even neighbour). */
module Rounding {

  /** `Math.floor(a / b)`. */
  function FloorDiv(a: int, b: int): (q: int)
    requires b != 0
    ensures b > 0 ==> q * b <= a < q * b + b
    ensures b < 0 ==> q * b >= a > q * b + b
  {
    if b > 0 then a / b else (0 - a) / (0 - b)
  }

  /** `Math.round(a / b)`: the nearest integer, a half rounded up. */
  function RoundHalfUp(a: int, b: int): (r: int)
    requires b != 0
    ensures b > 0 ==> 2 * a - b < 2 * r * b <= 2 * a + b
    ensures b < 0 ==> 2 * a - b > 2 * r * b >= 2 * a + b
  {
    FloorDiv(2 * a + b, 2 * b)
  }

  /** `a / b` lies exactly halfway between two integers. */
  predicate IsTie(a: int, b: int)
    requires b != 0
  {
    (2 * a + b) % (2 * b) == 0
  }

  /** The even one of `n` and `n - 1`. */
  function EvenAtOrBelow(n: int): (r: int)
    ensures r % 2 == 0
    ensures r == n || r == n - 1
    ensures n % 2 == 0 ==> r == n
  {
    if n % 2 == 0 then n else n - 1
  }

  /** Python's `round(a / b)`: the nearest integer, a half rounded to the
      even one. */
  function RoundHalfEven(a: int, b: int): (r: int)
    requires b != 0
    ensures !IsTie(a, b) ==> r == RoundHalfUp(a, b)
    ensures IsTie(a, b) ==> r % 2 == 0 && (r == RoundHalfUp(a, b) || r == RoundHalfUp(a, b) - 1)
  {
    if IsTie(a, b) then EvenAtOrBelow(RoundHalfUp(a, b)) else RoundHalfUp(a, b)
  }

  /** A tie is exactly a ratio whose half-up rounding is off by one half. */
  lemma TieIsHalfway(a: int, b: int)
    requires b > 0
    ensures IsTie(a, b) <==> 2 * RoundHalfUp(a, b) * b == 2 * a + b
  {
    var r := RoundHalfUp(a, b);
    if IsTie(a, b) {
      var k := (2 * a + b) / (2 * b);
      assert 2 * a + b == k * (2 * b);
      assert r == k;
    }
    if 2 * r * b == 2 * a + b {
      assert (2 * a + b) == r * (2 * b);
    }
  }

  /** With `b` positive, `x * b` and `x` have the same sign. */
  lemma SignOfProduct(x: int, b: int)
    requires b > 0
    ensures x * b > 0 <==> x > 0
    ensures x * b < 0 <==> x < 0
  {
  }

  /** A percentage of a part no larger than the whole lies in 0..100. */
  lemma PercentInRange(part: int, whole: int)
    requires 0 <= part <= whole && whole > 0
    ensures 0 <= RoundHalfUp(100 * part, whole) <= 100
    ensures 0 <= RoundHalfEven(100 * part, whole) <= 100
  {
    var r := RoundHalfUp(100 * part, whole);
    assert 200 * part - whole < 2 * r * whole <= 200 * part + whole;
    assert (r + 1) * whole == r * whole + whole;
    assert (r - 101) * whole == r * whole - 101 * whole;
    SignOfProduct(r + 1, whole);
    SignOfProduct(r - 101, whole);
  }
}
