/** Exact-arithmetic counterparts of the numeric built-ins the tempo search uses (Python's int()
    truncation of a float and Python 3's round()), and the ceiling, a helper that gives the
    grid walk and the offset reduction their closed forms. */
module Numeric {

  /** Smallest integer not below x. */
  function Ceil(x: real): (c: int)
    ensures c as real - 1.0 < x <= c as real
  {
    -((-x).Floor)
  }

  /** Python's int() applied to a float: truncation toward zero. */
  function Truncate(x: real): (n: int)
    ensures 0.0 <= x ==> 0 <= n && n as real <= x < n as real + 1.0
    ensures x < 0.0 ==> n <= 0 && n as real - 1.0 < x <= n as real
  {
    if x >= 0.0 then x.Floor else -((-x).Floor)
  }

  /** Python 3's one-argument round(): the nearest integer, ties going to the even neighbour. */
  function RoundHalfEven(x: real): (n: int)
    ensures x - 0.5 <= n as real <= x + 0.5
    ensures (n as real - x == 0.5 || x - n as real == 0.5) ==> n % 2 == 0
  {
    var f := x.Floor;
    var d := x - f as real;
    if d < 0.5 then f
    else if d > 0.5 then f + 1
    else if f % 2 == 0 then f
    else f + 1
  }

  /** Python 3's round(x, 3) on an exact value: x rounded half to even to a multiple of 0.001. */
  function RoundThousandths(x: real): (r: real)
    ensures x - 0.0005 <= r <= x + 0.0005
    ensures r * 1000.0 == (r * 1000.0).Floor as real
  {
    RoundHalfEven(x * 1000.0) as real / 1000.0
  }

  /** The two properties of RoundHalfEven determine its result: any integer with them is it. */
  lemma RoundHalfEvenUnique(x: real, n: int)
    requires x - 0.5 <= n as real <= x + 0.5
    requires (n as real - x == 0.5 || x - n as real == 0.5) ==> n % 2 == 0
    ensures n == RoundHalfEven(x)
  {
  }

  /** Comparing a product with a positive factor is comparing with the quotient. */
  lemma MulVersusDiv(k: real, d: real, y: real)
    requires d > 0.0
    ensures k * d < y <==> k < y / d
    ensures k * d <= y <==> k <= y / d
  {
    var q := y / d;
    assert q * d == y;
    assert k * d - y == (k - q) * d;
  }
}
