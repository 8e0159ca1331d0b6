/** C# integer and float-to-int semantics, written out over Dafny's unbounded integers and exact reals.
    Dafny's own `/` and `%` are Euclidean; C# truncates toward zero. */
module Numerics {

  function Abs(a: int): (r: nat)
    ensures r == a || r == -a
  {
    if a < 0 then -a else a
  }

  lemma QuotientNonNegative(x: int, y: int)
    requires x >= 0 && y > 0
    ensures x / y >= 0
  {
  }

  /** Multiplying by a non-negative factor keeps order. */
  lemma MulMonotone(a: int, b: int, c: nat)
    requires a <= b
    ensures a * c <= b * c
  {
    assert b * c - a * c == (b - a) * c;
  }

  /** C# `a / b` on int: the quotient truncated toward zero (throws DivideByZeroException when b == 0). */
  function TruncDiv(a: int, b: int): (q: int)
    requires b != 0
    ensures Abs(q) == Abs(a) / Abs(b)
    ensures q == 0 || (q < 0) == ((a < 0) != (b < 0))
    ensures a >= 0 && b > 0 ==> q == a / b
  {
    var x := if a < 0 then -a else a;
    var y := if b < 0 then -b else b;
    QuotientNonNegative(x, y);
    var u := x / y;
    if (a < 0) != (b < 0) then -u else u
  }

  /** C# `a % b` on int: the remainder of the truncating division, with the sign of `a`. */
  function TruncRem(a: int, b: int): (r: int)
    requires b != 0
    ensures a == TruncDiv(a, b) * b + r
    ensures Abs(r) < Abs(b)
    ensures r == 0 || (r < 0) == (a < 0)
    ensures a >= 0 && b > 0 ==> r == a % b
  {
    a - TruncDiv(a, b) * b
  }

  /** C# `(int)x` for a float: truncation toward zero (range overflow is not modelled). */
  function Truncate(x: real): (n: int)
    ensures Abs(n) as real <= (if x < 0.0 then -x else x) < Abs(n) as real + 1.0
    ensures n == 0 || (n < 0) == (x < 0.0)
  {
    if x >= 0.0 then x.Floor else -((-x).Floor)
  }
}
