/** The C++ integer operations the system relies on where they differ from
    mathematical integer arithmetic: `/`, `%` and the conversion of a double
    to `int` truncate toward zero, and `int` holds 32-bit values. */
module CArith {

  const IntMin: int := -0x8000_0000
  const IntMax: int := 0x7FFF_FFFF

  /** `a / b` on C++ integers: the quotient truncated toward zero. */
  function CDiv(a: int, b: int): (q: int)
    requires b != 0
    ensures a >= 0 && b > 0 ==> q == a / b
    ensures b > 0 ==> (if a >= 0 then q * b <= a < q * b + b else q * b - b < a <= q * b)
  {
    if a >= 0 then a / b
    else if b > 0 then -((-a) / b)
    else if a % b == 0 then a / b
    else a / b + 1
  }

  /** `a % b` on C++ integers: the remainder takes the sign of `a`. */
  function CRem(a: int, b: int): (r: int)
    requires b > 0
    ensures a >= 0 ==> 0 <= r < b && r == a % b
    ensures a < 0 ==> -b < r <= 0
  {
    if a >= 0 then a % b else -((-a) % b)
  }

  /** `static_cast<int>(x)` of a double: truncation toward zero (the value
      must fit in an int). */
  function TruncateReal(x: real): (i: int)
    ensures x >= 0.0 ==> i as real <= x < i as real + 1.0
    ensures x < 0.0 ==> i as real - 1.0 < x <= i as real
  {
    if x >= 0.0 then x.Floor else -((-x).Floor)
  }
}
