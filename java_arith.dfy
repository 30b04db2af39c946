/** The two pieces of Java integer arithmetic the activity relies on: division
    of a `long` by a positive constant (which truncates toward zero) and the
    narrowing cast `(int)` (which keeps the low 32 bits, two's complement). */
module JavaArith {

  const IntMin: int := -0x8000_0000
  const IntMax: int := 0x7fff_ffff
  const LongMin: int := -0x8000_0000_0000_0000
  const LongMax: int := 0x7fff_ffff_ffff_ffff

  predicate IsInt(x: int) { IntMin <= x <= IntMax }

  predicate IsLong(x: int) { LongMin <= x <= LongMax }

  /** Java's `a / b` for a positive divisor: the quotient is rounded toward
      zero, so the remainder takes the sign of the dividend. */
  function Quot(a: int, b: int): (q: int)
    requires b > 0
    ensures a >= 0 ==> 0 <= a - q * b < b
    ensures a < 0 ==> -b < a - q * b <= 0
    ensures a >= 0 ==> q >= 0
    ensures a < 0 ==> q <= 0
  {
    if a >= 0 then a / b else -((-a) / b)
  }

  /** Java's `(int)` cast of a `long`: the value modulo 2^32, read back as a
      signed 32-bit number. */
  function ToInt(x: int): (r: int)
    ensures IsInt(r)
    ensures (x - r) % 0x1_0000_0000 == 0
    ensures IsInt(x) ==> r == x
  {
    (x - IntMin) % 0x1_0000_0000 + IntMin
  }
}
