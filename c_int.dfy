/**
 * Integer semantics of the C/C++ toolchain the firmware is built with
 * (avr-gcc, Arduino core): division that truncates toward zero, the
 * `constrain` and `map` helpers of the Arduino core, and the narrowing
 * conversions to `uint8_t` and `uint16_t`. Dafny's own `/` and `%` are
 * Euclidean, so every C division of the model goes through `Div`/`Rem`.
 */
module CInt {

  const INT32_MAX: int := 0x7FFF_FFFF
  const INT32_MIN: int := -0x8000_0000

  /** C's `a / b` for a positive divisor: the quotient rounded toward zero. */
  function Div(a: int, b: int): int
    requires b > 0
  {
    if a >= 0 then a / b else -((-a) / b)
  }

  /** `Div` rounds toward zero: the remainder it leaves has the sign of `a`. */
  lemma DivTowardZero(a: int, b: int)
    requires b > 0
    ensures a >= 0 ==> 0 <= a - b * Div(a, b) < b
    ensures a < 0 ==> -b < a - b * Div(a, b) <= 0
  {
    if a < 0 {
      assert a - b * Div(a, b) == -((-a) - b * ((-a) / b));
    }
  }

  /** C's `a % b` for a positive divisor: the remainder takes the sign of `a`. */
  function Rem(a: int, b: int): (r: int)
    requires b > 0
    ensures a >= 0 ==> 0 <= r < b
    ensures a < 0 ==> -b < r <= 0
  {
    DivTowardZero(a, b);
    a - b * Div(a, b)
  }

  /** On non-negative operands C's division agrees with Dafny's. */
  lemma DivOfNatural(a: int, b: int)
    requires a >= 0 && b > 0
    ensures Div(a, b) == a / b && Rem(a, b) == a % b
  {
  }

  /** Truncating division by a positive constant never reverses an order. */
  lemma DivMonotone(a1: int, a2: int, b: int)
    requires b > 0 && a1 <= a2
    ensures Div(a1, b) <= Div(a2, b)
  {
    if a1 >= 0 {
      NatDivMonotone(a1, a2, b);
    } else if a2 < 0 {
      NatDivMonotone(-a2, -a1, b);
    } else {
      DivSigns(a1, a2, b);
    }
  }

  /** A negative dividend gives a quotient of at most zero, a natural one at least zero. */
  lemma DivSigns(a1: int, a2: int, b: int)
    requires b > 0 && a1 < 0 <= a2
    ensures Div(a1, b) <= 0 <= Div(a2, b)
  {
    assert (-a1) / b >= 0;
    assert a2 / b >= 0;
  }

  lemma {:induction false} NatDivMonotone(a1: int, a2: int, b: int)
    requires 0 <= a1 <= a2 && b > 0
    ensures a1 / b <= a2 / b
  {
    var q1, q2 := a1 / b, a2 / b;
    assert b * q1 <= a1;
    assert a2 < b * (q2 + 1);
    MulCancel(b, q1, q2 + 1);
  }

  /** A positive factor can be cancelled from a strict inequality. */
  lemma MulCancel(b: int, x: int, y: int)
    requires b > 0
    ensures b * x < b * y ==> x < y
  {
    if x >= y {
      assert b * x - b * y == b * (x - y);
    }
  }

  /** Dividing an exact multiple gives the factor back. */
  lemma {:induction false} DivOfMultiple(k: int, d: int)
    requires d > 0
    ensures Div(k * d, d) == k
  {
    var q := Div(k * d, d);
    DivTowardZero(k * d, d);
    assert k * d - d * q == d * (k - q);
    MulCancel(d, k - q, 1);
    MulCancel(d, -1, k - q);
  }

  /** The Arduino core's `constrain(amt, low, high)` macro. */
  function Constrain(amt: int, low: int, high: int): (r: int)
    requires low <= high
    ensures low <= r <= high
    ensures low <= amt <= high ==> r == amt
    ensures amt < low ==> r == low
    ensures amt > high ==> r == high
  {
    if amt < low then low else if amt > high then high else amt
  }

  /**
   * The Arduino core's `long map(long x, long in_min, long in_max,
   * long out_min, long out_max)`: a linear rescaling whose division
   * truncates toward zero.
   */
  function Map(x: int, inMin: int, inMax: int, outMin: int, outMax: int): (r: int)
    requires inMin < inMax
    ensures x == inMin ==> r == outMin
    ensures x == inMax ==> r == outMax
  {
    DivOfMultiple(outMax - outMin, inMax - inMin);
    assert (inMax - inMin) * (outMax - outMin) == (outMax - outMin) * (inMax - inMin);
    Div((x - inMin) * (outMax - outMin), inMax - inMin) + outMin
  }

  /** Conversion to `uint8_t`: reduction modulo 256. */
  function ToUint8(x: int): (r: int)
    ensures 0 <= r < 0x100
    ensures 0 <= x < 0x100 ==> r == x
    ensures (r - x) % 0x100 == 0
  {
    x % 0x100
  }

  /** Conversion to `uint16_t`: reduction modulo 65536. */
  function ToUint16(x: int): (r: int)
    ensures 0 <= r < 0x1_0000
    ensures 0 <= x < 0x1_0000 ==> r == x
    ensures (r - x) % 0x1_0000 == 0
  {
    x % 0x1_0000
  }
}
