/** The small part of the Arduino AVR core that the two classes rely on:
    the widths of `int`, `long` and `uint8_t`, the conversion of a value to
    `uint8_t`, the `abs` macro, C's truncating integer division and the
    `map` range-remap helper. Integers are mathematical; every width is a
    range predicate or a subset type, and every wrap-around is written out. */
module Arduino {

  const LONG_MIN: int := -0x8000_0000
  const LONG_MAX: int := 0x7FFF_FFFF
  const INT_MIN: int := -0x8000
  const INT_MAX: int := 0x7FFF

  /** A 32-bit AVR `long`. */
  type Long = x: int | LONG_MIN <= x <= LONG_MAX

  /** An `uint8_t`. */
  type Byte = x: int | 0 <= x < 256

  /** A 16-bit AVR `int`. */
  predicate IsInt(x: int) {
    INT_MIN <= x <= INT_MAX
  }

  /** The conversion of any integer to `uint8_t`: reduction modulo 2^8. */
  function ToByte(x: int): (r: Byte)
    ensures 0 <= x < 256 ==> r == x
    ensures (r - x) % 256 == 0
  {
    x % 256
  }

  /** Arduino's `abs` macro, `((x) > 0 ? (x) : -(x))`. */
  function Abs(x: int): (r: nat)
    ensures r == x || r == -x
  {
    if x > 0 then x else -x
  }

  /** C's integer division: the quotient is truncated toward zero. */
  function TruncDiv(a: int, b: int): (q: int)
    requires b != 0
    // the remainder a - q*b has the sign of a and is smaller than b in magnitude
    ensures Abs(a - q * b) < Abs(b)
    ensures a - q * b == 0 || (a - q * b < 0) == (a < 0)
  {
    var m := Abs(a) / Abs(b);
    TruncRemainder(a, b, m);
    if (a < 0) == (b < 0) then m else -m
  }

  /** The remainder left by the truncated quotient `m` or `-m`. */
  lemma {:induction false} TruncRemainder(a: int, b: int, m: int)
    requires b != 0 && m == Abs(a) / Abs(b)
    ensures var q := if (a < 0) == (b < 0) then m else -m;
      a - q * b == (if a < 0 then -(Abs(a) % Abs(b)) else Abs(a) % Abs(b))
  {
    var n, d := Abs(a), Abs(b);
    var p := d * m;
    assert n == p + n % d;
    if b < 0 {
      assert m * b == -p;
      assert (-m) * b == p;
    } else {
      assert m * b == p;
      assert (-m) * b == -p;
    }
  }

  /** A multiple of the divisor is divided exactly. */
  lemma {:induction false} TruncDivExact(k: int, d: int)
    requires d != 0
    ensures TruncDiv(k * d, d) == k
  {
    var q := TruncDiv(k * d, d);
    var e := k - q;
    assert k * d - q * d == e * d;
    if e != 0 {
      AbsProductAtLeast(e, d);
    }
  }

  /** A non-zero multiple of d is at least as large as d in magnitude. */
  lemma {:induction false} AbsProductAtLeast(e: int, d: int)
    requires e != 0
    ensures Abs(e * d) >= Abs(d)
  {
    var x: int, y: int := Abs(e), Abs(d);
    assert x * y == (x - 1) * y + y;
    assert (x - 1) * y >= 0;
    if e < 0 && d < 0 { assert e * d == x * y; }
    else if e < 0 { assert e * d == -(x * y); }
    else if d < 0 { assert e * d == -(x * y); }
    else { assert e * d == x * y; }
  }

  /** Arduino's `long map(x, in_min, in_max, out_min, out_max)`:
      (x - in_min) * (out_max - out_min) / (in_max - in_min) + out_min,
      the division being C's. The source domain may be given in descending
      order, which inverts the mapping. */
  function Map(x: int, inMin: int, inMax: int, outMin: int, outMax: int): (r: int)
    requires inMin != inMax
    ensures x == inMin ==> r == outMin
    ensures x == inMax ==> r == outMax
  {
    var span, width := outMax - outMin, inMax - inMin;
    TruncDivExact(0, width);
    TruncDivExact(span, width);
    assert x == inMin ==> (x - inMin) * span == 0 * width;
    assert x == inMax ==> (x - inMin) * span == span * width;
    TruncDiv((x - inMin) * (outMax - outMin), inMax - inMin) + outMin
  }

  /** Where dividend and divisor are both non-negative, respectively positive,
      C's division is Dafny's. */
  lemma {:induction false} TruncDivNonNegative(a: int, b: int)
    requires a >= 0 && b > 0
    ensures TruncDiv(a, b) == a / b
  {
  }

  /** Negating both operands leaves a truncating quotient unchanged. */
  lemma {:induction false} TruncDivNegateBoth(a: int, b: int)
    requires b != 0
    ensures TruncDiv(-a, -b) == TruncDiv(a, b)
  {
  }

  /** Euclidean division by a positive divisor is monotone in the dividend. */
  lemma {:induction false} DivMonotone(a1: int, a2: int, b: int)
    requires a1 <= a2 && b > 0
    ensures a1 / b <= a2 / b
  {
    if a1 / b > a2 / b {
      MulAtLeast(b, a1 / b - a2 / b);
      assert false;
    }
  }

  /** b * k >= b for b >= 0 and k >= 1. */
  lemma {:induction false} MulAtLeast(b: int, k: int)
    ensures b >= 0 && k >= 1 ==> b * k >= b
  {
    if b >= 0 && k >= 1 {
      assert b * k == b * (k - 1) + b;
      assert b * (k - 1) >= 0;
    }
  }

  /** Map with an ascending or a descending source domain, for a point inside
      that domain and an ascending target range: the result lies in the target
      range and equals the distance travelled from in_min, scaled with a
      floor division of non-negative quantities. */
  lemma {:induction false} MapInside(x: int, inMin: int, inMax: int, outMin: int, outMax: int)
    requires inMin != inMax && outMin <= outMax
    requires inMin <= x <= inMax || inMax <= x <= inMin
    ensures Map(x, inMin, inMax, outMin, outMax)
         == Abs(x - inMin) * (outMax - outMin) / Abs(inMax - inMin) + outMin
    ensures outMin <= Map(x, inMin, inMax, outMin, outMax) <= outMax
  {
    ScaledQuotient(x - inMin, inMax - inMin, outMax - outMin);
    ScaledFraction(Abs(x - inMin), Abs(inMax - inMin), outMax - outMin);
  }

  /** For a dividend and a divisor of the same sign, C's division of the
      scaled dividend is a floor division of magnitudes. */
  lemma {:induction false} ScaledQuotient(dx: int, dw: int, span: int)
    requires dw != 0 && span >= 0
    requires 0 <= dx <= dw || dw <= dx <= 0
    ensures TruncDiv(dx * span, dw) == Abs(dx) * span / Abs(dw)
  {
    var dist: int, width: int := Abs(dx), Abs(dw);
    if dw > 0 {
      assert dx * span == dist * span;
      TruncDivNonNegative(dist * span, width);
    } else {
      assert dx * span == -(dist * span);
      TruncDivNegateBoth(dist * span, width);
      TruncDivNonNegative(dist * span, width);
    }
  }

  /** dist * span / width lies in [0, span] when 0 <= dist <= width. */
  lemma {:induction false} ScaledFraction(dist: int, width: int, span: int)
    requires 0 <= dist <= width && width > 0 && span >= 0
    ensures 0 <= dist * span / width <= span
  {
    assert width * span - dist * span == (width - dist) * span;
    assert (width - dist) * span >= 0;
    assert dist * span / width <= width * span / width;
    assert width * span / width == span;
  }
}
