/**
 * The value types of android.graphics that the widget computes with (Rect,
 * RectF, PointF), and Java's narrowing conversions from float to int.
 * Floats are modelled as reals, so sums, differences, halving and min are exact.
 */
module Geometry {

  const INT_MIN: int := -0x8000_0000
  const INT_MAX: int := 0x7fff_ffff

  predicate InIntRange(n: int) { INT_MIN <= n <= INT_MAX }

  /** android.graphics.Rect: integer edges. */
  datatype Rect = Rect(left: int, top: int, right: int, bottom: int) {
    function Width(): int { right - left }
    function Height(): int { bottom - top }
  }

  /** android.graphics.PointF. */
  datatype PointF = PointF(x: real, y: real)

  /** android.graphics.RectF: float edges. */
  datatype RectF = RectF(left: real, top: real, right: real, bottom: real) {
    function Width(): real { right - left }
    function Height(): real { bottom - top }
    function TopLeft(): PointF { PointF(left, top) }
    function BottomRight(): PointF { PointF(right, bottom) }

    /** The centre, computed the way the widget does: an edge plus half the extent. */
    function Center(): (c: PointF)
      ensures c.x - left == right - c.x
      ensures c.y - top == bottom - c.y
    {
      PointF(left + (right - left) / 2.0, top + (bottom - top) / 2.0)
    }

    /** RectF.inset: every edge moves inward by dx horizontally and dy vertically. */
    function Inset(dx: real, dy: real): (r: RectF)
      ensures r.Center() == Center()
      ensures r.Width() == Width() - 2.0 * dx
      ensures r.Height() == Height() - 2.0 * dy
    {
      RectF(left + dx, top + dy, right - dx, bottom - dy)
    }
  }

  /**
   * Where a rotation by 180 degrees about c sends p. A rotation by an angle
   * t about c maps p to c + R(t)(p - c); for t = 180, R(t) is minus the identity.
   */
  function Rotate180(p: PointF, c: PointF): (q: PointF)
    ensures (p.x + q.x) / 2.0 == c.x
    ensures (p.y + q.y) / 2.0 == c.y
  {
    PointF(2.0 * c.x - p.x, 2.0 * c.y - p.y)
  }

  const LONG_MIN: int := -0x8000_0000_0000_0000
  const LONG_MAX: int := 0x7fff_ffff_ffff_ffff

  /** Clamps n into [lo, hi]: how Java narrows an out-of-range float to an integer type. */
  function Clamp(n: int, lo: int, hi: int): int
    requires lo <= hi
  {
    if n < lo then lo else if n > hi then hi else n
  }

  /** The integer part of x, rounding toward zero. */
  function TruncateTowardZero(x: real): int
  {
    if x >= 0.0 then x.Floor else -((-x).Floor)
  }

  /** Java's (int) cast of a float: round toward zero, then saturate. */
  function FloatToInt(x: real): int
  {
    Clamp(TruncateTowardZero(x), INT_MIN, INT_MAX)
  }

  /** Java's (long) cast of a float: round toward zero, then saturate. */
  function FloatToLong(x: real): int
  {
    Clamp(TruncateTowardZero(x), LONG_MIN, LONG_MAX)
  }

  /** Two's-complement wrap-around of an integer into the range of a long. */
  function WrapLong(n: int): int
  {
    (n - LONG_MIN) % 0x1_0000_0000_0000_0000 + LONG_MIN
  }

  /** Java's (int) cast of a long: keep the low 32 bits, as a signed value. */
  function LongToInt(n: int): int
  {
    (n - INT_MIN) % 0x1_0000_0000 + INT_MIN
  }

  /** 2^24, the fixed-point scale of the framework's fast rounding. */
  const FIXED_ONE: int := 0x100_0000

  /**
   * The rounding RectF.round applies to each edge (the framework's
   * FastMath.round): scale by 2^24, cast to long, add one half in fixed
   * point, shift right arithmetically by 24 bits, and cast to int. The long
   * addition wraps, the shift floors (Dafny's / by a positive divisor), and
   * the final cast keeps the low 32 bits.
   */
  function FastRound(x: real): int
  {
    LongToInt(WrapLong(FloatToLong(x * FIXED_ONE as real) + FIXED_ONE / 2) / FIXED_ONE)
  }

  /**
   * The (int) cast always yields an int, drops the fractional part of an
   * in-range value (toward zero), and clamps an out-of-range value to the
   * nearer end of the range.
   */
  lemma FloatToIntTruncates(x: real)
    ensures InIntRange(FloatToInt(x))
    ensures 0.0 <= x < (INT_MAX + 1) as real ==> FloatToInt(x) as real <= x < FloatToInt(x) as real + 1.0
    ensures (INT_MIN - 1) as real < x < 0.0 ==> FloatToInt(x) as real - 1.0 < x <= FloatToInt(x) as real
    ensures (INT_MAX + 1) as real <= x ==> FloatToInt(x) == INT_MAX
    ensures x <= (INT_MIN - 1) as real ==> FloatToInt(x) == INT_MIN
  {
  }

  /** Wrapping leaves a value that is already in range alone. */
  lemma WrapInRange(n: int)
    ensures LONG_MIN <= n <= LONG_MAX ==> WrapLong(n) == n
    ensures InIntRange(n) ==> LongToInt(n) == n
  {
  }

  /**
   * For an edge in int range the fast rounding gives an int within one half
   * (plus the 2^-24 lost to the fixed-point cast) of the edge, and exactly
   * floor(x + 1/2) when the edge is a multiple of 2^-24, as every float of
   * magnitude at least one is.
   */
  lemma FastRoundIsNearest(x: real)
    requires INT_MIN as real <= x <= INT_MAX as real
    ensures InIntRange(FastRound(x))
    ensures x - 0.5 - 1.0 / FIXED_ONE as real < FastRound(x) as real < x + 0.5 + 1.0 / FIXED_ONE as real
    ensures (x * FIXED_ONE as real).Floor as real == x * FIXED_ONE as real ==> FastRound(x) == (x + 0.5).Floor
  {
    var scaled := x * FIXED_ONE as real;
    var t := TruncateTowardZero(scaled);
    assert -0x80_0000_0000_0000 as real <= scaled <= 0x80_0000_0000_0000 as real;
    assert (t as real) - 1.0 < scaled < (t as real) + 1.0;
    assert FloatToLong(scaled) == t;
    WrapInRange(t + FIXED_ONE / 2);
    var n := (t + FIXED_ONE / 2) / FIXED_ONE;
    assert n * FIXED_ONE <= t + FIXED_ONE / 2 < (n + 1) * FIXED_ONE;
    assert (n * FIXED_ONE) as real == n as real * FIXED_ONE as real;
    assert ((n + 1) * FIXED_ONE) as real == (n as real + 1.0) * FIXED_ONE as real;
    assert x - 0.5 - 1.0 / FIXED_ONE as real < n as real < x + 0.5 + 1.0 / FIXED_ONE as real;
    assert InIntRange(n);
    WrapInRange(n);
    if scaled.Floor as real == scaled {
      assert t as real == scaled;
      assert n as real <= x + 0.5 < n as real + 1.0;
    }
  }

  /** Past the int range the fast rounding wraps around instead of saturating. */
  lemma FastRoundWrapsPastIntRange()
    ensures FastRound((INT_MAX + 1) as real) == INT_MIN
  {
  }

  /** RectF.round: each edge to a nearby integer. */
  function RoundRect(r: RectF): Rect
  {
    Rect(FastRound(r.left), FastRound(r.top), FastRound(r.right), FastRound(r.bottom))
  }

  /** A whole number in int range survives both narrowings unchanged. */
  lemma WholeNumbersAreExact(n: int)
    ensures InIntRange(n) ==> FloatToInt(n as real) == n
    ensures InIntRange(n) ==> FastRound(n as real) == n
  {
    if InIntRange(n) {
      FastRoundIsNearest(n as real);
    }
  }
}
