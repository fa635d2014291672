/**
 * CoreGraphics value types (CGPoint, CGSize, CGRect) over exact reals, and the
 * numeric conversions Swift applies when the slider turns a floating value into
 * an integer: `Int(x)` truncates toward zero, `ceilf` rounds up, and `/` on
 * `Int` truncates toward zero. Dafny's own `.Floor` and `/` round down, so each
 * Swift conversion is written out here once and used everywhere else.
 */
module Geometry {

  datatype Point = Point(x: real, y: real)

  datatype Size = Size(width: real, height: real)

  datatype Rect = Rect(origin: Point, size: Size) {
    /** Horizontal centre, CGRectGetMidX. */
    function MidX(): real { origin.x + size.width / 2.0 }
    /** Vertical centre, CGRectGetMidY. */
    function MidY(): real { origin.y + size.height / 2.0 }
  }

  function Abs(x: real): real { if x < 0.0 then -x else x }

  function Min(a: real, b: real): real { if a <= b then a else b }

  function Max(a: real, b: real): real { if a >= b then a else b }

  function MaxInt(a: int, b: int): int { if a >= b then a else b }

  /** Scaling by a non-negative factor keeps order. */
  lemma MulMonotone(x: real, y: real, k: real)
    requires x <= y && 0.0 <= k
    ensures x * k <= y * k
  {
  }

  /** Multiplying by a non-zero factor and dividing by it again gives back the start. */
  lemma MulDivCancel(x: real, n: real)
    requires n != 0.0
    ensures n * x / n == x
  {
  }

  /** Scaling by a positive factor keeps strict order. */
  lemma MulStrict(x: real, y: real, k: real)
    requires x < y && 0.0 < k
    ensures x * k < y * k
  {
  }

  /** Dividing by a positive number keeps order. */
  lemma DivMonotone(x: real, y: real, d: real)
    requires x <= y && 0.0 < d
    ensures x / d <= y / d
  {
  }

  /** A product of non-negative numbers is non-negative. */
  lemma NonNegativeProduct(a: real, b: real)
    ensures 0.0 <= a && 0.0 <= b ==> 0.0 <= a * b
  {
    if 0.0 <= a && 0.0 <= b {
      MulMonotone(0.0, a, b);
    }
  }

  /** A non-negative number divided by a positive one is non-negative. */
  lemma NonNegativeQuotient(a: real, d: real)
    ensures 0.0 <= a && 0.0 < d ==> 0.0 <= a / d
  {
  }

  /** Swift's `Int(x)` for a finite floating value: the integer part, rounded toward zero. */
  function Trunc(x: real): (n: int)
    ensures 0.0 <= x ==> n as real <= x < n as real + 1.0
    ensures x < 0.0 ==> n as real - 1.0 < x <= n as real
    ensures 0 <= n <==> -1.0 < x
  {
    if x >= 0.0 then x.Floor else -((-x).Floor)
  }

  /** Swift's `ceilf`: the least integer not below `x`. */
  function Ceil(x: real): (n: int)
    ensures n as real - 1.0 < x <= n as real
  {
    -((-x).Floor)
  }

  /** Swift's `Int` division by two, which truncates toward zero. */
  function TruncHalf(k: int): (h: int)
    ensures 0 <= k ==> 0 <= h && 2 * h <= k <= 2 * h + 1
    ensures k < 0 ==> h <= 0 && 2 * h - 1 <= k <= 2 * h
  {
    if k >= 0 then k / 2 else -((-k) / 2)
  }

  /** Truncation keeps the order of its arguments. */
  lemma {:induction false} TruncMonotone(x: real, y: real)
    requires x <= y
    ensures Trunc(x) <= Trunc(y)
  {
    var m, n := Trunc(x), Trunc(y);
    if 0.0 <= x {
      assert m as real <= x <= y < n as real + 1.0;
    } else if y < 0.0 {
      assert m as real - 1.0 < x <= y <= n as real;
    } else {
      assert m <= 0 <= n;
    }
  }

  /** A whole number is its own integer part. */
  lemma TruncOfWhole(k: int)
    ensures Trunc(k as real) == k
  {
  }

  /**
   * Halving before truncating loses at most one unit: for a non-negative `x`,
   * `2 * Int(x / 2)` is `Int(x)` or `Int(x) - 1`.
   */
  lemma {:induction false} TruncOfHalf(x: real)
    requires 0.0 <= x
    ensures 2 * Trunc(x / 2.0) <= Trunc(x) <= 2 * Trunc(x / 2.0) + 1
  {
    var h, n := Trunc(x / 2.0), Trunc(x);
    assert h as real <= x / 2.0 < h as real + 1.0;
    assert 2.0 * h as real <= x < 2.0 * h as real + 2.0;
    assert n as real <= x < n as real + 1.0;
    assert (2 * h) as real < n as real + 1.0;
    assert n as real < (2 * h + 2) as real;
  }

  /** `ceilf(Float(k) / 2.0)` for a whole number `k`, in integer terms. */
  lemma {:induction false} CeilHalfOfWhole(k: int)
    ensures Ceil(k as real / 2.0) == (k + 1) / 2
  {
    var c, q := Ceil(k as real / 2.0), (k + 1) / 2;
    assert k + 1 == 2 * q || k + 1 == 2 * q + 1;
    assert (c as real - 1.0) * 2.0 < k as real <= c as real * 2.0;
    assert 2 * c - 2 < k <= 2 * c;
  }
}
