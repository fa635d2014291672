/**
 * The derived geometry of CircularSlider: the handle size for each handle
 * type, the radius that fits the control's bounds, the intrinsic content size,
 * the touch tests, and where each inner marking label goes and how the view is
 * turned for a partial circle.
 *
 * Every point that the control obtains from sin/cos (the handle centre, a
 * label's anchor on the circle, a label's inward offset) is a parameter here.
 */
module SliderLayout {
  import opened Geometry
  import CircularTrig

  datatype HandleType =
    | SemiTransparentWhiteSmallCircle
    | SemiTransparentWhiteCircle
    | SemiTransparentBlackCircle
    | BigCircle

  /** handleWidth: the diameter of the handle, from the stroke width (Int arithmetic). */
  function HandleWidth(handleType: HandleType, lineWidth: int): (width: real)
    ensures width == width.Floor as real
    ensures 0 <= lineWidth ==> 0.0 <= width <= (lineWidth + 5) as real
  {
    match handleType
    case SemiTransparentWhiteSmallCircle => TruncHalf(lineWidth) as real
    case SemiTransparentWhiteCircle => lineWidth as real
    case SemiTransparentBlackCircle => lineWidth as real
    case BigCircle => (lineWidth + 5) as real
  }

  /**
   * How the four handle types relate: the small circle is half the stroke
   * (rounded down), the two semi-transparent circles are the stroke, and the
   * big circle is five points more.
   */
  lemma HandleWidthTable(lineWidth: int)
    requires 0 <= lineWidth
    ensures var small := HandleWidth(SemiTransparentWhiteSmallCircle, lineWidth);
            2.0 * small == lineWidth as real || 2.0 * small == (lineWidth - 1) as real
    ensures HandleWidth(SemiTransparentWhiteCircle, lineWidth) == lineWidth as real
    ensures HandleWidth(SemiTransparentBlackCircle, lineWidth) == lineWidth as real
    ensures HandleWidth(BigCircle, lineWidth) == HandleWidth(SemiTransparentWhiteCircle, lineWidth) + 5.0
    ensures HandleWidth(SemiTransparentWhiteSmallCircle, lineWidth) <= HandleWidth(SemiTransparentWhiteCircle, lineWidth)
  {
  }

  /** With a ten-point stroke the four handles are 5, 10, 10 and 15 points wide. */
  lemma HandleWidthForTenPointStroke()
    ensures HandleWidth(SemiTransparentWhiteSmallCircle, 10) == 5.0
    ensures HandleWidth(SemiTransparentWhiteCircle, 10) == 10.0
    ensures HandleWidth(SemiTransparentBlackCircle, 10) == 10.0
    ensures HandleWidth(BigCircle, 10) == 15.0
  {
  }

  /** The frame drawHandle fills: a circle of the handle's width centred on the handle centre. */
  function HandleFrame(handleCenter: Point, handleWidth: real): (frame: Rect)
    ensures frame.MidX() == handleCenter.x && frame.MidY() == handleCenter.y
    ensures frame.size == Size(handleWidth, handleWidth)
  {
    CircularTrig.FilledCircleFrame(handleCenter, 0.5 * handleWidth)
  }

  /** The larger of the two rounded-up half widths (stroke and handle) that the control must leave around its circle. */
  function HalfMargin(lineWidth: int, handleWidth: real): (m: int)
    ensures lineWidth as real / 2.0 <= m as real && handleWidth / 2.0 <= m as real
    ensures m as real < Max(lineWidth as real / 2.0, handleWidth / 2.0) + 1.0
    ensures (lineWidth + 1) / 2 <= m
  {
    CeilHalfOfWhole(lineWidth);
    var halfLineWidth := Ceil(lineWidth as real / 2.0);
    var halfHandleWidth := Ceil(handleWidth / 2.0);
    MaxInt(halfHandleWidth, halfLineWidth)
  }

  /**
   * computedRadius. The private `radius` is -1 unless configured; then the
   * radius is derived from the smaller side of the bounds so that neither the
   * stroke nor the handle is clipped, wasting less than one point.
   */
  function ComputedRadius(radius: real, boundsWidth: real, boundsHeight: real, lineWidth: int, handleWidth: real): (r: real)
    ensures radius != -1.0 ==> r == radius
    ensures radius == -1.0 ==>
              var half := Min(boundsWidth, boundsHeight) / 2.0;
              && r + lineWidth as real / 2.0 <= half
              && r + handleWidth / 2.0 <= half
              && half < r + Max(lineWidth as real / 2.0, handleWidth / 2.0) + 1.0
  {
    if radius == -1.0 then
      var minimumDimension := Min(boundsHeight, boundsWidth);
      minimumDimension * 0.5 - HalfMargin(lineWidth, handleWidth) as real
    else
      radius
  }

  /** intrinsicContentSize: a square that holds the circle of `radius` plus the margin for stroke and handle on each side. */
  function IntrinsicContentSize(radius: real, lineWidth: int, handleWidth: real): (size: Size)
    ensures size.width == size.height
    ensures 2.0 * radius + lineWidth as real <= size.width
    ensures 2.0 * radius + handleWidth <= size.width
    ensures size.width < 2.0 * radius + Max(lineWidth as real, handleWidth) + 2.0
  {
    var diameter := radius * 2.0;
    var widthWithHandle := diameter + (2 * HalfMargin(lineWidth, handleWidth)) as real;
    Size(widthWithHandle, widthWithHandle)
  }

  /**
   * The two sizings agree: in a square frame of the intrinsic content size,
   * the radius derived from the frame is the radius the size was made for.
   */
  lemma IntrinsicSizeFitsComputedRadius(radius: real, lineWidth: int, handleWidth: real)
    ensures var side := IntrinsicContentSize(radius, lineWidth, handleWidth).width;
            ComputedRadius(-1.0, side, side, lineWidth, handleWidth) == radius
  {
  }

  /**
   * pointInsideHandle: an inclusive square around the handle centre whose half
   * side is half the handle width, but never less than 22 points (a 44-point
   * touch target).
   */
  function PointInsideHandle(point: Point, handleCenter: Point, handleWidth: real): (inside: bool)
    ensures inside <==> Max(Abs(point.x - handleCenter.x), Abs(point.y - handleCenter.y)) <= Max(handleWidth, 44.0) / 2.0
  {
    var handleRadius := Max(handleWidth, 44.0) * 0.5;
    var insideHorizontal := point.x >= handleCenter.x - handleRadius && point.x <= handleCenter.x + handleRadius;
    var insideVertical := point.y >= handleCenter.y - handleRadius && point.y <= handleCenter.y + handleRadius;
    insideHorizontal && insideVertical
  }

  /** The handle centre is a hit, and so is every point within 22 points of it on both axes, however small the handle. */
  lemma HandleTouchTarget(point: Point, handleCenter: Point, handleWidth: real)
    ensures PointInsideHandle(handleCenter, handleCenter, handleWidth)
    ensures Abs(point.x - handleCenter.x) <= 22.0 && Abs(point.y - handleCenter.y) <= 22.0
            ==> PointInsideHandle(point, handleCenter, handleWidth)
  {
  }

  /** A wider handle never loses a hit. */
  lemma {:induction false} HandleHitMonotone(point: Point, handleCenter: Point, w1: real, w2: real)
    requires w1 <= w2
    ensures PointInsideHandle(point, handleCenter, w1) ==> PointInsideHandle(point, handleCenter, w2)
  {
    assert Max(w1, 44.0) <= Max(w2, 44.0);
  }

  /**
   * pointInsideCircle: the distance from the centre is below the outer edge
   * of the stroke, `computedRadius + lineWidth / 2`. The source compares a
   * square root with that bound; the square root is never negative, so the
   * same test is written on squared distances.
   */
  function PointInsideCircle(point: Point, center: Point, computedRadius: real, lineWidth: int): (inside: bool)
    ensures inside ==> Abs(point.x - center.x) < CircularTrig.OuterRadius(computedRadius, lineWidth as real)
    ensures inside ==> Abs(point.y - center.y) < CircularTrig.OuterRadius(computedRadius, lineWidth as real)
    ensures Abs(point.x - center.x) + Abs(point.y - center.y) < CircularTrig.OuterRadius(computedRadius, lineWidth as real)
            ==> inside
  {
    var bound := computedRadius + lineWidth as real * 0.5;
    SquareBelow(point.x - center.x, point.y - center.y, bound);
    SumBelow(point.x - center.x, point.y - center.y, bound);
    0.0 < bound && SquaredDistance(point, center) < Square(bound)
  }

  function Square(x: real): real
  {
    x * x
  }

  lemma SquarePositive(x: real)
    requires 0.0 < x
    ensures 0.0 < Square(x)
  {
    calc {
      Square(x);
    ==
      x * x;
    >  { MulStrict(0.0, x, x); }
      0.0;
    }
  }

  /** A square of a smaller non-negative number is smaller. */
  lemma {:induction false} SquareIncreasing(s: real, bound: real)
    requires 0.0 <= s < bound
    ensures Square(s) < Square(bound)
  {
    calc {
      Square(s);
    ==
      s * s;
    <=  { MulMonotone(s, bound, s); }
      bound * s;
    ==
      bound * bound - (bound - s) * bound;
    <  { MulStrict(0.0, bound - s, bound); }
      bound * bound;
    ==
      Square(bound);
    }
  }

  /**
   * Every point whose axis distances add up to less than `bound` lies strictly
   * inside the disk of radius `bound` (the diamond is inscribed in the disk).
   */
  lemma {:induction false} SumBelow(dx: real, dy: real, bound: real)
    ensures Abs(dx) + Abs(dy) < bound ==> 0.0 < bound && dx * dx + dy * dy < Square(bound)
  {
    if Abs(dx) + Abs(dy) < bound {
      var a, b := Abs(dx), Abs(dy);
      assert a * a == dx * dx && b * b == dy * dy;
      assert 0.0 <= a * b by { MulMonotone(0.0, a, b); }
      assert Square(a + b) == a * a + 2.0 * (a * b) + b * b;
      SquareIncreasing(a + b, bound);
    }
  }

  function SquaredDistance(p: Point, q: Point): (d: real)
    ensures p == q ==> d == 0.0
  {
    (p.x - q.x) * (p.x - q.x) + (p.y - q.y) * (p.y - q.y)
  }

  /** The control's centre is inside exactly when the outer edge of the stroke has a positive radius. */
  lemma {:induction false} CentreInsideCircle(center: Point, computedRadius: real, lineWidth: int)
    ensures PointInsideCircle(center, center, computedRadius, lineWidth)
            <==> 0.0 < CircularTrig.OuterRadius(computedRadius, lineWidth as real)
  {
    var bound := computedRadius + lineWidth as real * 0.5;
    if 0.0 < bound {
      SquarePositive(bound);
    }
    assert SquaredDistance(center, center) == 0.0;
  }

  /** Each coordinate of a point strictly inside a disk of radius `bound` is within `bound`. */
  lemma {:induction false} SquareBelow(dx: real, dy: real, bound: real)
    ensures 0.0 < bound && dx * dx + dy * dy < bound * bound ==> Abs(dx) < bound && Abs(dy) < bound
  {
    if 0.0 < bound && dx * dx + dy * dy < bound * bound {
      CoordinateBelow(dx, dy, bound);
      CoordinateBelow(dy, dx, bound);
    }
  }

  lemma {:induction false} CoordinateBelow(d: real, e: real, bound: real)
    requires 0.0 < bound && d * d + e * e < bound * bound
    ensures Abs(d) < bound
  {
    var a := Abs(d);
    assert a * a == d * d;
    assert 0.0 <= e * e;
    if bound <= a {
      assert false;
    }
  }

  /** pointInside (after its event guard): on the handle, or else inside the circle. */
  function PointInside(point: Point, handleCenter: Point, handleWidth: real,
                       center: Point, computedRadius: real, lineWidth: int): (inside: bool)
    ensures PointInsideHandle(point, handleCenter, handleWidth) ==> inside
    ensures !inside ==> !PointInsideCircle(point, center, computedRadius, lineWidth)
    ensures inside ==> PointInsideHandle(point, handleCenter, handleWidth)
                       || PointInsideCircle(point, center, computedRadius, lineWidth)
  {
    if PointInsideHandle(point, handleCenter, handleWidth) then true
    else PointInsideCircle(point, center, computedRadius, lineWidth)
  }

  /**
   * innerLabelRadialDistanceFromCircumference: how far labels move from the
   * circumference, negative meaning toward the centre. It reads the private
   * `radius`, not computedRadius.
   */
  function InnerLabelRadialDistance(radius: real, lineWidth: int, fontPointSize: real): (d: real)
    ensures 0 <= lineWidth && 0.0 <= fontPointSize ==> d <= -0.1 * radius
    ensures 0.0 <= radius && 0 <= lineWidth && 0.0 <= fontPointSize && (1 <= lineWidth || 0.0 < fontPointSize) ==> d < 0.0
  {
    var distanceToMoveInwards := 0.1 * -radius - 0.5 * lineWidth as real;
    distanceToMoveInwards - 0.5 * fontPointSize
  }

  /**
   * A thicker stroke or a larger font pushes labels further in, by half the
   * increase; with the private radius at -1 and a stroke of at least one
   * point, labels always move toward the centre.
   */
  lemma LabelRadialDistanceMovesInward(radius: real, lineWidth: int, fontPointSize: real, moreWidth: nat, morePoints: real)
    requires 0.0 <= morePoints
    ensures InnerLabelRadialDistance(radius, lineWidth + moreWidth, fontPointSize + morePoints)
         == InnerLabelRadialDistance(radius, lineWidth, fontPointSize) - 0.5 * (moreWidth as real + morePoints)
    ensures 1 <= lineWidth && 0.0 <= fontPointSize ==> InnerLabelRadialDistance(-1.0, lineWidth, fontPointSize) < 0.0
  {
  }

  /** The distance along the radius used for a label's inward offset: the above plus labelDisplacement. */
  function LabelRadialDistance(radius: real, lineWidth: int, fontPointSize: real, labelDisplacement: real): (d: real)
    ensures labelDisplacement < 0.0 <==> d < InnerLabelRadialDistance(radius, lineWidth, fontPointSize)
    ensures labelDisplacement > 0.0 <==> d > InnerLabelRadialDistance(radius, lineWidth, fontPointSize)
    ensures Abs(d - InnerLabelRadialDistance(radius, lineWidth, fontPointSize)) == Abs(labelDisplacement)
  {
    InnerLabelRadialDistance(radius, lineWidth, fontPointSize) + labelDisplacement
  }

  /**
   * degreesFromNorthForLabel: label `index` of `count` lies that fraction of
   * `count - 1` along the arc. With a single label the source divides by zero
   * and the conversion that follows traps; that is None here.
   */
  function LabelDegrees(index: nat, count: nat, maximumAngle: real): (degrees: Option<real>)
    requires index < count
    ensures degrees.Some? <==> 2 <= count
    ensures degrees.Some? ==> degrees.value == index as real * maximumAngle / (count - 1) as real
  {
    if count < 2 then None
    else
      var percentageAlongCircle := ((100.0 / (count - 1) as real) * index as real) / 100.0;
      Some(percentageAlongCircle * maximumAngle)
  }

  datatype Option<T> = None | Some(value: T)

  /** The whole-degree angle at which the label is anchored on the circle (its `Int(...)` conversion). */
  function LabelAnchorAngle(index: nat, count: nat, maximumAngle: real): (anchor: Option<int>)
    requires index < count
    ensures anchor.Some? <==> 2 <= count
    ensures anchor.Some? && 0.0 <= maximumAngle ==>
              var exact := index as real * maximumAngle / (count - 1) as real;
              0 <= anchor.value && anchor.value as real <= exact < anchor.value as real + 1.0
  {
    NonNegativeProduct(index as real, maximumAngle);
    match LabelDegrees(index, count, maximumAngle)
    case None => None
    case Some(d) => Some(Trunc(d))
  }

  /** Labels are spread over the whole arc: the first sits at north and the last at the end of the arc. */
  lemma LabelAnchorEnds(count: nat, maximumAngle: real)
    requires 2 <= count
    ensures LabelAnchorAngle(0, count, maximumAngle) == Some(0)
    ensures LabelAnchorAngle(count - 1, count, maximumAngle) == Some(Trunc(maximumAngle))
  {
    var n := (count - 1) as real;
    assert LabelDegrees(0, count, maximumAngle) == Some(0.0);
    var last := LabelDegrees(count - 1, count, maximumAngle);
    assert last.value == n * maximumAngle / n;
    MulDivCancel(maximumAngle, n);
    assert last == Some(maximumAngle);
    TruncOfWhole(0);
  }

  /**
   * On a full circle the first and the last label are anchored at the same
   * compass point, north: 0 and 360 degrees.
   */
  lemma {:induction false} FullCircleLabelsMeetAtNorth(count: nat)
    requires 2 <= count
    ensures LabelAnchorAngle(0, count, 360.0) == Some(0)
    ensures LabelAnchorAngle(count - 1, count, 360.0) == Some(360)
    ensures LabelAnchorAngle(count - 1, count, 360.0).value % 360 == LabelAnchorAngle(0, count, 360.0).value % 360
  {
    LabelAnchorEnds(count, 360.0);
    TruncOfWhole(360);
  }

  /** On a non-negative arc a later label is never anchored before an earlier one. */
  lemma {:induction false} LabelAnchorMonotone(i: nat, j: nat, count: nat, maximumAngle: real)
    requires 2 <= count && i <= j < count && 0.0 <= maximumAngle
    ensures LabelAnchorAngle(i, count, maximumAngle).value <= LabelAnchorAngle(j, count, maximumAngle).value
  {
    var n := (count - 1) as real;
    var a, b := i as real * maximumAngle, j as real * maximumAngle;
    assert a <= b by { MulMonotone(i as real, j as real, maximumAngle); }
    assert a / n <= b / n;
    TruncMonotone(a / n, b / n);
  }

  /** Six labels on a 270-degree arc are anchored every 54 degrees. */
  lemma SixLabelsOnPartialCircle()
    ensures LabelAnchorAngle(0, 6, 270.0) == Some(0)
    ensures LabelAnchorAngle(1, 6, 270.0) == Some(54)
    ensures LabelAnchorAngle(2, 6, 270.0) == Some(108)
    ensures LabelAnchorAngle(3, 6, 270.0) == Some(162)
    ensures LabelAnchorAngle(4, 6, 270.0) == Some(216)
    ensures LabelAnchorAngle(5, 6, 270.0) == Some(270)
  {
    TruncOfWhole(54);
    TruncOfWhole(108);
    TruncOfWhole(162);
    TruncOfWhole(216);
    TruncOfWhole(270);
  }

  /** offsetFromCircleForLabelAtIndex: from the anchor to the label frame's origin, given the inward offset point. */
  function LabelOffset(labelSize: Size, inwardOffset: Point): (offset: Point)
    ensures offset.x + labelSize.width / 2.0 == inwardOffset.x
    ensures offset.y + labelSize.height / 2.0 == inwardOffset.y
  {
    Point(-labelSize.width * 0.5 + inwardOffset.x, -labelSize.height * 0.5 + inwardOffset.y)
  }

  /**
   * contextCoordinatesForLabelAtIndex, given the anchor on the circle and the
   * inward offset: a frame of the label's own size, centred on the anchor
   * moved by the inward offset.
   */
  function LabelFrame(anchor: Point, inwardOffset: Point, labelSize: Size): (frame: Rect)
    ensures frame.size == labelSize
    ensures frame.MidX() == anchor.x + inwardOffset.x
    ensures frame.MidY() == anchor.y + inwardOffset.y
  {
    var offsetFromCircle := LabelOffset(labelSize, inwardOffset);
    Rect(Point(anchor.x + offsetFromCircle.x, anchor.y + offsetFromCircle.y), labelSize)
  }

  /**
   * The angle of getRotationalTransform, in radians: none for a full circle,
   * otherwise back by half the arc so that the gap is centred at the bottom.
   */
  function RotationAngle(maximumAngle: real): (radians: real)
    ensures 0.0 <= maximumAngle <= 360.0 ==> -(CircularTrig.Pi as real) <= radians <= 0.0
  {
    if maximumAngle == 360.0 then 0.0
    else
      var radians := (-(maximumAngle / 2.0)) / 180.0 * CircularTrig.Pi;
      RotationBounded(maximumAngle);
      radians
  }

  lemma {:induction false} RotationBounded(maximumAngle: real)
    ensures 0.0 <= maximumAngle <= 360.0 ==>
              -(CircularTrig.Pi as real) <= (-(maximumAngle / 2.0)) / 180.0 * CircularTrig.Pi <= 0.0
  {
    if 0.0 <= maximumAngle <= 360.0 {
      var f := maximumAngle / 360.0;
      var pi := CircularTrig.Pi as real;
      calc {
        (-(maximumAngle / 2.0)) / 180.0 * pi;
      ==
        -(f * pi);
      <=  { MulMonotone(0.0, f, pi); }
        0.0;
      }
      calc {
        (-(maximumAngle / 2.0)) / 180.0 * pi;
      ==
        -(f * pi);
      >=  { MulMonotone(f, 1.0, pi); }
        -pi;
      }
    }
  }

  /**
   * A partial arc is turned back by half its angle, which puts its two ends
   * symmetrically about north; the full circle is not turned at all.
   */
  lemma RotationCentresArc(maximumAngle: real)
    ensures maximumAngle == 360.0 ==> RotationAngle(maximumAngle) == 0.0
    ensures maximumAngle != 360.0 ==> RotationAngle(maximumAngle) == -CircularTrig.ToRad(maximumAngle / 2.0)
    ensures maximumAngle != 360.0 ==>
              CircularTrig.ToRad(0.0) + RotationAngle(maximumAngle)
              == -(CircularTrig.ToRad(maximumAngle) + RotationAngle(maximumAngle))
  {
  }
}
