/**
 * The linear part of CircularTrig: the bridge between the slider's compass
 * frame (0 at north, clockwise) and the cartesian frame of atan2, sin and cos
 * (0 along the x axis), degree/radian conversion, arc-length conversion, the
 * radii of a stroked arc and the frame of a filled circle.
 *
 * atan2, sqrt, sin, cos and round are not modelled: the angle atan2 returns
 * and the points sin/cos produce are parameters of the callers.
 */
module CircularTrig {
  import opened Geometry

  type PositiveReal = r: real | r > 0.0 witness 1.0

  /** M_PI, kept abstract: all the model relies on is that it is positive. */
  const Pi: PositiveReal

  /** toRad: degrees to radians. */
  function ToRad(degrees: real): (radians: real)
    ensures radians / Pi == degrees / 180.0
  {
    (Pi * degrees) / 180.0
  }

  /** toDeg: radians to degrees. */
  function ToDeg(radians: real): (degrees: real)
    ensures degrees / 180.0 == radians / Pi
  {
    (180.0 * radians) / Pi
  }

  /** A multiple of pi in radians is the same multiple of 180 in degrees. */
  lemma ToDegOfMultiple(k: real)
    ensures ToDeg(k * Pi) == 180.0 * k
  {
    var d := ToDeg(k * Pi);
    assert d * Pi == 180.0 * k * Pi;
    assert (d - 180.0 * k) * Pi == 0.0;
  }

  /** Converting to degrees keeps the order of angles. */
  lemma ToDegMonotone(a: real, b: real)
    requires a <= b
    ensures ToDeg(a) <= ToDeg(b)
  {
    var x, y := ToDeg(a), ToDeg(b);
    assert x * Pi == 180.0 * a && y * Pi == 180.0 * b;
    assert (y - x) * Pi >= 0.0;
  }

  /** Converting to degrees keeps strict order too. */
  lemma ToDegStrict(a: real, b: real)
    requires a < b
    ensures ToDeg(a) < ToDeg(b)
  {
    var x, y := ToDeg(a), ToDeg(b);
    assert x * Pi == 180.0 * a && y * Pi == 180.0 * b;
    assert (y - x) * Pi > 0.0;
  }

  lemma DegreesRoundTrip(degrees: real)
    ensures ToDeg(ToRad(degrees)) == degrees
  {
  }

  lemma RadiansRoundTrip(radians: real)
    ensures ToRad(ToDeg(radians)) == radians
  {
  }

  /** cartesianToCompass: a cartesian angle in radians as a compass angle. */
  function CartesianToCompass(radians: real): (compass: real)
    ensures compass - radians == ToRad(90.0)
  {
    radians + (Pi / 2.0)
  }

  /** compassToCartesian: a compass angle in radians as a cartesian angle. */
  function CompassToCartesian(radians: real): (cartesian: real)
    ensures radians - cartesian == ToRad(90.0)
  {
    radians - (Pi / 2.0)
  }

  /** The two frame conversions undo each other, and each is a quarter turn. */
  lemma CompassCartesianRoundTrip(radians: real)
    ensures CompassToCartesian(CartesianToCompass(radians)) == radians
    ensures CartesianToCompass(CompassToCartesian(radians)) == radians
    ensures CartesianToCompass(radians) - radians == ToRad(90.0)
    ensures radians - CompassToCartesian(radians) == ToRad(90.0)
  {
  }

  /**
   * The conversion and wrap step of angleRelativeToNorthFromPoint: the
   * cartesian angle that atan2 returned, as compass radians, with a negative
   * result moved up by a full turn.
   */
  function WrapToCompass(cartesianRadians: real): (compass: real)
    ensures compass == CartesianToCompass(cartesianRadians)
         || compass == CartesianToCompass(cartesianRadians) + 2.0 * Pi
    ensures -(Pi as real) <= cartesianRadians <= Pi ==> 0.0 <= compass < 2.0 * Pi
  {
    var compassRadians := CartesianToCompass(cartesianRadians);
    if compassRadians < 0.0 then compassRadians + (2.0 * Pi) else compassRadians
  }

  /** angleRelativeToNorthFromPoint, given the atan2 result: degrees clockwise from north. */
  function AngleRelativeToNorth(cartesianRadians: real): (degrees: real)
    ensures var compass := ToDeg(CartesianToCompass(cartesianRadians));
            degrees == compass || degrees == compass + 360.0
  {
    ToDegOfMultiple(2.0);
    ToDegAdditive(CartesianToCompass(cartesianRadians), 2.0 * Pi);
    ToDeg(WrapToCompass(cartesianRadians))
  }

  /** Converting to degrees distributes over a sum of angles. */
  lemma ToDegAdditive(a: real, b: real)
    ensures ToDeg(a + b) == ToDeg(a) + ToDeg(b)
  {
  }

  /** For every angle atan2 can return, the angle from north is in [0, 360) degrees. */
  lemma {:induction false} AngleRelativeToNorthRange(cartesianRadians: real)
    requires -(Pi as real) <= cartesianRadians <= Pi
    ensures 0.0 <= AngleRelativeToNorth(cartesianRadians) < 360.0
  {
    var compass := WrapToCompass(cartesianRadians);
    ToDegOfMultiple(0.0);
    ToDegOfMultiple(2.0);
    ToDegMonotone(0.0, compass);
    ToDegStrict(compass, 2.0 * Pi);
  }

  /**
   * The four compass points. In the view's coordinates y grows downwards, so
   * atan2 gives -pi/2 for a point straight above the centre.
   */
  lemma CompassPoints()
    ensures AngleRelativeToNorth(-(Pi as real) / 2.0) == 0.0
    ensures AngleRelativeToNorth(0.0) == 90.0
    ensures AngleRelativeToNorth(Pi / 2.0) == 180.0
    ensures AngleRelativeToNorth(Pi) == 270.0
    ensures AngleRelativeToNorth(-(Pi as real)) == 270.0
  {
    assert WrapToCompass(-(Pi as real) / 2.0) == 0.0 * Pi;
    assert WrapToCompass(0.0) == 0.5 * Pi;
    assert WrapToCompass(Pi / 2.0) == 1.0 * Pi;
    assert WrapToCompass(Pi) == 1.5 * Pi;
    assert WrapToCompass(-(Pi as real)) == 1.5 * Pi;
    ToDegOfMultiple(0.0);
    ToDegOfMultiple(0.5);
    ToDegOfMultiple(1.0);
    ToDegOfMultiple(1.5);
  }

  /** The wrap only adds whole turns: turned back into cartesian radians, the direction is unchanged. */
  lemma WrapKeepsDirection(cartesianRadians: real)
    ensures var back := CompassToCartesian(WrapToCompass(cartesianRadians));
            back == cartesianRadians || back == cartesianRadians + 2.0 * Pi
  {
  }

  /** degreesForArcLength: the share of `degrees` that `arcLength` covers of the whole circumference. */
  function DegreesForArcLength(arcLength: real, radius: real, degrees: real): (d: real)
    requires radius != 0.0
    ensures d * ((2.0 * Pi) * radius) == degrees * arcLength
  {
    var totalCircumference := (2.0 * Pi) * radius;
    var arcRatioToCircumference := arcLength / totalCircumference;
    degrees * arcRatioToCircumference
  }

  /** Half the circumference is half the angle, the whole circumference the whole angle, no arc no angle. */
  lemma ArcLengthLandmarks(radius: real, degrees: real)
    requires radius != 0.0
    ensures DegreesForArcLength(Pi * radius, radius, degrees) == degrees / 2.0
    ensures DegreesForArcLength(2.0 * Pi * radius, radius, degrees) == degrees
    ensures DegreesForArcLength(0.0, radius, degrees) == 0.0
  {
  }

  /** The conversion is linear in the arc length. */
  lemma ArcLengthLinear(a: real, b: real, k: real, radius: real, degrees: real)
    requires radius != 0.0
    ensures DegreesForArcLength(a + b, radius, degrees)
         == DegreesForArcLength(a, radius, degrees) + DegreesForArcLength(b, radius, degrees)
    ensures DegreesForArcLength(k * a, radius, degrees) == k * DegreesForArcLength(a, radius, degrees)
  {
  }

  /** outerRadiuOfUnfilledArcWithRadius: centre to the outside edge of the stroke. */
  function OuterRadius(radius: real, lineWidth: real): (outer: real)
    ensures 0.0 <= lineWidth ==> radius <= outer
    ensures outer - lineWidth == InnerRadius(radius, lineWidth)
  {
    radius + 0.5 * lineWidth
  }

  /** innerRadiusOfUnfilledArcWithRadius: centre to the inside edge of the stroke. */
  function InnerRadius(radius: real, lineWidth: real): (inner: real)
    ensures 0.0 <= lineWidth ==> inner <= radius
  {
    radius - 0.5 * lineWidth
  }

  /** The stroke is `lineWidth` wide and centred on the arc's radius. */
  lemma StrokeRadii(radius: real, lineWidth: real)
    ensures OuterRadius(radius, lineWidth) - InnerRadius(radius, lineWidth) == lineWidth
    ensures (OuterRadius(radius, lineWidth) + InnerRadius(radius, lineWidth)) / 2.0 == radius
    ensures 0.0 <= lineWidth ==> InnerRadius(radius, lineWidth) <= radius <= OuterRadius(radius, lineWidth)
  {
  }

  /** The frame drawFilledCircleInContext fills and returns. */
  function FilledCircleFrame(center: Point, radius: real): (frame: Rect)
    ensures frame.MidX() == center.x && frame.MidY() == center.y
    ensures frame.size.width == frame.size.height
    ensures frame.size.width / 2.0 == radius
  {
    Rect(Point(center.x - radius, center.y - radius), Size(2.0 * radius, 2.0 * radius))
  }
}
