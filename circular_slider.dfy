/**
 * The CircularSlider control's state: its configuration, the angle of the
 * handle measured clockwise from north in whole degrees (the only state a
 * drag changes), and the value-changed events it sends.
 *
 * The current value is never stored: the setter turns it into an angle and
 * the getter turns the angle back. Both divide by the span of the value range
 * but neither adds or subtracts minimumValue, exactly as the control does.
 *
 * Where a debug build of the control would stop (a failed `assert`, or
 * `Int(...)` of a value that is not finite), the model returns a Failure and
 * changes nothing. An optimised build skips the assertions; that behaviour is
 * not modelled.
 */
module Slider {
  import opened Geometry
  import SliderLayout
  import CircularTrig

  /** Why the control would stop instead of completing an update. */
  datatype Fault =
    | OutOfRange       // the new currentValue lies outside [minimumValue, maximumValue]
    | EmptyValueRange  // maximumValue == minimumValue, so the setter divides by zero
    | NegativeAngle    // angleFromNorth would become negative

  datatype Result<T> = Success(value: T) | Failure(fault: Fault)

  /** The check every assignment to angleFromNorth goes through (its didSet assertion). */
  function CheckedAngle(angle: int): (r: Result<int>)
    ensures r.Success? <==> 0 <= angle
    ensures r.Success? ==> r.value == angle
    ensures r.Failure? ==> r.fault == NegativeAngle
  {
    if 0 <= angle then Success(angle) else Failure(NegativeAngle)
  }

  /** What the maximumAngle property keeps of an assignment: angles above 360 become 360. */
  function ClampMaximumAngle(angle: real): (stored: real)
    ensures stored <= 360.0
    ensures stored == angle <==> angle <= 360.0
    ensures stored != angle ==> stored == 360.0
  {
    if angle > 360.0 then 360.0 else angle
  }

  /** Clamping again changes nothing. */
  lemma ClampIdempotent(angle: real)
    ensures ClampMaximumAngle(ClampMaximumAngle(angle)) == ClampMaximumAngle(angle)
  {
  }

  /** The angle the currentValue setter computes before `Int(...)`. */
  function AngleForValue(value: real, minimumValue: real, maximumValue: real, maximumAngle: real): (angle: real)
    requires minimumValue != maximumValue
    ensures angle * (maximumValue - minimumValue) == value * maximumAngle
  {
    (value * maximumAngle) / (maximumValue - minimumValue)
  }

  /** The currentValue getter, for a given angle. */
  function ValueForAngle(angle: int, minimumValue: real, maximumValue: real, maximumAngle: real): (value: real)
    requires maximumAngle != 0.0
    ensures value * maximumAngle == angle as real * (maximumValue - minimumValue)
  {
    (angle as real * (maximumValue - minimumValue)) / maximumAngle
  }

  /**
   * The currentValue setter: the angle it stores, or why it stops. It is
   * accepted exactly when the value is in range, the range is not empty and
   * the computed angle truncates to a non-negative whole number; the stored
   * angle is then the whole part of the computed angle.
   */
  function SetValueOutcome(value: real, minimumValue: real, maximumValue: real, maximumAngle: real): (r: Result<int>)
    ensures r.Success? <==>
              && minimumValue <= value <= maximumValue
              && minimumValue < maximumValue
              && -1.0 < AngleForValue(value, minimumValue, maximumValue, maximumAngle)
    ensures r.Success? ==>
              var exact := AngleForValue(value, minimumValue, maximumValue, maximumAngle);
              0 <= r.value && r.value as real <= Max(exact, 0.0) < r.value as real + 1.0
    ensures !(minimumValue <= value <= maximumValue) ==> r == Failure(OutOfRange)
  {
    if !(value <= maximumValue && value >= minimumValue) then Failure(OutOfRange)
    else if maximumValue - minimumValue == 0.0 then Failure(EmptyValueRange)
    else CheckedAngle(Trunc(AngleForValue(value, minimumValue, maximumValue, maximumAngle)))
  }

  /** Scaling by `m / d` and then by `d / m` gives back what you started with. */
  lemma ScaleBack(x: real, m: real, d: real)
    requires m != 0.0 && d != 0.0
    ensures (x * d / m) * m / d == x
    ensures (x * m / d) * d / m == x
  {
  }

  /**
   * Reading currentValue back after setting it to a non-negative value gives
   * that value, or less by under one degree's worth of value (the angle was
   * truncated to whole degrees).
   */
  lemma {:induction false} ValueRoundTrip(value: real, minimumValue: real, maximumValue: real, maximumAngle: real)
    requires minimumValue < maximumValue && 0.0 < maximumAngle && 0.0 <= value
    ensures var stored := Trunc(AngleForValue(value, minimumValue, maximumValue, maximumAngle));
            var back := ValueForAngle(stored, minimumValue, maximumValue, maximumAngle);
            value - (maximumValue - minimumValue) / maximumAngle < back <= value
  {
    var span := maximumValue - minimumValue;
    var exact := AngleForValue(value, minimumValue, maximumValue, maximumAngle);
    var stored := Trunc(exact);
    var k := span / maximumAngle;
    assert 0.0 < k;
    assert 0.0 <= exact by {
      MulMonotone(0.0, value, maximumAngle);
    }
    assert stored as real <= exact < stored as real + 1.0;
    var back := ValueForAngle(stored, minimumValue, maximumValue, maximumAngle);
    assert back == stored as real * k;
    assert exact * k == value by {
      ScaleBack(value, maximumAngle, span);
    }
    assert back <= value by {
      MulMonotone(stored as real, exact, k);
    }
    assert value - k < back by {
      MulStrict(exact, stored as real + 1.0, k);
      assert (stored as real + 1.0) * k == stored as real * k + k;
    }
  }

  /**
   * With minimumValue at zero, every value in range is stored as an angle on
   * the arc, between north and the arc's end.
   */
  lemma {:induction false} StoredAngleOnArc(value: real, maximumValue: real, maximumAngle: real)
    requires 0.0 < maximumValue && 0.0 < maximumAngle && 0.0 <= value <= maximumValue
    ensures SetValueOutcome(value, 0.0, maximumValue, maximumAngle).Success?
    ensures 0 <= SetValueOutcome(value, 0.0, maximumValue, maximumAngle).value <= Trunc(maximumAngle)
  {
    var exact := AngleForValue(value, 0.0, maximumValue, maximumAngle);
    assert 0.0 <= exact by {
      MulMonotone(0.0, value, maximumAngle);
    }
    assert exact <= maximumAngle by {
      MulMonotone(value, maximumValue, maximumAngle);
      DivMonotone(value * maximumAngle, maximumValue * maximumAngle, maximumValue);
      calc {
        maximumValue * maximumAngle / maximumValue;
      ==
        maximumAngle;
      }
    }
    TruncMonotone(exact, maximumAngle);
  }

  /**
   * The value and angle formulas undo each other on whole degrees: the angle
   * computed for the value that an angle reads as is that angle again. This
   * is about the formulas only; whether the setter accepts the value is the
   * business of `SetterAcceptsValueRead`.
   */
  lemma {:induction false} AngleRoundTrip(angle: int, minimumValue: real, maximumValue: real, maximumAngle: real)
    requires minimumValue != maximumValue && maximumAngle != 0.0
    ensures Trunc(AngleForValue(ValueForAngle(angle, minimumValue, maximumValue, maximumAngle),
                                minimumValue, maximumValue, maximumAngle)) == angle
  {
    var span := maximumValue - minimumValue;
    var value := ValueForAngle(angle, minimumValue, maximumValue, maximumAngle);
    calc {
      AngleForValue(value, minimumValue, maximumValue, maximumAngle);
    ==
      (value * maximumAngle) / span;
    ==
      ((angle as real * span) / maximumAngle * maximumAngle) / span;
    ==  { ScaleBack(angle as real, maximumAngle, span); }
      angle as real;
    }
    TruncOfWhole(angle);
  }

  /**
   * With minimumValue at zero, setting currentValue to what it reads, for any
   * angle on the arc, is accepted and stores the same angle again.
   */
  lemma {:induction false} SetterAcceptsValueRead(angle: int, maximumValue: real, maximumAngle: real)
    requires 0.0 < maximumValue && 0.0 < maximumAngle && 0 <= angle <= Trunc(maximumAngle)
    ensures SetValueOutcome(ValueForAngle(angle, 0.0, maximumValue, maximumAngle), 0.0, maximumValue, maximumAngle)
            == Success(angle)
  {
    var value := ValueForAngle(angle, 0.0, maximumValue, maximumAngle);
    assert 0.0 <= value by {
      NonNegativeProduct(angle as real, maximumValue);
      NonNegativeQuotient(angle as real * maximumValue, maximumAngle);
    }
    assert value <= maximumValue by {
      assert angle as real <= maximumAngle;
      MulMonotone(angle as real, maximumAngle, maximumValue);
      DivMonotone(angle as real * maximumValue, maximumAngle * maximumValue, maximumAngle);
      MulDivCancel(maximumValue, maximumAngle);
    }
    AngleRoundTrip(angle, 0.0, maximumValue, maximumAngle);
  }

  /**
   * With a positive minimumValue the setter refuses what the getter reads:
   * angle 36 on 50..100 over a full circle reads as 5, which is out of range.
   */
  lemma ReadBackRefusedAbovePositiveMinimum()
    ensures ValueForAngle(36, 50.0, 100.0, 360.0) == 5.0
    ensures SetValueOutcome(ValueForAngle(36, 50.0, 100.0, 360.0), 50.0, 100.0, 360.0) == Failure(OutOfRange)
  {
  }

  /** The examples of the demo screens: value 10 of 0..100 is 36 degrees on a full circle, 27 on a 270-degree arc. */
  lemma SetValueExamples()
    ensures SetValueOutcome(10.0, 0.0, 100.0, 360.0) == Success(36)
    ensures ValueForAngle(36, 0.0, 100.0, 360.0) == 10.0
    ensures SetValueOutcome(10.0, 0.0, 100.0, 270.0) == Success(27)
    ensures ValueForAngle(27, 0.0, 100.0, 270.0) == 10.0
  {
    TruncOfWhole(36);
    TruncOfWhole(27);
  }

  /**
   * minimumValue is not an offset: on 50..100 the value 100 is stored as 720
   * degrees, beyond a full circle, and on -100..100 the in-range value -50
   * gives a negative angle, which the control refuses.
   */
  lemma MinimumValueIsNotAnOffset()
    ensures SetValueOutcome(100.0, 50.0, 100.0, 360.0) == Success(720)
    ensures SetValueOutcome(-50.0, -100.0, 100.0, 360.0) == Failure(NegativeAngle)
  {
    TruncOfWhole(720);
    TruncOfWhole(-90);
  }

  /**
   * The angle moveHandle leaves: a drag inside the arc sets the angle (whole
   * degrees); a drag past the end snaps to whichever end the handle was
   * nearer to, judged against the whole-degree midpoint, and leaves the angle
   * alone when it sits exactly on the midpoint.
   */
  function MoveHandleAngle(previous: int, newAngleFromNorth: real, maximumAngle: real): (angle: int)
    ensures 0.0 <= newAngleFromNorth <= maximumAngle ==>
              angle as real <= newAngleFromNorth < angle as real + 1.0
    ensures maximumAngle < newAngleFromNorth ==>
              angle == 0 || angle == Trunc(maximumAngle) || angle == previous
    ensures maximumAngle < newAngleFromNorth && previous != Trunc(maximumAngle / 2.0) ==>
              angle == 0 || angle == Trunc(maximumAngle)
    ensures maximumAngle < newAngleFromNorth && previous == Trunc(maximumAngle / 2.0) ==>
              angle == previous
  {
    if newAngleFromNorth > maximumAngle then
      if previous < Trunc(maximumAngle / 2.0) then 0
      else if previous > Trunc(maximumAngle / 2.0) then Trunc(maximumAngle)
      else previous
    else
      Trunc(newAngleFromNorth)
  }

  /** On a 270-degree arc: a drag to 300 from 50 snaps to 0, from 250 to 270, and from the midpoint 135 stays. */
  lemma MoveHandleExamples()
    ensures MoveHandleAngle(50, 300.0, 270.0) == 0
    ensures MoveHandleAngle(250, 300.0, 270.0) == 270
    ensures MoveHandleAngle(135, 300.0, 270.0) == 135
    ensures MoveHandleAngle(50, 100.0, 270.0) == 100
  {
    TruncOfWhole(135);
    TruncOfWhole(270);
    TruncOfWhole(100);
  }

  /** A handle on the arc stays on the arc, whatever non-negative angle the drag reports. */
  lemma {:induction false} MoveHandleStaysOnArc(previous: int, newAngleFromNorth: real, maximumAngle: real)
    requires 0 <= previous <= Trunc(maximumAngle) && 0.0 <= newAngleFromNorth
    ensures 0 <= MoveHandleAngle(previous, newAngleFromNorth, maximumAngle) <= Trunc(maximumAngle)
  {
    if newAngleFromNorth <= maximumAngle {
      TruncMonotone(newAngleFromNorth, maximumAngle);
    }
  }

  /** From a non-negative angle on a non-negative arc, a drag to any angle above -1 never produces a negative angle. */
  lemma {:induction false} MoveHandleNeverNegative(previous: int, newAngleFromNorth: real, maximumAngle: real)
    requires 0 <= previous && 0.0 <= maximumAngle && -1.0 < newAngleFromNorth
    ensures 0 <= MoveHandleAngle(previous, newAngleFromNorth, maximumAngle)
  {
    TruncMonotone(0.0, maximumAngle);
  }

  /**
   * A drag past the end of the arc, from anywhere but the midpoint, lands on
   * the end of the arc that is nearer to where the handle was.
   */
  lemma {:induction false} MoveHandleSnapsToNearerEnd(previous: int, newAngleFromNorth: real, maximumAngle: real)
    requires 0 <= previous && 0.0 <= maximumAngle && maximumAngle < newAngleFromNorth
    requires previous != Trunc(maximumAngle / 2.0)
    ensures var snapped := MoveHandleAngle(previous, newAngleFromNorth, maximumAngle);
            var end := Trunc(maximumAngle);
            && (snapped == 0 || snapped == end)
            && Abs((snapped - previous) as real) <= Abs((0 - previous) as real)
            && Abs((snapped - previous) as real) <= Abs((end - previous) as real)
  {
    TruncOfHalf(maximumAngle);
  }

  /**
   * A drag seen by continueTrackingWithTouch: the angle atan2 gives for the
   * touch, turned into compass degrees and floored, keeps a handle that was on
   * the arc on the arc.
   */
  lemma {:induction false} TrackingStaysOnArc(previous: int, cartesianRadians: real, maximumAngle: real)
    requires -(CircularTrig.Pi as real) <= cartesianRadians <= CircularTrig.Pi
    requires 0 <= previous <= Trunc(maximumAngle)
    ensures var lastAngle := CircularTrig.AngleRelativeToNorth(cartesianRadians).Floor as real;
            0 <= MoveHandleAngle(previous, lastAngle, maximumAngle) <= Trunc(maximumAngle)
  {
    var degrees := CircularTrig.AngleRelativeToNorth(cartesianRadians);
    CircularTrig.AngleRelativeToNorthRange(cartesianRadians);
    MoveHandleStaysOnArc(previous, degrees.Floor as real, maximumAngle);
  }

  class CircularSlider {
    var minimumValue: real
    var maximumValue: real
    var maximumAngle: real
    var lineWidth: int
    var handleType: SliderLayout.HandleType
    var snapToLabels: bool
    var innerMarkingLabels: SliderLayout.Option<seq<string>>
    var labelDisplacement: real
    /** The point size of labelFont; the font itself is not modelled. */
    var labelFontSize: real
    var boundsWidth: real
    var boundsHeight: real
    /** The handle's position, whole degrees clockwise from north. */
    var angleFromNorth: int
    /** The private radius: nothing in the control assigns it, so it keeps -1, "derive from the bounds". */
    const radius: real := -1.0
    /** How many value-changed events the control has sent. */
    var valueChangedEvents: nat

    /** The didSet assertion on angleFromNorth and the clamp on maximumAngle. */
    ghost predicate Valid()
      reads this
    {
      0 <= angleFromNorth && maximumAngle <= 360.0
    }

    /** init(frame:) with the control's default configuration. */
    constructor (frame: Size)
      ensures Valid()
      ensures minimumValue == 0.0 && maximumValue == 100.0 && maximumAngle == 360.0
      ensures lineWidth == 5 && handleType == SliderLayout.SemiTransparentWhiteSmallCircle
      ensures !snapToLabels && innerMarkingLabels == SliderLayout.None
      ensures labelDisplacement == 0.0 && labelFontSize == 10.0
      ensures boundsWidth == frame.width && boundsHeight == frame.height
      ensures angleFromNorth == 0 && valueChangedEvents == 0
    {
      minimumValue, maximumValue, maximumAngle := 0.0, 100.0, 360.0;
      lineWidth, handleType := 5, SliderLayout.SemiTransparentWhiteSmallCircle;
      snapToLabels, innerMarkingLabels := false, SliderLayout.None;
      labelDisplacement, labelFontSize := 0.0, 10.0;
      boundsWidth, boundsHeight := frame.width, frame.height;
      angleFromNorth, valueChangedEvents := 0, 0;
    }

    /** Assign maximumAngle; above 360 it is clamped to 360. */
    method SetMaximumAngle(angle: real)
      requires Valid()
      modifies this`maximumAngle
      ensures Valid()
      ensures maximumAngle == ClampMaximumAngle(angle)
    {
      maximumAngle := angle;
      if maximumAngle > 360.0 {
        maximumAngle := 360.0;
      }
    }

    /** Assign currentValue: store the matching angle and send one value-changed event. */
    method SetCurrentValue(value: real) returns (r: Result<int>)
      requires Valid()
      modifies this`angleFromNorth, this`valueChangedEvents
      ensures Valid()
      ensures r == SetValueOutcome(value, minimumValue, maximumValue, maximumAngle)
      ensures r.Success? ==> angleFromNorth == r.value && valueChangedEvents == old(valueChangedEvents) + 1
      ensures r.Failure? ==> angleFromNorth == old(angleFromNorth) && valueChangedEvents == old(valueChangedEvents)
    {
      if !(value <= maximumValue && value >= minimumValue) {
        return Failure(OutOfRange);
      }
      if maximumValue - minimumValue == 0.0 {
        return Failure(EmptyValueRange);
      }
      var newAngle := Trunc((value * maximumAngle) / (maximumValue - minimumValue));
      if newAngle < 0 {
        return Failure(NegativeAngle);
      }
      angleFromNorth := newAngle;
      valueChangedEvents := valueChangedEvents + 1;
      r := Success(newAngle);
    }

    /** Read currentValue. */
    function CurrentValue(): (value: real)
      reads this
      requires maximumAngle != 0.0
      ensures value * maximumAngle == angleFromNorth as real * (maximumValue - minimumValue)
      ensures 0 <= angleFromNorth && 0.0 < maximumAngle && minimumValue < maximumValue ==> 0.0 <= value
    {
      NonNegativeProduct(angleFromNorth as real, maximumValue - minimumValue);
      NonNegativeQuotient(angleFromNorth as real * (maximumValue - minimumValue), maximumAngle);
      ValueForAngle(angleFromNorth, minimumValue, maximumValue, maximumAngle)
    }

    /** moveHandle: apply the boundary clamp to a dragged angle. */
    method MoveHandle(newAngleFromNorth: real) returns (r: Result<int>)
      requires Valid()
      modifies this`angleFromNorth
      ensures Valid()
      ensures r == CheckedAngle(MoveHandleAngle(old(angleFromNorth), newAngleFromNorth, maximumAngle))
      ensures angleFromNorth == if r.Success? then r.value else old(angleFromNorth)
    {
      if newAngleFromNorth > maximumAngle {
        if angleFromNorth < Trunc(maximumAngle / 2.0) {
          angleFromNorth := 0;
        } else if angleFromNorth > Trunc(maximumAngle / 2.0) {
          var end := Trunc(maximumAngle);
          if end < 0 {
            return Failure(NegativeAngle);
          }
          angleFromNorth := end;
        }
      } else {
        var newAngle := Trunc(newAngleFromNorth);
        if newAngle < 0 {
          return Failure(NegativeAngle);
        }
        angleFromNorth := newAngle;
      }
      r := Success(angleFromNorth);
    }

    /**
     * continueTrackingWithTouch, given the angle of the touch from north:
     * floor it, move the handle, and send a value-changed event even when the
     * angle did not change. `handled` is the `true` the control returns.
     */
    method ContinueTracking(angleOfTouch: real) returns (handled: bool, r: Result<int>)
      requires Valid()
      modifies this`angleFromNorth, this`valueChangedEvents
      ensures Valid()
      ensures r == CheckedAngle(MoveHandleAngle(old(angleFromNorth), angleOfTouch.Floor as real, maximumAngle))
      ensures handled <==> r.Success?
      ensures r.Success? ==> angleFromNorth == r.value && valueChangedEvents == old(valueChangedEvents) + 1
      ensures r.Failure? ==> angleFromNorth == old(angleFromNorth) && valueChangedEvents == old(valueChangedEvents)
    {
      var lastAngle := angleOfTouch.Floor as real;
      r := MoveHandle(lastAngle);
      if r.Failure? {
        return false, r;
      }
      valueChangedEvents := valueChangedEvents + 1;
      handled := true;
    }

    function HandleWidth(): (width: real)
      reads this
      ensures width == width.Floor as real
      ensures 0 <= lineWidth ==> 0.0 <= width <= (lineWidth + 5) as real
    {
      SliderLayout.HandleWidth(handleType, lineWidth)
    }

    /** centerPoint: the middle of the bounds. */
    function CenterPoint(): (center: Point)
      reads this
      ensures var bounds := Rect(Point(0.0, 0.0), Size(boundsWidth, boundsHeight));
              center.x == bounds.MidX() && center.y == bounds.MidY()
    {
      Point(boundsWidth * 0.5, boundsHeight * 0.5)
    }

    /**
     * computedRadius: the private radius is never configured, so the radius
     * always comes from the bounds, leaving room for the stroke and the handle.
     */
    function ComputedRadius(): (r: real)
      reads this
      ensures var half := Min(boundsWidth, boundsHeight) / 2.0;
              && r + lineWidth as real / 2.0 <= half
              && r + HandleWidth() / 2.0 <= half
              && half < r + Max(lineWidth as real / 2.0, HandleWidth() / 2.0) + 1.0
    {
      SliderLayout.ComputedRadius(radius, boundsWidth, boundsHeight, lineWidth, HandleWidth())
    }

    /**
     * The radial distance of the inner marking labels: with no displacement
     * and a stroke of at least one point they sit inside the circle, and a
     * negative labelDisplacement moves them further toward the centre.
     */
    function LabelRadialDistance(): (d: real)
      reads this
      ensures 1 <= lineWidth && 0.0 <= labelFontSize && labelDisplacement <= 0.0 ==> d < 0.0
      ensures labelDisplacement < 0.0 <==> d < SliderLayout.InnerLabelRadialDistance(radius, lineWidth, labelFontSize)
    {
      SliderLayout.LabelRadialDistanceMovesInward(radius, lineWidth, labelFontSize, 0, 0.0);
      SliderLayout.LabelRadialDistance(radius, lineWidth, labelFontSize, labelDisplacement)
    }

    /**
     * The whole-degree angle at which inner marking label `index` is
     * anchored: none when there is only one label; otherwise, on a
     * non-negative arc, a point of the arc.
     */
    function LabelAnchorAngle(index: nat): (anchor: SliderLayout.Option<int>)
      reads this
      requires innerMarkingLabels.Some? && index < |innerMarkingLabels.value|
      ensures anchor.Some? <==> 2 <= |innerMarkingLabels.value|
      ensures anchor.Some? && 0.0 <= maximumAngle ==> 0 <= anchor.value <= Trunc(maximumAngle)
    {
      var count := |innerMarkingLabels.value|;
      if 2 <= count && 0.0 <= maximumAngle then
        SliderLayout.LabelAnchorMonotone(index, count - 1, count, maximumAngle);
        SliderLayout.LabelAnchorEnds(count, maximumAngle);
        SliderLayout.LabelAnchorAngle(index, count, maximumAngle)
      else
        SliderLayout.LabelAnchorAngle(index, count, maximumAngle)
    }

    /**
     * pointInside for a touch that comes with an event, given where the
     * handle is drawn: every point within 22 points of the handle centre on
     * both axes is a hit.
     */
    function PointInside(point: Point, handleCenter: Point): (inside: bool)
      reads this
      ensures Abs(point.x - handleCenter.x) <= 22.0 && Abs(point.y - handleCenter.y) <= 22.0 ==> inside
    {
      SliderLayout.HandleTouchTarget(point, handleCenter, HandleWidth());
      SliderLayout.PointInside(point, handleCenter, HandleWidth(), CenterPoint(), ComputedRadius(), lineWidth)
    }
  }

  /** The partial-circle demo: maximumAngle 270 set first, then currentValue 10. */
  method PartialCircleScenario() returns (angle: int, value: real, events: nat)
    ensures angle == 27 && value == 10.0 && events == 1
  {
    var slider := new CircularSlider(Size(300.0, 300.0));
    slider.SetMaximumAngle(270.0);
    var r := slider.SetCurrentValue(10.0);
    SetValueExamples();
    angle, value, events := slider.angleFromNorth, slider.CurrentValue(), slider.valueChangedEvents;
  }

  /**
   * Why maximumAngle must be set before currentValue: set afterwards, the
   * angle computed for a full circle stays, and the value read back changes.
   */
  method MaximumAngleSetTooLate() returns (angle: int, value: real)
    ensures angle == 36 && value == 40.0 / 3.0
  {
    var slider := new CircularSlider(Size(300.0, 300.0));
    var r := slider.SetCurrentValue(10.0);
    SetValueExamples();
    slider.SetMaximumAngle(270.0);
    angle, value := slider.angleFromNorth, slider.CurrentValue();
  }

  /**
   * Dragging across the gap of a 270-degree arc: from 50 degrees a touch at
   * 300.7 degrees snaps the handle to north; from 250 degrees it snaps to the
   * end. Each drag sends an event.
   */
  method DragAcrossGapScenario() returns (fromLow: int, fromHigh: int, events: nat)
    ensures fromLow == 0 && fromHigh == 270 && events == 3
  {
    var slider := new CircularSlider(Size(300.0, 300.0));
    slider.SetMaximumAngle(270.0);
    var handled, r := slider.ContinueTracking(50.2);
    handled, r := slider.ContinueTracking(300.7);
    fromLow := slider.angleFromNorth;
    var moved := slider.MoveHandle(250.0);
    handled, r := slider.ContinueTracking(300.7);
    fromHigh := slider.angleFromNorth;
    events := slider.valueChangedEvents;
  }
}
