# CircularSlider, modelled in Dafny

A model of the value and geometry core of `CircularSlider`, an iOS control
that picks a number by dragging a handle around a full or partial circle, and
of `CircularTrig`, its compass/cartesian angle bridge.

- `geometry.dfy` (module `Geometry`): CGPoint/CGSize/CGRect as datatypes, and
  the Swift conversions the control relies on, written out once. `Int(x)`
  truncates toward zero (`Trunc`), `ceilf` rounds up (`Ceil`) and `Int` `/`
  truncates (`TruncHalf`). Dafny's `.Floor` and `/` round down instead.
- `circular_trig.dfy` (module `CircularTrig`): degree/radian conversion,
  compass/cartesian shift, the wrap step of `angleRelativeToNorthFromPoint`,
  arc length to degrees, stroke radii, and the filled-circle frame. `M_PI` is
  the abstract positive constant `Pi`.
- `slider_layout.dfy` (module `SliderLayout`): the computed properties and
  layout functions of `CircularSlider`. These are handle width, computed
  radius, intrinsic content size, the touch tests, the label angles, offsets
  and frames, and the rotation angle. They are pure functions.
- `circular_slider.dfy` (module `Slider`): the class `CircularSlider` with the
  control's stored properties. Its methods change `maximumAngle`,
  `angleFromNorth` and a count of value-changed events, just as the control's
  setters and touch tracking do. Each method is specified by a pure function
  (`SetValueOutcome`, `MoveHandleAngle`), and the lemmas next to it state
  what the control promises about those functions.

CGFloat and Float quantities are exact `real`s. `lineWidth` and
`angleFromNorth` are `int`s. When the control would stop instead of
completing an update, the model's method returns `Failure(fault)` and changes
nothing. That covers the `assert` in the `currentValue` setter, the `assert`
in `angleFromNorth`'s `didSet`, and `Int(...)` of a value that is not finite.
This is the behaviour of a debug build. Swift drops `assert` from optimised
builds, where an out-of-range value or a negative angle is stored and the
value-changed event is still sent.

Behaviour worth knowing, as the code has it:
- The `currentValue` setter truncates the angle (`Int(...)`). It does not
  round.
- Both directions of the value/angle mapping ignore `minimumValue` as an
  offset. On the range 50..100, the value 100 is stored as 720 degrees. On the
  range -100..100, the value -50 gives a negative angle, which the `didSet`
  assertion refuses (`MinimumValueIsNotAnOffset`).
- Nothing keeps `angleFromNorth <= maximumAngle`. Setting `maximumAngle` after
  `currentValue` leaves the old angle in place (`MaximumAngleSetTooLate`).
- `pointInsideCircle` is a disk test (`distance < computedRadius + lineWidth/2`).
  It is not an annulus around the stroke.
- The label radial distance and `intrinsicContentSize` read the private
  `radius`, which nothing assigns, so it stays -1. They do not read
  `computedRadius`.
- `angleRelativeToNorthFromPoint` has no guard for a touch at the centre
  point. In exact arithmetic the wrap step gives an angle in [0, 2π). In
  floating point it can round up to exactly 2π, which the control's
  assertion of [0, 2π] admits.
- With a single inner marking label, the label angle divides by zero and
  `Int(...)` of the result traps. `LabelDegrees` returns `None` in that case.
- The comment on `innerMarkingLabels` (CircularSlider.swift lines 86-88)
  says the last label appears at north and the first one interval after
  north. The code anchors label 0 at north and the last label at the end of
  the arc. On a full circle both therefore sit at north
  (`FullCircleLabelsMeetAtNorth`). The model follows the code.

## Model

| member | source | states |
|---|---|---|
| Geometry.Trunc | CircularSliderExample/CircularSliderExample/CircularSlider/CircularSlider.swift:52 | Swift `Int(x)` drops the fraction toward zero. For x >= 0 the result is the floor, for x < 0 the ceiling, and it is non-negative exactly when x > -1 |
| Geometry.Ceil | CircularSliderExample/CircularSliderExample/CircularSlider/CircularSlider.swift:157 | `ceilf`: the least integer not below x |
| Geometry.TruncHalf | CircularSliderExample/CircularSliderExample/CircularSlider/CircularSlider.swift:177 | `Int / 2` truncates toward zero: the result is half the input, rounded toward zero |
| Geometry.TruncMonotone | CircularSliderExample/CircularSliderExample/CircularSlider/CircularSlider.swift:392 | `Int(...)` keeps the order of its arguments |
| Geometry.TruncOfHalf | CircularSliderExample/CircularSliderExample/CircularSlider/CircularSlider.swift:384-388 | the midpoint `Int(maximumAngle / 2)` is half of `Int(maximumAngle)`, rounded down |
| Geometry.CeilHalfOfWhole | CircularSliderExample/CircularSliderExample/CircularSlider/CircularSlider.swift:157-158 | `ceilf(Float(k) / 2)` of a whole k is `(k + 1) / 2` |
| CircularTrig.ToRad | CircularSliderExample/CircularTrig.swift:131-133 | degrees and radians are the same fraction of a half turn |
| CircularTrig.ToDeg | CircularSliderExample/CircularTrig.swift:135-137 | radians and degrees are the same fraction of a half turn |
| CircularTrig.DegreesRoundTrip | CircularSliderExample/CircularTrig.swift:131-137 | `toDeg(toRad(d)) == d` |
| CircularTrig.RadiansRoundTrip | CircularSliderExample/CircularTrig.swift:131-137 | `toRad(toDeg(r)) == r` |
| CircularTrig.CartesianToCompass | CircularSliderExample/CircularTrig.swift:151-153 | turns an angle a quarter turn (90 degrees) further, from the x axis to north |
| CircularTrig.CompassToCartesian | CircularSliderExample/CircularTrig.swift:155-157 | turns an angle a quarter turn (90 degrees) back, from north to the x axis |
| CircularTrig.ToDegOfMultiple | CircularSliderExample/CircularTrig.swift:135-137 | k·π radians is 180·k degrees |
| CircularTrig.ToDegMonotone | CircularSliderExample/CircularTrig.swift:135-137 | converting to degrees keeps order |
| CircularTrig.ToDegStrict | CircularSliderExample/CircularTrig.swift:135-137 | converting to degrees keeps strict order |
| CircularTrig.CompassCartesianRoundTrip | CircularSliderExample/CircularTrig.swift:151-157 | compass→cartesian and cartesian→compass undo each other in both orders, and each shifts by exactly a 90-degree quarter turn |
| CircularTrig.WrapToCompass | CircularSliderExample/CircularTrig.swift:17-22 | the compass angle is the shifted angle, or that plus 2π. For an atan2 result in [-π, π], it lies in [0, 2π) |
| CircularTrig.AngleRelativeToNorth | CircularSliderExample/CircularTrig.swift:17-24 | the angle from north in degrees is the compass angle of the atan2 result, or that plus one full turn of 360 degrees |
| CircularTrig.AngleRelativeToNorthRange | CircularSliderExample/CircularTrig.swift:12-25 | for any angle atan2 can return, the angle from north is in [0, 360) degrees |
| CircularTrig.ToDegAdditive | CircularSliderExample/CircularTrig.swift:135-137 | converting to degrees distributes over a sum of angles |
| CircularTrig.CompassPoints | CircularSliderExample/CircularTrig.swift:17-24 | straight up is 0 degrees, right 90, down 180, left 270 (from either side of ±π) |
| CircularTrig.WrapKeepsDirection | CircularSliderExample/CircularTrig.swift:19-22 | the wrap adds at most one full turn, so the direction does not change |
| CircularTrig.DegreesForArcLength | CircularSliderExample/CircularTrig.swift:91-97 | the result is to `degrees` as the arc length is to the circumference `2πr` |
| CircularTrig.ArcLengthLandmarks | CircularSliderExample/CircularTrig.swift:91-97 | half the circumference gives half the angle, the whole circumference the whole angle, and length 0 gives 0 |
| CircularTrig.ArcLengthLinear | CircularSliderExample/CircularTrig.swift:91-97 | the conversion is additive and homogeneous in the arc length |
| CircularTrig.OuterRadius | CircularSliderExample/CircularTrig.swift:111-113 | the outer edge is `lineWidth` beyond the inner edge, and not inside the radius for a non-negative stroke |
| CircularTrig.InnerRadius | CircularSliderExample/CircularTrig.swift:115-117 | the inner edge is not outside the radius for a non-negative stroke |
| CircularTrig.StrokeRadii | CircularSliderExample/CircularTrig.swift:111-117 | outer minus inner radius is `lineWidth`, the radius is their midpoint, and inner <= radius <= outer for `lineWidth >= 0` |
| CircularTrig.FilledCircleFrame | CircularSliderExample/CircularTrig.swift:39-43 | the frame is a square of side 2·radius centred on `center` |
| SliderLayout.HandleWidth | CircularSliderExample/CircularSliderExample/CircularSlider/CircularSlider.swift:174-183 | the handle width is a whole number of points. For `lineWidth >= 0` it lies between 0 and `lineWidth + 5` |
| SliderLayout.HandleWidthTable | CircularSliderExample/CircularSliderExample/CircularSlider/CircularSlider.swift:174-183 | small circle = half the stroke rounded down, both semi-transparent circles = the stroke, big circle = the stroke + 5 |
| SliderLayout.HandleWidthForTenPointStroke | CircularSliderExample/CircularSliderExample/CircularSlider/CircularSlider.swift:174-183 | with `lineWidth = 10` the four handle types are 5, 10, 10 and 15 wide |
| SliderLayout.HandleFrame | CircularSliderExample/CircularSliderExample/CircularSlider/CircularSlider.swift:314 | the handle is drawn as a circle of diameter `handleWidth` centred on the handle centre |
| SliderLayout.HalfMargin | CircularSliderExample/CircularSliderExample/CircularSlider/CircularSlider.swift:157-159 | the margin covers half the stroke and half the handle, and exceeds the larger of the two by less than one point. It is at least half the stroke rounded up, `(lineWidth + 1) / 2` |
| SliderLayout.ComputedRadius | CircularSliderExample/CircularSliderExample/CircularSlider/CircularSlider.swift:152-162 | a configured radius is used as is. Otherwise the radius leaves room for half the stroke and half the handle within half the smaller bound, wasting less than one point |
| SliderLayout.IntrinsicContentSize | CircularSliderExample/CircularSliderExample/CircularSlider/CircularSlider.swift:239-248 | the size is square and holds the diameter plus the full stroke and the full handle, with less than two points to spare |
| SliderLayout.IntrinsicSizeFitsComputedRadius | CircularSliderExample/CircularSliderExample/CircularSlider/CircularSlider.swift:152-162 | in a square frame of the intrinsic size, the computed radius is the radius the size was made for |
| SliderLayout.PointInsideHandle | CircularSliderExample/CircularSliderExample/CircularSlider/CircularSlider.swift:284-293 | a hit exactly when the larger axis distance from the handle centre is at most `max(handleWidth, 44) / 2` (inclusive square) |
| SliderLayout.HandleTouchTarget | CircularSliderExample/CircularSliderExample/CircularSlider/CircularSlider.swift:286-292 | the handle centre is always a hit, and so is every point within 22 on both axes |
| SliderLayout.HandleHitMonotone | CircularSliderExample/CircularSliderExample/CircularSlider/CircularSlider.swift:287 | a wider handle never loses a hit |
| SliderLayout.PointInsideCircle | CircularSliderExample/CircularSliderExample/CircularSlider/CircularSlider.swift:275-282 | a hit lies strictly within the stroke's outer radius on each axis. Conversely, every point whose axis distances add up to less than that radius is a hit |
| SliderLayout.SumBelow | CircularSliderExample/CircularSliderExample/CircularSlider/CircularSlider.swift:278-281 | a point whose axis distances add up to less than the bound lies strictly inside the disk of that radius |
| SliderLayout.CentreInsideCircle | CircularSliderExample/CircularSliderExample/CircularSlider/CircularSlider.swift:275-282 | the centre is a hit exactly when the stroke's outer radius is positive (a disk test, not an annulus) |
| SliderLayout.SquareBelow | CircularSliderExample/CircularSliderExample/CircularSlider/CircularSlider.swift:280-281 | a point whose squared distance is below the squared bound is within the bound on each axis |
| SliderLayout.PointInside | CircularSliderExample/CircularSliderExample/CircularSlider/CircularSlider.swift:265-273 | a handle hit is a hit. Otherwise the circle test decides |
| SliderLayout.InnerLabelRadialDistance | CircularSliderExample/CircularSliderExample/CircularSlider/CircularSlider.swift:208-213 | for a non-negative stroke and font, labels move in by at least a tenth of the radius. With a non-negative radius and some stroke or font, they always move toward the centre |
| SliderLayout.LabelRadialDistanceMovesInward | CircularSliderExample/CircularSliderExample/CircularSlider/CircularSlider.swift:208-213 | a thicker stroke or a larger font moves labels further in by half the increase. With the private radius at -1 and a stroke of at least 1, labels move toward the centre |
| SliderLayout.LabelRadialDistance | CircularSliderExample/CircularSliderExample/CircularSlider/CircularSlider.swift:363 | labels are displaced by exactly `labelDisplacement`: a negative value moves them toward the centre and a positive one toward the circumference (both as iffs), by its magnitude |
| SliderLayout.LabelDegrees | CircularSliderExample/CircularSliderExample/CircularSlider/CircularSlider.swift:347-349 | defined exactly when there are at least two labels, and then equal to `index · maximumAngle / (count - 1)` |
| SliderLayout.LabelAnchorAngle | CircularSliderExample/CircularSliderExample/CircularSlider/CircularSlider.swift:347-350 | defined exactly when there are at least two labels. On a non-negative arc it is the whole-degree part of the label angle |
| SliderLayout.LabelAnchorEnds | CircularSliderExample/CircularSliderExample/CircularSlider/CircularSlider.swift:344-350 | the first label is anchored at 0 and the last at `Int(maximumAngle)` |
| SliderLayout.FullCircleLabelsMeetAtNorth | CircularSliderExample/CircularSliderExample/CircularSlider/CircularSlider.swift:347-350 | on a full circle the first label is anchored at 0 and the last at 360 degrees, the same compass point |
| SliderLayout.LabelAnchorMonotone | CircularSliderExample/CircularSliderExample/CircularSlider/CircularSlider.swift:347-350 | on a non-negative arc, anchor angles never decrease with the index |
| SliderLayout.SixLabelsOnPartialCircle | CircularSliderExample/CircularSliderExample/CircularSlider/CircularSlider.swift:347-350 | six labels on a 270-degree arc anchor at 0, 54, 108, 162, 216, 270 |
| SliderLayout.LabelOffset | CircularSliderExample/CircularSliderExample/CircularSlider/CircularSlider.swift:358-367 | the offset puts the label's centre on the inward offset point |
| SliderLayout.LabelFrame | CircularSliderExample/CircularSliderExample/CircularSlider/CircularSlider.swift:344-356 | the frame has the label's size and is centred on the anchor plus the inward offset |
| SliderLayout.RotationAngle | CircularSliderExample/CircularSliderExample/CircularSlider/CircularSlider.swift:408-419 | for an arc of 0 to 360 degrees, the rotation lies between a half turn back and no turn |
| SliderLayout.RotationCentresArc | CircularSliderExample/CircularSliderExample/CircularSlider/CircularSlider.swift:408-419 | no rotation for a full circle. Otherwise a turn back by half the arc, which puts the arc's two ends symmetrically about north |
| Slider.ClampMaximumAngle | CircularSliderExample/CircularSliderExample/CircularSlider/CircularSlider.swift:37-44 | the stored angle is at most 360, equals the assigned angle exactly when that is at most 360, and is otherwise 360 |
| Slider.ClampIdempotent | CircularSliderExample/CircularSliderExample/CircularSlider/CircularSlider.swift:37-44 | clamping a clamped angle changes nothing |
| Slider.CheckedAngle | CircularSliderExample/CircularSliderExample/CircularSlider/CircularSlider.swift:168-172 | an angle is accepted exactly when it is non-negative and is then stored unchanged. A negative one is `NegativeAngle` |
| Slider.AngleForValue | CircularSliderExample/CircularSliderExample/CircularSlider/CircularSlider.swift:52 | angle times the span of the value range equals value times `maximumAngle` |
| Slider.ValueForAngle | CircularSliderExample/CircularSliderExample/CircularSlider/CircularSlider.swift:55 | value times `maximumAngle` equals angle times the span of the value range, the inverse of `AngleForValue` |
| Slider.SetValueOutcome | CircularSliderExample/CircularSliderExample/CircularSlider/CircularSlider.swift:48-53 | accepted exactly when min <= v <= max, min < max and the exact angle exceeds -1. The stored angle is then that angle with its fraction dropped. A value out of range is `OutOfRange` |
| Slider.ValueRoundTrip | CircularSliderExample/CircularSliderExample/CircularSlider/CircularSlider.swift:48-56 | for v >= 0, reading the value back gives r with `v - (max-min)/maximumAngle < r <= v` |
| Slider.StoredAngleOnArc | CircularSliderExample/CircularSliderExample/CircularSlider/CircularSlider.swift:52 | with `minimumValue = 0`, every value in range is accepted and stored in [0, Int(maximumAngle)] |
| Slider.AngleRoundTrip | CircularSliderExample/CircularSliderExample/CircularSlider/CircularSlider.swift:52-55 | the formulas of lines 52 and 55 undo each other on whole degrees: the angle computed for the value that an angle reads as is that angle again |
| Slider.SetterAcceptsValueRead | CircularSliderExample/CircularSliderExample/CircularSlider/CircularSlider.swift:48-56 | with `minimumValue` 0, setting `currentValue` to what it reads, for any angle on the arc, is accepted and stores the same angle |
| Slider.ReadBackRefusedAbovePositiveMinimum | CircularSliderExample/CircularSliderExample/CircularSlider/CircularSlider.swift:50-55 | on 50..100 over 360 degrees, angle 36 reads as 5, which the setter refuses as out of range |
| Slider.SetValueExamples | CircularSliderExample/CircularSliderExample/CircularSlider/CircularSlider.swift:48-56 | value 10 of 0..100 is stored as 36 on a full circle and 27 on a 270-degree arc, and reads back as 10 both times |
| Slider.MinimumValueIsNotAnOffset | CircularSliderExample/CircularSliderExample/CircularSlider/CircularSlider.swift:50-52 | 100 on 50..100 is stored as 720. -50 on -100..100 is refused as a negative angle |
| Slider.MoveHandleAngle | CircularSliderExample/CircularSliderExample/CircularSlider/CircularSlider.swift:380-395 | a drag within the arc stores its whole-degree part. A drag past the end lands on 0 or `Int(maximumAngle)`, except from exactly the midpoint `Int(maximumAngle / 2)`, which stays where it is |
| Slider.MoveHandleExamples | CircularSliderExample/CircularSliderExample/CircularSlider/CircularSlider.swift:380-395 | on a 270-degree arc, a drag to 300 from 50 gives 0, from 250 gives 270, and from 135 (the midpoint) leaves 135. A drag to 100 gives 100 |
| Slider.MoveHandleStaysOnArc | CircularSliderExample/CircularSliderExample/CircularSlider/CircularSlider.swift:380-395 | from an angle in [0, Int(maximumAngle)], any drag angle >= 0 leaves the angle in that range |
| Slider.MoveHandleNeverNegative | CircularSliderExample/CircularSliderExample/CircularSlider/CircularSlider.swift:168-172 | on a non-negative arc, a drag angle above -1 never trips the `angleFromNorth >= 0` assertion |
| Slider.MoveHandleSnapsToNearerEnd | CircularSliderExample/CircularSliderExample/CircularSlider/CircularSlider.swift:382-390 | a drag past the end, from anywhere but the midpoint, lands on 0 or `Int(maximumAngle)`, whichever is nearer the previous angle |
| Slider.TrackingStaysOnArc | CircularSliderExample/CircularSliderExample/CircularSlider/CircularSlider.swift:370-378 | the floored touch angle, for any atan2 result, keeps a handle that was on the arc on the arc |
| Slider.CircularSlider.constructor | CircularSliderExample/CircularSliderExample/CircularSlider/CircularSlider.swift:216-219 | the control starts with the defaults: 0..100, 360 degrees, stroke 5, small white handle, angle 0, no events |
| Slider.CircularSlider.SetMaximumAngle | CircularSliderExample/CircularSliderExample/CircularSlider/CircularSlider.swift:37-44 | the stored maximum angle is the clamped assignment, and the object invariant holds |
| Slider.CircularSlider.SetCurrentValue | CircularSliderExample/CircularSliderExample/CircularSlider/CircularSlider.swift:49-53 | on success the angle is the computed angle and exactly one value-changed event is sent. On failure nothing changes |
| Slider.CircularSlider.MoveHandle | CircularSliderExample/CircularSliderExample/CircularSlider/CircularSlider.swift:380-395 | the new angle is `MoveHandleAngle` of the old angle, or the old angle is kept when that would be negative |
| Slider.CircularSlider.ContinueTracking | CircularSliderExample/CircularSliderExample/CircularSlider/CircularSlider.swift:370-378 | floors the touch angle and moves the handle. One value-changed event is sent even when the angle is unchanged, and the call reports it handled the touch |
| Slider.CircularSlider.CurrentValue | CircularSliderExample/CircularSliderExample/CircularSlider/CircularSlider.swift:54-56 | the value times `maximumAngle` is the stored angle times the span of the value range. It is non-negative for a non-negative angle, a positive arc and a non-empty range |
| Slider.CircularSlider.HandleWidth | CircularSliderExample/CircularSliderExample/CircularSlider/CircularSlider.swift:174-183 | the handle width is a whole number of points between 0 and `lineWidth + 5` for a non-negative stroke |
| Slider.CircularSlider.CenterPoint | CircularSliderExample/CircularSliderExample/CircularSlider/CircularSlider.swift:164-166 | the centre is the middle of the bounds |
| Slider.CircularSlider.ComputedRadius | CircularSliderExample/CircularSliderExample/CircularSlider/CircularSlider.swift:152-162 | with the private radius unset, the radius leaves room for half the stroke and half the handle within half the smaller bound, wasting less than one point |
| Slider.CircularSlider.LabelRadialDistance | CircularSliderExample/CircularSliderExample/CircularSlider/CircularSlider.swift:358-364 | with no displacement and a stroke of at least one point labels sit inside the circle. A negative `labelDisplacement` moves them further in |
| Slider.CircularSlider.LabelAnchorAngle | CircularSliderExample/CircularSliderExample/CircularSlider/CircularSlider.swift:344-350 | defined exactly when there are at least two labels. On a non-negative arc each label is anchored on the arc, between 0 and `Int(maximumAngle)` |
| Slider.CircularSlider.PointInside | CircularSliderExample/CircularSliderExample/CircularSlider/CircularSlider.swift:265-273 | every point within 22 of the handle centre on both axes is inside the control |
| Slider.PartialCircleScenario | CircularSliderExample/CircularSliderExample/PartialCircleViewController.swift:26-30 | maximum angle 270 and then value 10 store angle 27, read back 10, and send one event |
| Slider.MaximumAngleSetTooLate | CircularSliderExample/CircularSliderExample/PartialCircleViewController.swift:26-30 | value 10 set before the 270-degree maximum keeps angle 36, which then reads back as 40/3 |
| Slider.DragAcrossGapScenario | CircularSliderExample/CircularSliderExample/CircularSlider/CircularSlider.swift:370-395 | on a 270-degree arc, a touch at 300.7 snaps from 50 to 0 and from 250 to 270, and every tracked touch sends an event |

## Left out

- `atan2`, `sqrt`, `sin`, `cos` and `round` are not modelled. The angle atan2 returns and the points `pointOnRadius` produces (handle centre, label anchor, inward offset) are parameters. The two label points are taken at different angles, and the model does not capture that difference: the anchor uses the whole-degree angle `Int(degreesFromNorthForLabel)` (CircularSlider.swift line 350), while the inward offset uses the exact angle (line 364). `pointInsideCircle` compares squared distances, which agrees with its square-root test for every bound.
- The zero-length vector in `angleRelativeToNorthFromPoint` (a touch at the centre) is not modelled. The code has no guard for it.
- Floating point is exact real arithmetic. Rounding, NaN, infinities, the Float/CGFloat width difference and the trap of `Int(...)` on values beyond `Int`'s range are not modelled.
- CircularTrig.DegreesForArcLength: requires a non-zero radius. With radius 0 the code returns a non-finite CGFloat, which has no `real` counterpart.
- Slider.CircularSlider.CurrentValue: requires `maximumAngle != 0`. With 0 the code's getter returns a non-finite Float.
- Slider.ValueForAngle: requires `maximumAngle != 0`, for the same reason as `CurrentValue`.
- Slider.AngleForValue: requires a non-empty value range. The setter's division by zero is modelled in `SetValueOutcome` as `EmptyValueRange`.
- Slider.ValueRoundTrip: holds in exact arithmetic only. With 32-bit Float rounding in lines 52 and 55, the value can come back a little below the bound.
- Slider.AngleRoundTrip: is about the value/angle formulas, not the setter. When `minimumValue` is positive, the setter's range check can refuse the value read back, because the getter does not add `minimumValue` back (`ReadBackRefusedAbovePositiveMinimum`). `SetterAcceptsValueRead` covers the setter for `minimumValue` 0 only.
- Slider.AngleRoundTrip: holds in exact arithmetic only. In 32-bit Float, on the range 0..3 over 360 degrees, angle 39 reads back as a value that the setter stores as 38.
- CircularTrig.WrapToCompass: the strict upper bound `< 2π` holds in exact arithmetic only. In double precision an atan2 result just below -π/2 wraps to exactly 2π.
- CircularTrig.AngleRelativeToNorthRange: the strict upper bound `< 360` holds in exact arithmetic only, for the same reason as `WrapToCompass`. In double precision the function can return 360.
- SliderLayout.LabelAnchorEnds: holds in exact arithmetic only. In floating point, with 98 labels on a 270-degree arc, the last label's angle rounds to just below 270 and is anchored at 269.
- SliderLayout.FullCircleLabelsMeetAtNorth: holds in exact arithmetic only, for the same reason as `LabelAnchorEnds`.
- The warning that the `maximumAngle` setter prints for an angle above 360 is console output and is not modelled. The clamp itself is modelled.
- Optimised builds, where `assert` is not evaluated, are not modelled. The model stops where a debug build stops.
- Slider.CircularSlider.ContinueTracking: when the move would trap, the model reports `handled == false` and changes nothing. The code would stop and never return.
- All drawing through CoreGraphics is renderer I/O: `drawRect`, `drawLine`, `drawUnfilledCircleInContext`, `drawUnfilledArcInContext`, `drawUnfilledGradientArcInContext`, the context calls of `drawHandle`, and the save/concat/restore transform work of `drawInnerLabels`. Only the geometry they are handed is modelled.
- Colours and fonts are UIKit objects: `computedHandleColor`, the assignment of `handleColor` in `drawHandle`, the colour properties, and `sizeOfString`. The label size is a parameter, and of the font only its point size is kept.
- UIKit plumbing has no logic to model: `setNeedsDisplay`, `setNeedsUpdateConstraints`, `invalidateIntrinsicContentSize`, the `event != nil` guard of `pointInside`, and target/action dispatch. `sendActionsForControlEvents(.ValueChanged)` is a counter.
- `snapToLabels` is a stored field and nothing else: the code never reads it.
- The three view controllers are UI wiring. They appear only as the concrete values of the scenario methods.
