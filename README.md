# StepView step indicator, modelled in Dafny

`StepView` is an Android widget that draws a row or a column of circles joined
by line segments to show progress through an odd number of steps. Step `i`
(1-based) is a circle when `i` is odd and a line when it is even. Steps that
are "past" use the past paint and the others use the un-past paint. Past is
counted from the first step in the common order and from the last step in the
reversed order.

This project models the widget's arithmetic and its single mutable field:

- `layout.dfy`, module `Layout`: Java's truncating `/ 2`, the circle and line
  counts, the extent `widthOrHeight`, the decoding of the `orientation`
  attribute, where each step's circle or line is placed, the drawing call for a
  step, and the measured size. It also holds the placement lemmas: contiguity,
  ordering, the last edge equal to the extent, and every primitive inside the
  measured box.
- `progress.dfy`, module `Progress`: which steps are past in each order, how
  the two orders mirror each other, and how many steps are past.
- `step_view.dfy`, module `StepViewModel`: the configuration check and its
  four errors, the sequence of drawing calls one redraw makes, and the class
  `StepView`. The class has the widget's fields, a constructor that reads the
  attributes, `CheckValue`, `Create` (the Java constructor, which may fail),
  `OnMeasure`, `OnDraw`, `GetCurStep` and `SetCurStep`.

The canvas is replaced by a returned sequence of `Primitive` values. Each one
is a circle or a line, tagged with the paint it uses. The screen size used by
the constructor's check is passed in as parameters.

## Model

| member | source | states |
|---|---|---|
| `Layout.DecodeOrientation` | stepview/src/main/java/com/shida/stepview/StepView.java:93-95 | no ensures; the decoding of the orientation attribute into `horizontal` and `commonOrder`, specified by `OrientationCodeOfDecode` and `DecodeOrientationCode` |
| `Layout.Extent` | stepview/src/main/java/com/shida/stepview/StepView.java:99-101 | no ensures; the `widthOrHeight` formula, specified by `ExtentIsSpan`, `LastTrailIsExtent` and `PrimitiveInside` |
| `Layout.CircleCentre` | stepview/src/main/java/com/shida/stepview/StepView.java:164-171 | no ensures; the centre of an odd step's circle along the axis, specified through `Lead`/`Trail` by `EdgesOfStep`, `Contiguous`, `Ordered` and `TrailIsSpan` |
| `Layout.LineStart` | stepview/src/main/java/com/shida/stepview/StepView.java:154-157 | no ensures; the start of an even step's line along the axis, specified through `Lead`/`Trail` by `EdgesOfStep`, `Contiguous`, `Ordered` and `TrailIsSpan` |
| `Layout.DrawCircleOrLine` | stepview/src/main/java/com/shida/stepview/StepView.java:152-174 | no ensures; the drawing call for a step, specified by `DrawnPrimitive` and `PrimitiveInside` |
| `Layout.Measure` | stepview/src/main/java/com/shida/stepview/StepView.java:107-111 | no ensures; the (width, height) passed to `setMeasuredDimension`, specified by `PrimitiveInside` and `ValidatedFitsInBox` |
| `Progress.IsPast` | stepview/src/main/java/com/shida/stepview/StepView.java:130-142 | no ensures; the past/un-past test of `drawShape` in both orders, specified by `MirrorOrders`, `PastIsPrefixOrSuffix`, `ForwardPastCount`, `ReversedPastCount` and `PastCountIsCurStep` |
| `StepViewModel.DrawShape` | stepview/src/main/java/com/shida/stepview/StepView.java:129-143 | no ensures; classification followed by placement for one step, specified by `DrawingAt`, `DrawingPast` and `FullDrawing` |
| `Layout.Half` | stepview/src/main/java/com/shida/stepview/StepView.java:99-100 | Java's integer `/ 2` truncates toward zero: the remainder lies in 0..1 for non-negative input and in -1..0 for negative input |
| `Layout.DecodeOrientationCode` | stepview/src/main/java/com/shida/stepview/StepView.java:31-34 | each of the four orientations comes back unchanged from encoding to its attribute value and decoding |
| `Layout.OrientationCodeOfDecode` | stepview/src/main/java/com/shida/stepview/StepView.java:93-95 | `horizontal` holds iff the code is 0 or 2; `commonOrder` holds iff the code is 0 or 1; codes 0..3 round-trip; any other code decodes as vertical and reversed, like code 3 |
| `Layout.OddCounts` | stepview/src/main/java/com/shida/stepview/StepView.java:99-100 | for every odd step count, negative ones included, there is one more circle than lines and circles plus lines equal the step count |
| `Layout.EdgesOfStep` | stepview/src/main/java/com/shida/stepview/StepView.java:152-173 | each primitive spans its own length along the axis (a diameter for a circle, `lineWidth` for a line), and step 1 starts at 0 |
| `Layout.Contiguous` | stepview/src/main/java/com/shida/stepview/StepView.java:153-172 | for every step, the next primitive begins exactly `circleLineSpace` after this one ends: circle to line and line to circle |
| `Layout.Ordered` | stepview/src/main/java/com/shida/stepview/StepView.java:152-174 | with non-negative sizes, every later step starts at least one gap after an earlier step ends, so primitives never overlap and coordinates grow with the step index |
| `Layout.TrailIsSpan` | stepview/src/main/java/com/shida/stepview/StepView.java:152-174 | the trailing edge of step n equals the length of steps 1..n packed from 0 with one gap between neighbours |
| `Layout.LastTrailIsExtent` | stepview/src/main/java/com/shida/stepview/StepView.java:99-101 | for a positive odd step count, the last circle's trailing edge equals `widthOrHeight` |
| `Layout.ExtentIsSpan` | stepview/src/main/java/com/shida/stepview/StepView.java:101 | the extent formula equals the packed length of all circles, lines and gaps (an independent reference definition) |
| `Layout.DrawnPrimitive` | stepview/src/main/java/com/shida/stepview/StepView.java:152-174 | the drawing call for a step is a circle iff the step is odd; a circle has radius `cirRadius`; a line has stroke width `lineHeight` and length `lineWidth`; the cross-axis coordinate is `cirRadius`; the call uses the given paint and its edges match the placement |
| `Layout.PrimitiveInside` | stepview/src/main/java/com/shida/stepview/StepView.java:105-112 | with non-negative sizes, a positive odd step count and `lineHeight <= 2*cirRadius`, every drawn primitive, stroke included, lies inside the measured (width, height) box for both axes |
| `Layout.ThickLineOutside` | stepview/src/main/java/com/shida/stepview/StepView.java:68-70 | a line thicker than the circle diameter sticks out of the measured box, so the thickness check is exactly what makes lines fit |
| `Progress.MirrorOrders` | stepview/src/main/java/com/shida/stepview/StepView.java:129-143 | step i is past in the common order iff step totalStep+1-i is past in the reversed order |
| `Progress.PastIsPrefixOrSuffix` | stepview/src/main/java/com/shida/stepview/StepView.java:130-142 | past steps are a prefix in the common order and a suffix in the reversed order |
| `Progress.ForwardPastCount` | stepview/src/main/java/com/shida/stepview/StepView.java:130-135 | in the common order, exactly min(curStep, n) of the steps 1..n are past |
| `Progress.ReversedPastCount` | stepview/src/main/java/com/shida/stepview/StepView.java:136-141 | in the reversed order, steps 1..n hold max(0, n - max(0, totalStep - curStep)) past steps |
| `Progress.PastCountIsCurStep` | stepview/src/main/java/com/shida/stepview/StepView.java:129-143 | in either order exactly min(curStep, totalStep) steps are past, so a `curStep` above `totalStep` marks every step past |
| `StepViewModel.Validate` | stepview/src/main/java/com/shida/stepview/StepView.java:61-76 | the check passes iff curStep >= 1, totalStep is odd, lineHeight <= 2*cirRadius and the extent is at most both screen width and screen height; each earlier error is reported exactly when its condition holds and the earlier checks passed |
| `StepViewModel.ValidatedFitsInBox` | stepview/src/main/java/com/shida/stepview/StepView.java:61-76 | a configuration that passes the check draws every step inside its measured box, and the length along the axis fits the screen |
| `StepViewModel.NegativeOddStepCountPasses` | stepview/src/main/java/com/shida/stepview/StepView.java:65-67 | only parity is checked: totalStep = -1 passes, with the non-positive extent -lineWidth - 2*circleLineSpace |
| `StepViewModel.Drawing` | stepview/src/main/java/com/shida/stepview/StepView.java:117-119 | one drawing call per step 1..n |
| `StepViewModel.DrawingAt` | stepview/src/main/java/com/shida/stepview/StepView.java:117-119 | position k of a redraw holds step k+1: every step is drawn exactly once, in increasing order |
| `StepViewModel.DrawingCircles` | stepview/src/main/java/com/shida/stepview/StepView.java:153-173 | steps 1..n draw (n+1)/2 circles |
| `StepViewModel.DrawingPast` | stepview/src/main/java/com/shida/stepview/StepView.java:129-143 | the past paint is used exactly as often as the classification marks steps past |
| `StepViewModel.FullDrawing` | stepview/src/main/java/com/shida/stepview/StepView.java:115-120 | a redraw of a positive odd step count draws `CircleCount` circles, uses the past paint min(curStep, totalStep) times, and separates consecutive primitives by exactly `circleLineSpace` |
| `StepViewModel.SevenStepExample` | stepview/src/main/java/com/shida/stepview/StepView.java:99-101 | 7 steps with radius 5, lines 30 and gaps 10 measure 190 by 10; with curStep 3 the common order marks steps 1..3 and the reversed order steps 5..7 |
| `StepViewModel.StepView.constructor` | stepview/src/main/java/com/shida/stepview/StepView.java:85-102 | stores the attributes, decodes the orientation and caches the extent (`Valid`) |
| `StepViewModel.StepView.CheckValue` | stepview/src/main/java/com/shida/stepview/StepView.java:61-76 | the object's check gives the same outcome as `Validate` on its fields |
| `StepViewModel.StepView.Create` | stepview/src/main/java/com/shida/stepview/StepView.java:44-56 | construction fails with `Validate`'s error exactly when the check fails; otherwise the new object holds the given configuration |
| `StepViewModel.StepView.OnMeasure` | stepview/src/main/java/com/shida/stepview/StepView.java:105-112 | reports (extent, 2*cirRadius) when horizontal and (2*cirRadius, extent) when vertical |
| `StepViewModel.StepView.OnDraw` | stepview/src/main/java/com/shida/stepview/StepView.java:115-120 | the loop emits the drawing calls for steps 1..totalStep in order, and none when totalStep < 1 |
| `StepViewModel.StepView.GetCurStep` | stepview/src/main/java/com/shida/stepview/StepView.java:182-184 | returns the current step |
| `StepViewModel.StepView.SetCurStep` | stepview/src/main/java/com/shida/stepview/StepView.java:192-197 | a value <= 0 fails and leaves `curStep` unchanged; any other value is stored with no upper bound; the configuration and the cached extent never change |

## Left out

- The Android framework: the `View` superclass, `Canvas`, `Paint`, anti-aliasing and colours. Drawing calls become returned `Primitive` values tagged past or un-past. The paints' stroke width is kept as the line's `strokeWidth`.
- Reading attributes from `TypedArray` and their defaults. The attribute values are constructor parameters. The default sizes are given in dp, and converting them needs the display density.
- `dp2px`: a floating-point unit conversion through the display metrics.
- The display-metrics query in `checkValue`. Screen width and height are parameters of `CheckValue` and `Create`.
- Exceptions. Each `RuntimeException` becomes a `Fail`/`Failure` value carrying a `ConfigError`. The exception messages are not modelled.
- Java `int` overflow. All arithmetic uses unbounded integers. The ordering and containment lemmas require non-negative sizes instead.
- `super.onMeasure`/`setMeasuredDimension` and the measure specs. `OnMeasure` returns the pair the widget passes to `setMeasuredDimension`.
- Redraw signalling. `setCurStep` does not call `invalidate()`, and the model does not signal a redraw either.
- The check accepts any odd `totalStep`, including negative ones: it rejects 0 and negative even counts through the parity test, but does not reject negative odd counts. The model keeps this behaviour (`NegativeOddStepCountPasses`).
- The screen check compares only the length along the axis with the screen, not the cross-axis size `2*cirRadius`. `ValidatedFitsInBox` states exactly that.
