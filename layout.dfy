/** Geometry of the step indicator: the extent along the axis, the orientation
    code, where each step's circle or line is placed, and the measured box.
    Everything here is integer arithmetic on the widget's configuration. */
module Layout {

  /** Java's `x / 2` on `int`, which truncates toward zero
      (Dafny's `/` is Euclidean and differs for negative odd `x`). */
  function Half(x: int): (h: int)
    ensures x >= 0 ==> 0 <= x - 2 * h <= 1
    ensures x < 0 ==> -1 <= x - 2 * h <= 0
  {
    if x >= 0 then x / 2 else -((-x) / 2)
  }

  // ---------------------------------------------------------------------------
  // Orientation

  const HorizontalLeftToRight: int := 0
  const VerticalTopToBottom: int := 1
  const HorizontalRightToLeft: int := 2
  const VerticalBottomToTop: int := 3

  /** The two booleans the widget keeps: the axis, and whether progress is
      counted from the first step (`commonOrder`) or from the last one. */
  datatype Orientation = Orientation(horizontal: bool, commonOrder: bool)

  /** Decoding of the `orientation` attribute into the two booleans. */
  function DecodeOrientation(code: int): Orientation
  {
    Orientation(code == HorizontalLeftToRight || code == HorizontalRightToLeft,
                code == HorizontalLeftToRight || code == VerticalTopToBottom)
  }

  /** The attribute value naming each of the four orientations. */
  function OrientationCode(o: Orientation): (code: int)
    ensures 0 <= code <= 3
  {
    match o
    case Orientation(true, true) => HorizontalLeftToRight
    case Orientation(false, true) => VerticalTopToBottom
    case Orientation(true, false) => HorizontalRightToLeft
    case Orientation(false, false) => VerticalBottomToTop
  }

  /** Each of the four orientations survives encoding then decoding. */
  lemma DecodeOrientationCode(o: Orientation)
    ensures DecodeOrientation(OrientationCode(o)) == o
  {
  }

  /** The four codes 0..3 are exactly the four orientations, in the order
      left-to-right, top-to-bottom, right-to-left, bottom-to-top; any other
      code reads as bottom-to-top (vertical, reversed). */
  lemma OrientationCodeOfDecode(code: int)
    ensures 0 <= code <= 3 ==> OrientationCode(DecodeOrientation(code)) == code
    ensures !(0 <= code <= 3) ==> DecodeOrientation(code) == DecodeOrientation(VerticalBottomToTop)
    ensures DecodeOrientation(code).horizontal <==> code == 0 || code == 2
    ensures DecodeOrientation(code).commonOrder <==> code == 0 || code == 1
  {
  }

  // ---------------------------------------------------------------------------
  // Sizes and extent

  /** The pixel sizes that decide the geometry: circle radius, line length
      along the axis, line thickness (the paints' stroke width) and the gap
      between a circle and a line. */
  datatype Dims = Dims(cirRadius: int, lineWidth: int, lineHeight: int, circleLineSpace: int)

  predicate NonNegative(d: Dims)
  {
    d.cirRadius >= 0 && d.lineWidth >= 0 && d.lineHeight >= 0 && d.circleLineSpace >= 0
  }

  /** Number of circles among steps 1..totalStep. */
  function CircleCount(totalStep: int): int
  {
    Half(totalStep + 1)
  }

  /** Number of connecting lines among steps 1..totalStep. */
  function LineCount(totalStep: int): int
  {
    Half(totalStep - 1)
  }

  /** For an odd step count (negative ones included, since only the parity is
      checked) there is one more circle than lines and together they make
      up all the steps. */
  lemma OddCounts(totalStep: int)
    requires totalStep % 2 != 0
    ensures CircleCount(totalStep) == LineCount(totalStep) + 1
    ensures CircleCount(totalStep) + LineCount(totalStep) == totalStep
  {
  }

  /** Total length along the axis (the `widthOrHeight` field). */
  function Extent(totalStep: int, d: Dims): int
  {
    CircleCount(totalStep) * d.cirRadius * 2
      + LineCount(totalStep) * d.lineWidth
      + LineCount(totalStep) * 2 * d.circleLineSpace
  }

  // ---------------------------------------------------------------------------
  // Placement along the axis

  /** Axis coordinate of the centre of the circle drawn for odd `step`. */
  function CircleCentre(step: int, d: Dims): int
    requires step >= 1 && step % 2 == 1
  {
    var lineSize := (step - 1) / 2;
    var lineSpaceSize := step - 1;
    lineSpaceSize * d.circleLineSpace + lineSize * d.lineWidth + lineSize * d.cirRadius * 2 + d.cirRadius
  }

  /** Axis coordinate where the line drawn for even `step` starts. */
  function LineStart(step: int, d: Dims): int
    requires step >= 2 && step % 2 == 0
  {
    var circleSize := step / 2;
    var lineSize := circleSize - 1;
    var lineSpaceSize := lineSize * 2 + 1;
    circleSize * d.cirRadius * 2 + lineSize * d.lineWidth + lineSpaceSize * d.circleLineSpace
  }

  /** Leading edge along the axis of the primitive for `step`. */
  function Lead(step: int, d: Dims): int
    requires step >= 1
  {
    if step % 2 == 0 then LineStart(step, d) else CircleCentre(step, d) - d.cirRadius
  }

  /** Trailing edge along the axis of the primitive for `step`. */
  function Trail(step: int, d: Dims): int
    requires step >= 1
  {
    if step % 2 == 0 then LineStart(step, d) + d.lineWidth else CircleCentre(step, d) + d.cirRadius
  }

  /** Length along the axis of a step's primitive: a diameter or a line. */
  function Size(step: int, d: Dims): int
  {
    if step % 2 == 0 then d.lineWidth else 2 * d.cirRadius
  }

  /** Reference layout: steps 1..n packed one after another from 0, with one
      `circleLineSpace` gap between neighbours; the length they occupy. */
  ghost function Span(n: int, d: Dims): int
    requires n >= 1
  {
    if n == 1 then Size(1, d) else Span(n - 1, d) + d.circleLineSpace + Size(n, d)
  }

  /** The first circle touches the origin, and each primitive is exactly as
      long as its shape. */
  lemma EdgesOfStep(step: int, d: Dims)
    requires step >= 1
    ensures Trail(step, d) - Lead(step, d) == Size(step, d)
    ensures Lead(1, d) == 0
  {
  }

  /** Contiguity: the primitive for `step + 1` begins exactly one
      `circleLineSpace` after the primitive for `step` ends. */
  lemma Contiguous(step: int, d: Dims)
    requires step >= 1
    ensures Lead(step + 1, d) == Trail(step, d) + d.circleLineSpace
  {
  }

  /** With non-negative sizes the primitives never overlap: any later step
      starts at least one gap after an earlier one ends, so coordinates grow
      with the step index. */
  lemma {:induction false} Ordered(s: int, t: int, d: Dims)
    requires NonNegative(d)
    requires 1 <= s < t
    ensures Trail(s, d) + d.circleLineSpace <= Lead(t, d)
    decreases t - s
  {
    Contiguous(s, d);
    if t > s + 1 {
      EdgesOfStep(s + 1, d);
      Ordered(s + 1, t, d);
    }
  }

  /** The placed primitives occupy exactly the reference layout: the trailing
      edge of step n is the packed length of steps 1..n. */
  lemma {:induction false} TrailIsSpan(n: int, d: Dims)
    requires n >= 1
    ensures Trail(n, d) == Span(n, d)
  {
    EdgesOfStep(n, d);
    if n > 1 {
      TrailIsSpan(n - 1, d);
      Contiguous(n - 1, d);
    }
  }

  /** For an odd, positive step count the last circle's trailing edge is the
      extent: the indicator ends exactly where `widthOrHeight` says. */
  lemma LastTrailIsExtent(totalStep: int, d: Dims)
    requires totalStep >= 1 && totalStep % 2 == 1
    ensures Trail(totalStep, d) == Extent(totalStep, d)
  {
  }

  /** The extent is the packed length of all the steps: circles, lines and
      two gaps around every line. */
  lemma ExtentIsSpan(totalStep: int, d: Dims)
    requires totalStep >= 1 && totalStep % 2 == 1
    ensures Extent(totalStep, d) == Span(totalStep, d)
  {
    LastTrailIsExtent(totalStep, d);
    TrailIsSpan(totalStep, d);
  }

  // ---------------------------------------------------------------------------
  // Primitives and the measured box

  /** One drawing call: a filled circle or a stroked line, tagged with the
      paint it uses (the past paint or the un-past paint). */
  datatype Primitive =
    | Circle(cx: int, cy: int, radius: int, past: bool)
    | Line(startX: int, startY: int, stopX: int, stopY: int, strokeWidth: int, past: bool)

  /** The primitive drawn for `step` with the given paint. */
  function DrawCircleOrLine(horizontal: bool, d: Dims, past: bool, step: int): Primitive
    requires step >= 1
  {
    if step % 2 == 0 then
      var start := LineStart(step, d);
      if horizontal then Line(start, d.cirRadius, start + d.lineWidth, d.cirRadius, d.lineHeight, past)
      else Line(d.cirRadius, start, d.cirRadius, start + d.lineWidth, d.lineHeight, past)
    else
      var c := CircleCentre(step, d);
      if horizontal then Circle(c, d.cirRadius, d.cirRadius, past)
      else Circle(d.cirRadius, c, d.cirRadius, past)
  }

  /** Leading edge of a primitive along the axis, read off the drawing call. */
  function AxisLead(p: Primitive, horizontal: bool): int
  {
    match p
    case Circle(cx, cy, radius, _) => (if horizontal then cx else cy) - radius
    case Line(x0, y0, _, _, _, _) => if horizontal then x0 else y0
  }

  /** Trailing edge of a primitive along the axis, read off the drawing call. */
  function AxisTrail(p: Primitive, horizontal: bool): int
  {
    match p
    case Circle(cx, cy, radius, _) => (if horizontal then cx else cy) + radius
    case Line(_, _, x1, y1, _, _) => if horizontal then x1 else y1
  }

  /** The drawing call for a step: odd steps are circles of radius
      `cirRadius`, even steps are lines of length `lineWidth` along the axis;
      the cross-axis coordinate is always `cirRadius`; its edges are the
      placement's edges; and it carries the requested paint. */
  lemma DrawnPrimitive(horizontal: bool, d: Dims, past: bool, step: int)
    requires step >= 1
    ensures var p := DrawCircleOrLine(horizontal, d, past, step);
      && (p.Circle? <==> step % 2 == 1)
      && p.past == past
      && AxisLead(p, horizontal) == Lead(step, d)
      && AxisTrail(p, horizontal) == Trail(step, d)
      && (p.Circle? ==> p.radius == d.cirRadius && (if horizontal then p.cy else p.cx) == d.cirRadius)
      && (p.Line? ==>
            && p.strokeWidth == d.lineHeight
            && (if horizontal then p.startY == p.stopY == d.cirRadius else p.startX == p.stopX == d.cirRadius)
            && AxisTrail(p, horizontal) - AxisLead(p, horizontal) == d.lineWidth)
  {
  }

  /** The size reported to the layout pass, as (width, height). */
  function Measure(totalStep: int, d: Dims, horizontal: bool): (int, int)
  {
    if horizontal then (Extent(totalStep, d), d.cirRadius * 2)
    else (d.cirRadius * 2, Extent(totalStep, d))
  }

  /** A primitive lies inside the box [0, width] x [0, height]: a circle with
      its whole disc, a line with both end points and its whole stroke
      (half the stroke width on each side of an axis-parallel line). */
  predicate Inside(p: Primitive, width: int, height: int)
  {
    match p
    case Circle(cx, cy, radius, _) =>
      0 <= cx - radius && cx + radius <= width && 0 <= cy - radius && cy + radius <= height
    case Line(x0, y0, x1, y1, stroke, _) =>
      0 <= x0 <= width && 0 <= x1 <= width && 0 <= y0 <= height && 0 <= y1 <= height
      && (y0 == y1 ==> 0 <= 2 * y0 - stroke && 2 * y0 + stroke <= 2 * height)
      && (x0 == x1 ==> 0 <= 2 * x0 - stroke && 2 * x0 + stroke <= 2 * width)
  }

  /** Every primitive of an odd, positive number of steps fits in the measured
      box, provided the line is no thicker than a circle (the condition the
      constructor checks). */
  lemma PrimitiveInside(totalStep: int, d: Dims, horizontal: bool, past: bool, step: int)
    requires NonNegative(d) && d.lineHeight <= 2 * d.cirRadius
    requires totalStep % 2 == 1 && 1 <= step <= totalStep
    ensures var (w, h) := Measure(totalStep, d, horizontal);
      Inside(DrawCircleOrLine(horizontal, d, past, step), w, h)
  {
    EdgesOfStep(step, d);
    EdgesOfStep(totalStep, d);
    LastTrailIsExtent(totalStep, d);
    if step < totalStep {
      Ordered(step, totalStep, d);
    }
    if step > 1 {
      Ordered(1, step, d);
    }
    DrawnPrimitive(horizontal, d, past, step);
  }

  /** Conversely, a line thicker than a circle's diameter sticks out of the
      measured box, so the constructor's thickness check is exactly the
      condition for the lines to fit. */
  lemma ThickLineOutside(totalStep: int, d: Dims, horizontal: bool, past: bool, step: int)
    requires d.lineWidth > 0 && d.lineHeight > 2 * d.cirRadius
    requires step >= 2 && step % 2 == 0
    ensures var (w, h) := Measure(totalStep, d, horizontal);
      !Inside(DrawCircleOrLine(horizontal, d, past, step), w, h)
  {
  }
}
