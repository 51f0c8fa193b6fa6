/** The StepView widget: its configuration check, the sequence of drawing
    calls it makes, and the object with its one mutable field `curStep`. */
module StepViewModel {
  import opened Layout
  import opened Progress

  /** The four runtime exceptions the widget throws. */
  datatype ConfigError =
    | CurrentStepBelowOne     // curStep < 1, at construction or in SetCurStep
    | EvenStepCount           // totalStep % 2 == 0
    | LineThickerThanCircle   // lineHeight > 2 * cirRadius
    | TooWideForScreen        // widthOrHeight exceeds the screen width or height

  datatype Outcome = Pass | Fail(error: ConfigError)

  datatype Result<T> = Success(value: T) | Failure(error: ConfigError)

  /** The constructor's check, in the order the widget performs it, against a
      screen of the given size. */
  function Validate(totalStep: int, curStep: int, d: Dims, screenWidth: int, screenHeight: int): (r: Outcome)
    ensures r == Pass <==>
      && curStep >= 1
      && totalStep % 2 != 0
      && d.lineHeight <= 2 * d.cirRadius
      && Extent(totalStep, d) <= screenWidth
      && Extent(totalStep, d) <= screenHeight
    ensures r == Fail(CurrentStepBelowOne) <==> curStep < 1
    ensures r == Fail(EvenStepCount) <==> curStep >= 1 && totalStep % 2 == 0
    ensures r == Fail(LineThickerThanCircle) <==>
      curStep >= 1 && totalStep % 2 != 0 && d.lineHeight > 2 * d.cirRadius
  {
    if curStep < 1 then Fail(CurrentStepBelowOne)
    else if totalStep % 2 == 0 then Fail(EvenStepCount)
    else if d.lineHeight > d.cirRadius * 2 then Fail(LineThickerThanCircle)
    else
      var extent := Extent(totalStep, d);
      if extent > screenWidth || extent > screenHeight then Fail(TooWideForScreen)
      else Pass
  }

  /** A configuration that passes the check draws, for every step, a
      primitive inside its own measured box, and the length along the axis
      fits the screen whichever the axis. */
  lemma ValidatedFitsInBox(totalStep: int, curStep: int, d: Dims, screenWidth: int, screenHeight: int,
                           horizontal: bool, past: bool, step: int)
    requires NonNegative(d) && totalStep >= 1
    requires Validate(totalStep, curStep, d, screenWidth, screenHeight) == Pass
    requires 1 <= step <= totalStep
    ensures var (w, h) := Measure(totalStep, d, horizontal);
      && Inside(DrawCircleOrLine(horizontal, d, past, step), w, h)
      && (horizontal ==> w <= screenWidth)
      && (!horizontal ==> h <= screenHeight)
  {
    PrimitiveInside(totalStep, d, horizontal, past, step);
  }

  /** Only the parity of `totalStep` is checked: a negative odd count such as
      -1 passes (the extent is then non-positive, so even a 0 by 0 screen admits it), and
      `OnDraw` emits nothing for it because its loop never runs. */
  lemma NegativeOddStepCountPasses(d: Dims)
    requires NonNegative(d) && d.lineHeight <= 2 * d.cirRadius
    ensures Validate(-1, 1, d, 0, 0) == Pass
    ensures Extent(-1, d) == -d.lineWidth - 2 * d.circleLineSpace
  {
  }

  /** The configuration fields that do not change after construction. */
  datatype Settings = Settings(totalStep: int, dims: Dims, horizontal: bool, commonOrder: bool)

  /** The drawing call for step `i`: classify it, then place it. */
  function DrawShape(s: Settings, curStep: int, i: int): Primitive
    requires i >= 1
  {
    DrawCircleOrLine(s.horizontal, s.dims, IsPast(s.commonOrder, s.totalStep, curStep, i), i)
  }

  /** The drawing calls for steps 1..n, in order. */
  function Drawing(s: Settings, curStep: int, n: nat): (ps: seq<Primitive>)
    ensures |ps| == n
  {
    if n == 0 then [] else Drawing(s, curStep, n - 1) + [DrawShape(s, curStep, n)]
  }

  /** Every step 1..n is drawn once, in increasing order: position k of the
      drawing holds step k + 1. */
  lemma {:induction false} DrawingAt(s: Settings, curStep: int, n: nat, k: nat)
    requires k < n
    ensures Drawing(s, curStep, n)[k] == DrawShape(s, curStep, k + 1)
  {
    if k < n - 1 {
      DrawingAt(s, curStep, n - 1, k);
    }
  }

  function CountCircles(ps: seq<Primitive>): (c: nat)
    ensures c <= |ps|
  {
    if ps == [] then 0 else CountCircles(ps[..|ps| - 1]) + (if ps[|ps| - 1].Circle? then 1 else 0)
  }

  function CountPast(ps: seq<Primitive>): (c: nat)
    ensures c <= |ps|
  {
    if ps == [] then 0 else CountPast(ps[..|ps| - 1]) + (if ps[|ps| - 1].past then 1 else 0)
  }

  /** Steps 1..n contain (n + 1) / 2 circles. */
  lemma {:induction false} DrawingCircles(s: Settings, curStep: int, n: nat)
    ensures CountCircles(Drawing(s, curStep, n)) == (n + 1) / 2
  {
    if n > 0 {
      var ps := Drawing(s, curStep, n);
      assert ps[..n - 1] == Drawing(s, curStep, n - 1);
      DrawingCircles(s, curStep, n - 1);
      DrawnPrimitive(s.horizontal, s.dims, IsPast(s.commonOrder, s.totalStep, curStep, n), n);
    }
  }

  /** The past paint is used exactly for the steps the classification marks. */
  lemma {:induction false} DrawingPast(s: Settings, curStep: int, n: nat)
    ensures CountPast(Drawing(s, curStep, n)) == PastCount(s.commonOrder, s.totalStep, curStep, n)
  {
    if n > 0 {
      var ps := Drawing(s, curStep, n);
      assert ps[..n - 1] == Drawing(s, curStep, n - 1);
      DrawingPast(s, curStep, n - 1);
      DrawnPrimitive(s.horizontal, s.dims, IsPast(s.commonOrder, s.totalStep, curStep, n), n);
    }
  }

  /** What one redraw of a positive, odd number of steps shows: one circle
      per `CircleCount`, min(curStep, totalStep) steps in the past paint, and
      consecutive primitives separated by exactly `circleLineSpace`. */
  lemma FullDrawing(s: Settings, curStep: nat)
    requires s.totalStep >= 1 && s.totalStep % 2 == 1
    ensures var ps := Drawing(s, curStep, s.totalStep);
      && CountCircles(ps) == CircleCount(s.totalStep)
      && CountPast(ps) == Min(curStep, s.totalStep)
      && forall k :: 0 <= k < |ps| - 1 ==>
           AxisLead(ps[k + 1], s.horizontal) == AxisTrail(ps[k], s.horizontal) + s.dims.circleLineSpace
  {
    var ps := Drawing(s, curStep, s.totalStep);
    DrawingCircles(s, curStep, s.totalStep);
    DrawingPast(s, curStep, s.totalStep);
    PastCountIsCurStep(s.commonOrder, s.totalStep, curStep);
    forall k | 0 <= k < |ps| - 1
      ensures AxisLead(ps[k + 1], s.horizontal) == AxisTrail(ps[k], s.horizontal) + s.dims.circleLineSpace
    {
      DrawingAt(s, curStep, s.totalStep, k);
      DrawingAt(s, curStep, s.totalStep, k + 1);
      DrawnPrimitive(s.horizontal, s.dims, IsPast(s.commonOrder, s.totalStep, curStep, k + 1), k + 1);
      DrawnPrimitive(s.horizontal, s.dims, IsPast(s.commonOrder, s.totalStep, curStep, k + 2), k + 2);
      Contiguous(k + 1, s.dims);
    }
  }

  /** The widget. Paints, colours and the Android view plumbing are left out;
      `widthOrHeight` caches the extent computed at construction. */
  class StepView {
    var totalStep: int
    var curStep: int
    var cirRadius: int
    var lineWidth: int
    var lineHeight: int
    var circleLineSpace: int
    var horizontal: bool
    var commonOrder: bool
    var widthOrHeight: int

    function Geometry(): Dims
      reads this
    {
      Dims(cirRadius, lineWidth, lineHeight, circleLineSpace)
    }

    function Config(): Settings
      reads this
    {
      Settings(totalStep, Geometry(), horizontal, commonOrder)
    }

    /** The cached extent agrees with the configuration. */
    ghost predicate Valid()
      reads this
    {
      widthOrHeight == Extent(totalStep, Geometry())
    }

    /** Reading the attributes: store them, decode the orientation and
      compute the extent. No check happens here (see `Create`). */
    constructor (totalStep: int, curStep: int, cirRadius: int, lineWidth: int, lineHeight: int,
                 circleLineSpace: int, orientation: int)
      ensures Valid()
      ensures this.totalStep == totalStep && this.curStep == curStep
      ensures Geometry() == Dims(cirRadius, lineWidth, lineHeight, circleLineSpace)
      ensures Orientation(horizontal, commonOrder) == DecodeOrientation(orientation)
    {
      this.totalStep := totalStep;
      this.curStep := curStep;
      this.cirRadius := cirRadius;
      this.lineWidth := lineWidth;
      this.lineHeight := lineHeight;
      this.circleLineSpace := circleLineSpace;
      var o := DecodeOrientation(orientation);
      horizontal := o.horizontal;
      commonOrder := o.commonOrder;
      var circleSize := Half(totalStep + 1);
      var lineSize := Half(totalStep - 1);
      widthOrHeight := circleSize * cirRadius * 2 + lineSize * lineWidth + lineSize * 2 * circleLineSpace;
    }

    /** The constructor's check against a screen of the given size. */
    method CheckValue(screenWidth: int, screenHeight: int) returns (r: Outcome)
      requires Valid()
      ensures r == Validate(totalStep, curStep, Geometry(), screenWidth, screenHeight)
    {
      if curStep < 1 {
        return Fail(CurrentStepBelowOne);
      }
      if totalStep % 2 == 0 {
        return Fail(EvenStepCount);
      }
      if lineHeight > cirRadius * 2 {
        return Fail(LineThickerThanCircle);
      }
      if widthOrHeight > screenWidth || widthOrHeight > screenHeight {
        return Fail(TooWideForScreen);
      }
      return Pass;
    }

    /** The Java constructor: read the attributes, then check them; a failed
      check yields no widget. */
    static method Create(totalStep: int, curStep: int, cirRadius: int, lineWidth: int, lineHeight: int,
                         circleLineSpace: int, orientation: int, screenWidth: int, screenHeight: int)
      returns (r: Result<StepView>)
      ensures var d := Layout.Dims(cirRadius, lineWidth, lineHeight, circleLineSpace);
        var check := Validate(totalStep, curStep, d, screenWidth, screenHeight);
        && (r.Failure? <==> check.Fail?)
        && (r.Failure? ==> r.error == check.error)
        && (r.Success? ==>
              && fresh(r.value) && r.value.Valid()
              && r.value.totalStep == totalStep && r.value.curStep == curStep
              && r.value.Geometry() == d
              && Orientation(r.value.horizontal, r.value.commonOrder) == DecodeOrientation(orientation))
    {
      var v := new StepView(totalStep, curStep, cirRadius, lineWidth, lineHeight, circleLineSpace, orientation);
      var check := v.CheckValue(screenWidth, screenHeight);
      if check.Fail? {
        return Failure(check.error);
      }
      return Success(v);
    }

    /** The measured size, as (width, height). */
    method OnMeasure() returns (width: int, height: int)
      requires Valid()
      ensures (width, height) == Measure(totalStep, Geometry(), horizontal)
    {
      if horizontal {
        width, height := widthOrHeight, cirRadius * 2;
      } else {
        width, height := cirRadius * 2, widthOrHeight;
      }
    }

    /** One redraw: steps 1..totalStep in order, each drawn once. */
    method OnDraw() returns (ps: seq<Primitive>)
      ensures ps == Drawing(Config(), curStep, if totalStep < 0 then 0 else totalStep)
    {
      ps := [];
      var i := 1;
      while i <= totalStep
        invariant 1 <= i <= (if totalStep < 0 then 0 else totalStep) + 1
        invariant ps == Drawing(Config(), curStep, i - 1)
      {
        ps := ps + [DrawShape(Config(), curStep, i)];
        i := i + 1;
      }
    }

    method GetCurStep() returns (c: int)
      ensures c == curStep
    {
      c := curStep;
    }

    /** Rejects a value below one and keeps the old one; otherwise stores it,
      with no upper bound. Nothing else changes. */
    method SetCurStep(v: int) returns (r: Outcome)
      modifies this`curStep
      ensures r == (if v <= 0 then Fail(CurrentStepBelowOne) else Pass)
      ensures curStep == (if v <= 0 then old(curStep) else v)
      ensures Config() == old(Config()) && widthOrHeight == old(widthOrHeight)
      ensures Valid() == old(Valid())
    {
      if v <= 0 {
        return Fail(CurrentStepBelowOne);
      }
      curStep := v;
      return Pass;
    }
  }

  /** The worked example: seven steps of radius 5, lines of 30, gaps of 10
      and current step 3 measure 190 by 10; the common order marks steps
      1..3 past and the reversed order steps 5..7. */
  lemma SevenStepExample()
    ensures Extent(7, Layout.Dims(5, 30, 1, 10)) == 190
    ensures Measure(7, Layout.Dims(5, 30, 1, 10), true) == (190, 10)
    ensures forall i :: 1 <= i <= 7 ==> (IsPast(true, 7, 3, i) <==> i <= 3)
    ensures forall i :: 1 <= i <= 7 ==> (IsPast(false, 7, 3, i) <==> i >= 5)
  {
  }
}
