/** The `BezierCurve` class of project1_ide/bezier.js: four control points in
    space, the hard-coded cubic evaluator and its derivative, the vertex
    arrays the renderer uploads, control-point editing and the ping-pong
    animation of the curve parameter.  Every method that assigns to `this`
    is a function from the object's state before the call to its state
    after it. */
module BezierCurve {
  import opened Num
  import opened Vec3
  import opened Cubic
  import Bezier

  datatype Curve = Curve(
    controlPoints: seq<Vec>,
    isAnimating: bool,
    animationParameter: real,
    animationSpeed: real,
    animationDirection: int,
    curveResolution: int)

  /** The four control points the constructor and `resetCurve` install. */
  function DefaultPoints(): (ps: seq<Vec>)
    ensures |ps| == 4
  {
    [Vec(-4.0, 2.0, -3.0), Vec(-1.0, 6.0, 1.0), Vec(1.0, 6.0, 1.0), Vec(4.0, 2.0, -3.0)]
  }

  function Initial(): (c: Curve)
    ensures Valid(c)
  {
    Curve(DefaultPoints(), false, 0.0, 0.005, 1, 100)
  }

  /** What every method keeps: four points, a parameter on the curve, a
      unit direction and a speed inside the setter's range. */
  predicate Valid(c: Curve)
  {
    |c.controlPoints| == 4 &&
    0.0 <= c.animationParameter <= 1.0 &&
    (c.animationDirection == 1 || c.animationDirection == -1) &&
    0.001 <= c.animationSpeed <= 0.02
  }

  // ------------------------------------------------------------ evaluation

  /** `evaluateBezierCurve`: the cubic Bernstein form at t clamped to
      [0, 1]; it interpolates the end points. */
  function Evaluate(c: Curve, t: real): (p: Vec)
    requires |c.controlPoints| >= 4
    ensures t <= 0.0 ==> p == c.controlPoints[0]
    ensures t >= 1.0 ==> p == c.controlPoints[3]
  {
    var ps := c.controlPoints;
    Combine(CubicWeights(Clamp(t, 0.0, 1.0)), ps[0], ps[1], ps[2], ps[3])
  }

  /** The evaluated point is the one De Casteljau's construction reaches
      at the clamped parameter, so parameters outside [0, 1] give the
      nearer end point. */
  lemma EvaluateIsDeCasteljau(c: Curve, t: real)
    requires |c.controlPoints| >= 4
    ensures var ps, s := c.controlPoints, Clamp(t, 0.0, 1.0);
            var (q0, q1) := PenultimatePair(ps[0], ps[1], ps[2], ps[3], s);
            Evaluate(c, t) == Lerp(q0, q1, s) && Evaluate(c, t) == Evaluate(c, s)
  {
    var ps, s := c.controlPoints, Clamp(t, 0.0, 1.0);
    CubicIsDeCasteljau(ps[0], ps[1], ps[2], ps[3], s);
    assert Clamp(s, 0.0, 1.0) == s;
  }

  /** `getBezierTangent`: the derivative at t clamped to [0, 1]; at the
      ends it points along the first and last legs of the control
      polygon. */
  function Tangent(c: Curve, t: real): (d: Vec)
    requires |c.controlPoints| >= 4
    ensures t <= 0.0 ==> d == Scale(3.0, Sub(c.controlPoints[1], c.controlPoints[0]))
    ensures t >= 1.0 ==> d == Scale(3.0, Sub(c.controlPoints[3], c.controlPoints[2]))
  {
    var ps := c.controlPoints;
    Combine(DerivativeWeights(Clamp(t, 0.0, 1.0)), ps[0], ps[1], ps[2], ps[3])
  }

  /** The tangent is the hodograph: three times the difference of De
      Casteljau's second-to-last stage at the clamped parameter. */
  lemma TangentIsHodograph(c: Curve, t: real)
    requires |c.controlPoints| >= 4
    ensures var ps, s := c.controlPoints, Clamp(t, 0.0, 1.0);
            var (q0, q1) := PenultimatePair(ps[0], ps[1], ps[2], ps[3], s);
            Tangent(c, t) == Scale(3.0, Sub(q1, q0))
  {
    var ps, s := c.controlPoints, Clamp(t, 0.0, 1.0);
    DerivativeIsHodograph(ps[0], ps[1], ps[2], ps[3], s);
  }

  /** `getAnimatedPosition`. */
  function AnimatedPosition(c: Curve): (p: Vec)
    requires |c.controlPoints| >= 4
    ensures c.animationParameter == 0.0 ==> p == c.controlPoints[0]
    ensures c.animationParameter == 1.0 ==> p == c.controlPoints[3]
  {
    Evaluate(c, c.animationParameter)
  }

  // -------------------------------------------------------- vertex arrays

  /** The first k points `generateCurveVertices` visits: the curve at
      i / n for i = 0..k-1. */
  function CurveSamples(c: Curve, n: nat, k: nat): (ps: seq<Vec>)
    requires |c.controlPoints| >= 4 && n >= 1
    ensures |ps| == k
  {
    if k == 0 then [] else CurveSamples(c, n, k - 1) + [Evaluate(c, Bezier.SampleParameter(k - 1, n))]
  }

  /** The first k colours: red grows and blue fades along the curve. */
  function GradientColors(n: nat, k: nat): (cs: seq<Vec>)
    requires n >= 1
    ensures |cs| == k
  {
    if k == 0 then []
    else
      var t := Bezier.SampleParameter(k - 1, n);
      GradientColors(n, k - 1) + [Vec(t, 0.3, 1.0 - t)]
  }

  /** Sample i is the curve at i / n, and its colour is (i / n, 0.3,
      1 - i / n). */
  lemma {:induction false} SamplesAt(c: Curve, n: nat, k: nat, i: nat)
    requires |c.controlPoints| >= 4 && n >= 1 && i < k
    ensures CurveSamples(c, n, k)[i] == Evaluate(c, Bezier.SampleParameter(i, n))
    ensures var t := Bezier.SampleParameter(i, n);
            GradientColors(n, k)[i] == Vec(t, 0.3, 1.0 - t)
  {
    if i < k - 1 {
      SamplesAt(c, n, k - 1, i);
    }
  }

  /** Appending one point appends its three coordinates. */
  lemma FlattenSnoc(vs: seq<Vec>, v: Vec)
    ensures Flatten(vs + [v]) == Flatten(vs) + [v.x, v.y, v.z]
  {
    assert (vs + [v])[..|vs|] == vs;
  }

  /** `generateCurveVertices`: one point and one colour per i in
      0..curveResolution, starting at P0 and ending at P3.  A resolution of
      zero divides zero by zero and is excluded; a negative one runs the
      loop zero times. */
  method GenerateCurveVertices(c: Curve) returns (vertices: seq<real>, colors: seq<real>)
    requires |c.controlPoints| >= 4 && c.curveResolution != 0
    ensures c.curveResolution < 0 ==> vertices == [] && colors == []
    ensures c.curveResolution > 0 ==>
              var n := c.curveResolution;
              vertices == Flatten(CurveSamples(c, n, n + 1)) &&
              colors == Flatten(GradientColors(n, n + 1))
    ensures c.curveResolution > 0 ==> |vertices| == |colors| == 3 * (c.curveResolution + 1)
    ensures c.curveResolution > 0 ==>
              var p0, p3, n := c.controlPoints[0], c.controlPoints[3], c.curveResolution;
              vertices[0] == p0.x && vertices[1] == p0.y && vertices[2] == p0.z &&
              vertices[3 * n] == p3.x && vertices[3 * n + 1] == p3.y && vertices[3 * n + 2] == p3.z
  {
    vertices, colors := [], [];
    if c.curveResolution < 0 {
      return;
    }
    var n: nat := c.curveResolution;
    for i := 0 to n + 1
      invariant vertices == Flatten(CurveSamples(c, n, i)) && colors == Flatten(GradientColors(n, i))
    {
      var parameterT := Bezier.SampleParameter(i, n);
      var point := Evaluate(c, parameterT);
      FlattenSnoc(CurveSamples(c, n, i), point);
      FlattenSnoc(GradientColors(n, i), Vec(parameterT, 0.3, 1.0 - parameterT));
      vertices := vertices + [point.x, point.y, point.z];
      colors := colors + [parameterT, 0.3, 1.0 - parameterT];
    }
    SamplesEndAtControlPoints(c, n);
  }

  /** The first sample is P0 and the last is P3. */
  lemma SamplesEndAtControlPoints(c: Curve, n: nat)
    requires |c.controlPoints| >= 4 && n >= 1
    ensures var samples := CurveSamples(c, n, n + 1);
            samples[0] == c.controlPoints[0] && samples[n] == c.controlPoints[3]
  {
    var samples := CurveSamples(c, n, n + 1);
    SamplesAt(c, n, n + 1, 0);
    SamplesAt(c, n, n + 1, n);
    EvaluateAtEnds(c, n);
  }

  lemma EvaluateAtEnds(c: Curve, n: nat)
    requires |c.controlPoints| >= 4 && n >= 1
    ensures Evaluate(c, Bezier.SampleParameter(0, n)) == c.controlPoints[0]
    ensures Evaluate(c, Bezier.SampleParameter(n, n)) == c.controlPoints[3]
  {
    Bezier.SampleParameterEnds(n);
  }

  /** `generateControlPolygonVertices`: the control points in order, all
      grey. */
  function ControlPolygonVertices(c: Curve): (r: (seq<real>, seq<real>))
    ensures r.0 == Flatten(c.controlPoints)
    ensures |r.1| == |r.0|
    ensures forall i :: 0 <= i < |c.controlPoints| ==> r.1[3 * i] == r.1[3 * i + 1] == r.1[3 * i + 2] == 0.7
  {
    var gray := seq(|c.controlPoints|, i => Vec(0.7, 0.7, 0.7));
    assert forall i :: 0 <= i < |gray| ==> gray[i] == Vec(0.7, 0.7, 0.7);
    (Flatten(c.controlPoints), Flatten(gray))
  }

  /** The marker colour `generateControlPointVertices` gives point i: red,
      green, blue, then yellow for every later index. */
  function MarkerColor(i: int): Vec
  {
    if i == 0 then Vec(1.0, 0.0, 0.0)
    else if i == 1 then Vec(0.0, 1.0, 0.0)
    else if i == 2 then Vec(0.0, 0.0, 1.0)
    else Vec(1.0, 1.0, 0.0)
  }

  /** `generateControlPointVertices`: the control points in order with one
      distinct primary colour for each of the first three. */
  function ControlPointVertices(c: Curve): (r: (seq<real>, seq<real>))
    ensures r.0 == Flatten(c.controlPoints)
    ensures |r.1| == |r.0|
    ensures forall i, j :: 0 <= i < j < |c.controlPoints| && i < 3 ==>
              r.1[3 * i..3 * i + 3] != r.1[3 * j..3 * j + 3]
  {
    var colors := seq(|c.controlPoints|, i => MarkerColor(i));
    var flat := Flatten(colors);
    forall i, j | 0 <= i < j < |c.controlPoints| && i < 3
      ensures flat[3 * i..3 * i + 3] != flat[3 * j..3 * j + 3]
    {
      assert flat[3 * i..3 * i + 3] == [colors[i].x, colors[i].y, colors[i].z];
      assert flat[3 * j..3 * j + 3] == [colors[j].x, colors[j].y, colors[j].z];
    }
    (Flatten(c.controlPoints), flat)
  }

  // -------------------------------------------------------------- editing

  /** `updateControlPoint`: an index outside the array is ignored;
      otherwise exactly that point is replaced. */
  function UpdateControlPoint(c: Curve, index: int, x: real, y: real, z: real): (r: Curve)
    ensures !(0 <= index < |c.controlPoints|) ==> r == c
    ensures 0 <= index < |c.controlPoints| ==>
              r == c.(controlPoints := r.controlPoints) &&
              |r.controlPoints| == |c.controlPoints| &&
              r.controlPoints[index] == Vec(x, y, z) &&
              forall j :: 0 <= j < |c.controlPoints| && j != index ==> r.controlPoints[j] == c.controlPoints[j]
  {
    if 0 <= index < |c.controlPoints| then
      c.(controlPoints := c.controlPoints[index := Vec(x, y, z)])
    else c
  }

  /** The screen-to-world map of `setControlPointFromScreenCoordinates`:
      the canvas is stretched over a 20 by 15 window centred at the
      origin, with y flipped. */
  function ScreenToWorld(sx: real, sy: real, width: real, height: real): (w: (real, real))
    requires width != 0.0 && height != 0.0
    ensures sx == width / 2.0 && sy == height / 2.0 ==> w == (0.0, 0.0)
    ensures WorldToScreen(w.0, w.1, width, height) == (sx, sy)
  {
    var wx, wy := (sx / width - 0.5) * 20.0, -(sy / height - 0.5) * 15.0;
    AxesInverse(sx, sy, width, height, wx, wy);
    (wx, wy)
  }

  /** Undoing the window map on each axis. */
  lemma AxesInverse(sx: real, sy: real, width: real, height: real, wx: real, wy: real)
    requires width != 0.0 && height != 0.0
    requires wx == (sx / width - 0.5) * 20.0 && wy == -(sy / height - 0.5) * 15.0
    ensures WorldToScreen(wx, wy, width, height) == (sx, sy)
    ensures sx == width / 2.0 && sy == height / 2.0 ==> wx == 0.0 && wy == 0.0
  {
    ScaleBack(wx / 20.0 + 0.5, sx, width);
    ScaleBack(0.5 - wy / 15.0, sy, height);
    assert (wx / 20.0 + 0.5) * width == sx;
    assert (0.5 - wy / 15.0) * height == sy;
  }

  lemma ScaleBack(q: real, a: real, b: real)
    requires b != 0.0 && q == a / b
    ensures q * b == a
  {
  }

  /** Where a world point lands on the canvas under the same window. */
  function WorldToScreen(wx: real, wy: real, width: real, height: real): (real, real)
  {
    ((wx / 20.0 + 0.5) * width, (0.5 - wy / 15.0) * height)
  }

  /** The two maps are inverse to each other in both directions. */
  lemma ScreenWorldRoundTrip(wx: real, wy: real, width: real, height: real)
    requires width != 0.0 && height != 0.0
    ensures ScreenToWorld(WorldToScreen(wx, wy, width, height).0, WorldToScreen(wx, wy, width, height).1,
                          width, height) == (wx, wy)
  {
    DivideBack(WorldToScreen(wx, wy, width, height).0, wx / 20.0 + 0.5, width);
    DivideBack(WorldToScreen(wx, wy, width, height).1, 0.5 - wy / 15.0, height);
  }

  lemma DivideBack(x: real, q: real, b: real)
    requires b != 0.0 && x == q * b
    ensures x / b == q
  {
  }

  /** `setControlPointFromScreenCoordinates`: the x and y of the chosen
      point come from the canvas position, z is kept, and an index outside
      the array is ignored.  The canvas size divides only when the index
      is valid. */
  function SetControlPointFromScreen(c: Curve, index: int, sx: real, sy: real, width: real, height: real): (r: Curve)
    requires 0 <= index < |c.controlPoints| ==> width != 0.0 && height != 0.0
    ensures !(0 <= index < |c.controlPoints|) ==> r == c
    ensures 0 <= index < |c.controlPoints| ==>
              index < |r.controlPoints| && var p := r.controlPoints[index];
              p.z == c.controlPoints[index].z &&
              WorldToScreen(p.x, p.y, width, height) == (sx, sy) &&
              r == UpdateControlPoint(c, index, p.x, p.y, p.z)
  {
    if 0 <= index < |c.controlPoints| then
      var w := ScreenToWorld(sx, sy, width, height);
      UpdateControlPoint(c, index, w.0, w.1, c.controlPoints[index].z)
    else c
  }

  // ------------------------------------------------------------ animation

  /** `startAnimation`: playing from the start, moving forwards. */
  function StartAnimation(c: Curve): (r: Curve)
    ensures r.isAnimating && AnimatedPositionIsStart(r)
    ensures r.(isAnimating := c.isAnimating, animationParameter := c.animationParameter,
               animationDirection := c.animationDirection) == c
  {
    c.(isAnimating := true, animationParameter := 0.0, animationDirection := 1)
  }

  /** The parameter is at the start of the curve, moving forwards. */
  predicate AnimatedPositionIsStart(c: Curve)
  {
    c.animationParameter == 0.0 && c.animationDirection == 1
  }

  /** `stopAnimation`: only the flag changes. */
  function StopAnimation(c: Curve): (r: Curve)
    ensures !r.isAnimating && r.(isAnimating := c.isAnimating) == c
  {
    c.(isAnimating := false)
  }

  /** `toggleAnimation`: flips the flag and returns its new value. */
  function ToggleAnimation(c: Curve): (r: (Curve, bool))
    ensures r.1 == r.0.isAnimating && r.1 != c.isAnimating
    ensures r.0.(isAnimating := c.isAnimating) == c
  {
    var flipped := c.(isAnimating := !c.isAnimating);
    (flipped, flipped.isAnimating)
  }

  /** Toggling twice restores the state; stopping after starting leaves the
      parameter at the start of the curve. */
  lemma AnimationControls(c: Curve)
    ensures ToggleAnimation(ToggleAnimation(c).0).0 == c
    ensures StopAnimation(c) == (if c.isAnimating then ToggleAnimation(c).0 else c)
    ensures StartAnimation(StopAnimation(StartAnimation(c))) == StartAnimation(c)
  {
  }

  /** `updateAnimation`: when playing, advance by speed times direction;
      on reaching or passing an end, stop exactly at that end and reverse. */
  function UpdateAnimation(c: Curve): (r: Curve)
    ensures !c.isAnimating ==> r == c
    ensures c.isAnimating ==> 0.0 <= r.animationParameter <= 1.0
    ensures c.isAnimating ==>
              var next := c.animationParameter + c.animationSpeed * c.animationDirection as real;
              (next >= 1.0 <==> r.animationParameter == 1.0 && r.animationDirection == -1) &&
              (next <= 0.0 <==> r.animationParameter == 0.0 && r.animationDirection == 1) &&
              (0.0 < next < 1.0 ==> r.animationParameter == next && r.animationDirection == c.animationDirection)
    ensures c.isAnimating && r.animationParameter == 0.0 ==> r.animationDirection == 1
    ensures r.(animationParameter := c.animationParameter, animationDirection := c.animationDirection) == c
  {
    if !c.isAnimating then c
    else
      var next := c.animationParameter + c.animationSpeed * c.animationDirection as real;
      if next >= 1.0 then c.(animationParameter := 1.0, animationDirection := -1)
      else if next <= 0.0 then c.(animationParameter := 0.0, animationDirection := 1)
      else c.(animationParameter := next)
  }

  /** The ping-pong: a playing valid curve that hits the far end turns
      around, and the next frame moves it back by one speed step. */
  lemma UpdateAnimationBounces(c: Curve)
    requires Valid(c) && c.isAnimating && c.animationDirection == 1
    requires c.animationParameter + c.animationSpeed >= 1.0
    ensures var r := UpdateAnimation(c);
            r.animationParameter == 1.0 && r.animationDirection == -1 &&
            UpdateAnimation(r).animationParameter == 1.0 - c.animationSpeed &&
            UpdateAnimation(r).animationDirection == -1
  {
    var r := UpdateAnimation(c);
    assert r.animationParameter + r.animationSpeed * r.animationDirection as real == 1.0 - c.animationSpeed;
  }

  /** The other end of the ping-pong: a playing valid curve that reaches
      the start turns forward, and the next frame moves it on by one speed
      step. */
  lemma UpdateAnimationBouncesAtStart(c: Curve)
    requires Valid(c) && c.isAnimating && c.animationDirection == -1
    requires c.animationParameter - c.animationSpeed <= 0.0
    ensures var r := UpdateAnimation(c);
            r.animationParameter == 0.0 && r.animationDirection == 1 &&
            UpdateAnimation(r).animationParameter == c.animationSpeed &&
            UpdateAnimation(r).animationDirection == 1
  {
    var r := UpdateAnimation(c);
    assert r.animationParameter + r.animationSpeed * r.animationDirection as real == c.animationSpeed;
  }

  /** `setAnimationSpeed`: the speed is clamped to [0.001, 0.02]. */
  function SetAnimationSpeed(c: Curve, speed: real): (r: Curve)
    ensures 0.001 <= r.animationSpeed <= 0.02
    ensures 0.001 <= speed <= 0.02 ==> r.animationSpeed == speed
    ensures r.(animationSpeed := c.animationSpeed) == c
  {
    c.(animationSpeed := Clamp(speed, 0.001, 0.02))
  }

  /** `resetCurve`: the default points, parameter 0 and direction 1; the
      playing flag, the speed and the resolution are kept. */
  function ResetCurve(c: Curve): (r: Curve)
    ensures r == Initial().(isAnimating := c.isAnimating, animationSpeed := c.animationSpeed,
                            curveResolution := c.curveResolution)
    ensures AnimatedPositionIsStart(r)
  {
    c.(controlPoints := DefaultPoints(), animationParameter := 0.0, animationDirection := 1)
  }

  /** Every state-changing method keeps a valid curve valid. */
  lemma OperationsKeepValid(c: Curve, index: int, x: real, y: real, z: real, speed: real)
    requires Valid(c)
    ensures Valid(UpdateControlPoint(c, index, x, y, z))
    ensures Valid(StartAnimation(c)) && Valid(StopAnimation(c)) && Valid(ToggleAnimation(c).0)
    ensures Valid(UpdateAnimation(c))
    ensures Valid(SetAnimationSpeed(c, speed))
    ensures Valid(ResetCurve(c))
  {
  }
}
