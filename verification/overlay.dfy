/** The draggable cubic on the 2D overlay canvas: the `Bezier` module object
    of project1/js/bezier.js and the equivalent `bezier_*` globals of
    project1/js_ide/bezier.js.  Both keep four planar control points, a
    pick radius, the animation parameter `t`, a play flag and a speed; each
    exported function that assigns to that state is a function from the
    state before the call to the state after it. */
module Overlay {
  import opened Num
  import opened Cubic
  import Bezier

  type Point = Bezier.Point

  datatype Editor = Editor(points: seq<Point>, radius: real, t: real, playing: bool, speed: real)

  function Initial(): (e: Editor)
    ensures Valid(e)
  {
    Editor([Bezier.Point(120.0, 400.0), Bezier.Point(260.0, 220.0),
            Bezier.Point(540.0, 220.0), Bezier.Point(680.0, 400.0)],
           8.0, 0.0, false, 0.2)
  }

  /** What the exported functions keep: four points, `t` on the curve and a
      non-negative speed. */
  predicate Valid(e: Editor)
  {
    |e.points| == 4 && 0.0 <= e.t <= 1.0 && 0.0 <= e.speed
  }

  // ------------------------------------------------------------- sampling

  /** `samplePoint` / `bezier_sample_point_at_t`: the cubic Bernstein form
      at t, without clamping. */
  function SamplePoint(e: Editor, t: real): (p: Point)
    requires |e.points| >= 4
    ensures t == 0.0 ==> p == e.points[0]
    ensures t == 1.0 ==> p == e.points[3]
  {
    CombinePlanar(CubicWeights(t), e.points[0], e.points[1], e.points[2], e.points[3])
  }

  /** The sampled point is the one the general De Casteljau evaluator
      reaches from the first four control points. */
  lemma SamplePointIsDeCasteljau(e: Editor, t: real)
    requires |e.points| >= 4
    ensures SamplePoint(e, t) == Bezier.Final(e.points[..4], t)
  {
    var ps := e.points[..4];
    PlanarCubicIsDeCasteljau(ps, t);
    assert ps[0] == e.points[0] && ps[1] == e.points[1] && ps[2] == e.points[2] && ps[3] == e.points[3];
  }

  /** `pointAt` / `bezier_point_at_parameter`: the sample at t clamped to
      [0, 1], so parameters beyond an end give that end point. */
  function PointAt(e: Editor, t: real): (p: Point)
    requires |e.points| >= 4
    ensures p == SamplePoint(e, Clamp(t, 0.0, 1.0))
    ensures t <= 0.0 ==> p == e.points[0]
    ensures t >= 1.0 ==> p == e.points[3]
  {
    SamplePoint(e, Max(0.0, Min(1.0, t)))
  }

  // -------------------------------------------------------------- picking

  /** The hit test of `pick`: squared distance at most twice the squared
      radius. */
  predicate Within(p: Point, x: real, y: real, radius: real)
  {
    (x - p.x) * (x - p.x) + (y - p.y) * (y - p.y) <= radius * radius * 2.0
  }

  /** `pick` / `bezier_pick_control_point`: scans from the last point down
      and returns the first hit, so the highest index that is within reach,
      or -1 when none is. */
  method Pick(e: Editor, x: real, y: real) returns (r: int)
    ensures -1 <= r < |e.points|
    ensures r == -1 <==> forall i :: 0 <= i < |e.points| ==> !Within(e.points[i], x, y, e.radius)
    ensures r >= 0 ==> Within(e.points[r], x, y, e.radius)
    ensures r >= 0 ==> forall i :: r < i < |e.points| ==> !Within(e.points[i], x, y, e.radius)
  {
    var i := |e.points| - 1;
    while i >= 0
      invariant -1 <= i < |e.points|
      invariant forall j :: i < j < |e.points| ==> !Within(e.points[j], x, y, e.radius)
    {
      var p := e.points[i];
      var dx, dy := x - p.x, y - p.y;
      if dx * dx + dy * dy <= e.radius * e.radius * 2.0 {
        return i;
      }
      i := i - 1;
    }
    return -1;
  }

  // ----------------------------------------------------------- the points

  /** `getPoints` / `bezier_get_control_points`: a copy of the points. */
  function GetPoints(e: Editor): (ps: seq<Point>)
    ensures |ps| == |e.points| && forall i :: 0 <= i < |ps| ==> ps[i] == e.points[i]
  {
    seq(|e.points|, i requires 0 <= i < |e.points| => Bezier.Point(e.points[i].x, e.points[i].y))
  }

  /** `setPoints` / `bezier_set_control_points`: a missing argument or one
      whose length is not 4 is ignored. */
  function SetPoints(e: Editor, pts: Option<seq<Point>>): (r: Editor)
    ensures pts.Some? && |pts.value| == 4 ==> r == e.(points := pts.value)
    ensures !(pts.Some? && |pts.value| == 4) ==> r == e
  {
    if pts.Some? && |pts.value| == 4 then
      var copy := seq(4, i requires 0 <= i < 4 => Bezier.Point(pts.value[i].x, pts.value[i].y));
      assert copy == pts.value;
      e.(points := copy)
    else e
  }

  /** Getting and setting the points are inverse to each other. */
  lemma PointsRoundTrip(e: Editor, pts: seq<Point>)
    requires |pts| == 4
    ensures |e.points| == 4 ==> SetPoints(e, Some(GetPoints(e))) == e
    ensures GetPoints(SetPoints(e, Some(pts))) == pts
  {
    assert GetPoints(e) == e.points;
  }

  // ------------------------------------------------------------ animation

  /** `setT` / `bezier_set_t`. */
  function SetT(e: Editor, t: real): (r: Editor)
    ensures 0.0 <= r.t <= 1.0
    ensures 0.0 <= t <= 1.0 ==> r.t == t
    ensures r.(t := e.t) == e
  {
    e.(t := Max(0.0, Min(1.0, t)))
  }

  /** `setSpeed` / `bezier_set_speed`: negative speeds become zero. */
  function SetSpeed(e: Editor, speed: real): (r: Editor)
    ensures 0.0 <= r.speed
    ensures 0.0 <= speed ==> r.speed == speed
    ensures r.(speed := e.speed) == e
  {
    e.(speed := Max(0.0, speed))
  }

  function Play(e: Editor): (r: Editor)
    ensures r.playing && r.(playing := e.playing) == e
  {
    e.(playing := true)
  }

  function Pause(e: Editor): (r: Editor)
    ensures !r.playing && r.(playing := e.playing) == e
  {
    e.(playing := false)
  }

  function ResetT(e: Editor): (r: Editor)
    ensures r.t == 0.0 && r.(t := e.t) == e
  {
    e.(t := 0.0)
  }

  /** ceil(y), from the floor Dafny provides. */
  function Ceil(y: real): (n: int)
    ensures (n - 1) as real < y <= n as real
  {
    -((-y).Floor)
  }

  /** The closed form of the wrap loop: a value above 1 loses the least
      whole number that brings it to at most 1. */
  function WrapUnit(x: real): (w: real)
    ensures x <= 1.0 ==> w == x
    ensures 1.0 < x ==> 0.0 < w <= 1.0 && 1.0 <= x - w && (x - w).Floor as real == x - w
  {
    if x <= 1.0 then x else x - Ceil(x - 1.0) as real
  }

  /** `step` / `bezier_step`: when playing, advance t by speed times the
      elapsed time, then subtract 1 while t exceeds 1. */
  method Step(e: Editor, dt: real) returns (r: Editor)
    ensures !e.playing ==> r == e
    ensures e.playing ==> r == e.(t := WrapUnit(e.t + e.speed * dt))
  {
    if !e.playing {
      return e;
    }
    var x := e.t + e.speed * dt;
    var t := x;
    ghost var n: nat := 0;
    while t > 1.0
      invariant t == x - n as real
      invariant n > 0 ==> 0.0 < t
      decreases if t > 1.0 then t.Floor else 0
    {
      t := t - 1.0;
      n := n + 1;
    }
    WrapLoopResult(x, n);
    r := e.(t := t);
  }

  /** The loop stops after exactly ceil(x - 1) subtractions. */
  lemma WrapLoopResult(x: real, n: nat)
    requires x - n as real <= 1.0
    requires n > 0 ==> 0.0 < x - n as real
    ensures x - n as real == WrapUnit(x)
  {
    if x > 1.0 {
      assert n as real - 1.0 < x - 1.0 <= n as real;
      assert Ceil(x - 1.0) == n;
    }
  }

  /** A playing editor moving forwards in time keeps t on the curve. */
  lemma WrapKeepsParameterOnCurve(e: Editor, dt: real)
    requires Valid(e) && 0.0 <= dt
    ensures 0.0 <= WrapUnit(e.t + e.speed * dt) <= 1.0
  {
    ProductNonNegative(e.speed, dt);
  }

  /** Every exported setter keeps a valid editor valid, whatever its
      argument. */
  lemma SettersKeepValid(e: Editor, pts: Option<seq<Point>>, t: real, speed: real)
    requires Valid(e)
    ensures Valid(SetPoints(e, pts)) && Valid(SetT(e, t)) && Valid(SetSpeed(e, speed))
    ensures Valid(Play(e)) && Valid(Pause(e)) && Valid(ResetT(e))
  {
  }
}
