/** The hard-coded cubic Bernstein form shared by project1_ide/bezier.js,
    project1/js/bezier.js, project1/js_ide/bezier.js and lab6/3/script.js:
    (1-t)^3 P0 + 3(1-t)^2 t P1 + 3(1-t) t^2 P2 + t^3 P3, and the first
    derivative project1_ide/bezier.js uses for tangents.  Each copy spells
    the products slightly differently ((1-t)(1-t)(1-t), uu*u, mt2*mt); over
    exact reals they are the same numbers, so one definition serves all. */
module Cubic {
  import opened Num
  import opened Vec3
  import Bezier

  /** The four Bernstein weights of degree three. */
  datatype Weights4 = Weights4(b0: real, b1: real, b2: real, b3: real)

  function CubicWeights(t: real): (w: Weights4)
    ensures w.b0 + w.b1 + w.b2 + w.b3 == 1.0
    ensures t == 0.0 ==> w == Weights4(1.0, 0.0, 0.0, 0.0)
    ensures t == 1.0 ==> w == Weights4(0.0, 0.0, 0.0, 1.0)
  {
    var u := 1.0 - t;
    assert (u + t) * (u + t) * (u + t) == 1.0;
    Weights4(u * u * u, 3.0 * u * u * t, 3.0 * u * t * t, t * t * t)
  }

  /** On [0, 1] every weight is non-negative, so a cubic point is a convex
      combination of the control points. */
  lemma CubicWeightsNonNegative(t: real)
    requires 0.0 <= t <= 1.0
    ensures var w := CubicWeights(t);
            0.0 <= w.b0 && 0.0 <= w.b1 && 0.0 <= w.b2 && 0.0 <= w.b3
  {
    var u := 1.0 - t;
    var uu, tt := u * u, t * t;
    ProductNonNegative(u, u);
    ProductNonNegative(t, t);
    ProductNonNegative(uu, u);
    ProductNonNegative(3.0 * uu, t);
    ProductNonNegative(3.0 * u, t);
    ProductNonNegative(3.0 * u * t, t);
    ProductNonNegative(tt, t);
  }

  lemma ProductNonNegative(a: real, b: real)
    requires 0.0 <= a && 0.0 <= b
    ensures 0.0 <= a * b
  {
  }

  /** The weights of the derivative: d/dt of the four cubic weights. */
  function DerivativeWeights(t: real): (w: Weights4)
    ensures w.b0 + w.b1 + w.b2 + w.b3 == 0.0
    ensures t == 0.0 ==> w == Weights4(-3.0, 3.0, 0.0, 0.0)
    ensures t == 1.0 ==> w == Weights4(0.0, 0.0, -3.0, 3.0)
  {
    var u := 1.0 - t;
    Weights4(-3.0 * u * u, 3.0 * u * u - 6.0 * u * t, 6.0 * u * t - 3.0 * t * t, 3.0 * t * t)
  }

  /** w0 P0 + w1 P1 + w2 P2 + w3 P3 in three dimensions. */
  function Combine(w: Weights4, p0: Vec, p1: Vec, p2: Vec, p3: Vec): Vec
  {
    Vec(Dot4(w, p0.x, p1.x, p2.x, p3.x), Dot4(w, p0.y, p1.y, p2.y, p3.y), Dot4(w, p0.z, p1.z, p2.z, p3.z))
  }

  /** The same combination of points in the plane. */
  function CombinePlanar(w: Weights4, p0: Bezier.Point, p1: Bezier.Point, p2: Bezier.Point, p3: Bezier.Point): Bezier.Point
  {
    Bezier.Point(Dot4(w, p0.x, p1.x, p2.x, p3.x), Dot4(w, p0.y, p1.y, p2.y, p3.y))
  }

  /** Linear interpolation of two space points, one coordinate at a time. */
  function Lerp(a: Vec, b: Vec, t: real): Vec
  {
    Vec(Mix(a.x, b.x, t), Mix(a.y, b.y, t), Mix(a.z, b.z, t))
  }

  /** a + (b - a) t: the interpolation step on one coordinate. */
  function Mix(a: real, b: real, t: real): real { a + (b - a) * t }

  /** The two points of De Casteljau's second-to-last stage for four
      control points. */
  function PenultimatePair(p0: Vec, p1: Vec, p2: Vec, p3: Vec, t: real): (Vec, Vec)
  {
    var a, b, c := Lerp(p0, p1, t), Lerp(p1, p2, t), Lerp(p2, p3, t);
    (Lerp(a, b, t), Lerp(b, c, t))
  }

  /** w0 x0 + w1 x1 + w2 x2 + w3 x3 for one coordinate. */
  function Dot4(w: Weights4, x0: real, x1: real, x2: real, x3: real): real
  {
    w.b0 * x0 + w.b1 * x1 + w.b2 * x2 + w.b3 * x3
  }

  /** Three rounds of interpolation on one coordinate. */
  function Nested(x0: real, x1: real, x2: real, x3: real, t: real): real
  {
    var a, b, c := Mix(x0, x1, t), Mix(x1, x2, t), Mix(x2, x3, t);
    Mix(Mix(a, b, t), Mix(b, c, t), t)
  }

  /** Three times the difference of the second-to-last stage, one coordinate. */
  function NestedSlope(x0: real, x1: real, x2: real, x3: real, t: real): real
  {
    var a, b, c := Mix(x0, x1, t), Mix(x1, x2, t), Mix(x2, x3, t);
    3.0 * (Mix(b, c, t) - Mix(a, b, t))
  }

  /** One interpolation step is the convex combination u a + t b with
      u = 1 - t. */
  lemma MixIsConvex(a: real, b: real, u: real, t: real)
    requires u == 1.0 - t
    ensures Mix(a, b, t) == u * a + t * b
  {
  }

  /** Three rounds of convex combination, multiplied out. */
  lemma ExpandThreeRounds(x0: real, x1: real, x2: real, x3: real, u: real, t: real)
    ensures u * (u * (u * x0 + t * x1) + t * (u * x1 + t * x2)) + t * (u * (u * x1 + t * x2) + t * (u * x2 + t * x3))
         == u * u * u * x0 + 3.0 * u * u * t * x1 + 3.0 * u * t * t * x2 + t * t * t * x3
  {
  }

  /** Three rounds of interpolation give the Bernstein form in u = 1 - t. */
  lemma NestedExpansion(x0: real, x1: real, x2: real, x3: real, u: real, t: real)
    requires u == 1.0 - t
    ensures Nested(x0, x1, x2, x3, t) == u * u * u * x0 + 3.0 * u * u * t * x1 + 3.0 * u * t * t * x2 + t * t * t * x3
  {
    MixIsConvex(x0, x1, u, t);
    MixIsConvex(x1, x2, u, t);
    MixIsConvex(x2, x3, u, t);
    MixIsConvex(u * x0 + t * x1, u * x1 + t * x2, u, t);
    MixIsConvex(u * x1 + t * x2, u * x2 + t * x3, u, t);
    MixIsConvex(u * (u * x0 + t * x1) + t * (u * x1 + t * x2), u * (u * x1 + t * x2) + t * (u * x2 + t * x3), u, t);
    ExpandThreeRounds(x0, x1, x2, x3, u, t);
  }

  /** The cubic combination written out in u = 1 - t. */
  lemma CubicCombination(x0: real, x1: real, x2: real, x3: real, u: real, t: real)
    requires u == 1.0 - t
    ensures Dot4(CubicWeights(t), x0, x1, x2, x3) ==
            u * u * u * x0 + 3.0 * u * u * t * x1 + 3.0 * u * t * t * x2 + t * t * t * x3
  {
  }

  /** One coordinate of the cubic form equals three rounds of interpolation. */
  lemma CoordinateIsDeCasteljau(x0: real, x1: real, x2: real, x3: real, t: real)
    ensures Dot4(CubicWeights(t), x0, x1, x2, x3) == Nested(x0, x1, x2, x3, t)
  {
    NestedExpansion(x0, x1, x2, x3, 1.0 - t, t);
    CubicCombination(x0, x1, x2, x3, 1.0 - t, t);
  }

  /** The derivative coordinate is three times the difference of the
      second-to-last stage. */
  lemma CoordinateDerivative(x0: real, x1: real, x2: real, x3: real, t: real)
    ensures Dot4(DerivativeWeights(t), x0, x1, x2, x3) == NestedSlope(x0, x1, x2, x3, t)
  {
    var u := 1.0 - t;
    var a, b, c := x0 + (x1 - x0) * t, x1 + (x2 - x1) * t, x2 + (x3 - x2) * t;
    assert NestedSlope(x0, x1, x2, x3, t) == 3.0 * ((b + (c - b) * t) - (a + (b - a) * t));
    assert Dot4(DerivativeWeights(t), x0, x1, x2, x3) ==
           (-3.0 * u * u) * x0 + (3.0 * u * u - 6.0 * u * t) * x1 + (6.0 * u * t - 3.0 * t * t) * x2 + (3.0 * t * t) * x3;
  }

  /** In space the cubic form is the De Casteljau point of the four control
      points. */
  lemma CubicIsDeCasteljau(p0: Vec, p1: Vec, p2: Vec, p3: Vec, t: real)
    ensures var (q0, q1) := PenultimatePair(p0, p1, p2, p3, t);
            Combine(CubicWeights(t), p0, p1, p2, p3) == Lerp(q0, q1, t)
  {
    CoordinateIsDeCasteljau(p0.x, p1.x, p2.x, p3.x, t);
    CoordinateIsDeCasteljau(p0.y, p1.y, p2.y, p3.y, t);
    CoordinateIsDeCasteljau(p0.z, p1.z, p2.z, p3.z, t);
  }

  /** The derivative form is the hodograph 3 (Q1 - Q0). */
  lemma DerivativeIsHodograph(p0: Vec, p1: Vec, p2: Vec, p3: Vec, t: real)
    ensures var (q0, q1) := PenultimatePair(p0, p1, p2, p3, t);
            Combine(DerivativeWeights(t), p0, p1, p2, p3) == Scale(3.0, Sub(q1, q0))
  {
    CoordinateDerivative(p0.x, p1.x, p2.x, p3.x, t);
    CoordinateDerivative(p0.y, p1.y, p2.y, p3.y, t);
    CoordinateDerivative(p0.z, p1.z, p2.z, p3.z, t);
  }

  /** The first two rounds of the general algorithm on four planar points. */
  lemma PlanarStages(points: seq<Bezier.Point>, t: real)
    requires |points| == 4
    ensures var s1 := Bezier.NextStage(points, t);
            s1 == [Bezier.Lerp(points[0], points[1], t), Bezier.Lerp(points[1], points[2], t),
                   Bezier.Lerp(points[2], points[3], t)]
  {
  }

  /** The planar interpolation step is `Mix` on each coordinate. */
  lemma LerpCoordinates(p: Bezier.Point, q: Bezier.Point, t: real)
    ensures Bezier.Lerp(p, q, t) == Bezier.Point(Mix(p.x, q.x, t), Mix(p.y, q.y, t))
  {
    var r := Bezier.Lerp(p, q, t);
    assert r.x == p.x + (q.x - p.x) * t;
    assert r.y == p.y + (q.y - p.y) * t;
  }

  /** In the plane the cubic form is the point `Bezier.Final` computes from
      the same four control points: the hard-coded copies agree with the
      general-degree De Casteljau evaluator. */
  lemma PlanarCubicIsDeCasteljau(points: seq<Bezier.Point>, t: real)
    requires |points| == 4
    ensures CombinePlanar(CubicWeights(t), points[0], points[1], points[2], points[3]) == Bezier.Final(points, t)
  {
    var p0, p1, p2, p3 := points[0], points[1], points[2], points[3];
    var a, b, c := Bezier.Lerp(p0, p1, t), Bezier.Lerp(p1, p2, t), Bezier.Lerp(p2, p3, t);
    PlanarStages(points, t);
    var s1 := Bezier.NextStage(points, t);
    assert s1 == [a, b, c];
    var s2 := Bezier.NextStage(s1, t);
    assert s2 == [Bezier.Lerp(a, b, t), Bezier.Lerp(b, c, t)];
    var s3 := Bezier.NextStage(s2, t);
    assert s3 == [Bezier.Lerp(Bezier.Lerp(a, b, t), Bezier.Lerp(b, c, t), t)];
    assert Bezier.Final(points, t) == Bezier.Final(s1, t) == Bezier.Final(s2, t) == Bezier.Final(s3, t);
    LerpCoordinates(p0, p1, t);
    LerpCoordinates(p1, p2, t);
    LerpCoordinates(p2, p3, t);
    LerpCoordinates(a, b, t);
    LerpCoordinates(b, c, t);
    LerpCoordinates(Bezier.Lerp(a, b, t), Bezier.Lerp(b, c, t), t);
    CoordinateIsDeCasteljau(p0.x, p1.x, p2.x, p3.x, t);
    CoordinateIsDeCasteljau(p0.y, p1.y, p2.y, p3.y, t);
  }
}
