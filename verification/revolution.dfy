/** The Bézier surface of revolution of lab6/3/script.js: a planar cubic
    profile (radius, height) is swept about the z axis through a given
    angle, sampled on a (curveSteps + 1) x (slices + 1) grid whose sizes
    come from one of three tessellation levels, and indexed with the same
    two-triangle quads as the other grid meshes.  The profile is
    `bezierPoint`, the mesh `generateMesh`. */
module Revolution {
  import opened Num
  import opened Vec3
  import opened Grid
  import opened Cubic
  import Meshes

  // --------------------------------------------------------------- profile

  /** A point of the profile: distance from the z axis and height. */
  datatype ProfilePoint = ProfilePoint(r: real, z: real)

  /** `bezierPoint(t)`: the cubic through the control points (0.05, -0.8),
      (0.3, -0.4), (0.25, 0.2) and (0.08, 0.8). */
  function Profile(t: real): (p: ProfilePoint)
    ensures t == 0.0 ==> p == ProfilePoint(0.05, -0.8)
    ensures t == 1.0 ==> p == ProfilePoint(0.08, 0.8)
  {
    var w := CubicWeights(t);
    ProfilePoint(Dot4(w, 0.05, 0.3, 0.25, 0.08), Dot4(w, -0.8, -0.4, 0.2, 0.8))
  }

  /** On [0, 1] the profile stays inside the box of its control points:
      height in [-0.8, 0.8] and radius in [0.05, 0.3]. */
  lemma ProfileBounds(t: real)
    requires 0.0 <= t <= 1.0
    ensures ZMin <= Profile(t).z <= ZMax
    ensures 0.05 <= Profile(t).r <= 0.3
  {
    CubicWeightsNonNegative(t);
    ConvexProfile(CubicWeights(t));
  }

  lemma ConvexProfile(w: Weights4)
    requires 0.0 <= w.b0 && 0.0 <= w.b1 && 0.0 <= w.b2 && 0.0 <= w.b3
    requires w.b0 + w.b1 + w.b2 + w.b3 == 1.0
    ensures -0.8 <= Dot4(w, -0.8, -0.4, 0.2, 0.8) <= 0.8
    ensures 0.05 <= Dot4(w, 0.05, 0.3, 0.25, 0.08) <= 0.3
  {
  }

  /** The height range the colours and texture coordinates normalise by. */
  const ZMin: real := -0.8
  const ZMax: real := 0.8

  /** (z - zMin) / zRange: the colour ramp `h` and the texture coordinate
      `v`; it maps the profile's height range onto [0, 1]. */
  function Shade(z: real): (h: real)
    ensures ZMin <= z <= ZMax ==> 0.0 <= h <= 1.0
    ensures z == ZMin ==> h == 0.0
    ensures z == ZMax ==> h == 1.0
  {
    (z - ZMin) / (ZMax - ZMin)
  }

  // ----------------------------------------------------------------- levels

  datatype Level = Level(curveSteps: nat, baseSlices: nat, name: string)

  /** `TESSELLATION_LEVELS[level]`: only the keys 1, 2 and 3 exist; any
      other level yields `undefined`, on which `generateMesh` fails. */
  function TessellationLevel(level: int): (l: Option<Level>)
    ensures l.Some? <==> 1 <= level <= 3
    ensures l.Some? ==> 0 < l.value.curveSteps <= 32 && l.value.baseSlices == 2 * l.value.curveSteps
  {
    if level == 1 then Some(Level(8, 16, "Low"))
    else if level == 2 then Some(Level(16, 32, "Medium"))
    else if level == 3 then Some(Level(32, 64, "High"))
    else None
  }

  /** max(3, floor(baseSlices * angle / 360)): never fewer than three
      slices, and for a sweep of at most a full turn never more than the
      level's base count (or three). */
  function Slices(baseSlices: nat, angle: real): (n: nat)
    ensures n >= 3
    ensures (baseSlices as real * angle / 360.0).Floor <= n
    ensures n > 3 ==> n as real <= baseSlices as real * angle / 360.0 < n as real + 1.0
    ensures angle <= 360.0 ==> n <= (if baseSlices < 3 then 3 else baseSlices)
  {
    var f := (baseSlices as real * angle / 360.0).Floor;
    assert angle <= 360.0 ==> baseSlices as real * angle / 360.0 <= baseSlices as real by {
      if angle <= 360.0 {
        ShareOfTurn(baseSlices as real, angle);
      }
    }
    if 3 >= f then 3 else f
  }

  lemma ShareOfTurn(b: real, angle: real)
    requires 0.0 <= b && angle <= 360.0
    ensures b * angle / 360.0 <= b
  {
    assert b * angle <= b * 360.0;
  }

  // ---------------------------------------------------------------- vertices

  /** One vertex: position, colour (1, h, 1 - h) and texture coordinate
      (u, v). */
  datatype Vertex = Vertex(position: Vec, color: Vec, uv: (real, real))

  /** Vertex (i, j): the profile at t = i / curveSteps turned by
      theta = sweepRad * j / slices about the z axis, `trig` standing for
      cosine and sine. */
  function SweepVertex(trig: Trig, angle: real, curveSteps: nat, slices: nat): (int, int) -> Vertex
    requires curveSteps > 0 && slices > 0
  {
    (i, j) => Turned(Profile(i as real / curveSteps as real), trig(SweepAngle(angle, slices, j)), j as real / slices as real)
  }

  /** The profile point p turned by the angle a, with texture column u. */
  function Turned(p: ProfilePoint, a: Angle, u: real): Vertex
  {
    var h := Shade(p.z);
    Vertex(Vec(p.r * a.c, p.r * a.s, p.z), Vec(1.0, h, 1.0 - h), (u, h))
  }

  /** theta = (angle * PI / 180) * j / slices: column 0 is at angle 0 and
      column `slices` at the whole sweep. */
  function SweepAngle(angle: real, slices: nat, j: int): (theta: real)
    requires slices > 0
    ensures j == 0 ==> theta == 0.0
    ensures j == slices ==> theta == DegToRad(angle)
  {
    angle * PI / 180.0 * j as real / slices as real
  }

  /** Inside the grid every vertex has u, v and its colour in [0, 1] and
      its height in the profile's range. */
  lemma SweepVertexBounds(trig: Trig, angle: real, curveSteps: nat, slices: nat, i: int, j: int)
    requires curveSteps > 0 && slices > 0
    requires 0 <= i <= curveSteps && 0 <= j <= slices
    ensures var v := SweepVertex(trig, angle, curveSteps, slices)(i, j);
      0.0 <= v.uv.0 <= 1.0 && 0.0 <= v.uv.1 <= 1.0 &&
      Meshes.InUnitCube(v.color) && ZMin <= v.position.z <= ZMax
  {
    Meshes.UnitFraction(i as real, curveSteps as real, i as real / curveSteps as real);
    Meshes.UnitFraction(j as real, slices as real, j as real / slices as real);
    ProfileBounds(i as real / curveSteps as real);
    TurnedBounds(Profile(i as real / curveSteps as real), trig(SweepAngle(angle, slices, j)), j as real / slices as real);
  }

  lemma TurnedBounds(p: ProfilePoint, a: Angle, u: real)
    requires ZMin <= p.z <= ZMax && 0.0 <= u <= 1.0
    ensures var v := Turned(p, a, u);
      0.0 <= v.uv.0 <= 1.0 && 0.0 <= v.uv.1 <= 1.0 &&
      Meshes.InUnitCube(v.color) && ZMin <= v.position.z <= ZMax
  {
  }

  /** v lies on the surface swept by the profile point p: at distance
      p.r from the z axis and at height p.z. */
  predicate OnSweep(v: Vertex, p: ProfilePoint)
  {
    v.position.x * v.position.x + v.position.y * v.position.y == p.r * p.r && v.position.z == p.z
  }

  /** With a true cosine and sine every vertex lies on the surface of
      revolution of the profile: vertex (i, j) on the circle of profile
      point i / curveSteps. */
  lemma SweepOnSurface(trig: Trig, angle: real, curveSteps: nat, slices: nat, i: int, j: int)
    requires curveSteps > 0 && slices > 0
    requires forall a :: IsUnit(trig(a))
    ensures OnSweep(SweepVertex(trig, angle, curveSteps, slices)(i, j), Profile(i as real / curveSteps as real))
  {
    var a := trig(SweepAngle(angle, slices, j));
    assert IsUnit(a);
    TurnedOnCircle(Profile(i as real / curveSteps as real), a, j as real / slices as real);
  }

  lemma TurnedOnCircle(p: ProfilePoint, a: Angle, u: real)
    requires IsUnit(a)
    ensures OnSweep(Turned(p, a, u), p)
  {
    Meshes.OnCircle(p.r, a.c, a.s);
  }

  // ------------------------------------------------------------------ mesh

  /** Two floats per texture coordinate. */
  function FlattenPairs(uvs: seq<(real, real)>): (r: seq<real>)
    ensures |r| == 2 * |uvs|
    ensures forall k :: 0 <= k < |uvs| ==> r[2 * k] == uvs[k].0 && r[2 * k + 1] == uvs[k].1
  {
    if uvs == [] then []
    else FlattenPairs(uvs[..|uvs| - 1]) + [uvs[|uvs| - 1].0, uvs[|uvs| - 1].1]
  }

  datatype RevolutionMesh = RevolutionMesh(
    positions: seq<real>, colors: seq<real>, texcoords: seq<real>, indices: seq<int>,
    vertexCount: nat, triangleCount: nat)

  function Arrays(vs: seq<Vertex>, indices: seq<int>, vertexCount: nat, triangleCount: nat): (m: RevolutionMesh)
    ensures |m.positions| == 3 * |vs| && |m.colors| == 3 * |vs| && |m.texcoords| == 2 * |vs|
  {
    RevolutionMesh(
      Flatten(seq(|vs|, k requires 0 <= k < |vs| => vs[k].position)),
      Flatten(seq(|vs|, k requires 0 <= k < |vs| => vs[k].color)),
      FlattenPairs(seq(|vs|, k requires 0 <= k < |vs| => vs[k].uv)),
      ToUint16(indices), vertexCount, triangleCount)
  }

  /** `generateMesh(angle, level)` for a known level, as a value. */
  function SweepMesh(trig: Trig, angle: real, l: Level): RevolutionMesh
    requires l.curveSteps > 0
  {
    var slices := Slices(l.baseSlices, angle);
    Arrays(GridPoints(SweepVertex(trig, angle, l.curveSteps, slices), l.curveSteps + 1, slices),
           GridIndices(0, l.curveSteps, slices),
           (l.curveSteps + 1) * (slices + 1), 2 * (l.curveSteps * slices))
  }

  /** `generateMesh(angle, level)`: fails on an unknown level; otherwise
      (curveSteps + 1)(slices + 1) vertices with three position, three
      colour and two texture floats each, 6 curveSteps slices indices, a
      triangle count of a third of that, and, for a sweep of at most a full
      turn, a vertex count within 16 bits, so the stored indices are the
      computed ones, all below the vertex count, every triangle proper. */
  method GenerateMesh(trig: Trig, angle: real, level: int) returns (r: Option<RevolutionMesh>)
    ensures r.None? <==> !(1 <= level <= 3)
    ensures r.Some? ==>
      var l := TessellationLevel(level).value;
      var slices := Slices(l.baseSlices, angle);
      var m := r.value;
      m == SweepMesh(trig, angle, l) &&
      m.vertexCount == (l.curveSteps + 1) * (slices + 1) &&
      |m.positions| == 3 * m.vertexCount && |m.colors| == |m.positions| &&
      |m.texcoords| == 2 * m.vertexCount &&
      |m.indices| == 6 * (l.curveSteps * slices) && 3 * m.triangleCount == |m.indices|
    ensures r.Some? && angle <= 360.0 ==>
      var l := TessellationLevel(level).value;
      var m := r.value;
      m.vertexCount <= 65536 &&
      m.indices == GridIndices(0, l.curveSteps, Slices(l.baseSlices, angle)) &&
      InRange(m.indices, 0, m.vertexCount) && TrianglesDistinct(m.indices)
  {
    var lv := TessellationLevel(level);
    if lv.None? {
      return None;
    }
    var l := lv.value;
    var slices := Slices(l.baseSlices, angle);
    var vs := EmitPoints(SweepVertex(trig, angle, l.curveSteps, slices), l.curveSteps, slices);
    var indices := EmitQuads(0, l.curveSteps, slices);
    var vertexCount := (l.curveSteps + 1) * (slices + 1);
    if angle <= 360.0 {
      VertexCountFits(l.curveSteps, slices);
      InRangeWiden(indices, 0, vertexCount, 0, 65536);
    }
    r := Some(Arrays(vs, indices, vertexCount, 2 * (l.curveSteps * slices)));
  }

  /** At most 33 rows of at most 65 vertices: far below 65536. */
  lemma VertexCountFits(curveSteps: nat, slices: nat)
    requires curveSteps <= 32 && slices <= 64
    ensures (curveSteps + 1) * (slices + 1) <= 65536
  {
    MultiplyMonotone(curveSteps + 1, 33, slices + 1);
    MultiplyMonotone(slices + 1, 65, 33);
  }
}
