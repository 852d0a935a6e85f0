/** The helper geometry of project1_ide/camera.js (and the deliverables
    copy): the ground grid, the magenta cube marking the camera, and the
    solid view frustum.  Each builder returns flat position and colour
    arrays (three numbers per vertex) and the vertex count. */
module CameraGeometry {
  import opened Num
  import opened Vec3

  datatype Geometry = Geometry(positions: seq<real>, colors: seq<real>, vertexCount: int)

  // ---------------------------------------------------------------- grid

  /** The four segment end points pushed for one grid value `v`: a line
      parallel to the z axis at x = v and one parallel to the x axis at
      z = v. */
  function GridLine(v: real, size: real): seq<real>
  {
    [v, 0.0, -size, v, 0.0, size, -size, 0.0, v, size, 0.0, v]
  }

  /** The k-th value of the loop counter, `-gridSize + k * stepSize`. */
  function GridValue(size: real, step: real, k: int): real
  {
    -size + k as real * step
  }

  /** The number of passes of `for (i = -gridSize; i <= gridSize; i += stepSize)`. */
  function LineCount(size: real, step: real): (n: nat)
    requires size < 0.0 || step > 0.0
  {
    if size < 0.0 then 0 else ((2.0 * size) / step).Floor + 1
  }

  /** The loop runs exactly while k < LineCount. */
  lemma PassCondition(size: real, step: real, k: int)
    requires step > 0.0 && k >= 0
    ensures GridValue(size, step, k) <= size <==> k < LineCount(size, step)
  {
    var q := (2.0 * size) / step;
    assert q * step == 2.0 * size;
    if GridValue(size, step, k) <= size {
      assert k as real * step <= q * step;
      assert k as real <= q;
    } else {
      assert k as real * step > q * step;
      assert k as real > q;
    }
  }

  /** The reference definition: the first n passes, in order. */
  function GridLines(size: real, step: real, n: nat): (r: seq<real>)
    ensures |r| == 12 * n
  {
    if n == 0 then [] else GridLines(size, step, n - 1) + GridLine(GridValue(size, step, n - 1), size)
  }

  /** `createGridGeometry`: a grey grid of 2 segments (4 vertices) per
      pass.  A negative size runs no pass whatever the step; a
      non-positive step with a non-negative size would never terminate,
      hence the precondition. */
  method GridGeometry(size: real, step: real) returns (g: Geometry)
    requires size < 0.0 || step > 0.0
    ensures size < 0.0 ==> g.positions == [] && g.vertexCount == 0
    ensures g.positions == GridLines(size, step, LineCount(size, step))
    ensures g.colors == seq(|g.positions|, _ => 0.3)
    ensures g.vertexCount == 4 * LineCount(size, step) && |g.positions| == 3 * g.vertexCount
  {
    var lines: seq<real> := [];
    var colors: seq<real> := [];
    var i := -size;
    var k := 0;
    while i <= size
      invariant 0 <= k <= LineCount(size, step)
      invariant i == GridValue(size, step, k)
      invariant lines == GridLines(size, step, k)
      invariant colors == seq(|lines|, _ => 0.3)
      decreases LineCount(size, step) - k
    {
      if step <= 0.0 {
        assert false;
      }
      PassCondition(size, step, k);
      lines := lines + GridLine(i, size);
      colors := colors + [0.3, 0.3, 0.3, 0.3, 0.3, 0.3] + [0.3, 0.3, 0.3, 0.3, 0.3, 0.3];
      i := i + step;
      k := k + 1;
    }
    if step > 0.0 {
      PassCondition(size, step, k);
    }
    g := Geometry(lines, colors, |lines| / 3);
  }

  /** Every grid coordinate stays inside [-gridSize, gridSize]. */
  lemma {:induction false} GridInsideSquare(size: real, step: real, n: nat)
    requires step > 0.0 && n <= LineCount(size, step)
    ensures forall j :: 0 <= j < |GridLines(size, step, n)| ==> -size <= GridLines(size, step, n)[j] <= size
  {
    if n > 0 {
      GridInsideSquare(size, step, n - 1);
      PassCondition(size, step, n - 1);
      assert size >= 0.0;
      var v := GridValue(size, step, n - 1);
      assert -size <= v <= size;
      var r := GridLines(size, step, n);
      var init := GridLines(size, step, n - 1);
      forall j | 0 <= j < |r|
        ensures -size <= r[j] <= size
      {
        if j < |init| {
          assert r[j] == init[j];
        } else {
          assert r[j] == GridLine(v, size)[j - |init|];
        }
      }
    }
  }

  // ----------------------------------------------------------- indicator

  /** The eight corners of the 0.4-wide cube around the camera. */
  const CubeSize: real := 0.2

  function CubeCorners(): (vs: seq<Vec>)
    ensures |vs| == 8
  {
    var s := CubeSize;
    [Vec(-s, -s, -s), Vec(s, -s, -s), Vec(s, s, -s), Vec(-s, s, -s),
     Vec(-s, -s, s), Vec(s, -s, s), Vec(s, s, s), Vec(-s, s, s)]
  }

  /** Two triangles per face: back, front, bottom, top, left, right. */
  function CubeFaces(): (fs: seq<nat>)
    ensures |fs| == 36
  {
    [0, 1, 2,  0, 2, 3,
     4, 6, 5,  4, 7, 6,
     0, 4, 5,  0, 5, 1,
     2, 6, 7,  2, 7, 3,
     0, 3, 7,  0, 7, 4,
     1, 5, 6,  1, 6, 2]
  }

  /** The vertex list of an indexed triangle soup; an index outside the
      corner list cannot occur (see `IndicatorGeometry`). */
  function Lookup(corners: seq<Vec>, indices: seq<nat>): (vs: seq<Vec>)
    requires forall i :: 0 <= i < |indices| ==> indices[i] < |corners|
    ensures |vs| == |indices|
    ensures forall i :: 0 <= i < |indices| ==> vs[i] == corners[indices[i]]
  {
    seq(|indices|, i requires 0 <= i < |indices| => corners[indices[i]])
  }

  /** `createCameraIndicatorGeometry`: 12 triangles, 36 magenta vertices,
      each a corner of the cube. */
  function IndicatorGeometry(): (g: Geometry)
    ensures g.vertexCount == 36 && |g.positions| == 108 && |g.colors| == 108
    ensures forall j :: 0 <= j < 108 ==> g.positions[j] == CubeSize || g.positions[j] == -CubeSize
    ensures forall j :: 0 <= j < 108 ==> g.colors[j] == (if j % 3 == 1 then 0.0 else 1.0)
  {
    IndicatorCorners();
    var vs := Lookup(CubeCorners(), CubeFaces());
    FlattenAll(vs, x => x == CubeSize || x == -CubeSize);
    var positions := Flatten(vs);
    var colors := seq(108, j => if j % 3 == 1 then 0.0 else 1.0);
    Geometry(positions, colors, |positions| / 3)
  }

  /** Every face index names one of the eight corners, and every corner
      coordinate is plus or minus `CubeSize`. */
  lemma IndicatorCorners()
    ensures forall i :: 0 <= i < 36 ==>
      (CubeFaces()[i] < 8 && OnIndicator(CubeCorners()[CubeFaces()[i]]))
  {
    var faces, corners := CubeFaces(), CubeCorners();
    forall i | 0 <= i < 36
      ensures faces[i] < 8
    {
    }
    forall k | 0 <= k < 8
      ensures OnIndicator(corners[k])
    {
    }
  }

  /** Every coordinate is plus or minus `CubeSize`. */
  predicate OnIndicator(v: Vec)
  {
    (v.x == CubeSize || v.x == -CubeSize) && (v.y == CubeSize || v.y == -CubeSize) &&
    (v.z == CubeSize || v.z == -CubeSize)
  }

  // ------------------------------------------------------------- frustum

  datatype Tri = Tri(a: Vec, b: Vec, c: Vec)

  function TriVertices(ts: seq<Tri>): (vs: seq<Vec>)
    ensures |vs| == 3 * |ts|
    ensures forall i :: 0 <= i < |ts| ==> vs[3 * i] == ts[i].a && vs[3 * i + 1] == ts[i].b && vs[3 * i + 2] == ts[i].c
  {
    if ts == [] then []
    else
      var t := ts[|ts| - 1];
      TriVertices(ts[..|ts| - 1]) + [t.a, t.b, t.c]
  }

  /** A corner of the near (far) rectangle at depth d with half sizes
      (w, h); `sx`, `sy` pick the quadrant. */
  function Corner(sx: real, sy: real, w: real, h: real, d: real): Vec
  {
    Vec(sx * w, sy * h, -d)
  }

  /** The 16 triangles of `createCameraFrustumGeometry`: near and far caps
      (2 each) and four side faces of 3 triangles, one of them a fan from
      the camera origin.  `tanHalf` stands for `Math.tan(fov / 2)`. */
  function FrustumTriangles(tanHalf: real, aspect: real, nearPlane: real, farPlane: real): (ts: seq<Tri>)
    ensures |ts| == 16
  {
    var near := nearPlane;
    var far := Min(farPlane, nearPlane + 10.0);
    var hn := near * tanHalf;
    var wn := hn * aspect;
    var hf := far * tanHalf;
    var wf := hf * aspect;
    var n0, n1, n2, n3 := Corner(-1.0, -1.0, wn, hn, near), Corner(1.0, -1.0, wn, hn, near),
                          Corner(1.0, 1.0, wn, hn, near), Corner(-1.0, 1.0, wn, hn, near);
    var f0, f1, f2, f3 := Corner(-1.0, -1.0, wf, hf, far), Corner(1.0, -1.0, wf, hf, far),
                          Corner(1.0, 1.0, wf, hf, far), Corner(-1.0, 1.0, wf, hf, far);
    var o := Zero;
    [Tri(n0, n1, n2), Tri(n0, n2, n3),
     Tri(f0, f2, f1), Tri(f0, f3, f2),
     Tri(o, n0, n3), Tri(n0, f0, f3), Tri(n0, f3, n3),
     Tri(o, n2, n1), Tri(n1, f2, f1), Tri(n1, n2, f2),
     Tri(o, n3, n2), Tri(n2, f2, f3), Tri(n2, f3, n3),
     Tri(o, n1, n0), Tri(n0, f1, f0), Tri(n0, n1, f1)]
  }

  /** One colour per triangle: yellow near cap, light blue far cap,
      purple left and right sides, orange top, green bottom. */
  function FrustumColors(): (cs: seq<Vec>)
    ensures |cs| == 16
  {
    var nearColor, farColor := Vec(1.0, 1.0, 0.0), Vec(0.0, 0.8, 1.0);
    var side, top, bottom := Vec(0.8, 0.4, 1.0), Vec(1.0, 0.6, 0.2), Vec(0.2, 1.0, 0.6);
    [nearColor, nearColor, farColor, farColor, side, side, side, side, side, side,
     top, top, top, bottom, bottom, bottom]
  }

  /** Each triangle's colour repeated for its three vertices. */
  function PerVertex(cs: seq<Vec>): (vs: seq<Vec>)
    ensures |vs| == 3 * |cs|
    ensures forall i :: 0 <= i < |cs| ==> vs[3 * i] == cs[i] && vs[3 * i + 1] == cs[i] && vs[3 * i + 2] == cs[i]
  {
    if cs == [] then []
    else
      var c := cs[|cs| - 1];
      PerVertex(cs[..|cs| - 1]) + [c, c, c]
  }

  /** The frustum geometry: 16 triangles, 48 vertices, a colour for each. */
  function FrustumGeometry(tanHalf: real, aspect: real, nearPlane: real, farPlane: real): (g: Geometry)
    ensures g.vertexCount == 48 && |g.positions| == 144 && |g.colors| == 144
  {
    var positions := Flatten(TriVertices(FrustumTriangles(tanHalf, aspect, nearPlane, farPlane)));
    var colors := Flatten(PerVertex(FrustumColors()));
    Geometry(positions, colors, |positions| / 3)
  }

  /** Every frustum vertex sits at the camera origin, on the near plane, or
      on the far plane, which is at most 10 units beyond the near one. */
  lemma FrustumDepths(tanHalf: real, aspect: real, nearPlane: real, farPlane: real)
    ensures var ts := FrustumTriangles(tanHalf, aspect, nearPlane, farPlane);
            var far := Min(farPlane, nearPlane + 10.0);
            forall i :: 0 <= i < |ts| ==>
              (ts[i].a.z == 0.0 || ts[i].a.z == -nearPlane || ts[i].a.z == -far) &&
              (ts[i].b.z == -nearPlane || ts[i].b.z == -far) &&
              (ts[i].c.z == -nearPlane || ts[i].c.z == -far)
  {
  }

  /** The far corners lie on the rays from the camera through the near
      corners: each is the matching near corner scaled by far / near. */
  lemma FrustumIsPyramid(tanHalf: real, aspect: real, nearPlane: real, farPlane: real)
    requires nearPlane != 0.0
    ensures var ts := FrustumTriangles(tanHalf, aspect, nearPlane, farPlane);
            var k := Min(farPlane, nearPlane + 10.0) / nearPlane;
            ts[5].b == Scale(k, ts[0].a) && ts[14].b == Scale(k, ts[0].b) &&
            ts[2].b == Scale(k, ts[0].c) && ts[3].b == Scale(k, ts[1].c)
  {
    var far := Min(farPlane, nearPlane + 10.0);
    var k := far / nearPlane;
    assert k * nearPlane == far;
    assert k * (nearPlane * tanHalf) == far * tanHalf;
    assert k * (nearPlane * tanHalf * aspect) == far * tanHalf * aspect;
  }
}
