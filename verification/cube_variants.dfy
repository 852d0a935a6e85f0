/** The two other cube builders of lab6/1/generate_cube.js.
    `generateCubeExplicit` lists each face's four corners and blends them
    bilinearly; `generateCubeHardCoded` writes the six faces out one after
    another.  Both emit the faces through the same per-face loop as
    `generateCube` (`Meshes.GenerateBlocks`), and this module relates
    their vertices to `generateCube`'s. */
module CubeVariants {
  import opened Num
  import opened Vec3
  import opened Grid
  import opened Meshes

  // ------------------------------------------------------- bilinear blend

  /** (1-s)(1-t) a0 + s(1-t) a1 + s t a2 + (1-s) t a3, one coordinate of
      the explicit cube's interpolation. */
  function Blend(a0: real, a1: real, a2: real, a3: real, s: real, t: real): real
  {
    Weighted((1.0 - s) * (1.0 - t), s * (1.0 - t), s * t, (1.0 - s) * t, a0, a1, a2, a3)
  }

  function Weighted(w0: real, w1: real, w2: real, w3: real, a0: real, a1: real, a2: real, a3: real): real
  {
    w0 * a0 + w1 * a1 + w2 * a2 + w3 * a3
  }

  /** A face of four corners, counter-clockwise from (s, t) = (0, 0). */
  datatype CornerFace = CornerFace(c0: Vec, c1: Vec, c2: Vec, c3: Vec, color: Vec)

  function Bilinear(f: CornerFace, s: real, t: real): Vec
  {
    Vec(Blend(f.c0.x, f.c1.x, f.c2.x, f.c3.x, s, t),
        Blend(f.c0.y, f.c1.y, f.c2.y, f.c3.y, s, t),
        Blend(f.c0.z, f.c1.z, f.c2.z, f.c3.z, s, t))
  }

  /** At the four corners of the unit square the blend returns the
      corners c0, c1, c2 and c3. */
  lemma BilinearCorners(f: CornerFace)
    ensures Bilinear(f, 0.0, 0.0) == f.c0
    ensures Bilinear(f, 1.0, 0.0) == f.c1
    ensures Bilinear(f, 1.0, 1.0) == f.c2
    ensures Bilinear(f, 0.0, 1.0) == f.c3
  {
    BlendCorners(f.c0.x, f.c1.x, f.c2.x, f.c3.x);
    BlendCorners(f.c0.y, f.c1.y, f.c2.y, f.c3.y);
    BlendCorners(f.c0.z, f.c1.z, f.c2.z, f.c3.z);
  }

  lemma BlendCorners(a0: real, a1: real, a2: real, a3: real)
    ensures Blend(a0, a1, a2, a3, 0.0, 0.0) == a0
    ensures Blend(a0, a1, a2, a3, 1.0, 0.0) == a1
    ensures Blend(a0, a1, a2, a3, 1.0, 1.0) == a2
    ensures Blend(a0, a1, a2, a3, 0.0, 1.0) == a3
  {
  }

  /** The four blending weights sum to 1 and, for (s, t) in the unit
      square, are non-negative. */
  lemma BlendWeights(s: real, t: real)
    ensures (1.0 - s) * (1.0 - t) + s * (1.0 - t) + s * t + (1.0 - s) * t == 1.0
    ensures 0.0 <= s <= 1.0 && 0.0 <= t <= 1.0 ==>
      0.0 <= (1.0 - s) * (1.0 - t) && 0.0 <= s * (1.0 - t) && 0.0 <= s * t && 0.0 <= (1.0 - s) * t
  {
    if 0.0 <= s <= 1.0 && 0.0 <= t <= 1.0 {
      NonNegativeProduct(1.0 - s, 1.0 - t);
      NonNegativeProduct(s, 1.0 - t);
      NonNegativeProduct(s, t);
      NonNegativeProduct(1.0 - s, t);
    }
  }

  lemma NonNegativeProduct(a: real, b: real)
    requires 0.0 <= a && 0.0 <= b
    ensures 0.0 <= a * b
  {
  }

  /** Blending values in [-1, 1] inside the unit square stays in [-1, 1]. */
  lemma BlendBounded(a0: real, a1: real, a2: real, a3: real, s: real, t: real)
    requires -1.0 <= a0 <= 1.0 && -1.0 <= a1 <= 1.0 && -1.0 <= a2 <= 1.0 && -1.0 <= a3 <= 1.0
    requires 0.0 <= s <= 1.0 && 0.0 <= t <= 1.0
    ensures -1.0 <= Blend(a0, a1, a2, a3, s, t) <= 1.0
  {
    BlendWeights(s, t);
    WeightedBounded((1.0 - s) * (1.0 - t), s * (1.0 - t), s * t, (1.0 - s) * t, a0, a1, a2, a3);
  }

  /** A convex combination of values in [-1, 1] is in [-1, 1]. */
  lemma WeightedBounded(w0: real, w1: real, w2: real, w3: real, a0: real, a1: real, a2: real, a3: real)
    requires 0.0 <= w0 && 0.0 <= w1 && 0.0 <= w2 && 0.0 <= w3 && w0 + w1 + w2 + w3 == 1.0
    requires -1.0 <= a0 <= 1.0 && -1.0 <= a1 <= 1.0 && -1.0 <= a2 <= 1.0 && -1.0 <= a3 <= 1.0
    ensures -1.0 <= Weighted(w0, w1, w2, w3, a0, a1, a2, a3) <= 1.0
  {
    PairBound(w0, w1, a0, a1);
    PairBound(w2, w3, a2, a3);
  }

  lemma PairBound(w0: real, w1: real, a0: real, a1: real)
    requires 0.0 <= w0 && 0.0 <= w1 && -1.0 <= a0 <= 1.0 && -1.0 <= a1 <= 1.0
    ensures -(w0 + w1) <= w0 * a0 + w1 * a1 <= w0 + w1
  {
    WeightedBound(w0, a0);
    WeightedBound(w1, a1);
  }

  lemma WeightedBound(w: real, a: real)
    requires 0.0 <= w && -1.0 <= a <= 1.0
    ensures -w <= w * a <= w
  {
  }

  /** Every point the explicit cube blends from corners in [-1, 1]^3 lies
      in [-1, 1]^3. */
  lemma BilinearInCube(f: CornerFace, s: real, t: real)
    requires InCube(f.c0) && InCube(f.c1) && InCube(f.c2) && InCube(f.c3)
    requires 0.0 <= s <= 1.0 && 0.0 <= t <= 1.0
    ensures InCube(Bilinear(f, s, t))
  {
    BlendBounded(f.c0.x, f.c1.x, f.c2.x, f.c3.x, s, t);
    BlendBounded(f.c0.y, f.c1.y, f.c2.y, f.c3.y, s, t);
    BlendBounded(f.c0.z, f.c1.z, f.c2.z, f.c3.z, s, t);
  }

  // --------------------------------------------------- the explicit cube

  function FrontCorners(): CornerFace
  {
    CornerFace(Vec(-1.0, -1.0, 1.0), Vec(1.0, -1.0, 1.0), Vec(1.0, 1.0, 1.0), Vec(-1.0, 1.0, 1.0), Vec(1.0, 0.3, 0.3))
  }
  function BackCorners(): CornerFace
  {
    CornerFace(Vec(1.0, -1.0, -1.0), Vec(-1.0, -1.0, -1.0), Vec(-1.0, 1.0, -1.0), Vec(1.0, 1.0, -1.0), Vec(0.3, 1.0, 0.3))
  }
  function RightCorners(): CornerFace
  {
    CornerFace(Vec(1.0, -1.0, 1.0), Vec(1.0, -1.0, -1.0), Vec(1.0, 1.0, -1.0), Vec(1.0, 1.0, 1.0), Vec(0.3, 0.3, 1.0))
  }
  function LeftCorners(): CornerFace
  {
    CornerFace(Vec(-1.0, -1.0, -1.0), Vec(-1.0, -1.0, 1.0), Vec(-1.0, 1.0, 1.0), Vec(-1.0, 1.0, -1.0), Vec(1.0, 1.0, 0.3))
  }
  function TopCorners(): CornerFace
  {
    CornerFace(Vec(-1.0, 1.0, 1.0), Vec(1.0, 1.0, 1.0), Vec(1.0, 1.0, -1.0), Vec(-1.0, 1.0, -1.0), Vec(1.0, 0.3, 1.0))
  }
  function BottomCorners(): CornerFace
  {
    CornerFace(Vec(-1.0, -1.0, -1.0), Vec(1.0, -1.0, -1.0), Vec(1.0, -1.0, 1.0), Vec(-1.0, -1.0, 1.0), Vec(0.3, 1.0, 1.0))
  }

  function ExplicitFaces(): (fs: seq<CornerFace>)
    ensures |fs| == 6
  {
    [FrontCorners(), BackCorners(), RightCorners(), LeftCorners(), TopCorners(), BottomCorners()]
  }

  /** Vertex (i, j) of an explicit face: t = i / tess, s = j / tess. */
  function ExplicitBuilder(tess: nat, f: CornerFace): Builder
    requires tess > 0
  {
    (i, j) => Vertex(Bilinear(f, j as real / tess as real, i as real / tess as real), f.color)
  }

  function ExplicitBuilders(tess: nat): (bs: seq<Builder>)
    requires tess > 0
    ensures |bs| == 6
  {
    seq(6, f requires 0 <= f < 6 => ExplicitBuilder(tess, ExplicitFaces()[f]))
  }

  /** `generateCubeExplicit(tess)`: the counts, ranges and 16-bit behaviour
      of `generateCube`. */
  method GenerateCubeExplicit(tess: nat) returns (m: Mesh)
    requires tess > 0
    ensures m == BlockMesh(ExplicitBuilders(tess), tess)
    ensures |m.positions| == 3 * (6 * PatchSize(tess)) && |m.colors| == |m.positions|
    ensures |m.indices| == 36 * (tess * tess)
    ensures 6 * PatchSize(tess) <= 65536 ==>
      m.indices == BlockIndices(6, tess) && InRange(m.indices, 0, 6 * PatchSize(tess)) && TrianglesDistinct(m.indices)
  {
    m := GenerateBlocks(ExplicitBuilders(tess), tess);
  }

  /** Blends of the corner patterns the explicit faces use. */
  lemma BlendRises(s: real, t: real)
    ensures Blend(-1.0, 1.0, 1.0, -1.0, s, t) == s * 2.0 - 1.0
    ensures Blend(-1.0, -1.0, 1.0, 1.0, s, t) == t * 2.0 - 1.0
  {
  }

  lemma BlendFalls(s: real, t: real)
    ensures Blend(1.0, -1.0, -1.0, 1.0, s, t) == -(s * 2.0 - 1.0)
    ensures Blend(1.0, 1.0, -1.0, -1.0, s, t) == -(t * 2.0 - 1.0)
  {
  }

  lemma BlendConstant(k: real, s: real, t: real)
    ensures Blend(k, k, k, k, s, t) == k
  {
    BlendWeights(s, t);
    assert Blend(k, k, k, k, s, t) ==
      ((1.0 - s) * (1.0 - t) + s * (1.0 - t) + s * t + (1.0 - s) * t) * k;
  }

  /** Each explicit face is the matching face of `generateCube`, with its
      parameters s, t in [0, 1] stretched to [-1, 1]. */
  lemma FrontTransposed(s: real, t: real)
    ensures Bilinear(FrontCorners(), s, t) == FacePoint(Front(), s * 2.0 - 1.0, t * 2.0 - 1.0)
  {
    BlendRises(s, t);
    BlendConstant(1.0, s, t);
    FrontPoint(s * 2.0 - 1.0, t * 2.0 - 1.0);
  }

  lemma BackTransposed(s: real, t: real)
    ensures Bilinear(BackCorners(), s, t) == FacePoint(Back(), s * 2.0 - 1.0, t * 2.0 - 1.0)
  {
    BlendRises(s, t);
    BlendFalls(s, t);
    BlendConstant(-1.0, s, t);
    BackPoint(s * 2.0 - 1.0, t * 2.0 - 1.0);
  }

  lemma RightTransposed(s: real, t: real)
    ensures Bilinear(RightCorners(), s, t) == FacePoint(RightFace(), s * 2.0 - 1.0, t * 2.0 - 1.0)
  {
    BlendRises(s, t);
    BlendFalls(s, t);
    BlendConstant(1.0, s, t);
    RightPoint(s * 2.0 - 1.0, t * 2.0 - 1.0);
  }

  lemma LeftTransposed(s: real, t: real)
    ensures Bilinear(LeftCorners(), s, t) == FacePoint(LeftFace(), s * 2.0 - 1.0, t * 2.0 - 1.0)
  {
    BlendRises(s, t);
    BlendConstant(-1.0, s, t);
    LeftPoint(s * 2.0 - 1.0, t * 2.0 - 1.0);
  }

  lemma TopTransposed(s: real, t: real)
    ensures Bilinear(TopCorners(), s, t) == FacePoint(Top(), s * 2.0 - 1.0, t * 2.0 - 1.0)
  {
    BlendRises(s, t);
    BlendFalls(s, t);
    BlendConstant(1.0, s, t);
    TopPoint(s * 2.0 - 1.0, t * 2.0 - 1.0);
  }

  lemma BottomTransposed(s: real, t: real)
    ensures Bilinear(BottomCorners(), s, t) == FacePoint(Bottom(), s * 2.0 - 1.0, t * 2.0 - 1.0)
  {
    BlendRises(s, t);
    BlendConstant(-1.0, s, t);
    BottomPoint(s * 2.0 - 1.0, t * 2.0 - 1.0);
  }

  /** The explicit cube samples the same faces as `generateCube`, with the
      roles of i and j exchanged: its vertex (i, j) of face f is
      `generateCube`'s vertex (j, i) of face f, colour included. */
  lemma ExplicitIsTransposedCube(tess: nat, f: nat, i: int, j: int)
    requires tess > 0 && f < 6
    ensures ExplicitBuilders(tess)[f](i, j) == CubeBuilders(tess)[f](j, i)
  {
    assert Coord(tess, j) == (j as real / tess as real) * 2.0 - 1.0;
    assert Coord(tess, i) == (i as real / tess as real) * 2.0 - 1.0;
    var e, c := ExplicitFaces()[f], CubeFaces()[f];
    if f == 0 {
      assert e == FrontCorners() && c == Front();
      FrontTransposed(j as real / tess as real, i as real / tess as real);
    } else if f == 1 {
      assert e == BackCorners() && c == Back();
      BackTransposed(j as real / tess as real, i as real / tess as real);
    } else if f == 2 {
      assert e == RightCorners() && c == RightFace();
      RightTransposed(j as real / tess as real, i as real / tess as real);
    } else if f == 3 {
      assert e == LeftCorners() && c == LeftFace();
      LeftTransposed(j as real / tess as real, i as real / tess as real);
    } else if f == 4 {
      assert e == TopCorners() && c == Top();
      TopTransposed(j as real / tess as real, i as real / tess as real);
    } else {
      assert e == BottomCorners() && c == Bottom();
      BottomTransposed(j as real / tess as real, i as real / tess as real);
    }
  }

  /** Every vertex of the explicit cube lies on the cube's surface. */
  lemma ExplicitOnSurface(tess: nat)
    requires tess > 0
    ensures forall k :: 0 <= k < |BlockPoints(ExplicitBuilders(tess), tess)| ==>
      OnCubeSurface(BlockPoints(ExplicitBuilders(tess), tess)[k].position)
  {
    var bs, cs := ExplicitBuilders(tess), CubeBuilders(tess);
    forall f, i, j | 0 <= f < 6 && 0 <= i <= tess && 0 <= j <= tess
      ensures OnCubeSurface(bs[f](i, j).position)
    {
      ExplicitIsTransposedCube(tess, f, i, j);
      FacePointOnSurface(f, Coord(tess, j), Coord(tess, i));
    }
    BlockPointsAll(bs, tess, (v: Vertex) => OnCubeSurface(v.position));
  }

  // ------------------------------------------------ the hard-coded cube

  /** The six faces of `generateCubeHardCoded`, with s, t in [-1, 1]. */
  function HardCodedPoint(f: nat, s: real, t: real): Vec
  {
    if f == 0 then Vec(s, t, 1.0)
    else if f == 1 then Vec(-s, t, -1.0)
    else if f == 2 then Vec(1.0, t, -s)
    else if f == 3 then Vec(-1.0, t, s)
    else if f == 4 then Vec(s, 1.0, -t)
    else Vec(s, -1.0, t)
  }

  function HardCodedColor(f: nat): Vec
  {
    if f == 0 then Vec(1.0, 0.3, 0.3)
    else if f == 1 then Vec(0.3, 1.0, 0.3)
    else if f == 2 then Vec(0.3, 0.3, 1.0)
    else if f == 3 then Vec(1.0, 1.0, 0.3)
    else if f == 4 then Vec(1.0, 0.3, 1.0)
    else Vec(0.3, 1.0, 1.0)
  }

  function HardCodedBuilder(tess: nat, f: nat): Builder
    requires tess > 0
  {
    (i, j) => Vertex(HardCodedPoint(f, Coord(tess, i), Coord(tess, j)), HardCodedColor(f))
  }

  function HardCodedBuilders(tess: nat): (bs: seq<Builder>)
    requires tess > 0
    ensures |bs| == 6
  {
    seq(6, f requires 0 <= f < 6 => HardCodedBuilder(tess, f))
  }

  /** `generateCubeHardCoded(tess)`: `baseIndex` starts at 0 and is
      recomputed from the positions after each face, so the result is
      exactly `generateCube`'s. */
  method GenerateCubeHardCoded(tess: nat) returns (m: Mesh)
    requires tess > 0
    ensures m == CubeMesh(tess)
    ensures |m.positions| == 3 * (6 * PatchSize(tess)) && |m.indices| == 36 * (tess * tess)
  {
    m := GenerateBlocks(HardCodedBuilders(tess), tess);
    HardCodedIsCube(tess);
  }

  /** The hard-coded faces are `generateCube`'s faces, vertex for vertex. */
  lemma HardCodedIsCube(tess: nat)
    requires tess > 0
    ensures BlockPoints(HardCodedBuilders(tess), tess) == BlockPoints(CubeBuilders(tess), tess)
  {
    var hs, cs := HardCodedBuilders(tess), CubeBuilders(tess);
    forall f, i, j | 0 <= f < 6 && 0 <= i <= tess && 0 <= j <= tess
      ensures hs[f](i, j) == cs[f](i, j)
    {
      HardCodedFace(f, Coord(tess, i), Coord(tess, j));
    }
    BlockPointsAgree(hs, cs, tess);
  }

  lemma HardCodedFace(f: nat, s: real, t: real)
    requires f < 6
    ensures HardCodedPoint(f, s, t) == FacePoint(CubeFaces()[f], s, t)
    ensures HardCodedColor(f) == CubeFaces()[f].color
  {
    var c := CubeFaces()[f];
    if f == 0 {
      assert c == Front();
      FrontPoint(s, t);
    } else if f == 1 {
      assert c == Back();
      BackPoint(s, t);
    } else if f == 2 {
      assert c == RightFace();
      RightPoint(s, t);
    } else if f == 3 {
      assert c == LeftFace();
      LeftPoint(s, t);
    } else if f == 4 {
      assert c == Top();
      TopPoint(s, t);
    } else {
      assert c == Bottom();
      BottomPoint(s, t);
    }
  }
}
