/** The tessellated meshes of lab6/2/script.js: `generateCube`, whose copy
    lab6/1/generate_cube.js repeats, `generateSphere` and `generateDonut`.
    Each builds vertices with the nested loops of `Grid.EmitPoints` and
    triangles with those of `Grid.EmitQuads`; the cube does so once per
    face, offsetting the indices by the vertices already emitted.  The
    returned `Float32Array`s are sequences of reals and the `Uint16Array` of
    indices is `Grid.ToUint16` of the pushed values. */
module Meshes {
  import opened Num
  import opened Vec3
  import opened Grid

  datatype Vertex = Vertex(position: Vec, color: Vec)

  /** What every generator returns. */
  datatype Mesh = Mesh(positions: seq<real>, colors: seq<real>, indices: seq<int>)

  /** A vertex builder for each (i, j) of a patch. */
  type Builder = (int, int) -> Vertex

  function PositionArray(vs: seq<Vertex>): (r: seq<real>)
    ensures |r| == 3 * |vs|
  {
    Flatten(seq(|vs|, k requires 0 <= k < |vs| => vs[k].position))
  }

  function ColorArray(vs: seq<Vertex>): (r: seq<real>)
    ensures |r| == 3 * |vs|
  {
    Flatten(seq(|vs|, k requires 0 <= k < |vs| => vs[k].color))
  }

  // ------------------------------------------------- patches side by side

  /** The vertices per (tess + 1) x (tess + 1) patch. */
  function PatchSize(tess: nat): nat { (tess + 1) * (tess + 1) }

  /** The indices per patch: six for each of its tess^2 quads. */
  function BlockLength(tess: nat): nat { 3 * PatchTriangles(tess) }

  /** Two triangles for each of a patch's tess^2 quads. */
  function PatchTriangles(tess: nat): nat { 2 * (tess * tess) }

  /** The vertices of one square patch per builder, one after another. */
  function BlockPoints(patches: seq<Builder>, tess: nat): (vs: seq<Vertex>)
    ensures |vs| == |patches| * PatchSize(tess)
  {
    if patches == [] then []
    else
      var n := |patches| - 1;
      var vs := BlockPoints(patches[..n], tess) + GridPoints(patches[n], tess + 1, tess);
      assert n * PatchSize(tess) + PatchSize(tess) == |patches| * PatchSize(tess);
      vs
  }

  /** The indices of n square patches, patch f offset by f patches. */
  function BlockIndices(n: nat, tess: nat): (s: seq<int>)
    ensures |s| == n * BlockLength(tess)
  {
    if n == 0 then []
    else
      var s := BlockIndices(n - 1, tess) + GridIndices((n - 1) * PatchSize(tess), tess, tess);
      assert (n - 1) * BlockLength(tess) + BlockLength(tess) == n * BlockLength(tess);
      s
  }

  /** The per-face loop of the cube generators: `baseIndex` is the number
      of vertices emitted so far, then the face's vertices and quads. */
  method EmitBlocks(patches: seq<Builder>, tess: nat) returns (vs: seq<Vertex>, indices: seq<int>)
    ensures vs == BlockPoints(patches, tess)
    ensures indices == BlockIndices(|patches|, tess)
  {
    vs, indices := [], [];
    for f := 0 to |patches|
      invariant vs == BlockPoints(patches[..f], tess)
      invariant indices == BlockIndices(f, tess)
    {
      var baseIndex := |vs|;
      var points := EmitPoints(patches[f], tess, tess);
      var quads := EmitQuads(baseIndex, tess, tess);
      BlockPointsStep(patches, f, tess);
      BlockIndicesStep(f, tess);
      vs := vs + points;
      indices := indices + quads;
    }
    assert patches[..|patches|] == patches;
  }

  /** One more patch appends its vertex grid. */
  lemma BlockPointsStep(patches: seq<Builder>, f: nat, tess: nat)
    requires f < |patches|
    ensures BlockPoints(patches[..f + 1], tess) == BlockPoints(patches[..f], tess) + GridPoints(patches[f], tess + 1, tess)
    ensures |BlockPoints(patches[..f], tess)| == f * PatchSize(tess)
  {
    assert patches[..f + 1][..f] == patches[..f];
  }

  /** One more patch appends its quads, offset by the vertices before it. */
  lemma BlockIndicesStep(f: nat, tess: nat)
    ensures BlockIndices(f + 1, tess) == BlockIndices(f, tess) + GridIndices(f * PatchSize(tess), tess, tess)
  {
  }

  /** All indices of n patches lie below the vertex count of n patches,
      and every triangle is proper. */
  lemma {:induction false} BlockIndicesShape(n: nat, tess: nat)
    ensures InRange(BlockIndices(n, tess), 0, n * PatchSize(tess))
    ensures TrianglesDistinct(BlockIndices(n, tess))
  {
    if n > 0 {
      BlockIndicesShape(n - 1, tess);
      var a, b := BlockIndices(n - 1, tess), GridIndices((n - 1) * PatchSize(tess), tess, tess);
      GridIndicesShape((n - 1) * PatchSize(tess), tess, tess, tess);
      AppendPatchRange(a, b, n, PatchSize(tess));
      AppendPatchTriangles(a, b, n, PatchTriangles(tess));
    }
  }

  /** Patch f's indices sit at positions f BlockLength(tess) onwards. */
  lemma {:induction false} BlockAt(n: nat, tess: nat, f: nat)
    requires f < n
    ensures (f + 1) * BlockLength(tess) <= |BlockIndices(n, tess)|
    ensures BlockIndices(n, tess)[f * BlockLength(tess)..(f + 1) * BlockLength(tess)] ==
      GridIndices(f * PatchSize(tess), tess, tess)
  {
    var a, b := BlockIndices(n - 1, tess), GridIndices((n - 1) * PatchSize(tess), tess, tess);
    var len := BlockLength(tess);
    assert BlockIndices(n, tess) == a + b;
    assert |a| == (n - 1) * len && |b| == len;
    BlockOffsets(f, n, len);
    if f < n - 1 {
      BlockAt(n - 1, tess, f);
      SliceOfPrefix(a, b, f * len, (f + 1) * len);
    } else {
      SliceOfSuffix(a, b, 0, len);
    }
  }

  /** Where block f starts and ends among n blocks of length len. */
  lemma BlockOffsets(f: nat, n: nat, len: nat)
    requires f < n
    ensures (f + 1) * len <= n * len
    ensures f < n - 1 ==> (f + 1) * len <= (n - 1) * len
    ensures f == n - 1 ==> f * len == (n - 1) * len && (f + 1) * len == (n - 1) * len + len
  {
    MultiplyMonotone(f + 1, n, len);
    if f < n - 1 {
      MultiplyMonotone(f + 1, n - 1, len);
    }
  }

  /** Appending patch n - 1 to the first n - 1 patches. */
  lemma AppendPatchRange(a: seq<int>, b: seq<int>, n: nat, size: nat)
    requires n > 0
    requires InRange(a, 0, (n - 1) * size)
    requires InRange(b, (n - 1) * size, (n - 1) * size + size)
    ensures InRange(a + b, 0, n * size)
  {
    PredecessorProduct(n, size);
    InRangeConcat(a, b, 0, n * size);
  }

  lemma AppendPatchTriangles(a: seq<int>, b: seq<int>, n: nat, triangles: nat)
    requires n > 0
    requires |a| == (n - 1) * (3 * triangles)
    requires TrianglesDistinct(a) && TrianglesDistinct(b)
    ensures TrianglesDistinct(a + b)
  {
    TripleProduct(n - 1, triangles);
    TrianglesDistinctConcat(a, b, (n - 1) * triangles);
  }

  lemma PredecessorProduct(n: int, k: nat)
    ensures (n - 1) * k + k == n * k
  {
  }

  lemma TripleProduct(m: int, k: int)
    ensures m * (3 * k) == 3 * (m * k)
  {
  }

  /** The face block of patch f lies in [f (tess+1)^2, (f+1) (tess+1)^2). */
  lemma FaceBlock(n: nat, tess: nat, f: nat)
    requires f < n
    ensures (f + 1) * BlockLength(tess) <= |BlockIndices(n, tess)|
    ensures InRange(BlockIndices(n, tess)[f * BlockLength(tess)..(f + 1) * BlockLength(tess)],
                    f * PatchSize(tess), (f + 1) * PatchSize(tess))
  {
    BlockAt(n, tess, f);
    GridIndicesShape(f * PatchSize(tess), tess, tess, tess);
    PredecessorProduct(f + 1, PatchSize(tess));
  }

  /** A property every builder has on its patch holds of every vertex. */
  lemma {:induction false} BlockPointsAll(patches: seq<Builder>, tess: nat, p: Vertex -> bool)
    requires forall f, i, j :: 0 <= f < |patches| && 0 <= i <= tess && 0 <= j <= tess ==> p(patches[f](i, j))
    ensures forall k :: 0 <= k < |BlockPoints(patches, tess)| ==> p(BlockPoints(patches, tess)[k])
  {
    if patches != [] {
      var n := |patches| - 1;
      var a, b := BlockPoints(patches[..n], tess), GridPoints(patches[n], tess + 1, tess);
      assert BlockPoints(patches, tess) == a + b;
      assert forall k :: 0 <= k < |a| ==> p(a[k]) by {
        forall f | 0 <= f < n
          ensures patches[..n][f] == patches[f]
        {
        }
        BlockPointsAll(patches[..n], tess, p);
      }
      assert forall k :: 0 <= k < |b| ==> p(b[k]) by {
        GridPointsAll(patches[n], tess + 1, tess, p);
      }
      AllConcat(a, b, p);
    }
  }

  /** Builders that agree on the patches emit the same vertices. */
  lemma {:induction false} BlockPointsAgree(ps: seq<Builder>, qs: seq<Builder>, tess: nat)
    requires |ps| == |qs|
    requires forall f, i, j :: 0 <= f < |ps| && 0 <= i <= tess && 0 <= j <= tess ==> ps[f](i, j) == qs[f](i, j)
    ensures BlockPoints(ps, tess) == BlockPoints(qs, tess)
  {
    if ps != [] {
      var n := |ps| - 1;
      BlockPointsAgree(ps[..n], qs[..n], tess);
      GridPointsAgree(ps[n], qs[n], tess + 1, tess);
    }
  }

  // ------------------------------------------------------------------ cube

  /** A cube face: outward normal, up direction and flat colour. */
  datatype Face = Face(dir: Vec, up: Vec, color: Vec)

  function Front(): Face { Face(Vec(0.0, 0.0, 1.0), Vec(0.0, 1.0, 0.0), Vec(1.0, 0.3, 0.3)) }
  function Back(): Face { Face(Vec(0.0, 0.0, -1.0), Vec(0.0, 1.0, 0.0), Vec(0.3, 1.0, 0.3)) }
  function RightFace(): Face { Face(Vec(1.0, 0.0, 0.0), Vec(0.0, 1.0, 0.0), Vec(0.3, 0.3, 1.0)) }
  function LeftFace(): Face { Face(Vec(-1.0, 0.0, 0.0), Vec(0.0, 1.0, 0.0), Vec(1.0, 1.0, 0.3)) }
  function Top(): Face { Face(Vec(0.0, 1.0, 0.0), Vec(0.0, 0.0, -1.0), Vec(1.0, 0.3, 1.0)) }
  function Bottom(): Face { Face(Vec(0.0, -1.0, 0.0), Vec(0.0, 0.0, 1.0), Vec(0.3, 1.0, 1.0)) }

  /** The six faces in the order the generators emit them. */
  function CubeFaces(): (fs: seq<Face>)
    ensures |fs| == 6
  {
    [Front(), Back(), RightFace(), LeftFace(), Top(), Bottom()]
  }

  /** The right vector up x normal. */
  function Right(f: Face): Vec { Cross(f.up, f.dir) }

  /** n + r s + u t. */
  function FacePoint(f: Face, s: real, t: real): Vec
  {
    Add(Add(f.dir, Scale(s, Right(f))), Scale(t, f.up))
  }

  /** Step i of tess across [-1, 1]. */
  function Coord(tess: nat, i: int): (c: real)
    requires tess > 0
    ensures 0 <= i <= tess ==> -1.0 <= c <= 1.0
    ensures i == 0 ==> c == -1.0
    ensures i == tess ==> c == 1.0
  {
    var q := i as real / tess as real;
    assert 0 <= i <= tess ==> 0.0 <= q <= 1.0 by {
      if 0 <= i <= tess {
        UnitFraction(i as real, tess as real, q);
      }
    }
    q * 2.0 - 1.0
  }

  lemma UnitFraction(a: real, b: real, q: real)
    requires 0.0 <= a <= b && 0.0 < b && q == a / b
    ensures 0.0 <= q <= 1.0
  {
    assert q * b == a;
  }

  function CubeBuilder(tess: nat, f: Face): Builder
    requires tess > 0
  {
    (i, j) => Vertex(FacePoint(f, Coord(tess, i), Coord(tess, j)), f.color)
  }

  function CubeBuilders(tess: nat): (bs: seq<Builder>)
    requires tess > 0
    ensures |bs| == 6
  {
    seq(6, f requires 0 <= f < 6 => CubeBuilder(tess, CubeFaces()[f]))
  }

  /** The mesh of one square patch per builder. */
  function BlockMesh(patches: seq<Builder>, tess: nat): Mesh
  {
    var vs := BlockPoints(patches, tess);
    Mesh(PositionArray(vs), ColorArray(vs), ToUint16(BlockIndices(|patches|, tess)))
  }

  /** The face loop of the cube generators and the conversion to 16 bits:
      (tess+1)^2 vertices and 6 tess^2 indices per patch; while the vertex
      count fits 16 bits, the stored indices are the pushed ones, all below
      the vertex count, and every triangle is proper. */
  method GenerateBlocks(patches: seq<Builder>, tess: nat) returns (m: Mesh)
    ensures m == BlockMesh(patches, tess)
    ensures |m.positions| == 3 * (|patches| * PatchSize(tess)) && |m.colors| == |m.positions|
    ensures |m.indices| == |patches| * BlockLength(tess)
    ensures |patches| * PatchSize(tess) <= 65536 ==>
      m.indices == BlockIndices(|patches|, tess) &&
      InRange(m.indices, 0, |patches| * PatchSize(tess)) && TrianglesDistinct(m.indices)
  {
    var vs, indices := EmitBlocks(patches, tess);
    BlockIndicesShape(|patches|, tess);
    if |patches| * PatchSize(tess) <= 65536 {
      InRangeWiden(indices, 0, |patches| * PatchSize(tess), 0, 65536);
    }
    m := Mesh(PositionArray(vs), ColorArray(vs), ToUint16(indices));
  }

  /** `generateCube(tess)`, as a value. */
  function CubeMesh(tess: nat): Mesh
    requires tess > 0
  {
    BlockMesh(CubeBuilders(tess), tess)
  }

  /** `generateCube(tess)` of lab6/2/script.js and lab6/1/generate_cube.js:
      6 (tess+1)^2 vertices with one colour each and 36 tess^2 indices;
      while the vertex count fits 16 bits, the stored indices are the
      pushed ones, below the vertex count, with every triangle proper
      (`FaceBlock` places each face's indices in its own block). */
  method GenerateCube(tess: nat) returns (m: Mesh)
    requires tess > 0
    ensures m == CubeMesh(tess)
    ensures |m.positions| == 3 * (6 * PatchSize(tess)) && |m.colors| == |m.positions|
    ensures |m.indices| == 36 * (tess * tess)
    ensures 6 * PatchSize(tess) <= 65536 ==>
      m.indices == BlockIndices(6, tess) && InRange(m.indices, 0, 6 * PatchSize(tess)) && TrianglesDistinct(m.indices)
  {
    m := GenerateBlocks(CubeBuilders(tess), tess);
  }

  /** Where each face of the cube puts the point (s, t). */
  lemma CubeFacePoints(s: real, t: real)
    ensures FacePoint(Front(), s, t) == Vec(s, t, 1.0)
    ensures FacePoint(Back(), s, t) == Vec(-s, t, -1.0)
    ensures FacePoint(RightFace(), s, t) == Vec(1.0, t, -s)
    ensures FacePoint(LeftFace(), s, t) == Vec(-1.0, t, s)
    ensures FacePoint(Top(), s, t) == Vec(s, 1.0, -t)
    ensures FacePoint(Bottom(), s, t) == Vec(s, -1.0, t)
  {
    FrontPoint(s, t); BackPoint(s, t); RightPoint(s, t);
    LeftPoint(s, t); TopPoint(s, t); BottomPoint(s, t);
  }

  lemma FrontPoint(s: real, t: real)
    ensures FacePoint(Front(), s, t) == Vec(s, t, 1.0)
  {
    AxisCross(Front().up, Front().dir, Vec(1.0, 0.0, 0.0));
  }

  lemma BackPoint(s: real, t: real)
    ensures FacePoint(Back(), s, t) == Vec(-s, t, -1.0)
  {
    AxisCross(Back().up, Back().dir, Vec(-1.0, 0.0, 0.0));
  }

  lemma RightPoint(s: real, t: real)
    ensures FacePoint(RightFace(), s, t) == Vec(1.0, t, -s)
  {
    AxisCross(RightFace().up, RightFace().dir, Vec(0.0, 0.0, -1.0));
  }

  lemma LeftPoint(s: real, t: real)
    ensures FacePoint(LeftFace(), s, t) == Vec(-1.0, t, s)
  {
    AxisCross(LeftFace().up, LeftFace().dir, Vec(0.0, 0.0, 1.0));
  }

  lemma TopPoint(s: real, t: real)
    ensures FacePoint(Top(), s, t) == Vec(s, 1.0, -t)
  {
    AxisCross(Top().up, Top().dir, Vec(1.0, 0.0, 0.0));
  }

  lemma BottomPoint(s: real, t: real)
    ensures FacePoint(Bottom(), s, t) == Vec(s, -1.0, t)
  {
    AxisCross(Bottom().up, Bottom().dir, Vec(1.0, 0.0, 0.0));
  }

  /** The right vectors of the six faces, from the coordinates of their
      up and normal vectors. */
  lemma AxisCross(u: Vec, n: Vec, r: Vec)
    requires (u, n, r) in {
      (Vec(0.0, 1.0, 0.0), Vec(0.0, 0.0, 1.0), Vec(1.0, 0.0, 0.0)),
      (Vec(0.0, 1.0, 0.0), Vec(0.0, 0.0, -1.0), Vec(-1.0, 0.0, 0.0)),
      (Vec(0.0, 1.0, 0.0), Vec(1.0, 0.0, 0.0), Vec(0.0, 0.0, -1.0)),
      (Vec(0.0, 1.0, 0.0), Vec(-1.0, 0.0, 0.0), Vec(0.0, 0.0, 1.0)),
      (Vec(0.0, 0.0, -1.0), Vec(0.0, 1.0, 0.0), Vec(1.0, 0.0, 0.0)),
      (Vec(0.0, 0.0, 1.0), Vec(0.0, -1.0, 0.0), Vec(1.0, 0.0, 0.0))}
    ensures Cross(u, n) == r
  {
  }

  predicate InCube(p: Vec)
  {
    -1.0 <= p.x <= 1.0 && -1.0 <= p.y <= 1.0 && -1.0 <= p.z <= 1.0
  }

  /** On the boundary of [-1, 1]^3. */
  predicate OnCubeSurface(p: Vec)
  {
    InCube(p) && (p.x == 1.0 || p.x == -1.0 || p.y == 1.0 || p.y == -1.0 || p.z == 1.0 || p.z == -1.0)
  }

  /** A face point with (s, t) in [-1, 1]^2 is one unit along the face's
      normal and on the cube's surface. */
  lemma FacePointOnSurface(f: nat, s: real, t: real)
    requires f < 6 && -1.0 <= s <= 1.0 && -1.0 <= t <= 1.0
    ensures Dot(CubeFaces()[f].dir, FacePoint(CubeFaces()[f], s, t)) == 1.0
    ensures OnCubeSurface(FacePoint(CubeFaces()[f], s, t))
  {
    var face := CubeFaces()[f];
    if f == 0 {
      assert face == Front();
      FrontPoint(s, t);
      OnFace(Front().dir, FacePoint(Front(), s, t), s, t);
    } else if f == 1 {
      assert face == Back();
      BackPoint(s, t);
      OnFace(Back().dir, FacePoint(Back(), s, t), s, t);
    } else if f == 2 {
      assert face == RightFace();
      RightPoint(s, t);
      OnFace(RightFace().dir, FacePoint(RightFace(), s, t), s, t);
    } else if f == 3 {
      assert face == LeftFace();
      LeftPoint(s, t);
      OnFace(LeftFace().dir, FacePoint(LeftFace(), s, t), s, t);
    } else if f == 4 {
      assert face == Top();
      TopPoint(s, t);
      OnFace(Top().dir, FacePoint(Top(), s, t), s, t);
    } else {
      assert face == Bottom();
      BottomPoint(s, t);
      OnFace(Bottom().dir, FacePoint(Bottom(), s, t), s, t);
    }
  }

  lemma OnFace(n: Vec, p: Vec, s: real, t: real)
    requires -1.0 <= s <= 1.0 && -1.0 <= t <= 1.0
    requires (n, p) in {
      (Vec(0.0, 0.0, 1.0), Vec(s, t, 1.0)), (Vec(0.0, 0.0, -1.0), Vec(-s, t, -1.0)),
      (Vec(1.0, 0.0, 0.0), Vec(1.0, t, -s)), (Vec(-1.0, 0.0, 0.0), Vec(-1.0, t, s)),
      (Vec(0.0, 1.0, 0.0), Vec(s, 1.0, -t)), (Vec(0.0, -1.0, 0.0), Vec(s, -1.0, t))}
    ensures Dot(n, p) == 1.0 && OnCubeSurface(p)
  {
  }

  /** Every vertex `generateCube` emits lies on the cube's surface. */
  lemma CubeOnSurface(tess: nat)
    requires tess > 0
    ensures forall k :: 0 <= k < |BlockPoints(CubeBuilders(tess), tess)| ==>
      OnCubeSurface(BlockPoints(CubeBuilders(tess), tess)[k].position)
  {
    var bs := CubeBuilders(tess);
    forall f, i, j | 0 <= f < 6 && 0 <= i <= tess && 0 <= j <= tess
      ensures OnCubeSurface(bs[f](i, j).position)
    {
      FacePointOnSurface(f, Coord(tess, i), Coord(tess, j));
    }
    BlockPointsAll(bs, tess, (v: Vertex) => OnCubeSurface(v.position));
  }

  // ---------------------------------------------------------- one patch

  /** A single (rows + 1) x (cols + 1) patch indexed from 0, as the sphere
      and the torus build it. */
  function GridMesh(vertex: Builder, rows: nat, cols: nat): Mesh
  {
    var vs := GridPoints(vertex, rows + 1, cols);
    Mesh(PositionArray(vs), ColorArray(vs), ToUint16(GridIndices(0, rows, cols)))
  }

  /** The vertex loops, the index loops and the conversion to 16 bits. */
  method GenerateGrid(vertex: Builder, rows: nat, cols: nat) returns (m: Mesh)
    ensures m == GridMesh(vertex, rows, cols)
    ensures |m.positions| == 3 * ((rows + 1) * (cols + 1)) && |m.colors| == |m.positions|
    ensures |m.indices| == 6 * (rows * cols)
    ensures (rows + 1) * (cols + 1) <= 65536 ==>
      m.indices == GridIndices(0, rows, cols) &&
      InRange(m.indices, 0, (rows + 1) * (cols + 1)) && TrianglesDistinct(m.indices)
  {
    var vs := EmitPoints(vertex, rows, cols);
    var indices := EmitQuads(0, rows, cols);
    if (rows + 1) * (cols + 1) <= 65536 {
      InRangeWiden(indices, 0, (rows + 1) * (cols + 1), 0, 65536);
    }
    m := Mesh(PositionArray(vs), ColorArray(vs), ToUint16(indices));
  }

  // ---------------------------------------------------------------- sphere

  /** Vertex (i, j) of `generateSphere`: latitude phi = i pi / stacks,
      longitude theta = 2 pi j / slices, radius 1, coloured by position. */
  function SphereBuilder(trig: Trig, tess: nat): Builder
    requires tess > 0
  {
    (i, j) =>
      var phi := (i as real / tess as real) * PI;
      var theta := (j as real / (2 * tess) as real) * PI * 2.0;
      var y := 1.0 * trig(phi).c;
      var p := 1.0 * trig(phi).s;
      var x := p * trig(theta).c;
      var z := p * trig(theta).s;
      Vertex(Vec(x, y, z), Vec((x + 1.0) / 2.0, (y + 1.0) / 2.0, (z + 1.0) / 2.0))
  }

  /** `generateSphere(tess)`: tess stacks and 2 tess slices, so
      (tess+1)(2 tess+1) vertices and 12 tess^2 indices, all below the
      vertex count while it fits 16 bits. */
  method GenerateSphere(trig: Trig, tess: nat) returns (m: Mesh)
    requires tess > 0
    ensures m == GridMesh(SphereBuilder(trig, tess), tess, 2 * tess)
    ensures |m.positions| == 3 * ((tess + 1) * (2 * tess + 1)) && |m.colors| == |m.positions|
    ensures |m.indices| == 12 * (tess * tess)
    ensures (tess + 1) * (2 * tess + 1) <= 65536 ==>
      m.indices == GridIndices(0, tess, 2 * tess) &&
      InRange(m.indices, 0, (tess + 1) * (2 * tess + 1)) && TrianglesDistinct(m.indices)
  {
    m := GenerateGrid(SphereBuilder(trig, tess), tess, 2 * tess);
    DoubledProduct(tess);
  }

  lemma DoubledProduct(a: int)
    ensures 6 * (a * (2 * a)) == 12 * (a * a)
  {
  }

  /** With a true cosine and sine every sphere vertex is at distance 1
      from the centre and its colour lies in [0, 1]^3. */
  lemma SphereOnUnitSphere(trig: Trig, tess: nat, i: int, j: int)
    requires tess > 0
    requires forall a :: IsUnit(trig(a))
    ensures LengthSq(SphereBuilder(trig, tess)(i, j).position) == 1.0
    ensures InUnitCube(SphereBuilder(trig, tess)(i, j).color)
  {
    var v := SphereBuilder(trig, tess)(i, j).position;
    var phi := (i as real / tess as real) * PI;
    var theta := (j as real / (2 * tess) as real) * PI * 2.0;
    var a, b := trig(phi), trig(theta);
    assert IsUnit(a) && IsUnit(b);
    assert v == Vec(a.s * b.c, a.c, a.s * b.s);
    UnitCircle(a.s, b.c, b.s, a.c);
    SquareAtMostOne(v.x, v.y, v.z);
  }

  lemma UnitCircle(p: real, c: real, s: real, y: real)
    requires c * c + s * s == 1.0 && y * y + p * p == 1.0
    ensures (p * c) * (p * c) + y * y + (p * s) * (p * s) == 1.0
  {
    calc {
      (p * c) * (p * c) + y * y + (p * s) * (p * s);
      == p * p * (c * c + s * s) + y * y;
      == 1.0;
    }
  }

  /** Coordinates of a point at most 1 from the origin lie in [-1, 1]. */
  lemma SquareAtMostOne(x: real, y: real, z: real)
    requires x * x + y * y + z * z <= 1.0
    ensures -1.0 <= x <= 1.0 && -1.0 <= y <= 1.0 && -1.0 <= z <= 1.0
  {
    SquareBound(x, y * y + z * z);
    SquareBound(y, x * x + z * z);
    SquareBound(z, x * x + y * y);
  }

  lemma SquareBound(x: real, rest: real)
    requires x * x + rest <= 1.0 && 0.0 <= rest
    ensures -1.0 <= x <= 1.0
  {
  }

  predicate InUnitCube(c: Vec)
  {
    0.0 <= c.x <= 1.0 && 0.0 <= c.y <= 1.0 && 0.0 <= c.z <= 1.0
  }

  // ----------------------------------------------------------------- torus

  /** The torus radii of `generateDonut`. */
  const MajorRadius: real := 0.7
  const MinorRadius: real := 0.3

  /** Vertex (i, j) of `generateDonut`: ring angle theta = 2 pi i / rings,
      tube angle phi = 2 pi j / sides. */
  function DonutBuilder(trig: Trig, tess: nat): Builder
    requires tess > 0
  {
    (i, j) =>
      var ring := trig((i as real / tess as real) * PI * 2.0);
      var tube := trig((j as real / tess as real) * PI * 2.0);
      var w := MajorRadius + MinorRadius * tube.c;
      Vertex(Vec(w * ring.c, MinorRadius * tube.s, w * ring.s),
             Vec((tube.c + 1.0) / 2.0, (tube.s + 1.0) / 2.0, (ring.c + 1.0) / 2.0))
  }

  /** `generateDonut(tess)`: tess rings of tess sides, so (tess+1)^2
      vertices and 6 tess^2 indices, all below the vertex count while it
      fits 16 bits. */
  method GenerateDonut(trig: Trig, tess: nat) returns (m: Mesh)
    requires tess > 0
    ensures m == GridMesh(DonutBuilder(trig, tess), tess, tess)
    ensures |m.positions| == 3 * PatchSize(tess) && |m.colors| == |m.positions|
    ensures |m.indices| == 6 * (tess * tess)
    ensures PatchSize(tess) <= 65536 ==>
      m.indices == GridIndices(0, tess, tess) && InRange(m.indices, 0, PatchSize(tess)) && TrianglesDistinct(m.indices)
  {
    m := GenerateGrid(DonutBuilder(trig, tess), tess, tess);
  }

  /** With a true cosine and sine every torus vertex lies on the tube: its
      distance w from the y axis satisfies (w - R)^2 + y^2 = r^2. */
  lemma DonutOnTorus(trig: Trig, tess: nat, i: int, j: int)
    requires tess > 0
    requires forall a :: IsUnit(trig(a))
    ensures var p := DonutBuilder(trig, tess)(i, j).position;
      var w := MajorRadius + MinorRadius * trig((j as real / tess as real) * PI * 2.0).c;
      p.x * p.x + p.z * p.z == w * w &&
      (w - MajorRadius) * (w - MajorRadius) + p.y * p.y == MinorRadius * MinorRadius
  {
    var ring := trig((i as real / tess as real) * PI * 2.0);
    var tube := trig((j as real / tess as real) * PI * 2.0);
    assert IsUnit(ring) && IsUnit(tube);
    var w := MajorRadius + MinorRadius * tube.c;
    OnCircle(w, ring.c, ring.s);
    OnCircle(MinorRadius, tube.c, tube.s);
  }

  lemma OnCircle(w: real, c: real, s: real)
    requires c * c + s * s == 1.0
    ensures (w * c) * (w * c) + (w * s) * (w * s) == w * w
  {
    assert (w * c) * (w * c) + (w * s) * (w * s) == w * w * (c * c + s * s);
  }
}
