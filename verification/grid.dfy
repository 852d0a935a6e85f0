/** The grid topology every mesh generator of lab6 shares.  A patch of
    (rows + 1) x (cols + 1) vertices is emitted row by row, and each of its
    rows x cols quads becomes the two triangles (i0, i2, i1) and
    (i1, i2, i3), where i0 = base + i (cols + 1) + j is the quad's corner,
    i1 its right neighbour and i2, i3 the two vertices one row further on.
    The cube faces of lab6/1/generate_cube.js and lab6/2/script.js, the
    sphere and torus of lab6/2/script.js and the surface of revolution of
    lab6/3/script.js all use this pattern. */
module Grid {

  // -------------------------------------------------------------- indices

  /** The six indices pushed for quad (i, j). */
  function Quad(base: int, cols: int, i: int, j: int): (q: seq<int>)
    ensures |q| == 6
  {
    var i0 := base + i * (cols + 1) + j;
    var i1 := i0 + 1;
    var i2 := i0 + (cols + 1);
    var i3 := i2 + 1;
    [i0, i2, i1, i1, i2, i3]
  }

  /** The indices of the first n quads of row i. */
  function RowQuads(base: int, cols: int, i: int, n: nat): (s: seq<int>)
    ensures |s| == 6 * n
  {
    if n == 0 then [] else RowQuads(base, cols, i, n - 1) + Quad(base, cols, i, n - 1)
  }

  /** The indices of the first `rows` rows of quads, `cols` quads each. */
  function GridIndices(base: int, rows: nat, cols: nat): (s: seq<int>)
    ensures |s| == 6 * (rows * cols)
  {
    if rows == 0 then []
    else
      var s := GridIndices(base, rows - 1, cols) + RowQuads(base, cols, rows - 1, cols);
      assert (rows - 1) * cols + cols == rows * cols;
      s
  }

  /** Every entry lies in [lo, hi). */
  predicate InRange(s: seq<int>, lo: int, hi: int)
  {
    forall k :: 0 <= k < |s| ==> lo <= s[k] < hi
  }

  /** Every complete triangle of an index list uses three different
      vertices. */
  ghost predicate TrianglesDistinct(s: seq<int>)
  {
    forall t :: 0 <= t && 3 * t + 2 < |s| ==>
      s[3 * t] != s[3 * t + 1] && s[3 * t + 1] != s[3 * t + 2] && s[3 * t] != s[3 * t + 2]
  }

  lemma InRangeWiden(s: seq<int>, lo: int, hi: int, lo': int, hi': int)
    requires InRange(s, lo, hi) && lo' <= lo && hi <= hi'
    ensures InRange(s, lo', hi')
  {
  }

  lemma InRangeConcat(a: seq<int>, b: seq<int>, lo: int, hi: int)
    requires InRange(a, lo, hi) && InRange(b, lo, hi)
    ensures InRange(a + b, lo, hi)
  {
    forall k | 0 <= k < |a + b|
      ensures lo <= (a + b)[k] < hi
    {
      if k >= |a| {
        assert (a + b)[k] == b[k - |a|];
      }
    }
  }

  lemma TrianglesDistinctConcat(a: seq<int>, b: seq<int>, m: int)
    requires |a| == 3 * m && TrianglesDistinct(a) && TrianglesDistinct(b)
    ensures TrianglesDistinct(a + b)
  {
    forall t | 0 <= t && 3 * t + 2 < |a + b|
      ensures (a + b)[3 * t] != (a + b)[3 * t + 1] && (a + b)[3 * t + 1] != (a + b)[3 * t + 2] &&
              (a + b)[3 * t] != (a + b)[3 * t + 2]
    {
      if t >= m {
        var u := t - m;
        assert 3 * t == |a| + 3 * u;
        assert (a + b)[3 * t] == b[3 * u] && (a + b)[3 * t + 1] == b[3 * u + 1] && (a + b)[3 * t + 2] == b[3 * u + 2];
      } else {
        assert 3 * t + 2 < |a|;
      }
    }
  }

  /** Quad (i, j) of a rows x cols patch stays inside the patch's
      vertex block, and both of its triangles are proper. */
  lemma QuadShape(base: int, rows: nat, cols: nat, i: nat, j: nat)
    requires i < rows && j < cols
    ensures InRange(Quad(base, cols, i, j), base, base + (rows + 1) * (cols + 1))
    ensures TrianglesDistinct(Quad(base, cols, i, j))
  {
    var q := Quad(base, cols, i, j);
    var w := cols + 1;
    assert (i + 1) * w <= rows * w by {
      MultiplyMonotone(i + 1, rows, w);
    }
    assert q[5] == base + (i + 1) * w + j + 1;
    assert (rows + 1) * w == rows * w + w;
    forall t | 0 <= t && 3 * t + 2 < |q|
      ensures q[3 * t] != q[3 * t + 1] && q[3 * t + 1] != q[3 * t + 2] && q[3 * t] != q[3 * t + 2]
    {
      assert t == 0 || t == 1;
    }
  }

  lemma MultiplyMonotone(a: nat, b: nat, w: nat)
    requires a <= b
    ensures a * w <= b * w
  {
  }

  lemma {:induction false} RowQuadsShape(base: int, rows: nat, cols: nat, i: nat, n: nat)
    requires i < rows && n <= cols
    ensures InRange(RowQuads(base, cols, i, n), base, base + (rows + 1) * (cols + 1))
    ensures TrianglesDistinct(RowQuads(base, cols, i, n))
  {
    if n > 0 {
      RowQuadsShape(base, rows, cols, i, n - 1);
      QuadShape(base, rows, cols, i, n - 1);
      var hi := base + (rows + 1) * (cols + 1);
      InRangeConcat(RowQuads(base, cols, i, n - 1), Quad(base, cols, i, n - 1), base, hi);
      TrianglesDistinctConcat(RowQuads(base, cols, i, n - 1), Quad(base, cols, i, n - 1), 2 * (n - 1));
    }
  }

  /** The first r rows of a rows x cols patch index only the patch's own
      vertices, and every triangle is proper. */
  lemma {:induction false} GridIndicesShape(base: int, rows: nat, cols: nat, r: nat)
    requires r <= rows
    ensures InRange(GridIndices(base, r, cols), base, base + (rows + 1) * (cols + 1))
    ensures TrianglesDistinct(GridIndices(base, r, cols))
  {
    if r > 0 {
      GridIndicesShape(base, rows, cols, r - 1);
      RowQuadsShape(base, rows, cols, r - 1, cols);
      ShapeConcat(GridIndices(base, r - 1, cols), RowQuads(base, cols, r - 1, cols),
                  base, base + (rows + 1) * (cols + 1), 2 * ((r - 1) * cols));
    }
  }

  /** Both shape facts survive concatenation at a triangle boundary. */
  lemma ShapeConcat(a: seq<int>, b: seq<int>, lo: int, hi: int, m: int)
    requires |a| == 3 * m
    requires InRange(a, lo, hi) && InRange(b, lo, hi)
    requires TrianglesDistinct(a) && TrianglesDistinct(b)
    ensures InRange(a + b, lo, hi) && TrianglesDistinct(a + b)
  {
    InRangeConcat(a, b, lo, hi);
    TrianglesDistinctConcat(a, b, m);
  }

  /** The two triangles of quad (i, j) occupy entries 6 (i cols + j) to
      6 (i cols + j) + 5, the k-th index slot the generators fill. */
  lemma {:induction false} QuadAt(base: int, rows: nat, cols: nat, i: nat, j: nat)
    requires i < rows && j < cols
    ensures 6 * (i * cols + j) + 6 <= |GridIndices(base, rows, cols)|
    ensures GridIndices(base, rows, cols)[6 * (i * cols + j)..6 * (i * cols + j) + 6] == Quad(base, cols, i, j)
  {
    var a, b := GridIndices(base, rows - 1, cols), RowQuads(base, cols, rows - 1, cols);
    var k := 6 * (i * cols + j);
    assert GridIndices(base, rows, cols) == a + b;
    RowMajorFits(i, j, rows, cols);
    if i < rows - 1 {
      QuadAt(base, rows - 1, cols, i, j);
      RowMajorFits(i, j, rows - 1, cols);
      SliceOfPrefix(a, b, k, k + 6);
    } else {
      RowQuadAt(base, cols, i, cols, j);
      assert k == |a| + 6 * j;
      SliceOfSuffix(a, b, 6 * j, 6 * j + 6);
    }
  }

  /** Cell (i, j) of a row-major rows x cols grid lies inside it. */
  lemma RowMajorFits(i: nat, j: nat, rows: nat, cols: nat)
    requires i < rows && j < cols
    ensures i * cols + j + 1 <= rows * cols
  {
    MultiplyMonotone(i + 1, rows, cols);
    assert (i + 1) * cols == i * cols + cols;
  }

  lemma SliceOfPrefix<T>(a: seq<T>, b: seq<T>, lo: int, hi: int)
    requires 0 <= lo <= hi <= |a|
    ensures (a + b)[lo..hi] == a[lo..hi]
  {
  }

  lemma SliceOfSuffix<T>(a: seq<T>, b: seq<T>, lo: int, hi: int)
    requires 0 <= lo <= hi <= |b|
    ensures (a + b)[|a| + lo..|a| + hi] == b[lo..hi]
  {
  }

  lemma {:induction false} RowQuadAt(base: int, cols: int, i: int, n: nat, j: nat)
    requires j < n
    ensures RowQuads(base, cols, i, n)[6 * j..6 * j + 6] == Quad(base, cols, i, j)
  {
    if j < n - 1 {
      RowQuadAt(base, cols, i, n - 1, j);
    }
  }

  /** The nested index loops of every generator: for i < rows, for j <
      cols, push the two triangles of quad (i, j). */
  method EmitQuads(base: int, rows: nat, cols: nat) returns (indices: seq<int>)
    ensures indices == GridIndices(base, rows, cols)
    ensures |indices| == 6 * (rows * cols)
    ensures InRange(indices, base, base + (rows + 1) * (cols + 1))
    ensures TrianglesDistinct(indices)
  {
    indices := [];
    for i := 0 to rows
      invariant indices == GridIndices(base, i, cols)
    {
      var row := [];
      for j := 0 to cols
        invariant row == RowQuads(base, cols, i, j)
      {
        var i0 := base + i * (cols + 1) + j;
        var i1 := i0 + 1;
        var i2 := i0 + (cols + 1);
        var i3 := i2 + 1;
        row := row + [i0, i2, i1, i1, i2, i3];
      }
      indices := indices + row;
    }
    GridIndicesShape(base, rows, cols, rows);
  }

  // ------------------------------------------------------------- vertices

  /** The vertices of the first n columns of row i, as `vertex` builds
      them. */
  function RowPoints<T>(vertex: (int, int) -> T, i: int, n: nat): (s: seq<T>)
    ensures |s| == n
  {
    if n == 0 then [] else RowPoints(vertex, i, n - 1) + [vertex(i, n - 1)]
  }

  /** The vertices of the first r rows, cols + 1 per row. */
  function GridPoints<T>(vertex: (int, int) -> T, r: nat, cols: nat): (s: seq<T>)
    ensures |s| == r * (cols + 1)
  {
    if r == 0 then []
    else
      var s := GridPoints(vertex, r - 1, cols) + RowPoints(vertex, r - 1, cols + 1);
      assert (r - 1) * (cols + 1) + (cols + 1) == r * (cols + 1);
      s
  }

  /** Vertex j of row i sits at position i (cols + 1) + j. */
  lemma {:induction false} GridPointAt<T>(vertex: (int, int) -> T, r: nat, cols: nat, i: nat, j: nat)
    requires i < r && j <= cols
    ensures i * (cols + 1) + j < r * (cols + 1)
    ensures GridPoints(vertex, r, cols)[i * (cols + 1) + j] == vertex(i, j)
  {
    var w := cols + 1;
    var a, b := GridPoints(vertex, r - 1, cols), RowPoints(vertex, r - 1, w);
    assert GridPoints(vertex, r, cols) == a + b;
    if i < r - 1 {
      GridPointAt(vertex, r - 1, cols, i, j);
      assert i * w + j < |a|;
      assert r * w == |a| + w;
    } else {
      RowPointAt(vertex, i, w, j);
      assert i * w + j == |a| + j;
      assert r * w == |a| + w;
    }
  }

  lemma {:induction false} RowPointAt<T>(vertex: (int, int) -> T, i: int, n: nat, j: nat)
    requires j < n
    ensures RowPoints(vertex, i, n)[j] == vertex(i, j)
  {
    if j < n - 1 {
      RowPointAt(vertex, i, n - 1, j);
    }
  }

  /** A property of every element of two sequences holds of every element
      of their concatenation. */
  lemma AllConcat<T>(a: seq<T>, b: seq<T>, p: T -> bool)
    requires forall k :: 0 <= k < |a| ==> p(a[k])
    requires forall k :: 0 <= k < |b| ==> p(b[k])
    ensures forall k :: 0 <= k < |a + b| ==> p((a + b)[k])
  {
    forall k | 0 <= k < |a + b|
      ensures p((a + b)[k])
    {
      if k >= |a| {
        assert (a + b)[k] == b[k - |a|];
      }
    }
  }

  /** A property every vertex of the patch has holds of every emitted
      vertex. */
  lemma {:induction false} GridPointsAll<T>(vertex: (int, int) -> T, r: nat, cols: nat, p: T -> bool)
    requires forall i, j :: 0 <= i < r && 0 <= j <= cols ==> p(vertex(i, j))
    ensures forall k :: 0 <= k < |GridPoints(vertex, r, cols)| ==> p(GridPoints(vertex, r, cols)[k])
  {
    if r > 0 {
      GridPointsAll(vertex, r - 1, cols, p);
      RowPointsAll(vertex, r - 1, cols + 1, p);
      AllConcat(GridPoints(vertex, r - 1, cols), RowPoints(vertex, r - 1, cols + 1), p);
    }
  }

  lemma {:induction false} RowPointsAll<T>(vertex: (int, int) -> T, i: int, n: nat, p: T -> bool)
    requires forall j :: 0 <= j < n ==> p(vertex(i, j))
    ensures forall k :: 0 <= k < n ==> p(RowPoints(vertex, i, n)[k])
  {
    if n > 0 {
      RowPointsAll(vertex, i, n - 1, p);
    }
  }

  /** Two vertex builders that agree on the patch emit the same vertices. */
  lemma {:induction false} GridPointsAgree<T>(f: (int, int) -> T, g: (int, int) -> T, r: nat, cols: nat)
    requires forall i, j :: 0 <= i < r && 0 <= j <= cols ==> f(i, j) == g(i, j)
    ensures GridPoints(f, r, cols) == GridPoints(g, r, cols)
  {
    if r > 0 {
      GridPointsAgree(f, g, r - 1, cols);
      RowPointsAgree(f, g, r - 1, cols + 1);
    }
  }

  lemma {:induction false} RowPointsAgree<T>(f: (int, int) -> T, g: (int, int) -> T, i: int, n: nat)
    requires forall j :: 0 <= j < n ==> f(i, j) == g(i, j)
    ensures RowPoints(f, i, n) == RowPoints(g, i, n)
  {
    if n > 0 {
      RowPointsAgree(f, g, i, n - 1);
    }
  }

  /** The nested vertex loops: for i in 0..rows, for j in 0..cols, emit
      vertex (i, j). */
  method EmitPoints<T>(vertex: (int, int) -> T, rows: nat, cols: nat) returns (ps: seq<T>)
    ensures ps == GridPoints(vertex, rows + 1, cols)
    ensures |ps| == (rows + 1) * (cols + 1)
  {
    ps := [];
    for i := 0 to rows + 1
      invariant ps == GridPoints(vertex, i, cols)
    {
      var row := [];
      for j := 0 to cols + 1
        invariant row == RowPoints(vertex, i, j)
      {
        row := row + [vertex(i, j)];
      }
      ps := ps + row;
    }
  }

  // ---------------------------------------------------------------- Uint16

  /** Storing an integer into a `Uint16Array` keeps it modulo 2^16. */
  function Uint16(v: int): (r: int)
    ensures 0 <= r < 65536
    ensures 0 <= v < 65536 ==> r == v
  {
    v % 65536
  }

  /** `new Uint16Array(indices)`. */
  function ToUint16(s: seq<int>): (r: seq<int>)
    ensures |r| == |s| && InRange(r, 0, 65536)
    ensures InRange(s, 0, 65536) ==> r == s
  {
    seq(|s|, k requires 0 <= k < |s| => Uint16(s[k]))
  }
}
