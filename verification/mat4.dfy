/** 4x4 matrices as WebGL stores them: sixteen numbers in column-major order,
    so the entry in row r and column c sits at index c*4 + r.  Every copy of
    the matrix helpers in the coursework (`multiplyMatrices`, `Mat4.multiply`,
    `matrix_multiplication`, `mat4Multiply`) computes the same product; it is
    defined once here as `Mul` and computed by the loop of `MultiplyMatrices`. */
module Mat4 {

  type Mat = m: seq<real> | |m| == 16 witness seq(16, i => 0.0)

  /** A homogeneous column vector (x, y, z, w). */
  datatype V4 = V4(x: real, y: real, z: real, w: real)

  function Identity(): Mat
  {
    [1.0, 0.0, 0.0, 0.0,
     0.0, 1.0, 0.0, 0.0,
     0.0, 0.0, 1.0, 0.0,
     0.0, 0.0, 0.0, 1.0]
  }

  /** A four-term dot product. */
  function Dot4(x0: real, x1: real, x2: real, x3: real,
                y0: real, y1: real, y2: real, y3: real): real
  {
    x0 * y0 + x1 * y1 + x2 * y2 + x3 * y3
  }

  /** Row r of `a` (entries r, 4 + r, 8 + r, 12 + r) against column c of `b`
      (entries c*4 .. c*4 + 3). */
  function Cell(a: Mat, b: Mat, c: nat, r: nat): real
    requires c < 4 && r < 4
  {
    Dot4(a[r], a[4 + r], a[8 + r], a[12 + r], b[c * 4], b[c * 4 + 1], b[c * 4 + 2], b[c * 4 + 3])
  }

  /** The matrix product a * b: entry c*4 + r is `Cell(a, b, c, r)`. */
  function Mul(a: Mat, b: Mat): Mat
  {
    [Cell(a, b, 0, 0), Cell(a, b, 0, 1), Cell(a, b, 0, 2), Cell(a, b, 0, 3),
     Cell(a, b, 1, 0), Cell(a, b, 1, 1), Cell(a, b, 1, 2), Cell(a, b, 1, 3),
     Cell(a, b, 2, 0), Cell(a, b, 2, 1), Cell(a, b, 2, 2), Cell(a, b, 2, 3),
     Cell(a, b, 3, 0), Cell(a, b, 3, 1), Cell(a, b, 3, 2), Cell(a, b, 3, 3)]
  }

  function Column(m: Mat, c: nat): V4
    requires c < 4
  {
    V4(m[c * 4], m[c * 4 + 1], m[c * 4 + 2], m[c * 4 + 3])
  }

  /** The matrix acting on a column vector, as the vertex shader applies it. */
  function Apply(m: Mat, v: V4): V4
  {
    V4(Dot4(m[0], m[4], m[8], m[12], v.x, v.y, v.z, v.w),
       Dot4(m[1], m[5], m[9], m[13], v.x, v.y, v.z, v.w),
       Dot4(m[2], m[6], m[10], m[14], v.x, v.y, v.z, v.w),
       Dot4(m[3], m[7], m[11], m[15], v.x, v.y, v.z, v.w))
  }

  function Transpose(m: Mat): Mat
  {
    [m[0], m[4], m[8], m[12],
     m[1], m[5], m[9], m[13],
     m[2], m[6], m[10], m[14],
     m[3], m[7], m[11], m[15]]
  }

  /** Entry c*4 + r of the product, for symbolic c and r. */
  lemma MulEntry(a: Mat, b: Mat, c: nat, r: nat)
    requires c < 4 && r < 4
    ensures Mul(a, b)[c * 4 + r] == Cell(a, b, c, r)
  {
    assert c == 0 || c == 1 || c == 2 || c == 3;
    assert r == 0 || r == 1 || r == 2 || r == 3;
  }

  /** The nested column/row loop shared by every copy of the product. */
  method MultiplyMatrices(a: Mat, b: Mat) returns (out: Mat)
    ensures out == Mul(a, b)
  {
    ghost var m := Mul(a, b);
    out := seq(16, i => 0.0);
    for column := 0 to 4
      invariant out[..column * 4] == m[..column * 4]
    {
      for row := 0 to 4
        invariant out[..column * 4 + row] == m[..column * 4 + row]
      {
        MulEntry(a, b, column, row);
        var k := column * 4 + row;
        ghost var before := out;
        out := out[k :=
                 a[0 * 4 + row] * b[column * 4 + 0] + a[1 * 4 + row] * b[column * 4 + 1] +
                 a[2 * 4 + row] * b[column * 4 + 2] + a[3 * 4 + row] * b[column * 4 + 3]];
        assert out[k] == m[k];
        assert out[..k] == before[..k];
        assert out[..k + 1] == out[..k] + [out[k]];
      }
    }
    assert out == out[..16];
  }

  /** Column c of a product is `a` applied to column c of `b`. */
  lemma MulColumn(a: Mat, b: Mat, c: nat)
    requires c < 4
    ensures Column(Mul(a, b), c) == Apply(a, Column(b, c))
  {
    assert c == 0 || c == 1 || c == 2 || c == 3;
  }

  /** Column c of a product depends on column c of the right factor only. */
  lemma ColumnLocality(a: Mat, b: Mat, b': Mat, c: nat)
    requires c < 4
    requires Column(b, c) == Column(b', c)
    ensures Column(Mul(a, b), c) == Column(Mul(a, b'), c)
  {
    MulColumn(a, b, c);
    MulColumn(a, b', c);
  }

  /** Two matrices with the same four columns are equal. */
  lemma ColumnsDetermine(m: Mat, n: Mat)
    requires forall c :: 0 <= c < 4 ==> Column(m, c) == Column(n, c)
    ensures m == n
  {
    assert Column(m, 0) == Column(n, 0);
    assert Column(m, 1) == Column(n, 1);
    assert Column(m, 2) == Column(n, 2);
    assert Column(m, 3) == Column(n, 3);
  }

  /** A product is determined column by column. */
  lemma MulByColumns(a: Mat, b: Mat, m: Mat)
    requires forall c :: 0 <= c < 4 ==> Apply(a, Column(b, c)) == Column(m, c)
    ensures Mul(a, b) == m
  {
    forall c | 0 <= c < 4
      ensures Column(Mul(a, b), c) == Column(m, c)
    {
      MulColumn(a, b, c);
    }
    ColumnsDetermine(Mul(a, b), m);
  }

  /** `MulByColumns` with the four columns spelled out. */
  lemma MulByFourColumns(a: Mat, b: Mat, m: Mat)
    requires Apply(a, Column(b, 0)) == Column(m, 0)
    requires Apply(a, Column(b, 1)) == Column(m, 1)
    requires Apply(a, Column(b, 2)) == Column(m, 2)
    requires Apply(a, Column(b, 3)) == Column(m, 3)
    ensures Mul(a, b) == m
  {
    forall c | 0 <= c < 4
      ensures Apply(a, Column(b, c)) == Column(m, c)
    {
      assert c == 0 || c == 1 || c == 2 || c == 3;
    }
    MulByColumns(a, b, m);
  }

  /** Regrouping a row-times-matrix-times-vector sum, with the inner sums
      named: the scalar heart of `ApplyMul`. */
  lemma Regroup(a0: real, a1: real, a2: real, a3: real,
                b00: real, b01: real, b02: real, b03: real,
                b10: real, b11: real, b12: real, b13: real,
                b20: real, b21: real, b22: real, b23: real,
                b30: real, b31: real, b32: real, b33: real,
                v0: real, v1: real, v2: real, v3: real,
                m0: real, m1: real, m2: real, m3: real,
                u0: real, u1: real, u2: real, u3: real)
    requires m0 == Dot4(a0, a1, a2, a3, b00, b01, b02, b03)
    requires m1 == Dot4(a0, a1, a2, a3, b10, b11, b12, b13)
    requires m2 == Dot4(a0, a1, a2, a3, b20, b21, b22, b23)
    requires m3 == Dot4(a0, a1, a2, a3, b30, b31, b32, b33)
    requires u0 == Dot4(b00, b10, b20, b30, v0, v1, v2, v3)
    requires u1 == Dot4(b01, b11, b21, b31, v0, v1, v2, v3)
    requires u2 == Dot4(b02, b12, b22, b32, v0, v1, v2, v3)
    requires u3 == Dot4(b03, b13, b23, b33, v0, v1, v2, v3)
    ensures Dot4(m0, m1, m2, m3, v0, v1, v2, v3) == Dot4(a0, a1, a2, a3, u0, u1, u2, u3)
  {
    DotScale(a0, a1, a2, a3, b00, b01, b02, b03, v0);
    DotScale(a0, a1, a2, a3, b10, b11, b12, b13, v1);
    DotScale(a0, a1, a2, a3, b20, b21, b22, b23, v2);
    DotScale(a0, a1, a2, a3, b30, b31, b32, b33, v3);
    DotAdd(a0, a1, a2, a3,
           b00 * v0, b01 * v0, b02 * v0, b03 * v0,
           b10 * v1, b11 * v1, b12 * v1, b13 * v1,
           b20 * v2, b21 * v2, b22 * v2, b23 * v2,
           b30 * v3, b31 * v3, b32 * v3, b33 * v3);
  }

  /** Scaling the second argument of a dot product scales the product. */
  lemma DotScale(x0: real, x1: real, x2: real, x3: real,
                 y0: real, y1: real, y2: real, y3: real, k: real)
    ensures Dot4(x0, x1, x2, x3, y0, y1, y2, y3) * k == Dot4(x0, x1, x2, x3, y0 * k, y1 * k, y2 * k, y3 * k)
  {
    assert (x0 * y0 + x1 * y1 + x2 * y2 + x3 * y3) * k ==
      x0 * y0 * k + x1 * y1 * k + x2 * y2 * k + x3 * y3 * k;
  }

  /** The dot product is additive in its second argument. */
  lemma DotAdd(x0: real, x1: real, x2: real, x3: real,
               p0: real, p1: real, p2: real, p3: real,
               q0: real, q1: real, q2: real, q3: real,
               r0: real, r1: real, r2: real, r3: real,
               t0: real, t1: real, t2: real, t3: real)
    ensures Dot4(x0, x1, x2, x3, p0, p1, p2, p3) + Dot4(x0, x1, x2, x3, q0, q1, q2, q3) +
            Dot4(x0, x1, x2, x3, r0, r1, r2, r3) + Dot4(x0, x1, x2, x3, t0, t1, t2, t3) ==
            Dot4(x0, x1, x2, x3, p0 + q0 + r0 + t0, p1 + q1 + r1 + t1, p2 + q2 + r2 + t2, p3 + q3 + r3 + t3)
  {
  }

  /** Applying a product is applying its factors in turn: the product is
      composition of the linear maps. */
  lemma ApplyMul(a: Mat, b: Mat, v: V4)
    ensures Apply(Mul(a, b), v) == Apply(a, Apply(b, v))
  {
    var m := Mul(a, b);
    var u := Apply(b, v);
    Regroup(a[0], a[4], a[8], a[12], b[0], b[1], b[2], b[3], b[4], b[5], b[6], b[7],
            b[8], b[9], b[10], b[11], b[12], b[13], b[14], b[15], v.x, v.y, v.z, v.w,
            m[0], m[4], m[8], m[12], u.x, u.y, u.z, u.w);
    Regroup(a[1], a[5], a[9], a[13], b[0], b[1], b[2], b[3], b[4], b[5], b[6], b[7],
            b[8], b[9], b[10], b[11], b[12], b[13], b[14], b[15], v.x, v.y, v.z, v.w,
            m[1], m[5], m[9], m[13], u.x, u.y, u.z, u.w);
    Regroup(a[2], a[6], a[10], a[14], b[0], b[1], b[2], b[3], b[4], b[5], b[6], b[7],
            b[8], b[9], b[10], b[11], b[12], b[13], b[14], b[15], v.x, v.y, v.z, v.w,
            m[2], m[6], m[10], m[14], u.x, u.y, u.z, u.w);
    Regroup(a[3], a[7], a[11], a[15], b[0], b[1], b[2], b[3], b[4], b[5], b[6], b[7],
            b[8], b[9], b[10], b[11], b[12], b[13], b[14], b[15], v.x, v.y, v.z, v.w,
            m[3], m[7], m[11], m[15], u.x, u.y, u.z, u.w);
  }

  /** The product is associative. */
  lemma MulAssoc(a: Mat, b: Mat, d: Mat)
    ensures Mul(Mul(a, b), d) == Mul(a, Mul(b, d))
  {
    forall c | 0 <= c < 4
      ensures Column(Mul(Mul(a, b), d), c) == Column(Mul(a, Mul(b, d)), c)
    {
      MulColumn(Mul(a, b), d, c);
      ApplyMul(a, b, Column(d, c));
      MulColumn(b, d, c);
      MulColumn(a, Mul(b, d), c);
    }
    ColumnsDetermine(Mul(Mul(a, b), d), Mul(a, Mul(b, d)));
  }

  /** The identity fixes every vector. */
  lemma ApplyIdentity(v: V4)
    ensures Apply(Identity(), v) == v
  {
  }

  /** The identity is neutral on both sides. */
  lemma MulIdentity(a: Mat)
    ensures Mul(Identity(), a) == a
    ensures Mul(a, Identity()) == a
  {
    forall c | 0 <= c < 4
      ensures Column(Mul(Identity(), a), c) == Column(a, c)
    {
      MulColumn(Identity(), a, c);
      ApplyIdentity(Column(a, c));
    }
    ColumnsDetermine(Mul(Identity(), a), a);
    forall c | 0 <= c < 4
      ensures Column(Mul(a, Identity()), c) == Column(a, c)
    {
      MulColumn(a, Identity(), c);
    }
    ColumnsDetermine(Mul(a, Identity()), a);
  }

  /** Transposition is an involution and reverses products. */
  lemma TransposeLaws(a: Mat, b: Mat)
    ensures Transpose(Transpose(a)) == a
    ensures Transpose(Mul(a, b)) == Mul(Transpose(b), Transpose(a))
  {
    var l := Transpose(Mul(a, b));
    var r := Mul(Transpose(b), Transpose(a));
    forall c | 0 <= c < 4
      ensures Column(l, c) == Column(r, c)
    {
      assert c == 0 || c == 1 || c == 2 || c == 3;
    }
    ColumnsDetermine(l, r);
  }
}
