/** lab3's in-place helpers `translate`, `rotateX`, `rotateY` and `rotateZ`,
    which overwrite some entries of the matrix array they are handed.  Each is
    modelled as a function from the array before the call to the array after
    it. */
module InPlace {
  import opened Num
  import opened Mat4
  import Transform

  /** Overwrites the translation column; nothing is composed. */
  function Translate(m: Mat, tx: real, ty: real, tz: real): (r: Mat)
    ensures forall i :: 0 <= i < 12 || i == 15 ==> r[i] == m[i]
    ensures r[12] == tx && r[13] == ty && r[14] == tz
  {
    m[12 := tx][13 := ty][14 := tz]
  }

  /** Rows 1 and 2 of every column are rotated by (c, s). */
  function RotateX(m: Mat, a: Angle): (r: Mat)
    ensures forall k :: 0 <= k < 4 ==> r[4 * k] == m[4 * k] && r[4 * k + 3] == m[4 * k + 3]
  {
    var c, s := a.c, a.s;
    [m[0], m[1] * c + m[2] * s, -m[1] * s + m[2] * c, m[3],
     m[4], m[5] * c + m[6] * s, -m[5] * s + m[6] * c, m[7],
     m[8], m[9] * c + m[10] * s, -m[9] * s + m[10] * c, m[11],
     m[12], m[13] * c + m[14] * s, -m[13] * s + m[14] * c, m[15]]
  }

  /** Rows 0 and 2 of every column are rotated by (c, s). */
  function RotateY(m: Mat, a: Angle): (r: Mat)
    ensures forall k :: 0 <= k < 4 ==> r[4 * k + 1] == m[4 * k + 1] && r[4 * k + 3] == m[4 * k + 3]
  {
    var c, s := a.c, a.s;
    [m[0] * c - m[2] * s, m[1], m[0] * s + m[2] * c, m[3],
     m[4] * c - m[6] * s, m[5], m[4] * s + m[6] * c, m[7],
     m[8] * c - m[10] * s, m[9], m[8] * s + m[10] * c, m[11],
     m[12] * c - m[14] * s, m[13], m[12] * s + m[14] * c, m[15]]
  }

  /** Rows 0 and 1 of every column are rotated by (c, s). */
  function RotateZ(m: Mat, a: Angle): (r: Mat)
    ensures forall k :: 0 <= k < 4 ==> r[4 * k + 2] == m[4 * k + 2] && r[4 * k + 3] == m[4 * k + 3]
  {
    var c, s := a.c, a.s;
    [m[0] * c + m[1] * s, -m[0] * s + m[1] * c, m[2], m[3],
     m[4] * c + m[5] * s, -m[4] * s + m[5] * c, m[6], m[7],
     m[8] * c + m[9] * s, -m[8] * s + m[9] * c, m[10], m[11],
     m[12] * c + m[13] * s, -m[12] * s + m[13] * c, m[14], m[15]]
  }

  /** A second `translate` replaces the first instead of adding to it, and
      on the identity `translate` builds the translation matrix. */
  lemma TranslateReplaces(m: Mat, tx: real, ty: real, tz: real, ux: real, uy: real, uz: real)
    ensures Translate(Translate(m, tx, ty, tz), ux, uy, uz) == Translate(m, ux, uy, uz)
    ensures Translate(Identity(), tx, ty, tz) == Transform.Translation(tx, ty, tz)
  {
  }

  /** What `rotateX` does to one column: rows 1 and 2 are rotated. */
  function TurnX(v: V4, a: Angle): V4
  {
    V4(v.x, v.y * a.c + v.z * a.s, -v.y * a.s + v.z * a.c, v.w)
  }

  lemma ApplyTransposedRotX(a: Angle, v: V4)
    ensures Apply(Transpose(Transform.RotX(a)), v) == TurnX(v, a)
  {
  }

  lemma RotateXColumn0(m: Mat, a: Angle)
    ensures Column(RotateX(m, a), 0) == TurnX(Column(m, 0), a)
  {
  }

  lemma RotateXColumn1(m: Mat, a: Angle)
    ensures Column(RotateX(m, a), 1) == TurnX(Column(m, 1), a)
  {
  }

  lemma RotateXColumn2(m: Mat, a: Angle)
    ensures Column(RotateX(m, a), 2) == TurnX(Column(m, 2), a)
  {
  }

  lemma RotateXColumn3(m: Mat, a: Angle)
    ensures Column(RotateX(m, a), 3) == TurnX(Column(m, 3), a)
  {
  }

  /** Each in-place rotation multiplies the matrix on the left by the
      transpose of the fresh rotation of the same (c, s), that is by the
      rotation through the opposite angle; so (c, s) = (1, 0) changes
      nothing. */
  lemma RotateXIsLeftProduct(m: Mat, a: Angle)
    ensures RotateX(m, a) == Mul(Transpose(Transform.RotX(a)), m)
  {
    var t := Transpose(Transform.RotX(a));
    var r := RotateX(m, a);
    ApplyTransposedRotX(a, Column(m, 0));
    ApplyTransposedRotX(a, Column(m, 1));
    ApplyTransposedRotX(a, Column(m, 2));
    ApplyTransposedRotX(a, Column(m, 3));
    RotateXColumn0(m, a);
    RotateXColumn1(m, a);
    RotateXColumn2(m, a);
    RotateXColumn3(m, a);
    MulByFourColumns(t, m, r);
  }

  /** What `rotateY` does to one column: rows 0 and 2 are rotated. */
  function TurnY(v: V4, a: Angle): V4
  {
    V4(v.x * a.c - v.z * a.s, v.y, v.x * a.s + v.z * a.c, v.w)
  }

  lemma ApplyTransposedRotY(a: Angle, v: V4)
    ensures Apply(Transpose(Transform.RotY(a)), v) == TurnY(v, a)
  {
  }

  lemma RotateYColumn0(m: Mat, a: Angle)
    ensures Column(RotateY(m, a), 0) == TurnY(Column(m, 0), a)
  {
  }

  lemma RotateYColumn1(m: Mat, a: Angle)
    ensures Column(RotateY(m, a), 1) == TurnY(Column(m, 1), a)
  {
  }

  lemma RotateYColumn2(m: Mat, a: Angle)
    ensures Column(RotateY(m, a), 2) == TurnY(Column(m, 2), a)
  {
  }

  lemma RotateYColumn3(m: Mat, a: Angle)
    ensures Column(RotateY(m, a), 3) == TurnY(Column(m, 3), a)
  {
  }

  lemma RotateYIsLeftProduct(m: Mat, a: Angle)
    ensures RotateY(m, a) == Mul(Transpose(Transform.RotY(a)), m)
  {
    var t := Transpose(Transform.RotY(a));
    var r := RotateY(m, a);
    ApplyTransposedRotY(a, Column(m, 0));
    ApplyTransposedRotY(a, Column(m, 1));
    ApplyTransposedRotY(a, Column(m, 2));
    ApplyTransposedRotY(a, Column(m, 3));
    RotateYColumn0(m, a);
    RotateYColumn1(m, a);
    RotateYColumn2(m, a);
    RotateYColumn3(m, a);
    MulByFourColumns(t, m, r);
  }

  /** What `rotateZ` does to one column: rows 0 and 1 are rotated. */
  function TurnZ(v: V4, a: Angle): V4
  {
    V4(v.x * a.c + v.y * a.s, -v.x * a.s + v.y * a.c, v.z, v.w)
  }

  lemma ApplyTransposedRotZ(a: Angle, v: V4)
    ensures Apply(Transpose(Transform.RotZ(a)), v) == TurnZ(v, a)
  {
  }

  lemma RotateZColumn0(m: Mat, a: Angle)
    ensures Column(RotateZ(m, a), 0) == TurnZ(Column(m, 0), a)
  {
  }

  lemma RotateZColumn1(m: Mat, a: Angle)
    ensures Column(RotateZ(m, a), 1) == TurnZ(Column(m, 1), a)
  {
  }

  lemma RotateZColumn2(m: Mat, a: Angle)
    ensures Column(RotateZ(m, a), 2) == TurnZ(Column(m, 2), a)
  {
  }

  lemma RotateZColumn3(m: Mat, a: Angle)
    ensures Column(RotateZ(m, a), 3) == TurnZ(Column(m, 3), a)
  {
  }

  lemma RotateZIsLeftProduct(m: Mat, a: Angle)
    ensures RotateZ(m, a) == Mul(Transpose(Transform.RotZ(a)), m)
  {
    var t := Transpose(Transform.RotZ(a));
    var r := RotateZ(m, a);
    ApplyTransposedRotZ(a, Column(m, 0));
    ApplyTransposedRotZ(a, Column(m, 1));
    ApplyTransposedRotZ(a, Column(m, 2));
    ApplyTransposedRotZ(a, Column(m, 3));
    RotateZColumn0(m, a);
    RotateZColumn1(m, a);
    RotateZColumn2(m, a);
    RotateZColumn3(m, a);
    MulByFourColumns(t, m, r);
  }

  lemma RotateByZeroAngle(m: Mat)
    ensures RotateX(m, Angle(1.0, 0.0)) == m
    ensures RotateY(m, Angle(1.0, 0.0)) == m
    ensures RotateZ(m, Angle(1.0, 0.0)) == m
  {
  }

  /** `rotateX` on the identity: column 1 becomes (0, c, -s, 0) and
      column 2 becomes (0, s, c, 0). */
  lemma RotateXOfIdentity(a: Angle)
    ensures Column(RotateX(Identity(), a), 0) == V4(1.0, 0.0, 0.0, 0.0)
    ensures Column(RotateX(Identity(), a), 1) == V4(0.0, a.c, -a.s, 0.0)
    ensures Column(RotateX(Identity(), a), 2) == V4(0.0, a.s, a.c, 0.0)
    ensures Column(RotateX(Identity(), a), 3) == V4(0.0, 0.0, 0.0, 1.0)
  {
  }
}
