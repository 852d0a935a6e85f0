/** project1_ide's scene math: the model matrix built from a transformation
    order (`createTransformationMatrix`), the rigid-body inverse used for the
    camera (`invertMatrix`), and the length guard of `formatMatrixAsJSON`. */
module Scene {
  import opened Num
  import opened Mat4
  import opened Transform

  /** The six orders the order switch names. */
  datatype Order = TRS | TSR | RTS | RST | STR | SRT

  /** The `switch` on the order string: every other string takes the
      `default` branch, which is TRS. */
  function ParseOrder(name: string): (o: Order)
    ensures name == "TSR" <==> o == TSR
    ensures name == "RTS" <==> o == RTS
    ensures name == "RST" <==> o == RST
    ensures name == "STR" <==> o == STR
    ensures name == "SRT" <==> o == SRT
  {
    if name == "TSR" then TSR
    else if name == "RTS" then RTS
    else if name == "RST" then RST
    else if name == "STR" then STR
    else if name == "SRT" then SRT
    else TRS
  }

  /** The combined rotation Rz * (Ry * Rx), angles in degrees. */
  function Rotation(trig: Trig, rx: real, ry: real, rz: real): Mat
  {
    Mul(RotZ(trig(DegToRad(rz))), Mul(RotY(trig(DegToRad(ry))), RotX(trig(DegToRad(rx)))))
  }

  /** The product each order names, grouped as the source groups it. */
  function Compose(o: Order, t: Mat, r: Mat, s: Mat): Mat
  {
    match o
    case TRS => Mul(t, Mul(r, s))
    case TSR => Mul(t, Mul(s, r))
    case RTS => Mul(r, Mul(t, s))
    case RST => Mul(r, Mul(s, t))
    case STR => Mul(s, Mul(t, r))
    case SRT => Mul(s, Mul(r, t))
  }

  function CreateTransformationMatrix(trig: Trig, tx: real, ty: real, tz: real,
                                      rx: real, ry: real, rz: real,
                                      sx: real, sy: real, sz: real, order: string): Mat
  {
    Compose(ParseOrder(order), Translation(tx, ty, tz), Rotation(trig, rx, ry, rz), Scaling(sx, sy, sz))
  }

  /** Any order string outside the six gives the TRS matrix. */
  lemma UnknownOrderIsTRS(trig: Trig, tx: real, ty: real, tz: real,
                          rx: real, ry: real, rz: real,
                          sx: real, sy: real, sz: real, order: string)
    requires order != "TSR" && order != "RTS" && order != "RST" && order != "STR" && order != "SRT"
    ensures CreateTransformationMatrix(trig, tx, ty, tz, rx, ry, rz, sx, sy, sz, order)
         == CreateTransformationMatrix(trig, tx, ty, tz, rx, ry, rz, sx, sy, sz, "TRS")
    ensures CreateTransformationMatrix(trig, tx, ty, tz, rx, ry, rz, sx, sy, sz, order)
         == Mul(Translation(tx, ty, tz), Mul(Rotation(trig, rx, ry, rz), Scaling(sx, sy, sz)))
  {
    assert ParseOrder(order) == TRS;
    assert ParseOrder("TRS") == TRS;
  }

  /** The order names what happens to a vertex right to left: under TRS a
      vertex is scaled, then rotated about x, y and z in that order, then
      translated; the other orders likewise. */
  lemma ComposeActsRightToLeft(o: Order, t: Mat, r: Mat, s: Mat, v: V4)
    ensures Apply(Compose(o, t, r, s), v) ==
            match o
            case TRS => Apply(t, Apply(r, Apply(s, v)))
            case TSR => Apply(t, Apply(s, Apply(r, v)))
            case RTS => Apply(r, Apply(t, Apply(s, v)))
            case RST => Apply(r, Apply(s, Apply(t, v)))
            case STR => Apply(s, Apply(t, Apply(r, v)))
            case SRT => Apply(s, Apply(r, Apply(t, v)))
  {
    match o
    case TRS => ApplyMul(t, Mul(r, s), v); ApplyMul(r, s, v);
    case TSR => ApplyMul(t, Mul(s, r), v); ApplyMul(s, r, v);
    case RTS => ApplyMul(r, Mul(t, s), v); ApplyMul(t, s, v);
    case RST => ApplyMul(r, Mul(s, t), v); ApplyMul(s, t, v);
    case STR => ApplyMul(s, Mul(t, r), v); ApplyMul(t, r, v);
    case SRT => ApplyMul(s, Mul(r, t), v); ApplyMul(r, t, v);
  }

  /** The combined rotation applies the x rotation first, then y, then z. */
  lemma RotationOrder(trig: Trig, rx: real, ry: real, rz: real, v: V4)
    ensures Apply(Rotation(trig, rx, ry, rz), v) ==
            Apply(RotZ(trig(DegToRad(rz))), Apply(RotY(trig(DegToRad(ry))), Apply(RotX(trig(DegToRad(rx))), v)))
  {
    var x, y, z := RotX(trig(DegToRad(rx))), RotY(trig(DegToRad(ry))), RotZ(trig(DegToRad(rz)));
    ApplyMul(z, Mul(y, x), v);
    ApplyMul(y, x, v);
  }

  /** With no rotation and unit scale every order gives the plain
      translation. */
  lemma PureTranslation(trig: Trig, tx: real, ty: real, tz: real, order: string)
    requires trig(0.0) == Angle(1.0, 0.0)
    ensures CreateTransformationMatrix(trig, tx, ty, tz, 0.0, 0.0, 0.0, 1.0, 1.0, 1.0, order)
         == Translation(tx, ty, tz)
  {
    NoRotation(trig);
    ScalingLaws(1.0, 1.0, 1.0, 1.0, 1.0, 1.0, V4(0.0, 0.0, 0.0, 0.0));
    ComposeWithIdentities(ParseOrder(order), Translation(tx, ty, tz));
  }

  /** Zero angles give the identity rotation. */
  lemma NoRotation(trig: Trig)
    requires trig(0.0) == Angle(1.0, 0.0)
    ensures Rotation(trig, 0.0, 0.0, 0.0) == Identity()
  {
    assert DegToRad(0.0) == 0.0;
    MulIdentity(Identity());
  }

  /** Every order leaves a lone translation alone. */
  lemma ComposeWithIdentities(o: Order, t: Mat)
    ensures Compose(o, t, Identity(), Identity()) == t
  {
    MulIdentity(t);
    MulIdentity(Identity());
  }

  /** The 3x3 block of a matrix has orthonormal columns. */
  predicate OrthonormalBlock(m: Mat)
  {
    Col3Dot(m, 0, 0) == 1.0 && Col3Dot(m, 1, 1) == 1.0 && Col3Dot(m, 2, 2) == 1.0 &&
    Col3Dot(m, 0, 1) == 0.0 && Col3Dot(m, 0, 2) == 0.0 && Col3Dot(m, 1, 2) == 0.0
  }

  /** The dot product of columns i and j of the 3x3 block. */
  function Col3Dot(m: Mat, i: nat, j: nat): real
    requires i < 3 && j < 3
  {
    m[i * 4] * m[j * 4] + m[i * 4 + 1] * m[j * 4 + 1] + m[i * 4 + 2] * m[j * 4 + 2]
  }

  /** A rigid motion [R | t]: orthonormal block, bottom row (0, 0, 0, 1). */
  predicate IsRigid(m: Mat)
  {
    OrthonormalBlock(m) && m[3] == 0.0 && m[7] == 0.0 && m[11] == 0.0 && m[15] == 1.0
  }

  /** `invertMatrix` as it stands: the block is copied in its original
      layout (not transposed), the translation is -R^T t. */
  function InvertMatrixAsWritten(m: Mat): (r: Mat)
    ensures r[3] == 0.0 && r[7] == 0.0 && r[11] == 0.0 && r[15] == 1.0
    ensures forall i :: 0 <= i < 11 && i % 4 != 3 ==> r[i] == m[i]
  {
    var r00, r01, r02 := m[0], m[4], m[8];
    var r10, r11, r12 := m[1], m[5], m[9];
    var r20, r21, r22 := m[2], m[6], m[10];
    var tx, ty, tz := m[12], m[13], m[14];
    var newTx := -(r00 * tx + r10 * ty + r20 * tz);
    var newTy := -(r01 * tx + r11 * ty + r21 * tz);
    var newTz := -(r02 * tx + r12 * ty + r22 * tz);
    [r00, r10, r20, 0.0,
     r01, r11, r21, 0.0,
     r02, r12, r22, 0.0,
     newTx, newTy, newTz, 1.0]
  }

  /** The inverse of a rigid motion, [R^T | -R^T t], as the comments of
      `invertMatrix` describe it. */
  function InvertRigid(m: Mat): (r: Mat)
    ensures r[3] == 0.0 && r[7] == 0.0 && r[11] == 0.0 && r[15] == 1.0
    ensures forall i :: 0 <= i < 3 ==> forall j :: 0 <= j < 3 ==> r[j * 4 + i] == m[i * 4 + j]
  {
    var tx, ty, tz := m[12], m[13], m[14];
    [m[0], m[4], m[8], 0.0,
     m[1], m[5], m[9], 0.0,
     m[2], m[6], m[10], 0.0,
     -(m[0] * tx + m[1] * ty + m[2] * tz),
     -(m[4] * tx + m[5] * ty + m[6] * tz),
     -(m[8] * tx + m[9] * ty + m[10] * tz), 1.0]
  }

  /** `InvertRigid` applied to a direction (w = 0) multiplies it by R^T. */
  lemma ApplyInvertRigidDirection(m: Mat, v: V4)
    requires v.w == 0.0
    ensures Apply(InvertRigid(m), v) ==
            V4(m[0] * v.x + m[1] * v.y + m[2] * v.z,
               m[4] * v.x + m[5] * v.y + m[6] * v.z,
               m[8] * v.x + m[9] * v.y + m[10] * v.z, 0.0)
  {
  }

  /** Columns 0..2 of a rigid motion go back to the unit axes under
      `InvertRigid`: entry i of the image of column k is the dot product of
      columns i and k. */
  lemma InvertRigidAxes(m: Mat)
    requires IsRigid(m)
    ensures Apply(InvertRigid(m), Column(m, 0)) == Column(Identity(), 0)
    ensures Apply(InvertRigid(m), Column(m, 1)) == Column(Identity(), 1)
    ensures Apply(InvertRigid(m), Column(m, 2)) == Column(Identity(), 2)
  {
    assert Apply(InvertRigid(m), Column(m, 0)) == Column(Identity(), 0) by {
      ApplyInvertRigidDirection(m, Column(m, 0));
    }
    assert Apply(InvertRigid(m), Column(m, 1)) == Column(Identity(), 1) by {
      ApplyInvertRigidDirection(m, Column(m, 1));
    }
    assert Apply(InvertRigid(m), Column(m, 2)) == Column(Identity(), 2) by {
      ApplyInvertRigidDirection(m, Column(m, 2));
    }
  }

  /** The translation column goes back to the origin. */
  lemma InvertRigidTranslation(m: Mat)
    requires IsRigid(m)
    ensures Apply(InvertRigid(m), Column(m, 3)) == Column(Identity(), 3)
  {
  }

  /** The corrected inverse undoes every rigid motion. */
  lemma InvertRigidIsInverse(m: Mat)
    requires IsRigid(m)
    ensures Mul(InvertRigid(m), m) == Identity()
  {
    InvertRigidAxes(m);
    InvertRigidTranslation(m);
    MulByFourColumns(InvertRigid(m), m, Identity());
  }

  /** The two inverses share their translation column, and they agree
      exactly when the 3x3 block is symmetric. */
  lemma AsWrittenAgreesOnlyWhenSymmetric(m: Mat)
    ensures InvertMatrixAsWritten(m)[12] == InvertRigid(m)[12]
    ensures InvertMatrixAsWritten(m)[13] == InvertRigid(m)[13]
    ensures InvertMatrixAsWritten(m)[14] == InvertRigid(m)[14]
    ensures InvertMatrixAsWritten(m) == InvertRigid(m) <==> m[1] == m[4] && m[2] == m[8] && m[6] == m[9]
  {
    if InvertMatrixAsWritten(m) == InvertRigid(m) {
      assert InvertMatrixAsWritten(m)[1] == InvertRigid(m)[1];
      assert InvertMatrixAsWritten(m)[2] == InvertRigid(m)[2];
      assert InvertMatrixAsWritten(m)[6] == InvertRigid(m)[6];
    }
  }

  /** A quarter turn about z is rigid, yet `invertMatrix` as written does
      not invert it: its product with the matrix is the half turn, whose
      first entry is -1. */
  lemma AsWrittenFailsOnQuarterTurn()
    ensures IsRigid(RotZ(Angle(0.0, 1.0)))
    ensures Mul(InvertMatrixAsWritten(RotZ(Angle(0.0, 1.0))), RotZ(Angle(0.0, 1.0)))[0] == -1.0
    ensures Mul(InvertMatrixAsWritten(RotZ(Angle(0.0, 1.0))), RotZ(Angle(0.0, 1.0))) != Identity()
  {
    var m := RotZ(Angle(0.0, 1.0));
    QuarterTurnFacts();
    MulEntry(m, m, 0, 0);
    assert Mul(m, m)[0] == -1.0;
    assert Mul(m, m)[0] != Identity()[0];
  }

  lemma QuarterTurnFacts()
    ensures IsRigid(RotZ(Angle(0.0, 1.0)))
    ensures InvertMatrixAsWritten(RotZ(Angle(0.0, 1.0))) == RotZ(Angle(0.0, 1.0))
  {
    var m := RotZ(Angle(0.0, 1.0));
    assert m == [0.0, 1.0, 0.0, 0.0, -1.0, 0.0, 0.0, 0.0, 0.0, 0.0, 1.0, 0.0, 0.0, 0.0, 0.0, 1.0];
  }

  /** The message `formatMatrixAsJSON` returns for a wrong-sized input. */
  const FormatError: string := "Error: Input must be an array containing exactly 16 numbers for a 4x4 matrix."

  /** `formatMatrixAsJSON` up to number formatting: the error text unless
      there are exactly 16 entries, otherwise the printed lines, each four
      consecutive entries (one column of the column-major matrix). */
  method FormatMatrixLines(m: seq<real>) returns (r: Result<seq<seq<real>>>)
    ensures r.Failure? <==> |m| != 16
    ensures r.Failure? ==> r.error == FormatError
    ensures r.Success? ==> |r.value| == 4 && forall k :: 0 <= k < 4 ==> r.value[k] == m[k * 4 .. k * 4 + 4]
  {
    if |m| != 16 {
      return Failure(FormatError);
    }
    var lines: seq<seq<real>> := [];
    var i := 0;
    while i < |m|
      invariant 0 <= i <= 16 && i % 4 == 0
      invariant |lines| * 4 == i
      invariant forall k :: 0 <= k < |lines| ==> lines[k] == m[k * 4 .. k * 4 + 4]
    {
      lines := lines + [m[i .. i + 4]];
      i := i + 4;
    }
    return Success(lines);
  }
}
