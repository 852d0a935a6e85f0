/** The affine building blocks: translation, scaling and the three axis
    rotations, laid out exactly as `createTranslationMatrix`,
    `createScalingMatrix` and `createRotationMatrixX/Y/Z` of the coursework
    return them.  A rotation takes the pair (cos, sin) of its angle; the copies
    that take degrees convert first with `DegToRad` and then ask the caller's
    `Trig` for the pair. */
module Transform {
  import opened Num
  import opened Mat4

  function Translation(tx: real, ty: real, tz: real): (m: Mat)
    ensures forall i :: 0 <= i < 12 || i == 15 ==> m[i] == Identity()[i]
    ensures m[12] == tx && m[13] == ty && m[14] == tz
  {
    [1.0, 0.0, 0.0, 0.0,
     0.0, 1.0, 0.0, 0.0,
     0.0, 0.0, 1.0, 0.0,
     tx, ty, tz, 1.0]
  }

  function Scaling(sx: real, sy: real, sz: real): (m: Mat)
    ensures forall i :: 0 <= i < 16 && i != 0 && i != 5 && i != 10 ==> m[i] == Identity()[i]
    ensures m[0] == sx && m[5] == sy && m[10] == sz
  {
    [sx, 0.0, 0.0, 0.0,
     0.0, sy, 0.0, 0.0,
     0.0, 0.0, sz, 0.0,
     0.0, 0.0, 0.0, 1.0]
  }

  function RotX(a: Angle): (m: Mat)
    ensures a == Angle(1.0, 0.0) ==> m == Identity()
  {
    [1.0, 0.0, 0.0, 0.0,
     0.0, a.c, a.s, 0.0,
     0.0, -a.s, a.c, 0.0,
     0.0, 0.0, 0.0, 1.0]
  }

  function RotY(a: Angle): (m: Mat)
    ensures a == Angle(1.0, 0.0) ==> m == Identity()
  {
    [a.c, 0.0, -a.s, 0.0,
     0.0, 1.0, 0.0, 0.0,
     a.s, 0.0, a.c, 0.0,
     0.0, 0.0, 0.0, 1.0]
  }

  function RotZ(a: Angle): (m: Mat)
    ensures a == Angle(1.0, 0.0) ==> m == Identity()
  {
    [a.c, a.s, 0.0, 0.0,
     -a.s, a.c, 0.0, 0.0,
     0.0, 0.0, 1.0, 0.0,
     0.0, 0.0, 0.0, 1.0]
  }

  /** `Mat4.rotateX(deg)` of project1: degrees in, so an input of 0 is the
      identity as soon as the trigonometry is right at 0. */
  function RotateXDeg(trig: Trig, deg: real): (m: Mat)
    ensures deg == 0.0 && trig(0.0) == Angle(1.0, 0.0) ==> m == Identity()
  {
    RotX(trig(DegToRad(deg)))
  }

  function RotateYDeg(trig: Trig, deg: real): (m: Mat)
    ensures deg == 0.0 && trig(0.0) == Angle(1.0, 0.0) ==> m == Identity()
  {
    RotY(trig(DegToRad(deg)))
  }

  function RotateZDeg(trig: Trig, deg: real): (m: Mat)
    ensures deg == 0.0 && trig(0.0) == Angle(1.0, 0.0) ==> m == Identity()
  {
    RotZ(trig(DegToRad(deg)))
  }

  /** A translation moves points (w = 1) by the offset and leaves
      directions (w = 0) alone; two translations add up. */
  lemma TranslationLaws(tx: real, ty: real, tz: real, ux: real, uy: real, uz: real, x: real, y: real, z: real)
    ensures Apply(Translation(tx, ty, tz), V4(x, y, z, 1.0)) == V4(x + tx, y + ty, z + tz, 1.0)
    ensures Apply(Translation(tx, ty, tz), V4(x, y, z, 0.0)) == V4(x, y, z, 0.0)
    ensures Mul(Translation(tx, ty, tz), Translation(ux, uy, uz)) == Translation(tx + ux, ty + uy, tz + uz)
    ensures Translation(0.0, 0.0, 0.0) == Identity()
  {
    var l := Mul(Translation(tx, ty, tz), Translation(ux, uy, uz));
    var r := Translation(tx + ux, ty + uy, tz + uz);
    forall c | 0 <= c < 4
      ensures Column(l, c) == Column(r, c)
    {
      MulColumn(Translation(tx, ty, tz), Translation(ux, uy, uz), c);
    }
    ColumnsDetermine(l, r);
  }

  /** A scaling multiplies each coordinate; (1, 1, 1) is the identity and
      two scalings multiply. */
  lemma ScalingLaws(sx: real, sy: real, sz: real, kx: real, ky: real, kz: real, v: V4)
    ensures Apply(Scaling(sx, sy, sz), v) == V4(sx * v.x, sy * v.y, sz * v.z, v.w)
    ensures Scaling(1.0, 1.0, 1.0) == Identity()
    ensures Mul(Scaling(sx, sy, sz), Scaling(kx, ky, kz)) == Scaling(sx * kx, sy * ky, sz * kz)
  {
    var l := Mul(Scaling(sx, sy, sz), Scaling(kx, ky, kz));
    var r := Scaling(sx * kx, sy * ky, sz * kz);
    forall c | 0 <= c < 4
      ensures Column(l, c) == Column(r, c)
    {
      MulColumn(Scaling(sx, sy, sz), Scaling(kx, ky, kz), c);
    }
    ColumnsDetermine(l, r);
  }

  /** Each rotation fixes its own axis and turns the next axis towards the
      one after it (x to y, y to z, z to x): the right-handed,
      counter-clockwise convention. */
  lemma RotationAxes(a: Angle)
    ensures Apply(RotX(a), V4(1.0, 0.0, 0.0, 0.0)) == V4(1.0, 0.0, 0.0, 0.0)
    ensures Apply(RotX(a), V4(0.0, 1.0, 0.0, 0.0)) == V4(0.0, a.c, a.s, 0.0)
    ensures Apply(RotY(a), V4(0.0, 1.0, 0.0, 0.0)) == V4(0.0, 1.0, 0.0, 0.0)
    ensures Apply(RotY(a), V4(0.0, 0.0, 1.0, 0.0)) == V4(a.s, 0.0, a.c, 0.0)
    ensures Apply(RotZ(a), V4(0.0, 0.0, 1.0, 0.0)) == V4(0.0, 0.0, 1.0, 0.0)
    ensures Apply(RotZ(a), V4(1.0, 0.0, 0.0, 0.0)) == V4(a.c, a.s, 0.0, 0.0)
  {
  }

  /** The angle-sum formulas: (c1 c2 - s1 s2, s1 c2 + c1 s2). */
  function Sum(a: Angle, b: Angle): Angle
  {
    Angle(a.c * b.c - a.s * b.s, a.s * b.c + a.c * b.s)
  }

  /** The opposite angle (cos, -sin). */
  function Conjugate(a: Angle): Angle
  {
    Angle(a.c, -a.s)
  }

  /** A point (u, v) of one coordinate plane. */
  datatype Planar = Planar(u: real, v: real)

  /** The counter-clockwise turn of the plane by `a`, on coordinates (u, v). */
  function Turn(a: Angle, u: real, v: real): Planar
  {
    Planar(a.c * u - a.s * v, a.s * u + a.c * v)
  }

  /** Turning the two basis directions of the plane by `a` after `b` gives
      the basis turned by the summed angle. */
  lemma TurnBasis(a: Angle, b: Angle)
    ensures Turn(a, b.c, b.s) == Planar(Sum(a, b).c, Sum(a, b).s)
    ensures Turn(a, -b.s, b.c) == Planar(-Sum(a, b).s, Sum(a, b).c)
  {
    var x, y := a.c * -b.s - a.s * b.c, a.s * -b.s + a.c * b.c;
    assert x == -(a.s * b.c + a.c * b.s) by {
      assert a.c * -b.s == -(a.c * b.s);
    }
    assert y == a.c * b.c - a.s * b.s by {
      assert a.s * -b.s == -(a.s * b.s);
    }
    assert Turn(a, -b.s, b.c) == Planar(x, y);
  }

  /** For a unit angle, turning back by the conjugate undoes the turn. */
  lemma ConjugateCancels(a: Angle)
    requires IsUnit(a)
    ensures Sum(Conjugate(a), a) == Angle(1.0, 0.0)
  {
    assert -a.s * a.s == -(a.s * a.s);
    assert -a.s * a.c + a.c * a.s == 0.0;
  }

  /** Each rotation turns its own plane and leaves the axis and w alone:
      X turns (y, z), Y turns (z, x) and Z turns (x, y). */
  lemma ApplyRotations(a: Angle, v: V4)
    ensures Apply(RotX(a), v) == V4(v.x, Turn(a, v.y, v.z).u, Turn(a, v.y, v.z).v, v.w)
    ensures Apply(RotY(a), v) == V4(Turn(a, v.z, v.x).v, v.y, Turn(a, v.z, v.x).u, v.w)
    ensures Apply(RotZ(a), v) == V4(Turn(a, v.x, v.y).u, Turn(a, v.x, v.y).v, v.z, v.w)
  {
    assert -a.s * v.z == -(a.s * v.z);
    assert -a.s * v.x == -(a.s * v.x);
    assert -a.s * v.y == -(a.s * v.y);
  }

  /** Transposing a rotation gives the rotation by the opposite angle. */
  lemma TransposeRotations(a: Angle)
    ensures Transpose(RotX(a)) == RotX(Conjugate(a))
    ensures Transpose(RotY(a)) == RotY(Conjugate(a))
    ensures Transpose(RotZ(a)) == RotZ(Conjugate(a))
  {
  }

  /** Rotations about one axis compose by adding angles: the product of the
      rotations for (c1, s1) and (c2, s2) is the rotation for the pair given
      by the angle-sum formulas. */
  lemma RotationComposes(a: Angle, b: Angle)
    ensures Mul(RotX(a), RotX(b)) == RotX(Sum(a, b))
    ensures Mul(RotY(a), RotY(b)) == RotY(Sum(a, b))
    ensures Mul(RotZ(a), RotZ(b)) == RotZ(Sum(a, b))
  {
    TurnBasis(a, b);
    RotXComposes(a, b);
    RotYComposes(a, b);
    RotZComposes(a, b);
  }

  lemma RotXComposes(a: Angle, b: Angle)
    requires Turn(a, b.c, b.s) == Planar(Sum(a, b).c, Sum(a, b).s)
    requires Turn(a, -b.s, b.c) == Planar(-Sum(a, b).s, Sum(a, b).c)
    ensures Mul(RotX(a), RotX(b)) == RotX(Sum(a, b))
  {
    forall c | 0 <= c < 4
      ensures Apply(RotX(a), Column(RotX(b), c)) == Column(RotX(Sum(a, b)), c)
    {
      ApplyRotations(a, Column(RotX(b), c));
      assert c == 0 || c == 1 || c == 2 || c == 3;
    }
    MulByColumns(RotX(a), RotX(b), RotX(Sum(a, b)));
  }

  lemma RotYComposes(a: Angle, b: Angle)
    requires Turn(a, b.c, b.s) == Planar(Sum(a, b).c, Sum(a, b).s)
    requires Turn(a, -b.s, b.c) == Planar(-Sum(a, b).s, Sum(a, b).c)
    ensures Mul(RotY(a), RotY(b)) == RotY(Sum(a, b))
  {
    forall c | 0 <= c < 4
      ensures Apply(RotY(a), Column(RotY(b), c)) == Column(RotY(Sum(a, b)), c)
    {
      ApplyRotations(a, Column(RotY(b), c));
      assert c == 0 || c == 1 || c == 2 || c == 3;
    }
    MulByColumns(RotY(a), RotY(b), RotY(Sum(a, b)));
  }

  lemma RotZComposes(a: Angle, b: Angle)
    requires Turn(a, b.c, b.s) == Planar(Sum(a, b).c, Sum(a, b).s)
    requires Turn(a, -b.s, b.c) == Planar(-Sum(a, b).s, Sum(a, b).c)
    ensures Mul(RotZ(a), RotZ(b)) == RotZ(Sum(a, b))
  {
    forall c | 0 <= c < 4
      ensures Apply(RotZ(a), Column(RotZ(b), c)) == Column(RotZ(Sum(a, b)), c)
    {
      ApplyRotations(a, Column(RotZ(b), c));
      assert c == 0 || c == 1 || c == 2 || c == 3;
    }
    MulByColumns(RotZ(a), RotZ(b), RotZ(Sum(a, b)));
  }

  /** With cos^2 + sin^2 = 1 each rotation is orthogonal: its transpose is
      its inverse, so the 3x3 block has orthonormal columns. */
  lemma RotationOrthonormal(a: Angle)
    requires IsUnit(a)
    ensures Mul(Transpose(RotX(a)), RotX(a)) == Identity()
    ensures Mul(Transpose(RotY(a)), RotY(a)) == Identity()
    ensures Mul(Transpose(RotZ(a)), RotZ(a)) == Identity()
  {
    TransposeRotations(a);
    RotationComposes(Conjugate(a), a);
    ConjugateCancels(a);
  }
}
