/** `getTransformMatrix(angleInDegrees, scale)` of lab2/affine.js: the 2D
    transform of the lab's triangle, a rotation by the given angle and a
    uniform scale in the xy plane, as a column-major 4x4 matrix.  Its
    column 0 is (cos, -sin) scale and column 1 (sin, cos) scale, so the
    rotation turns clockwise for positive angles. */
module Affine {
  import opened Num
  import opened Mat4
  import opened Transform

  function TransformMatrix(trig: Trig, deg: real, scale: real): (m: Mat)
    ensures forall i :: 2 <= i < 4 || 6 <= i < 16 ==> m[i] == Identity()[i]
  {
    var a := trig(DegToRad(deg));
    [a.c * scale, -a.s * scale, 0.0, 0.0,
     a.s * scale, a.c * scale, 0.0, 0.0,
     0.0, 0.0, 1.0, 0.0,
     0.0, 0.0, 0.0, 1.0]
  }

  /** The matrix is the uniform scaling applied after the rotation about z
      by the opposite angle (cos, -sin). */
  lemma ScaledClockwiseRotation(trig: Trig, deg: real, scale: real)
    ensures var a := trig(DegToRad(deg));
      TransformMatrix(trig, deg, scale) == Mul(Scaling(scale, scale, 1.0), RotZ(Angle(a.c, -a.s)))
  {
    var a := trig(DegToRad(deg));
    var s, z, m := Scaling(scale, scale, 1.0), RotZ(Angle(a.c, -a.s)), TransformMatrix(trig, deg, scale);
    forall c | 0 <= c < 4
      ensures Apply(s, Column(z, c)) == Column(m, c)
    {
      assert c == 0 || c == 1 || c == 2 || c == 3;
    }
    MulByColumns(s, z, m);
  }

  /** An angle of 0 leaves only the scale: the upper-left block is
      scale times the identity. */
  lemma NoRotation(trig: Trig, scale: real)
    requires trig(0.0) == Angle(1.0, 0.0)
    ensures TransformMatrix(trig, 0.0, scale) == Scaling(scale, scale, 1.0)
  {
    assert DegToRad(0.0) == 0.0;
  }

  /** With cos^2 + sin^2 = 1 the determinant of the 2x2 block is scale^2:
      areas grow by the square of the scale and orientation is kept. */
  lemma Determinant(trig: Trig, deg: real, scale: real)
    requires IsUnit(trig(DegToRad(deg)))
    ensures var m := TransformMatrix(trig, deg, scale);
      m[0] * m[5] - m[4] * m[1] == scale * scale
  {
    var a := trig(DegToRad(deg));
    assert (a.c * scale) * (a.c * scale) - (a.s * scale) * (-a.s * scale) ==
      (a.c * a.c + a.s * a.s) * (scale * scale);
  }

  /** With cos^2 + sin^2 = 1 a point (x, y) of the plane is sent to a point
      of the plane at scale times its distance from the origin. */
  lemma ScalesLengths(trig: Trig, deg: real, scale: real, x: real, y: real)
    requires IsUnit(trig(DegToRad(deg)))
    ensures var p := Apply(TransformMatrix(trig, deg, scale), V4(x, y, 0.0, 1.0));
      p.z == 0.0 && p.w == 1.0 &&
      p.x * p.x + p.y * p.y == (scale * scale) * (x * x + y * y)
  {
    var a := trig(DegToRad(deg));
    var p := Apply(TransformMatrix(trig, deg, scale), V4(x, y, 0.0, 1.0));
    assert p.x == scale * (a.c * x + a.s * y) && p.y == scale * (a.c * y - a.s * x);
    RotatedLength(a.c, a.s, x, y, scale);
  }

  lemma RotatedLength(c: real, s: real, x: real, y: real, k: real)
    requires c * c + s * s == 1.0
    ensures (k * (c * x + s * y)) * (k * (c * x + s * y)) + (k * (c * y - s * x)) * (k * (c * y - s * x))
      == (k * k) * (x * x + y * y)
  {
    assert (c * x + s * y) * (c * x + s * y) + (c * y - s * x) * (c * y - s * x) == (c * c + s * s) * (x * x + y * y);
  }

  /** At scale 1 the matrix is orthogonal: its transpose undoes it. */
  lemma UnitScaleOrthonormal(trig: Trig, deg: real)
    requires IsUnit(trig(DegToRad(deg)))
    ensures var m := TransformMatrix(trig, deg, 1.0);
      Mul(Transpose(m), m) == Identity()
  {
    var a := trig(DegToRad(deg));
    var b := Angle(a.c, -a.s);
    assert IsUnit(b);
    RotationOrthonormal(b);
    assert TransformMatrix(trig, deg, 1.0) == RotZ(b);
  }
}
