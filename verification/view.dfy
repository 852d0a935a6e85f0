/** The view matrix built by every `lookAt` copy and the orbit helper
    `orbitToEye`.  The copies differ only in how they normalise (the guarded
    `Vec3.normalize` of project1, the bare divisions by the length of
    project1_ide and lab6) and in where they store the camera axes; the
    normaliser is therefore an input. */
module View {
  import opened Num
  import opened Vec3
  import opened Mat4

  /** The camera's right (x), up (y) and backward (z) axes. */
  datatype Frame = Frame(x: Vec, y: Vec, z: Vec)

  /** z = normalize(eye - target), x = normalize(up x z), y = z x x. */
  function Axes(norm: Vec -> Vec, eye: Vec, target: Vec, up: Vec): (f: Frame)
    ensures f.y == Cross(f.z, f.x)
    ensures Dot(f.y, f.z) == 0.0 && Dot(f.y, f.x) == 0.0
  {
    var z := norm(Sub(eye, target));
    var x := norm(Cross(up, z));
    CrossOrthogonal(z, x);
    Frame(x, Cross(z, x), z)
  }

  /** The frame is orthonormal: unit x and z at right angles (y is then a
      unit vector orthogonal to both, by `CrossOfOrthonormal`). */
  predicate Orthonormal(f: Frame)
  {
    IsUnitVec(f.x) && IsUnitVec(f.z) && Dot(f.x, f.z) == 0.0 && f.y == Cross(f.z, f.x)
  }

  /** The view matrix of a frame placed at `eye`, axes in the ROWS of the
      3x3 block and the translation -(axis . eye). */
  function ViewMatrix(f: Frame, eye: Vec): (m: Mat)
    ensures m[0] == f.x.x && m[4] == f.x.y && m[8] == f.x.z
    ensures m[1] == f.y.x && m[5] == f.y.y && m[9] == f.y.z
    ensures m[2] == f.z.x && m[6] == f.z.y && m[10] == f.z.z
    ensures m[3] == 0.0 && m[7] == 0.0 && m[11] == 0.0 && m[15] == 1.0
    ensures m[12] == -Dot(f.x, eye) && m[13] == -Dot(f.y, eye) && m[14] == -Dot(f.z, eye)
  {
    [f.x.x, f.y.x, f.z.x, 0.0,
     f.x.y, f.y.y, f.z.y, 0.0,
     f.x.z, f.y.z, f.z.z, 0.0,
     -Dot(f.x, eye), -Dot(f.y, eye), -Dot(f.z, eye), 1.0]
  }

  /** The lookAt of project1/js, project1_ide and lab6. */
  function LookAtRows(norm: Vec -> Vec, eye: Vec, target: Vec, up: Vec): Mat
  {
    ViewMatrix(Axes(norm, eye, target, up), eye)
  }

  /** The same frame with its axes in the COLUMNS of the 3x3 block. */
  function ColumnMatrix(f: Frame, eye: Vec): (m: Mat)
    ensures m[0] == f.x.x && m[1] == f.x.y && m[2] == f.x.z
    ensures m[4] == f.y.x && m[5] == f.y.y && m[6] == f.y.z
    ensures m[8] == f.z.x && m[9] == f.z.y && m[10] == f.z.z
    ensures m[3] == 0.0 && m[7] == 0.0 && m[11] == 0.0 && m[15] == 1.0
    ensures m[12] == -Dot(f.x, eye) && m[13] == -Dot(f.y, eye) && m[14] == -Dot(f.z, eye)
  {
    [f.x.x, f.x.y, f.x.z, 0.0,
     f.y.x, f.y.y, f.y.z, 0.0,
     f.z.x, f.z.y, f.z.z, 0.0,
     -Dot(f.x, eye), -Dot(f.y, eye), -Dot(f.z, eye), 1.0]
  }

  /** The lookAt of project1/js_ide: the same axes and translation as
      `LookAtRows`, but stored by `ColumnMatrix`. */
  function LookAtColumns(norm: Vec -> Vec, eye: Vec, target: Vec, up: Vec): Mat
  {
    ColumnMatrix(Axes(norm, eye, target, up), eye)
  }

  /** The two layouts share the translation column and the bottom row;
      their 3x3 blocks are transposes of each other. */
  lemma LayoutsAreTransposed(norm: Vec -> Vec, eye: Vec, target: Vec, up: Vec)
    ensures var r := LookAtRows(norm, eye, target, up);
            var c := LookAtColumns(norm, eye, target, up);
            var t := Transpose(r);
            c[0] == t[0] && c[1] == t[1] && c[2] == t[2] &&
            c[4] == t[4] && c[5] == t[5] && c[6] == t[6] &&
            c[8] == t[8] && c[9] == t[9] && c[10] == t[10] &&
            c[12] == r[12] && c[13] == r[13] && c[14] == r[14] && c[15] == r[15]
  {
  }

  /** The row-layout view matrix is "translate the eye to the origin, then
      rotate the world axes onto the camera axes". */
  lemma LookAtRowsFactors(norm: Vec -> Vec, eye: Vec, target: Vec, up: Vec)
    ensures var f := Axes(norm, eye, target, up);
            LookAtRows(norm, eye, target, up) ==
            Mul([f.x.x, f.y.x, f.z.x, 0.0,
                 f.x.y, f.y.y, f.z.y, 0.0,
                 f.x.z, f.y.z, f.z.z, 0.0,
                 0.0, 0.0, 0.0, 1.0],
                [1.0, 0.0, 0.0, 0.0,
                 0.0, 1.0, 0.0, 0.0,
                 0.0, 0.0, 1.0, 0.0,
                 -eye.x, -eye.y, -eye.z, 1.0])
  {
    var f := Axes(norm, eye, target, up);
    var r: Mat := [f.x.x, f.y.x, f.z.x, 0.0,
                   f.x.y, f.y.y, f.z.y, 0.0,
                   f.x.z, f.y.z, f.z.z, 0.0,
                   0.0, 0.0, 0.0, 1.0];
    var t: Mat := [1.0, 0.0, 0.0, 0.0,
                   0.0, 1.0, 0.0, 0.0,
                   0.0, 0.0, 1.0, 0.0,
                   -eye.x, -eye.y, -eye.z, 1.0];
    var m := LookAtRows(norm, eye, target, up);
    assert Apply(r, Column(t, 0)) == Column(m, 0);
    assert Apply(r, Column(t, 1)) == Column(m, 1);
    assert Apply(r, Column(t, 2)) == Column(m, 2);
    assert Apply(r, Column(t, 3)) == Column(m, 3);
    MulByFourColumns(r, t, m);
  }

  /** The row-layout view matrix sends the eye to the origin, whatever the
      normaliser returns. */
  lemma LookAtRowsMapsEyeToOrigin(norm: Vec -> Vec, eye: Vec, target: Vec, up: Vec)
    ensures Apply(LookAtRows(norm, eye, target, up), V4(eye.x, eye.y, eye.z, 1.0)) == V4(0.0, 0.0, 0.0, 1.0)
  {
    ViewMatrixAtEye(Axes(norm, eye, target, up), eye);
  }

  /** Whatever the frame, its view matrix sends the eye to the origin. */
  lemma ViewMatrixAtEye(f: Frame, e: Vec)
    ensures Apply(ViewMatrix(f, e), V4(e.x, e.y, e.z, 1.0)) == V4(0.0, 0.0, 0.0, 1.0)
  {
  }

  /** With an orthonormal frame the view matrix expresses a point in camera
      coordinates: eye + a x + b y + c z goes to (a, b, c). */
  lemma LookAtRowsCameraCoordinates(norm: Vec -> Vec, eye: Vec, target: Vec, up: Vec, a: real, b: real, c: real)
    requires Orthonormal(Axes(norm, eye, target, up))
    ensures var f := Axes(norm, eye, target, up);
            var p := Add(eye, Add(Scale(a, f.x), Add(Scale(b, f.y), Scale(c, f.z))));
            Apply(LookAtRows(norm, eye, target, up), V4(p.x, p.y, p.z, 1.0)) == V4(a, b, c, 1.0)
  {
    var f := Axes(norm, eye, target, up);
    CrossOfOrthonormal(f.z, f.x);
    var d := Add(Scale(a, f.x), Add(Scale(b, f.y), Scale(c, f.z)));
    var p := Add(eye, d);
    var m := LookAtRows(norm, eye, target, up);
    var q := Apply(m, V4(p.x, p.y, p.z, 1.0));
    assert q.x == Dot(f.x, p) - Dot(f.x, eye);
    assert q.y == Dot(f.y, p) - Dot(f.y, eye);
    assert q.z == Dot(f.z, p) - Dot(f.z, eye);
    DotLinear(f.x, eye, d);
    DotLinear(f.y, eye, d);
    DotLinear(f.z, eye, d);
    DotOfCombination(f.x, a, b, c, f.x, f.y, f.z);
    DotOfCombination(f.y, a, b, c, f.x, f.y, f.z);
    DotOfCombination(f.z, a, b, c, f.x, f.y, f.z);
    assert Dot(f.x, f.y) == Dot(f.y, f.x);
    assert Dot(f.z, f.x) == Dot(f.x, f.z);
    assert Dot(f.z, f.y) == Dot(f.y, f.z);
  }

  lemma DotLinear(u: Vec, p: Vec, d: Vec)
    ensures Dot(u, Add(p, d)) == Dot(u, p) + Dot(u, d)
  {
  }

  lemma DotOfCombination(u: Vec, a: real, b: real, c: real, x: Vec, y: Vec, z: Vec)
    ensures Dot(u, Add(Scale(a, x), Add(Scale(b, y), Scale(c, z)))) ==
            a * Dot(u, x) + b * Dot(u, y) + c * Dot(u, z)
  {
  }

  /** Looking from (1, 0, 0) at the origin with up (0, 1, 0), every
      normalisation step meets a vector that is already a unit vector and
      the camera axes are x = (0, 0, -1), y = (0, 1, 0), z = (1, 0, 0). */
  lemma SideViewAxes(norm: Vec -> Vec)
    requires norm(Vec(1.0, 0.0, 0.0)) == Vec(1.0, 0.0, 0.0)
    requires norm(Vec(0.0, 0.0, -1.0)) == Vec(0.0, 0.0, -1.0)
    ensures Axes(norm, Vec(1.0, 0.0, 0.0), Zero, Vec(0.0, 1.0, 0.0))
         == Frame(Vec(0.0, 0.0, -1.0), Vec(0.0, 1.0, 0.0), Vec(1.0, 0.0, 0.0))
  {
    assert Sub(Vec(1.0, 0.0, 0.0), Zero) == Vec(1.0, 0.0, 0.0);
    assert Cross(Vec(0.0, 1.0, 0.0), Vec(1.0, 0.0, 0.0)) == Vec(0.0, 0.0, -1.0);
    assert Cross(Vec(1.0, 0.0, 0.0), Vec(0.0, 0.0, -1.0)) == Vec(0.0, 1.0, 0.0);
  }

  /** The column layout of project1/js_ide does not send the eye to the
      origin: in the side view of `SideViewAxes` the eye lands on
      (0, 0, -2), while the row layout sends it to (0, 0, 0). */
  lemma ColumnsLayoutMovesEye(norm: Vec -> Vec, eye: Vec)
    requires norm(Vec(1.0, 0.0, 0.0)) == Vec(1.0, 0.0, 0.0)
    requires norm(Vec(0.0, 0.0, -1.0)) == Vec(0.0, 0.0, -1.0)
    requires eye == Vec(1.0, 0.0, 0.0)
    ensures Apply(LookAtColumns(norm, eye, Zero, Vec(0.0, 1.0, 0.0)), V4(eye.x, eye.y, eye.z, 1.0))
         == V4(0.0, 0.0, -2.0, 1.0)
    ensures Apply(LookAtRows(norm, eye, Zero, Vec(0.0, 1.0, 0.0)), V4(eye.x, eye.y, eye.z, 1.0))
         == V4(0.0, 0.0, 0.0, 1.0)
  {
    SideViewAxes(norm);
    var f := Frame(Vec(0.0, 0.0, -1.0), Vec(0.0, 1.0, 0.0), Vec(1.0, 0.0, 0.0));
    ColumnMatrixAtEye(f, eye);
    SideViewArithmetic(f, eye);
    LookAtRowsMapsEyeToOrigin(norm, eye, Zero, Vec(0.0, 1.0, 0.0));
  }

  /** Where the column layout sends the eye: the block applied to the eye,
      minus the (row-layout) translation. */
  lemma ColumnMatrixAtEye(f: Frame, e: Vec)
    ensures Apply(ColumnMatrix(f, e), V4(e.x, e.y, e.z, 1.0)) ==
            V4(f.x.x * e.x + f.y.x * e.y + f.z.x * e.z - Dot(f.x, e),
               f.x.y * e.x + f.y.y * e.y + f.z.y * e.z - Dot(f.y, e),
               f.x.z * e.x + f.y.z * e.y + f.z.z * e.z - Dot(f.z, e), 1.0)
  {
  }

  lemma SideViewArithmetic(f: Frame, e: Vec)
    requires f == Frame(Vec(0.0, 0.0, -1.0), Vec(0.0, 1.0, 0.0), Vec(1.0, 0.0, 0.0))
    requires e == Vec(1.0, 0.0, 0.0)
    ensures V4(f.x.x * e.x + f.y.x * e.y + f.z.x * e.z - Dot(f.x, e),
               f.x.y * e.x + f.y.y * e.y + f.z.y * e.z - Dot(f.y, e),
               f.x.z * e.x + f.y.z * e.y + f.z.z * e.z - Dot(f.z, e), 1.0) == V4(0.0, 0.0, -2.0, 1.0)
  {
  }

  /** `orbitToEye`: spherical coordinates in degrees around the target; an
      omitted target is the origin. */
  function OrbitToEye(trig: Trig, thetaDeg: real, phiDeg: real, distance: real, target: Option<Vec>): Vec
  {
    var tgt := if target.Some? then target.value else Zero;
    var t := trig(DegToRad(thetaDeg));
    var p := trig(DegToRad(phiDeg));
    Vec(tgt.x + distance * p.c * t.c, tgt.y + distance * p.s, tgt.z + distance * p.c * t.s)
  }

  /** Moving the target moves the eye by the same amount, a zero distance
      puts the eye on the target, and with genuine (cos, sin) pairs the eye
      is exactly `distance` away from the target. */
  lemma OrbitLaws(trig: Trig, thetaDeg: real, phiDeg: real, distance: real, target: Vec)
    ensures OrbitToEye(trig, thetaDeg, phiDeg, distance, None)
         == OrbitToEye(trig, thetaDeg, phiDeg, distance, Some(Zero))
    ensures OrbitToEye(trig, thetaDeg, phiDeg, distance, Some(target))
         == Add(target, OrbitToEye(trig, thetaDeg, phiDeg, distance, None))
    ensures OrbitToEye(trig, thetaDeg, phiDeg, 0.0, Some(target)) == target
    ensures IsUnit(trig(DegToRad(thetaDeg))) && IsUnit(trig(DegToRad(phiDeg))) ==>
              LengthSq(Sub(OrbitToEye(trig, thetaDeg, phiDeg, distance, Some(target)), target)) == distance * distance
  {
    var t := trig(DegToRad(thetaDeg));
    var p := trig(DegToRad(phiDeg));
    var e := OrbitToEye(trig, thetaDeg, phiDeg, distance, Some(target));
    var d := Sub(e, target);
    assert d == Vec(distance * p.c * t.c, distance * p.s, distance * p.c * t.s);
    if IsUnit(t) && IsUnit(p) {
      var dd := distance * distance;
      calc {
        LengthSq(d);
        dd * (p.c * p.c) * (t.c * t.c) + dd * (p.s * p.s) + dd * (p.c * p.c) * (t.s * t.s);
        dd * (p.c * p.c) * (t.c * t.c + t.s * t.s) + dd * (p.s * p.s);
        dd * (p.c * p.c + p.s * p.s);
        dd;
      }
    }
  }
}
