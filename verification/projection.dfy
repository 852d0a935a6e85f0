/** Projection matrices: the symmetric perspective built from a field of
    view (every copy: `createPerspectiveProjectionMatrix`, `Mat4.perspective`,
    `mat4Perspective`), the general frustum of lab3, and the orthographic box
    (`createOrthographicProjectionMatrix`, `Mat4.ortho`, lab3's
    `orthographic`).  The tangent of half the field of view is an input. */
module Projection {
  import opened Num
  import opened Mat4

  /** The perspective matrix from its focal scale f = 1 / tan(fov / 2). */
  function Perspective(f: real, aspect: real, near: real, far: real): (m: Mat)
    requires aspect != 0.0 && near != far
    ensures m[0] * aspect == f && m[5] == f
    ensures m[11] == -1.0 && m[15] == 0.0
    ensures m[10] == (far + near) / (near - far) && m[14] == 2.0 * far * near / (near - far)
    ensures forall i :: 0 <= i < 16 && i != 0 && i != 5 && i != 10 && i != 11 && i != 14 ==> m[i] == 0.0
  {
    var nf := 1.0 / (near - far);
    [f / aspect, 0.0, 0.0, 0.0,
     0.0, f, 0.0, 0.0,
     0.0, 0.0, (far + near) * nf, -1.0,
     0.0, 0.0, 2.0 * far * near * nf, 0.0]
  }

  /** The field-of-view form, with the field of view in radians
      (project1_ide, lab6); `tan` stands for `Math.tan`. */
  function PerspectiveFov(tan: real -> real, fov: real, aspect: real, near: real, far: real): (m: Mat)
    requires tan(fov / 2.0) != 0.0 && aspect != 0.0 && near != far
    ensures m[5] * tan(fov / 2.0) == 1.0
  {
    Perspective(1.0 / tan(fov / 2.0), aspect, near, far)
  }

  /** `Mat4.perspective(fovDeg, ...)` of project1: the field of view in degrees. */
  function PerspectiveDeg(tan: real -> real, fovDeg: real, aspect: real, near: real, far: real): (m: Mat)
    requires tan(DegToRad(fovDeg) / 2.0) != 0.0 && aspect != 0.0 && near != far
    ensures m[5] * tan(fovDeg * PI / 180.0 / 2.0) == 1.0
  {
    PerspectiveFov(tan, DegToRad(fovDeg), aspect, near, far)
  }

  /** What the perspective matrix does to a point in eye space: w becomes
      the depth -z, x and y are scaled by f / aspect and f, and the near
      and far planes land on clip depth -w and +w (NDC z of -1 and +1). */
  lemma PerspectiveMapsDepth(f: real, aspect: real, near: real, far: real, x: real, y: real, z: real)
    requires aspect != 0.0 && near != far
    ensures Apply(Perspective(f, aspect, near, far), V4(x, y, z, 1.0)).w == -z
    ensures Apply(Perspective(f, aspect, near, far), V4(x, y, z, 1.0)).x == f / aspect * x
    ensures Apply(Perspective(f, aspect, near, far), V4(x, y, z, 1.0)).y == f * y
    ensures Apply(Perspective(f, aspect, near, far), V4(x, y, -near, 1.0)).z == -near
    ensures Apply(Perspective(f, aspect, near, far), V4(x, y, -far, 1.0)).z == far
  {
    var nf := 1.0 / (near - far);
    assert (far + near) * nf * -near + 2.0 * far * near * nf == -near by {
      assert (far + near) * nf * -near + 2.0 * far * near * nf == near * (far - near) * nf;
      assert (far - near) * nf == -1.0;
    }
    assert (far + near) * nf * -far + 2.0 * far * near * nf == far by {
      assert (far + near) * nf * -far + 2.0 * far * near * nf == far * (near - far) * nf;
      assert (near - far) * nf == 1.0;
    }
  }

  /** The orthographic box matrix. */
  function Ortho(left: real, right: real, bottom: real, top: real, near: real, far: real): (m: Mat)
    requires right != left && top != bottom && far != near
    ensures m[3] == 0.0 && m[7] == 0.0 && m[11] == 0.0 && m[15] == 1.0
  {
    [2.0 / (right - left), 0.0, 0.0, 0.0,
     0.0, 2.0 / (top - bottom), 0.0, 0.0,
     0.0, 0.0, -2.0 / (far - near), 0.0,
     -(right + left) / (right - left), -(top + bottom) / (top - bottom), -(far + near) / (far - near), 1.0]
  }

  /** The box [left, right] x [bottom, top] x [-near, -far] goes onto the
      cube [-1, 1]^3: its two extreme corners land on (-1, -1, -1) and
      (1, 1, 1), and w stays 1. */
  lemma OrthoMapsBox(left: real, right: real, bottom: real, top: real, near: real, far: real, x: real, y: real, z: real)
    requires right != left && top != bottom && far != near
    ensures Apply(Ortho(left, right, bottom, top, near, far), V4(left, bottom, -near, 1.0)) == V4(-1.0, -1.0, -1.0, 1.0)
    ensures Apply(Ortho(left, right, bottom, top, near, far), V4(right, top, -far, 1.0)) == V4(1.0, 1.0, 1.0, 1.0)
    ensures Apply(Ortho(left, right, bottom, top, near, far), V4(x, y, z, 1.0)).w == 1.0
  {
    MapsToMinusOne(left, right);
    MapsToPlusOne(left, right);
    MapsToMinusOne(bottom, top);
    MapsToPlusOne(bottom, top);
    assert -2.0 / (far - near) * -near - (far + near) / (far - near) == -1.0 by {
      MapsToMinusOne(near, far);
    }
    assert -2.0 / (far - near) * -far - (far + near) / (far - near) == 1.0 by {
      MapsToPlusOne(near, far);
    }
  }

  /** The affine map x |-> 2x / (hi - lo) - (hi + lo) / (hi - lo) sends lo to -1 ... */
  lemma MapsToMinusOne(lo: real, hi: real)
    requires hi != lo
    ensures 2.0 / (hi - lo) * lo + -(hi + lo) / (hi - lo) == -1.0
  {
    assert 2.0 / (hi - lo) * lo + -(hi + lo) / (hi - lo) == (lo - hi) / (hi - lo);
  }

  /** ... and hi to +1. */
  lemma MapsToPlusOne(lo: real, hi: real)
    requires hi != lo
    ensures 2.0 / (hi - lo) * hi + -(hi + lo) / (hi - lo) == 1.0
  {
    assert 2.0 / (hi - lo) * hi + -(hi + lo) / (hi - lo) == (hi - lo) / (hi - lo);
  }

  /** lab3's `orthographic`, written with reciprocals of left - right,
      bottom - top and near - far. */
  function Lab3Orthographic(left: real, right: real, bottom: real, top: real, near: real, far: real): (m: Mat)
    requires left != right && bottom != top && near != far
    ensures m == Ortho(left, right, bottom, top, near, far)
  {
    var lr := 1.0 / (left - right);
    var bt := 1.0 / (bottom - top);
    var nf := 1.0 / (near - far);
    assert -2.0 * lr == 2.0 / (right - left);
    assert -2.0 * bt == 2.0 / (top - bottom);
    assert 2.0 * nf == -2.0 / (far - near);
    assert (left + right) * lr == -(right + left) / (right - left);
    assert (top + bottom) * bt == -(top + bottom) / (top - bottom);
    assert (near + far) * nf == -(far + near) / (far - near);
    [-2.0 * lr, 0.0, 0.0, 0.0,
     0.0, -2.0 * bt, 0.0, 0.0,
     0.0, 0.0, 2.0 * nf, 0.0,
     (left + right) * lr, (top + bottom) * bt, (near + far) * nf, 1.0]
  }

  /** lab3's `perspective`: the general, possibly off-centre, frustum. */
  function Frustum(left: real, right: real, bottom: real, top: real, near: real, far: real): (m: Mat)
    requires right != left && top != bottom && near != far
    ensures m[11] == -1.0 && m[15] == 0.0
    ensures m[0] == 2.0 * near / (right - left) && m[5] == 2.0 * near / (top - bottom)
    ensures m[8] == (right + left) / (right - left) && m[9] == (top + bottom) / (top - bottom)
  {
    var rl := 1.0 / (right - left);
    var tb := 1.0 / (top - bottom);
    var nf := 1.0 / (near - far);
    [(2.0 * near) * rl, 0.0, 0.0, 0.0,
     0.0, (2.0 * near) * tb, 0.0, 0.0,
     (right + left) * rl, (top + bottom) * tb, (near + far) * nf, -1.0,
     0.0, 0.0, (2.0 * far * near) * nf, 0.0]
  }

  /** The frustum's near rectangle goes onto the clip-space square at depth
      -w (its corners land on (-1, -1, -1) and (1, 1, -1) after the divide
      by w = near), and the far plane onto depth +w. */
  lemma FrustumMapsCorners(left: real, right: real, bottom: real, top: real, near: real, far: real, x: real, y: real)
    requires right != left && top != bottom && near != far
    ensures Apply(Frustum(left, right, bottom, top, near, far), V4(left, bottom, -near, 1.0)) == V4(-near, -near, -near, near)
    ensures Apply(Frustum(left, right, bottom, top, near, far), V4(right, top, -near, 1.0)) == V4(near, near, -near, near)
    ensures Apply(Frustum(left, right, bottom, top, near, far), V4(x, y, -far, 1.0)).z == far
    ensures Apply(Frustum(left, right, bottom, top, near, far), V4(x, y, -far, 1.0)).w == far
  {
    var nf := 1.0 / (near - far);
    assert (near + far) * nf * -near + 2.0 * far * near * nf == -near by {
      assert (near + far) * nf * -near + 2.0 * far * near * nf == near * (far - near) * nf;
      assert (far - near) * nf == -1.0;
    }
    assert (near + far) * nf * -far + 2.0 * far * near * nf == far by {
      assert (near + far) * nf * -far + 2.0 * far * near * nf == far * (near - far) * nf;
      assert (near - far) * nf == 1.0;
    }
    var rl := 1.0 / (right - left);
    var tb := 1.0 / (top - bottom);
    assert 2.0 * near * rl * left + (right + left) * rl * -near == -near by {
      assert 2.0 * near * rl * left + (right + left) * rl * -near == near * (left - right) * rl;
      assert (left - right) * rl == -1.0;
    }
    assert 2.0 * near * rl * right + (right + left) * rl * -near == near by {
      assert 2.0 * near * rl * right + (right + left) * rl * -near == near * (right - left) * rl;
      assert (right - left) * rl == 1.0;
    }
    assert 2.0 * near * tb * bottom + (top + bottom) * tb * -near == -near by {
      assert 2.0 * near * tb * bottom + (top + bottom) * tb * -near == near * (bottom - top) * tb;
      assert (bottom - top) * tb == -1.0;
    }
    assert 2.0 * near * tb * top + (top + bottom) * tb * -near == near by {
      assert 2.0 * near * tb * top + (top + bottom) * tb * -near == near * (top - bottom) * tb;
      assert (top - bottom) * tb == 1.0;
    }
  }

  /** The focal scales of the centred frustum equal those of the
      field-of-view form. */
  lemma FocalScales(near: real, tanHalf: real, aspect: real)
    requires near != 0.0 && tanHalf != 0.0 && aspect != 0.0
    ensures (2.0 * near) * (1.0 / (near * tanHalf * aspect - -(near * tanHalf * aspect))) == 1.0 / tanHalf / aspect
    ensures (2.0 * near) * (1.0 / (near * tanHalf - -(near * tanHalf))) == 1.0 / tanHalf
  {
    var r := near * tanHalf * aspect;
    assert r != 0.0;
    assert r - -r == 2.0 * r;
    assert (2.0 * near) * (1.0 / (2.0 * r)) == near / r;
    assert near / r == 1.0 / (tanHalf * aspect);
    assert 1.0 / (tanHalf * aspect) == 1.0 / tanHalf / aspect;
    var t := near * tanHalf;
    assert t != 0.0;
    assert (2.0 * near) * (1.0 / (2.0 * t)) == near / t;
  }

  /** The frustum lab3 builds at its call site (top = near * tan(fov / 2),
      right = top * aspect, bottom = -top, left = -right) is centred, so its
      off-centre entries 8 and 9 vanish, and it is exactly the
      field-of-view perspective. */
  lemma CallSiteFrustumIsPerspective(tanHalf: real, aspect: real, near: real, far: real)
    requires near != 0.0 && tanHalf != 0.0 && aspect != 0.0 && near != far
    ensures var top := near * tanHalf; var right := top * aspect;
            Frustum(-right, right, -top, top, near, far)[8] == 0.0 &&
            Frustum(-right, right, -top, top, near, far)[9] == 0.0 &&
            Frustum(-right, right, -top, top, near, far) == Perspective(1.0 / tanHalf, aspect, near, far)
  {
    var top := near * tanHalf;
    var right := top * aspect;
    assert top != 0.0 && right != 0.0;
    var fr := Frustum(-right, right, -top, top, near, far);
    var p := Perspective(1.0 / tanHalf, aspect, near, far);
    FocalScales(near, tanHalf, aspect);
    assert fr[0] == p[0];
    assert fr[5] == p[5];
    assert fr[8] == 0.0 && fr[9] == 0.0;
    assert forall i :: 0 <= i < 16 ==> fr[i] == p[i];
  }
}
