/** Three-component vectors as the camera code uses them (`[x, y, z]`
    arrays): subtraction, cross and dot products, and normalisation.  The
    Euclidean length (`Math.hypot` / `Math.sqrt`) is an input: the caller
    supplies a `Hypot` function, and lemmas that need it to be a true length
    say so with `IsLengthOf`. */
module Vec3 {
  import opened Num

  datatype Vec = Vec(x: real, y: real, z: real)

  const Zero: Vec := Vec(0.0, 0.0, 0.0)

  /** The flat `[x0, y0, z0, x1, ...]` layout of a vertex list. */
  function Flatten(vs: seq<Vec>): (r: seq<real>)
    ensures |r| == 3 * |vs|
    ensures forall i :: 0 <= i < |vs| ==> r[3 * i] == vs[i].x && r[3 * i + 1] == vs[i].y && r[3 * i + 2] == vs[i].z
  {
    if vs == [] then []
    else
      var init := Flatten(vs[..|vs| - 1]);
      var v := vs[|vs| - 1];
      init + [v.x, v.y, v.z]
  }

  /** A property every coordinate of every vector has holds of every entry
      of the flattened array. */
  lemma FlattenAll(vs: seq<Vec>, p: real -> bool)
    requires forall i :: 0 <= i < |vs| ==> p(vs[i].x) && p(vs[i].y) && p(vs[i].z)
    ensures forall j :: 0 <= j < |Flatten(vs)| ==> p(Flatten(vs)[j])
  {
    var r := Flatten(vs);
    forall j | 0 <= j < |r|
      ensures p(r[j])
    {
      var i := j / 3;
      if j == 3 * i {
        assert r[j] == vs[i].x;
      } else if j == 3 * i + 1 {
        assert r[j] == vs[i].y;
      } else {
        assert r[j] == vs[i].z;
      }
    }
  }

  type Hypot = (real, real, real) -> real

  function Add(a: Vec, b: Vec): Vec { Vec(a.x + b.x, a.y + b.y, a.z + b.z) }

  function Sub(a: Vec, b: Vec): Vec { Vec(a.x - b.x, a.y - b.y, a.z - b.z) }

  function Scale(k: real, a: Vec): Vec { Vec(k * a.x, k * a.y, k * a.z) }

  function Dot(a: Vec, b: Vec): real { a.x * b.x + a.y * b.y + a.z * b.z }

  function Cross(a: Vec, b: Vec): Vec
  {
    Vec(a.y * b.z - a.z * b.y,
        a.z * b.x - a.x * b.z,
        a.x * b.y - a.y * b.x)
  }

  function LengthSq(a: Vec): real { Dot(a, a) }

  predicate IsLengthOf(len: real, a: Vec) { 0.0 <= len && len * len == LengthSq(a) }

  predicate IsUnitVec(a: Vec) { LengthSq(a) == 1.0 }

  /** `Vec3.normalize` of project1: zero length gives the zero vector,
      otherwise every component is divided by the length. */
  function Normalize(hypot: Hypot, v: Vec): (r: Vec)
  {
    var len := hypot(v.x, v.y, v.z);
    if len > 0.0 then Vec(v.x / len, v.y / len, v.z / len) else Zero
  }

  /** `normalizeVector` of project1_ide/math.js divides without a guard: a
      zero length is a precondition violation (division by zero). */
  function NormalizeUnguarded(hypot: Hypot, v: Vec): Vec
    requires hypot(v.x, v.y, v.z) != 0.0
  {
    var len := hypot(v.x, v.y, v.z);
    Vec(v.x / len, v.y / len, v.z / len)
  }

  /** The guard of `Vec3.normalize`: zero only for a non-positive length,
      and a true unit vector whenever the length is genuine and positive. */
  lemma NormalizeSpec(hypot: Hypot, v: Vec)
    ensures hypot(v.x, v.y, v.z) <= 0.0 ==> Normalize(hypot, v) == Zero
    ensures hypot(v.x, v.y, v.z) > 0.0 ==>
              Normalize(hypot, v) == Scale(1.0 / hypot(v.x, v.y, v.z), v)
    ensures IsLengthOf(hypot(v.x, v.y, v.z), v) && hypot(v.x, v.y, v.z) > 0.0 ==>
              IsUnitVec(Normalize(hypot, v))
  {
    var len := hypot(v.x, v.y, v.z);
    if len > 0.0 {
      var n := Normalize(hypot, v);
      assert n.x == (1.0 / len) * v.x && n.y == (1.0 / len) * v.y && n.z == (1.0 / len) * v.z;
      if IsLengthOf(len, v) {
        calc {
          LengthSq(n);
          (1.0 / len) * (1.0 / len) * (v.x * v.x + v.y * v.y + v.z * v.z);
          (1.0 / len) * (1.0 / len) * (len * len);
          1.0;
        }
      }
    }
  }

  /** The unguarded copy agrees with the guarded one wherever it is defined
      with a positive length. */
  lemma NormalizeUnguardedAgrees(hypot: Hypot, v: Vec)
    requires hypot(v.x, v.y, v.z) > 0.0
    ensures NormalizeUnguarded(hypot, v) == Normalize(hypot, v)
  {
  }

  /** The cross product is orthogonal to both of its arguments. */
  lemma CrossOrthogonal(a: Vec, b: Vec)
    ensures Dot(Cross(a, b), a) == 0.0
    ensures Dot(Cross(a, b), b) == 0.0
  {
  }

  /** Swapping the arguments negates the cross product. */
  lemma CrossAntiSymmetric(a: Vec, b: Vec)
    ensures Cross(b, a) == Scale(-1.0, Cross(a, b))
  {
  }

  /** For orthonormal z and x, cross(z, x) is a unit vector orthogonal to
      both, so (x, cross(z, x), z) is an orthonormal basis. */
  lemma CrossOfOrthonormal(z: Vec, x: Vec)
    requires IsUnitVec(z) && IsUnitVec(x) && Dot(z, x) == 0.0
    ensures IsUnitVec(Cross(z, x))
    ensures Dot(Cross(z, x), z) == 0.0 && Dot(Cross(z, x), x) == 0.0
  {
    // Lagrange's identity: |z x x|^2 = |z|^2 |x|^2 - (z . x)^2.
    assert LengthSq(Cross(z, x)) == LengthSq(z) * LengthSq(x) - Dot(z, x) * Dot(z, x);
  }
}
