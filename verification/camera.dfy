/** The `Camera` class of project1_ide (and its near-duplicate under
    project1_ide/deliverables): orbit position, clamped setters, projection
    toggles, and the projection matrix it hands to the renderer.  Every
    method is a pure function from the old state to the new one. */
module Camera {
  import opened Num
  import opened Vec3
  import opened Mat4
  import Projection
  import View

  datatype State = State(
    eye: Vec, target: Vec, up: Vec,
    fov: real,          // degrees
    near: real, far: real, aspect: real,
    perspective: bool,
    pitch: real,        // cameraRotation.x, radians
    yaw: real,          // cameraRotation.y, radians
    distance: real)

  const MinDistance: real := 2.0
  const MaxDistance: real := 50.0
  const PitchLimit: real := PI / 2.0 - 0.1

  /** The constructor's state. */
  function Initial(): (c: State)
    ensures Valid(c)
  {
    State(Vec(0.0, 5.0, 10.0), Zero, Vec(0.0, 1.0, 0.0), 45.0, 0.1, 100.0, 1.0, true, 0.0, 0.0, 15.0)
  }

  /** The clipping planes the renderer can always use: near at least 0.1
      and far at least one unit beyond it, so the projection formulas never
      divide by far - near = 0. */
  predicate ClipValid(c: State)
  {
    c.near >= 0.1 && c.far >= c.near + 1.0
  }

  /** Every clamp the methods apply: the clipping planes, the orbit
      distance in [2, 50], the pitch short of the poles and the field of
      view in [10, 120] degrees. */
  predicate Valid(c: State)
  {
    ClipValid(c) &&
    MinDistance <= c.distance <= MaxDistance &&
    -PitchLimit <= c.pitch <= PitchLimit &&
    10.0 <= c.fov <= 120.0
  }

  /** `updateCameraFromRotation`: the eye on a sphere of radius `distance`
      around the ORIGIN (not the target), from pitch and yaw in radians. */
  function OrbitEye(trig: Trig, pitch: real, yaw: real, distance: real): Vec
  {
    var p := trig(pitch);
    var y := trig(yaw);
    Vec(distance * y.s * p.c, distance * p.s, distance * y.c * p.c)
  }

  lemma OrbitEyeDistance(trig: Trig, pitch: real, yaw: real, distance: real)
    requires IsUnit(trig(pitch)) && IsUnit(trig(yaw))
    ensures LengthSq(OrbitEye(trig, pitch, yaw, distance)) == distance * distance
  {
    var p := trig(pitch);
    var y := trig(yaw);
    var dd := distance * distance;
    calc {
      LengthSq(OrbitEye(trig, pitch, yaw, distance));
      dd * (y.s * y.s) * (p.c * p.c) + dd * (p.s * p.s) + dd * (y.c * y.c) * (p.c * p.c);
      dd * (p.c * p.c) * (y.s * y.s + y.c * y.c) + dd * (p.s * p.s);
      dd * (p.c * p.c + p.s * p.s);
      dd;
    }
  }

  /** The orbit point scales linearly with the distance. */
  lemma OrbitEyeScale(trig: Trig, pitch: real, yaw: real, distance: real, k: real)
    ensures OrbitEye(trig, pitch, yaw, k * distance) == Scale(k, OrbitEye(trig, pitch, yaw, distance))
  {
    var p := trig(pitch);
    var y := trig(yaw);
    assert (k * distance) * y.s * p.c == k * (distance * y.s * p.c);
    assert (k * distance) * p.s == k * (distance * p.s);
    assert (k * distance) * y.c * p.c == k * (distance * y.c * p.c);
  }

  function UpdateFromRotation(trig: Trig, c: State): State
  {
    c.(eye := OrbitEye(trig, c.pitch, c.yaw, c.distance))
  }

  /** `moveCameraForward`: the distance moves by `delta` and is clamped to
      [2, 50]; the eye follows. */
  function MoveForward(trig: Trig, c: State, delta: real): (r: State)
    ensures MinDistance <= r.distance <= MaxDistance
    ensures MinDistance <= c.distance + delta <= MaxDistance ==> r.distance == c.distance + delta
    ensures r.eye == OrbitEye(trig, r.pitch, r.yaw, r.distance)
    ensures r == c.(distance := r.distance, eye := r.eye)
  {
    UpdateFromRotation(trig, c.(distance := Clamp(c.distance + delta, MinDistance, MaxDistance)))
  }

  /** `rotateCameraAroundTarget`: yaw accumulates without bound, pitch is
      clamped to [-(pi/2 - 0.1), pi/2 - 0.1]. */
  function RotateAround(trig: Trig, c: State, dx: real, dy: real): (r: State)
    ensures r.yaw == c.yaw + dx
    ensures -PitchLimit <= r.pitch <= PitchLimit
    ensures -PitchLimit <= c.pitch + dy <= PitchLimit ==> r.pitch == c.pitch + dy
    ensures r.eye == OrbitEye(trig, r.pitch, r.yaw, r.distance)
    ensures r == c.(pitch := r.pitch, yaw := r.yaw, eye := r.eye)
  {
    var pitch := Max(-PI / 2.0 + 0.1, Min(PI / 2.0 - 0.1, c.pitch + dy));
    UpdateFromRotation(trig, c.(yaw := c.yaw + dx, pitch := pitch))
  }

  /** `panCameraTarget` (project1_ide only): moves the target in x and y. */
  function Pan(c: State, dx: real, dy: real): (r: State)
    ensures r.target == Add(c.target, Vec(dx, dy, 0.0))
    ensures r == c.(target := r.target)
  {
    c.(target := Vec(c.target.x + dx, c.target.y + dy, c.target.z))
  }

  /** `resetCameraPosition`: default target, up, rotation and distance;
      the projection settings are kept. */
  function Reset(trig: Trig, c: State): (r: State)
    ensures r.target == Zero && r.up == Vec(0.0, 1.0, 0.0)
    ensures r.pitch == 0.3 && r.yaw == 0.5 && r.distance == 15.0
    ensures r.eye == OrbitEye(trig, 0.3, 0.5, 15.0)
    ensures r.fov == c.fov && r.near == c.near && r.far == c.far && r.aspect == c.aspect
    ensures r.perspective == c.perspective
  {
    UpdateFromRotation(trig, c.(eye := Vec(0.0, 5.0, 10.0), target := Zero, up := Vec(0.0, 1.0, 0.0),
                                pitch := 0.3, yaw := 0.5, distance := 15.0))
  }

  /** `toggleProjectionType`: flips the flag and returns the name of the
      projection now in use. */
  function Toggle(c: State): (r: (State, string))
    ensures r.0 == c.(perspective := !c.perspective)
    ensures r.1 == "perspective" <==> r.0.perspective
    ensures r.1 == "perspective" || r.1 == "orthographic"
  {
    var flag := !c.perspective;
    (c.(perspective := flag), if flag then "perspective" else "orthographic")
  }

  lemma ToggleInvolution(c: State)
    ensures Toggle(Toggle(c).0).0 == c
    ensures Toggle(c).1 != Toggle(Toggle(c).0).1
  {
  }

  /** `setProjectionType` (project1_ide only). */
  function SetProjectionType(c: State, name: string): (r: State)
    ensures r.perspective <==> name == "perspective"
    ensures r == c.(perspective := r.perspective)
  {
    c.(perspective := name == "perspective")
  }

  /** `setFieldOfView`: degrees clamped to [10, 120]. */
  function SetFieldOfView(c: State, deg: real): (r: State)
    ensures 10.0 <= r.fov <= 120.0
    ensures 10.0 <= deg <= 120.0 ==> r.fov == deg
    ensures r == c.(fov := r.fov)
  {
    c.(fov := Max(10.0, Min(120.0, deg)))
  }

  /** `setClippingPlanes`: near at least 0.1, far at least near + 1, whatever
      the arguments. */
  function SetClippingPlanes(c: State, near: real, far: real): (r: State)
    ensures ClipValid(r)
    ensures Valid(c) ==> Valid(r)
    ensures r.near == (if near >= 0.1 then near else 0.1)
    ensures far >= r.near + 1.0 ==> r.far == far
    ensures far < r.near + 1.0 ==> r.far == r.near + 1.0
    ensures r == c.(near := r.near, far := r.far)
  {
    var n := Max(0.1, near);
    c.(near := n, far := Max(n + 1.0, far))
  }

  function SetAspectRatio(c: State, aspect: real): (r: State)
    ensures r == c.(aspect := aspect)
  {
    c.(aspect := aspect)
  }

  /** Every operation keeps the clipping planes usable. */
  lemma OperationsKeepValid(trig: Trig, c: State, a: real, b: real, name: string)
    requires Valid(c)
    ensures Valid(MoveForward(trig, c, a)) && Valid(RotateAround(trig, c, a, b))
    ensures Valid(Pan(c, a, b)) && Valid(Reset(trig, c)) && Valid(Toggle(c).0)
    ensures Valid(SetProjectionType(c, name)) && Valid(SetFieldOfView(c, a))
    ensures Valid(SetClippingPlanes(c, a, b)) && Valid(SetAspectRatio(c, a))
  {
  }

  /** `getViewMatrix`. */
  function ViewMatrix(hypot: Hypot, c: State): (m: Mat)
    requires LookAtDefined(hypot, c)
    ensures m[3] == 0.0 && m[7] == 0.0 && m[11] == 0.0 && m[15] == 1.0
    ensures Apply(m, V4(c.eye.x, c.eye.y, c.eye.z, 1.0)) == V4(0.0, 0.0, 0.0, 1.0)
  {
    var z := NormalizeUnguarded(hypot, Sub(c.eye, c.target));
    var x := NormalizeUnguarded(hypot, Cross(c.up, z));
    var f := View.Frame(x, Cross(z, x), z);
    View.ViewMatrixAtEye(f, c.eye);
    View.ViewMatrix(f, c.eye)
  }

  /** The two unguarded normalisations of `createLookAtMatrix` meet
      non-zero lengths. */
  predicate LookAtDefined(hypot: Hypot, c: State)
  {
    var d := Sub(c.eye, c.target);
    hypot(d.x, d.y, d.z) != 0.0 &&
    var z := NormalizeUnguarded(hypot, d);
    var u := Cross(c.up, z);
    hypot(u.x, u.y, u.z) != 0.0
  }

  /** `getProjectionMatrix`: the perspective form with the field of view
      converted to radians, or the orthographic box of half-height 10. */
  function ProjectionMatrix(tan: real -> real, c: State): (m: Mat)
    requires c.aspect != 0.0 && c.near != c.far
    requires c.perspective ==> tan(DegToRad(c.fov) / 2.0) != 0.0
    ensures c.perspective ==> m[11] == -1.0 && m[15] == 0.0 && m[5] * tan(DegToRad(c.fov) / 2.0) == 1.0
    ensures !c.perspective ==> m[11] == 0.0 && m[15] == 1.0 && m[5] == 2.0 / 20.0
  {
    if c.perspective then
      Projection.PerspectiveFov(tan, DegToRad(c.fov), c.aspect, c.near, c.far)
    else
      Projection.Ortho(-10.0 * c.aspect, 10.0 * c.aspect, -10.0, 10.0, c.near, c.far)
  }

  /** With usable clipping planes the projection is defined whenever the
      aspect ratio is non-zero (and, in perspective mode, the tangent is). */
  lemma ValidCameraProjects(tan: real -> real, c: State)
    requires ClipValid(c) && c.aspect != 0.0
    ensures c.near != c.far
    ensures !c.perspective ==> ProjectionMatrix(tan, c)[0] * (20.0 * c.aspect) == 2.0
  {
  }
}
