/** `OrbitCamera` of project2_ide/math.js: a distance clamped to
    [minDistance, maxDistance], an unbounded azimuth and an elevation kept
    short of the poles, all changed by mouse deltas. */
module Orbit {
  import opened Num
  import opened Vec3
  import Camera

  datatype OrbitCamera = OrbitCamera(
    distance: real, minDistance: real, maxDistance: real,
    azimuth: real, elevation: real,   // radians
    target: Vec)

  const ElevationLimit: real := PI / 2.0 - 0.01

  /** The constructor: distance 8 in [2, 30], azimuth 40 and elevation 23
      degrees, looking at the origin. */
  function Initial(): (c: OrbitCamera)
    ensures Valid(c)
    ensures c.azimuth == DegToRad(40.0) && c.elevation == DegToRad(23.0)
  {
    OrbitCamera(8.0, 2.0, 30.0, 40.0 * PI / 180.0, 23.0 * PI / 180.0, Zero)
  }

  /** The state every method keeps: the limits are the constructor's and the
      distance and elevation lie within them. */
  predicate Valid(c: OrbitCamera)
  {
    c.minDistance == 2.0 && c.maxDistance == 30.0 &&
    c.minDistance <= c.distance <= c.maxDistance &&
    -ElevationLimit <= c.elevation <= ElevationLimit
  }

  /** `dolly`: scale the distance by 1 + delta/10, then clamp. */
  function Dolly(c: OrbitCamera, delta: real): (r: OrbitCamera)
    ensures c.minDistance <= c.maxDistance ==> c.minDistance <= r.distance <= c.maxDistance
    ensures c.minDistance <= c.distance * (1.0 + delta * 0.1) <= c.maxDistance ==>
              r.distance == c.distance * (1.0 + delta * 0.1)
    ensures r == c.(distance := r.distance)
  {
    c.(distance := Clamp(c.distance * (1.0 + delta * 0.1), c.minDistance, c.maxDistance))
  }

  /** `rotate`: 0.005 radians per pixel; azimuth is free, elevation clamped. */
  function Rotate(c: OrbitCamera, dx: real, dy: real): (r: OrbitCamera)
    ensures r.azimuth == c.azimuth + dx * 0.005
    ensures -ElevationLimit <= r.elevation <= ElevationLimit
    ensures -ElevationLimit <= c.elevation + dy * 0.005 <= ElevationLimit ==>
              r.elevation == c.elevation + dy * 0.005
    ensures r == c.(azimuth := r.azimuth, elevation := r.elevation)
  {
    c.(azimuth := c.azimuth + dx * 0.005,
       elevation := Clamp(c.elevation + dy * 0.005, -PI / 2.0 + 0.01, PI / 2.0 - 0.01))
  }

  /** `reset`: the constructor's distance and angles; target and limits
      are left as they are. */
  function Reset(c: OrbitCamera): (r: OrbitCamera)
    ensures r.distance == 8.0 && r.azimuth == DegToRad(40.0) && r.elevation == DegToRad(23.0)
    ensures r.target == c.target && r.minDistance == c.minDistance && r.maxDistance == c.maxDistance
  {
    c.(distance := 8.0, azimuth := 40.0 * PI / 180.0, elevation := 23.0 * PI / 180.0)
  }

  /** The methods keep the camera valid, a zero dolly or rotation is a
      no-op on a valid camera, and reset undoes every change but a moved
      target. */
  lemma OrbitLaws(c: OrbitCamera, delta: real, dx: real, dy: real)
    requires Valid(c)
    ensures Valid(Dolly(c, delta)) && Valid(Rotate(c, dx, dy)) && Valid(Reset(c))
    ensures Dolly(c, 0.0) == c && Rotate(c, 0.0, 0.0) == c
    ensures Reset(c) == Initial().(target := c.target)
  {
    assert 23.0 * PI / 180.0 <= ElevationLimit;
  }
  /** `getEye`: the point at `distance` from the target in the direction
      given by elevation and azimuth -- project1_ide's orbit formula with
      pitch = elevation and yaw = azimuth, moved onto the target. */
  function GetEye(trig: Trig, c: OrbitCamera): (eye: Vec)
    ensures Sub(eye, c.target) == Camera.OrbitEye(trig, c.elevation, c.azimuth, c.distance)
  {
    var el := trig(c.elevation);
    var az := trig(c.azimuth);
    Vec(c.distance * el.c * az.s + c.target.x,
        c.distance * el.s + c.target.y,
        c.distance * el.c * az.c + c.target.z)
  }

  /** With true sines and cosines the eye lies at `distance` from the
      target, before and after any rotation. */
  lemma EyeDistance(trig: Trig, c: OrbitCamera, dx: real, dy: real)
    requires IsUnit(trig(c.elevation)) && IsUnit(trig(c.azimuth))
    ensures LengthSq(Sub(GetEye(trig, c), c.target)) == c.distance * c.distance
    ensures var r := Rotate(c, dx, dy);
            IsUnit(trig(r.elevation)) && IsUnit(trig(r.azimuth)) ==>
              LengthSq(Sub(GetEye(trig, r), c.target)) == c.distance * c.distance
  {
    Camera.OrbitEyeDistance(trig, c.elevation, c.azimuth, c.distance);
    var r := Rotate(c, dx, dy);
    if IsUnit(trig(r.elevation)) && IsUnit(trig(r.azimuth)) {
      Camera.OrbitEyeDistance(trig, r.elevation, r.azimuth, r.distance);
    }
  }

  /** A dolly moves the eye along the ray from the target: the new offset is
      the old one scaled by the ratio of the distances. */
  lemma DollyAlongRay(trig: Trig, c: OrbitCamera, delta: real)
    requires c.distance != 0.0
    ensures Sub(GetEye(trig, Dolly(c, delta)), c.target) ==
              Scale(Dolly(c, delta).distance / c.distance, Sub(GetEye(trig, c), c.target))
  {
    var r := Dolly(c, delta);
    var k := r.distance / c.distance;
    assert r.distance == k * c.distance;
    Camera.OrbitEyeScale(trig, c.elevation, c.azimuth, c.distance, k);
    assert Sub(GetEye(trig, r), c.target) == Camera.OrbitEye(trig, c.elevation, c.azimuth, k * c.distance);
  }
}
