# WebGL coursework core in Dafny

A model of the pure logic inside a set of WebGL coursework demos. The GL
and DOM glue is left out. The model has five parts.

- **Bézier evaluation.** The general-degree De Casteljau pyramid (`Bezier`), the
  Pascal-row binomial generator and the Bernstein evaluator. The evaluator has
  endpoint shortcuts and keeps incremental powers of `t` and `1-t`. There is also
  the sampling loop of `drawBezierCurve` and the hodograph tangent. Four files
  hard-code the cubic form: `BezierCurve` (the `BezierCurve` class),
  `Overlay` (the 2D overlay editor), `Revolution` (the profile of
  the surface of revolution) and `Cubic` (shared algebra). All four are proved
  equal to the De Casteljau construction.
- **The 4×4 column-major matrix library.** `Mat4` holds the product
  `out[c*4+r] = Σk a[k*4+r]·b[c*4+k]`, the identity, transpose and
  matrix–vector application.
  - `Transform`: translation, scaling and the axis rotations.
  - `Projection`: perspective, orthographic and frustum matrices.
  - `Scene`: transform-order composition, the rigid-body inverse and the length-16 guard.
  - `InPlace`: the in-place helpers of lab 3.
  - `View`: the two `lookAt` layouts and `orbitToEye`.
  - `Affine`: the 2D transform of lab 2.
  - `Vec3`: the vector helpers.
- **Grid mesh topology.**
  - `Grid`: the row-major quad index generator and the vertex emission loop.
  - `Meshes`: per-face blocks, the cube, sphere and torus builders, and a Uint16 conversion.
  - `CubeVariants`: the explicit-corner and hard-coded cube variants.
  - `Revolution`: the surface of revolution.
- **State machines and clamped setters.**
  - `Camera`: the orbit camera of the IDE project.
  - `Orbit`: the `OrbitCamera` of the second project.
  - The animation and setter logic of `BezierCurve` and `Overlay`.
  - `CameraGeometry`: the grid, frustum and indicator geometry builders.
- **Wavefront OBJ parsing.** In `Obj`: line classification, fan triangulation,
  1-based lookups with defaults and the 8-floats-per-vertex output.

### Value representation

- Matrices are `seq<real>` of length 16 (type `Mat`), column-major.
- Numbers are exact reals.
- `Math.PI` is the literal `3.141592653589793`.
- An angle is a pair `Angle(c, s)` produced by a caller-supplied `Trig`.
  Properties that need `c² + s² = 1` state it as a precondition.
- `Math.hypot`, `Math.tan` and normalisation are function parameters
  (`Hypot`, `tan`, `norm`).

### Duplicate copies

The repository repeats the same code in several places. Each copy is
modelled once.

- The matrix product in each of these copies is `Mat4.Mul`, computed by the
  loop `Mat4.MultiplyMatrices`:
  - `multiplyMatrices` (project1_ide/math.js:72-84)
  - `Mat4.multiply` (project1/js/math.js:12-20 and project1/js_ide/math.js:4-16)
  - `matrix_multiplication` (project1/matrix_multiplicaiton.js:21-44)
  - `mat4Multiply` (lab6/1/script.js:79-86, lab6/2/script.js:82-89 and lab6/3/script.js:200-210)
- The identity matrix, translation and scaling of each copy are `Mat4.Identity`,
  `Transform.Translation` and `Transform.Scaling`.
- Rotations:
  - The radian rotations of project1_ide and the `mat4RotateX`/`Y`/`Z` helpers of lab 6 are
    `Transform.RotX`/`RotY`/`RotZ`.
  - The degree rotations of project1/js and project1/js_ide are
    `Transform.RotateXDeg`/`YDeg`/`ZDeg`.
- The perspective matrix:
  - `Projection.PerspectiveFov` is `mat4Perspective` (lab 6).
  - `Projection.PerspectiveDeg` is `Mat4.perspective` (project1).
  - Both go through `Projection.Perspective`.
- `View.ViewMatrix` is `mat4LookAt` (lab6/1/script.js:55-77).
- `View.LookAtRows` is the row layout of project1/js/camera.js.
- `View.LookAtColumns` is the column layout of project1/js_ide/camera.js.
- The `Camera` module models both project1_ide/camera.js and its near-copy
  project1_ide/deliverables/camera.js. The two agree on every modelled operation.
- The cube generator of lab6/2/script.js and `generateCube` of
  lab6/1/generate_cube.js are both `Meshes.GenerateCube`.

Operations are pure functions. A method that mutates `this` becomes a function
from the old state to the new one, and the proofs state what each one leaves
unchanged. Loops that build arrays are methods with loop invariants. They are
proved equal to a functional definition, and that definition carries the
properties.

## Model

| member | source | states |
|---|---|---|
| Num.Clamp | project2_ide/math.js:34-36 | When min ≤ max the result lies in [min, max]. A value already inside is returned unchanged. Values below give min and values above give max. |
| Num.DegToRadLinear | project2_ide/math.js:38-40 | Degree-to-radian conversion is additive and homogeneous. 180° is π and 0° is 0. |
| Num.PascalRule | lab5/casteljau.js:46-55 | The binomial coefficients obey Pascal's rule, which is the update the downward scan performs. |
| Num.ChooseSymmetric | lab5/casteljau.js:46-55 | Every Pascal row is a palindrome, choose(n, k) = choose(n, n − k), and starts and ends with 1. |
| Num.PowNonNegative | lab5/casteljau.js:68-78 | Powers of a non-negative base are non-negative. |
| Mat4.MulEntry | project1_ide/math.js:72-84 | Entry c*4+r of the product is the dot product of row r of a with column c of b. |
| Mat4.MultiplyMatrices | project1/matrix_multiplicaiton.js:21-44 | The nested column/row loop computes exactly the column-major product. |
| Mat4.MulColumn | project1/matrix_multiplicaiton.js:36-40 | Column c of a·b is a applied to column c of b. |
| Mat4.ColumnLocality | project1/matrix_multiplicaiton.js:36-40 | Column c of the product depends only on column c of b. |
| Mat4.MulIdentity | project1/matrix_multiplicaiton.js:46-70 | The identity is a left and a right neutral element, so the documented identity-times-b example returns b. |
| Mat4.MulAssoc | project1_ide/math.js:72-84 | The product is associative. |
| Mat4.ApplyMul | project1_ide/math.js:72-84 | Applying a·b to a vector is applying b, then a. |
| Mat4.TransposeLaws | project1_ide/math.js:72-84 | Transposition is an involution and reverses products. |
| Transform.Translation | project1/js/math.js:21-25 | The translation matrix differs from the identity only at indices 12, 13 and 14, which hold tx, ty and tz. |
| Transform.Scaling | project1/js/math.js:26-30 | The scaling matrix differs from the identity only at indices 0, 5 and 10, which hold sx, sy and sz. |
| Transform.TranslationLaws | project1_ide/math.js:15-22 | A translation moves points by (tx, ty, tz) and fixes directions. T(a)·T(b) = T(a+b), and T(0) is the identity. |
| Transform.ScalingLaws | project1_ide/math.js:25-32 | Scaling multiplies each coordinate. scaling(1,1,1) is the identity, and two scalings compose coordinate-wise. |
| Transform.RotX | project1_ide/math.js:35-44 | The angle (1, 0) gives the identity. |
| Transform.RotY | lab6/1/script.js:88-94 | The angle (1, 0) gives the identity. |
| Transform.RotZ | lab6/3/script.js:212-219 | The angle (1, 0) gives the identity. |
| Transform.RotateXDeg | project1/js/math.js:31-40 | Degrees are converted first, so 0 degrees gives the identity when trig(0) = (1, 0). |
| Transform.RotateYDeg | project1/js_ide/math.js:55-65 | Degrees are converted first, so 0 degrees gives the identity when trig(0) = (1, 0). |
| Transform.RotateZDeg | project1/js_ide/math.js:67-77 | Degrees are converted first, so 0 degrees gives the identity when trig(0) = (1, 0). |
| Transform.RotationAxes | project1_ide/math.js:35-68 | Each rotation fixes its own axis and turns the next axis to (c, s) in its plane. |
| Transform.ApplyRotations | project1_ide/math.js:35-68 | Each rotation turns the two coordinates of its plane by the angle and leaves the rest alone. |
| Transform.TransposeRotations | project1_ide/math.js:35-68 | The transpose of a rotation is the rotation by the conjugate angle (c, −s). |
| Transform.RotationComposes | project1_ide/math.js:35-68 | Rotations about the same axis compose by adding angles, using the angle-sum formula. |
| Transform.ConjugateCancels | project1_ide/math.js:35-68 | For a unit angle, adding the conjugate angle gives the zero angle (1, 0). |
| Transform.RotationOrthonormal | lab6/1/script.js:88-102 | With c² + s² = 1 every rotation matrix is orthogonal: Rᵀ·R = I. |
| Affine.TransformMatrix | lab2/affine.js:20-31 | Outside the upper-left 2×2 block the matrix equals the identity. |
| Affine.ScaledClockwiseRotation | lab2/affine.js:20-31 | The matrix is the uniform xy scaling applied after the z rotation by (c, −s), so positive angles turn clockwise. |
| Affine.NoRotation | lab2/affine.js:20-31 | When trig(0) = (1, 0), angle 0 leaves scale·I in the upper-left block and is exactly Scaling(scale, scale, 1). |
| Affine.Determinant | lab2/affine.js:25-28 | With c² + s² = 1 the 2×2 determinant equals scale². |
| Affine.ScalesLengths | lab2/affine.js:25-28 | Points of the plane stay in the plane, at scale times their distance from the origin. |
| Affine.UnitScaleOrthonormal | lab2/affine.js:25-28 | At scale 1 the matrix is orthogonal. |
| Projection.Perspective | project1/js/math.js:61-70 | Entry [0]·aspect = f and [5] = f. [11] = −1 and [15] = 0. [10] = (far+near)/(near−far) and [14] = 2·far·near/(near−far). Every other entry is 0. |
| Projection.PerspectiveFov | lab6/1/script.js:46-53 | The focal entry is the reciprocal of tan(fovy/2). |
| Projection.PerspectiveDeg | project1/js_ide/math.js:79-90 | The field of view is converted from degrees before its half-angle tangent is inverted. |
| Projection.PerspectiveMapsDepth | project1/js/math.js:61-70 | The clip w is −z. x and y are scaled by f/aspect and f. The near plane maps to clip z = −near and the far plane to clip z = far, i.e. NDC depth −1 and +1. |
| Projection.Ortho | project1_ide/math.js:100-107 | The bottom row is (0, 0, 0, 1): the projection is affine. |
| Projection.OrthoMapsBox | project1/js_ide/math.js:92-99 | The (left, bottom, −near) corner maps to (−1,−1,−1) and the (right, top, −far) corner to (1,1,1), with w = 1 throughout. |
| Projection.Lab3Orthographic | lab3/script.js:42-53 | The lab 3 form, written with 1/(left−right), is the same matrix as the standard orthographic projection. |
| Projection.Frustum | lab3/script.js:29-40 | [0] = 2n/(r−l), [5] = 2n/(t−b), [8] = (r+l)/(r−l), [9] = (t+b)/(t−b), [11] = −1 and [15] = 0. |
| Projection.FrustumMapsCorners | lab3/script.js:29-40 | The near-plane corners map to the NDC corners (−1,−1,−1) and (1,1,−1) after the divide. The far plane maps to depth +1. |
| Projection.CallSiteFrustumIsPerspective | lab3/script.js:238-247 | The symmetric frustum built at the call site has [8] = [9] = 0 and equals the perspective matrix with f = 1/tan(fov/2). |
| Vec3.Flatten | project1_ide/bezier.js:77-94 | Flattening a list of points puts point i at positions 3i, 3i+1 and 3i+2. |
| Vec3.NormalizeSpec | project1/js/math.js:83-86 | A non-positive length gives (0,0,0). Otherwise the vector is divided by its length. When the length function returns the true length, the result has unit length. |
| Vec3.NormalizeUnguardedAgrees | project1_ide/math.js:110-113 | The unguarded copy agrees with the guarded one whenever the length is positive. |
| Vec3.CrossOrthogonal | project1/js_ide/math.js:112-122 | dot(cross(a, b), a) = 0 and dot(cross(a, b), b) = 0. |
| Vec3.CrossAntiSymmetric | project1/js/math.js:88-94 | cross(b, a) = −cross(a, b). |
| Vec3.CrossOfOrthonormal | project1/js/camera.js:4-6 | The cross product of two orthogonal unit axes is a unit axis orthogonal to both. |
| InPlace.Translate | lab3/script.js:169-173 | Only indices 12–14 are overwritten, with tx, ty and tz. |
| InPlace.TranslateReplaces | lab3/script.js:169-173 | A second translate replaces the first instead of composing with it. Translating the identity gives the translation matrix. |
| InPlace.RotateX | lab3/script.js:176-192 | Indices 0, 3, 4, 7, 8, 11, 12 and 15 are unchanged. |
| InPlace.RotateY | lab3/script.js:194-210 | Indices 1, 3, 5, 7, 9, 11, 13 and 15 are unchanged. |
| InPlace.RotateZ | lab3/script.js:212-228 | Indices 2, 3, 6, 7, 10, 11, 14 and 15 are unchanged. |
| InPlace.RotateXIsLeftProduct | lab3/script.js:176-192 | The in-place update equals left multiplication by the transposed x rotation. |
| InPlace.RotateYIsLeftProduct | lab3/script.js:194-210 | The in-place update equals left multiplication by the transposed y rotation. |
| InPlace.RotateZIsLeftProduct | lab3/script.js:212-228 | The in-place update equals left multiplication by the transposed z rotation. |
| InPlace.RotateByZeroAngle | lab3/script.js:176-228 | With c = 1 and s = 0 each rotation leaves the matrix unchanged. |
| InPlace.RotateXOfIdentity | lab3/script.js:160-192 | rotateX on the identity gives column 1 = (0, c, −s, 0) and column 2 = (0, s, c, 0). |
| Scene.ParseOrder | project1_ide/math.js:183-206 | Each of the five recognised names selects its order, and only that name selects it. |
| Scene.UnknownOrderIsTRS | project1_ide/math.js:202-205 | Any unrecognised order string gives the same matrix as "TRS", which is T·(Rz·Ry·Rx)·S. |
| Scene.ComposeActsRightToLeft | project1_ide/math.js:183-206 | Each order applies its three factors to a vector from right to left. |
| Scene.RotationOrder | project1_ide/math.js:179-180 | The rotation applies x first, then y, then z, each angle converted from degrees. |
| Scene.PureTranslation | project1_ide/math.js:168-207 | Zero rotation and unit scale give the pure translation, whatever the order string. |
| Scene.ComposeWithIdentities | project1_ide/math.js:183-206 | With identity rotation and scaling, every order gives back the translation matrix. |
| Scene.NoRotation | project1_ide/math.js:179-180 | All-zero angles give the identity rotation. |
| Scene.InvertMatrixAsWritten | project1_ide/math.js:210-235 | The bottom row is (0, 0, 0, 1). The upper 3×3 block is copied from the input unchanged. |
| Scene.InvertRigid | project1_ide/math.js:210-235 | The corrected inverse has bottom row (0, 0, 0, 1) and the transposed 3×3 block. |
| Scene.ApplyInvertRigidDirection | project1_ide/math.js:210-235 | Directions (w = 0) are rotated by Rᵀ, ignoring the translation. |
| Scene.InvertRigidAxes | project1_ide/math.js:210-235 | For an orthonormal block, the inverse sends each axis column back to the unit axis. |
| Scene.InvertRigidTranslation | project1_ide/math.js:210-235 | For an orthonormal block, the inverse sends the translation column back to the origin point. |
| Scene.InvertRigidIsInverse | project1_ide/math.js:210-235 | For an orthonormal block, inverse([R\|t])·[R\|t] = I. |
| Scene.AsWrittenAgreesOnlyWhenSymmetric | project1_ide/math.js:210-235 | The translations of the two inverses always agree. The whole matrices agree exactly when the 3×3 block is symmetric. |
| Scene.AsWrittenFailsOnQuarterTurn | project1_ide/math.js:210-235 | For the quarter turn about z, which is rigid, the as-written inverse times the matrix has −1 at entry 0, so it is not the identity. |
| Scene.QuarterTurnFacts | project1_ide/math.js:210-235 | The quarter turn about z is rigid, and the as-written inverse returns it unchanged. |
| Scene.FormatMatrixLines | project1_ide/math.js:133-165 | The result is the error exactly when the length is not 16. Otherwise it is four rows of four consecutive entries. |
| View.Axes | project1/js/camera.js:3-6 | The y axis is cross(z, x) and is orthogonal to both. |
| View.ViewMatrix | lab6/1/script.js:55-77 | The axes are the rows of the 3×3 block (x in [0], [4], [8]). [3] = [7] = [11] = 0 and [15] = 1. [12..14] = −dot(axis, eye). |
| View.ColumnMatrix | project1/js_ide/camera.js:13-18 | The axes are the columns of the 3×3 block. The bottom row is as in the row layout, with the same −dot(axis, eye) translation. |
| View.LayoutsAreTransposed | project1/js_ide/camera.js:3-19 | For the same inputs, the column layout's 3×3 block is the transpose of the row layout's. Their translation rows agree. |
| View.LookAtRowsFactors | project1/js/camera.js:3-17 | The row layout is the rotation (axes as rows) times the translation by −eye. |
| View.LookAtRowsMapsEyeToOrigin | project1/js/camera.js:3-17 | The row layout sends the eye to the origin, for any axes. |
| View.ViewMatrixAtEye | lab6/1/script.js:55-77 | mat4LookAt sends the eye to the origin. |
| View.SideViewAxes | lab6/1/script.js:55-77 | Looking from (1,0,0) at the origin with up (0,1,0) gives the axes x = (0,0,−1), y = (0,1,0) and z = (1,0,0). |
| View.LookAtRowsCameraCoordinates | project1/js/camera.js:3-17 | For orthonormal axes, eye + a·x + b·y + c·z is sent to (a, b, c): the matrix expresses points in camera coordinates. |
| View.ColumnMatrixAtEye | project1/js_ide/camera.js:3-19 | The image of the eye under the column layout, as a closed form in the axes. |
| View.ColumnsLayoutMovesEye | project1/js_ide/camera.js:3-19 | For eye (1,0,0), target origin and up (0,1,0), the column layout sends the eye to (0,0,−2) while the row layout sends it to the origin. |
| View.OrbitLaws | project1/js_ide/camera.js:21-31 | A missing target means the origin. The eye is the target plus the target-free eye. Distance 0 gives the target. With unit angles the eye is at the given distance from the target. |
| Camera.Initial | project1_ide/camera.js:6-19 | The constructor's state satisfies every clamp the methods apply: near ≥ 0.1, far ≥ near + 1, distance in [2, 50], pitch within ±(π/2 − 0.1) and fov in [10, 120]. |
| Camera.OrbitEyeDistance | project1_ide/camera.js:69-74 | With unit angles the recomputed eye lies at the camera distance from the origin. |
| Camera.MoveForward | project1_ide/camera.js:77-81 | The distance stays in [2, 50]. It moves by delta when that stays in range. The eye is recomputed and nothing else changes. |
| Camera.RotateAround | project1_ide/camera.js:84-89 | Yaw grows by dx without a clamp. Pitch is clamped to ±(π/2 − 0.1) and moves by dy when that stays in range. The eye is recomputed and nothing else changes. |
| Camera.Pan | project1_ide/camera.js:92-95 | Only target x and y move, by dx and dy. |
| Camera.Reset | project1_ide/deliverables/camera.js:97-105 | Rotation becomes (0.3, 0.5), distance 15, target the origin and up (0,1,0). The projection settings are kept. |
| Camera.Toggle | project1_ide/camera.js:114-117 | The flag flips, and the label is "perspective" exactly when the new flag is set. |
| Camera.ToggleInvolution | project1_ide/deliverables/camera.js:108-111 | Toggling twice restores the state. The two labels differ. |
| Camera.SetProjectionType | project1_ide/camera.js:120-122 | The flag is set exactly when the name is "perspective". |
| Camera.SetFieldOfView | project1_ide/camera.js:125-127 | The field of view stays in [10, 120] and equals the input when the input is in range. |
| Camera.SetClippingPlanes | project1_ide/camera.js:130-133 | near = max(0.1, input). far = max(input, near + 1), so far is always at least one unit beyond near, whatever the arguments. Nothing else changes, so a camera that met every clamp still does. |
| Camera.SetAspectRatio | project1_ide/camera.js:136-138 | Only the aspect ratio changes. |
| Camera.OperationsKeepValid | project1_ide/deliverables/camera.js:77-125 | Every camera operation preserves all of those clamps: the clipping planes, the distance in [2, 50], the pitch within ±(π/2 − 0.1) and the fov in [10, 120]. |
| Camera.ViewMatrix | project1_ide/camera.js:45-47 | The view matrix has bottom row (0,0,0,1) and sends the eye to the origin. |
| Camera.ProjectionMatrix | project1_ide/camera.js:50-66 | The perspective branch has w = −z and focal length 1/tan(fov/2). The orthographic branch is affine with a 10-unit half height. |
| Camera.ValidCameraProjects | project1_ide/camera.js:50-66 | With the clipping planes setClippingPlanes guarantees, near ≠ far, and the orthographic width is 20·aspect. |
| Orbit.Initial | project2_ide/math.js:44-51 | The default orbit camera is valid, with azimuth 40° and elevation 23°. |
| Orbit.Dolly | project2_ide/math.js:53-55 | The distance is scaled by 1 + 0.1·delta and clamped to [min, max]. Nothing else changes. |
| Orbit.Rotate | project2_ide/math.js:57-60 | Azimuth grows by dx·0.005 without a clamp. Elevation moves by dy·0.005, clamped to ±(π/2 − 0.01). Nothing else changes. |
| Orbit.Reset | project2_ide/math.js:62-66 | Restores distance 8 and the default angles, and keeps the target and bounds. |
| Orbit.OrbitLaws | project2_ide/math.js:53-66 | Every operation keeps the camera valid. dolly(0) and rotate(0, 0) are no-ops. reset is the initial camera with the target kept. |
| Orbit.GetEye | project2_ide/math.js:68-75 | The eye's offset from the target is the orbit point of project1_ide's camera, with pitch = elevation and yaw = azimuth. |
| Orbit.EyeDistance | project2_ide/math.js:68-75 | With unit angles the eye is at exactly `distance` from the target, before and after a rotation. |
| Orbit.DollyAlongRay | project2_ide/math.js:53-75 | A dolly moves the eye along the ray from the target: the new offset is the old one scaled by new distance / old distance. |
| Camera.OrbitEyeScale | project1_ide/camera.js:69-74 | The orbit point scales linearly with the distance. |
| Bezier.Lerp | lab5/casteljau.js:19-26 | Gives p0 at t = 0 and p1 at t = 1, and equals (1−t)·p0 + t·p1. |
| Bezier.NextStage | lab5/casteljau.js:36-38 | The next stage is one point shorter, and point i is lerp(stage[i], stage[i+1], t). |
| Bezier.Stages | lab5/casteljau.js:30-44 | Stage 0 is the input unchanged. For n+1 ≥ 1 points there are n+1 stages. |
| Bezier.StagesShape | lab5/casteljau.js:34-41 | Stage k has n+1−k points, and each stage is the next stage of the one before. |
| Bezier.DeCasteljau | lab5/casteljau.js:30-44 | The while loop builds exactly the stage pyramid. |
| Bezier.InterpolateStage | lab5/casteljau.js:35-38 | The inner loop builds exactly the next stage. |
| Bezier.LastStageIsFinal | lab5/casteljau.js:39-43 | The last stage is a singleton holding the curve point. |
| Bezier.FinalRecurrence | lab5/casteljau.js:30-44 | The curve point is the lerp of the curve points of the first n and the last n control points. |
| Bezier.FinalEndpoints | lab5/casteljau.js:133-134 | The De Casteljau point is points[0] at t = 0 and points[n] at t = 1. |
| Bezier.PenultimateStage | lab5/casteljau.js:235-239 | The second-to-last stage holds the curve points of the first n and the last n control points. |
| Bezier.BinomialCoeffs | lab5/casteljau.js:46-55 | The result has length n+1, and C[k] = choose(n, k). |
| Bezier.BernsteinIsDeCasteljau | lab5/casteljau.js:57-79 | The Bernstein sum Σ choose(n,k)(1−t)^(n−k)t^k P_k equals the De Casteljau point for every t. |
| Bezier.BernsteinRecurrence | lab5/casteljau.js:57-79 | The Bernstein form satisfies the same lerp recurrence as the pyramid. |
| Bezier.RowWeightsOfChoose | lab5/casteljau.js:72 | With the Pascal row, the weights binom[k]·(1−t)^(n−k)·t^k are the Bernstein weights. |
| Bezier.BernsteinPoint | lab5/casteljau.js:57-79 | Returns exactly P0 at t = 0 and Pn at t = 1. Otherwise it returns the weighted sum, via the loop invariant tPow = t^k, uPow = (1−t)^(n−k). Given the Pascal row, it equals the De Casteljau point. |
| Bezier.SampleParameterEnds | lab5/casteljau.js:129-130 | Sample 0 is at t = 0 and sample `segments` is at t = 1. |
| Bezier.EvaluateSample | lab5/casteljau.js:131-137 | Both evaluation branches produce the De Casteljau point. |
| Bezier.SampleCurve | lab5/casteljau.js:121-142 | The buffer has 2(segments+1) floats. Pair i is the curve point at i/segments. The first pair is P0 and the last is Pn. |
| Bezier.SamplesEndAtControlPoints | lab5/casteljau.js:129-142 | A buffer whose pairs are the curve points starts at the first control point and ends at the last. |
| Bezier.Tangent | lab5/casteljau.js:235-247 | A tangent exists exactly when there are at least two control points. |
| Bezier.TangentIsHodograph | lab5/casteljau.js:235-247 | n·(Q1 − Q0) from the second-to-last stage equals n times the Bernstein curve of the control-point differences. |
| Cubic.CubicWeights | lab6/3/script.js:58-64 | The cubic Bernstein weights sum to 1 and are (1,0,0,0) at t = 0 and (0,0,0,1) at t = 1. |
| Cubic.CubicWeightsNonNegative | lab6/3/script.js:58-64 | On [0, 1] every weight is non-negative. |
| Cubic.DerivativeWeights | project1_ide/bezier.js:50-74 | The derivative weights sum to 0 and are (−3,3,0,0) at 0 and (0,0,−3,3) at 1. |
| Cubic.CubicIsDeCasteljau | project1_ide/bezier.js:23-47 | The hard-coded cubic form equals the last lerp of De Casteljau's construction. |
| Cubic.DerivativeIsHodograph | project1_ide/bezier.js:50-74 | The hard-coded derivative equals 3·(Q1 − Q0) from the penultimate stage. |
| Cubic.CoordinateIsDeCasteljau | lab6/3/script.js:53-68 | Per coordinate, the expanded cubic equals three nested lerps. |
| Cubic.CoordinateDerivative | project1_ide/bezier.js:50-74 | Per coordinate, the derivative expansion equals 3 times the difference of the penultimate pair. |
| Cubic.PlanarCubicIsDeCasteljau | project1/js/bezier.js:34-42 | The 2D cubic form equals the general De Casteljau point of the four control points. |
| BezierCurve.Initial | project1_ide/bezier.js:6-19 | The constructor state meets the invariants every method keeps: four control points, a parameter in [0, 1], a direction of ±1 and a speed inside the setter's range. |
| BezierCurve.Evaluate | project1_ide/bezier.js:23-47 | t ≤ 0 gives P0 and t ≥ 1 gives P3. |
| BezierCurve.EvaluateIsDeCasteljau | project1_ide/bezier.js:23-47 | The result is the De Casteljau point at clamp(t, 0, 1), so evaluate(t) = evaluate(clamp(t)). |
| BezierCurve.Tangent | project1_ide/bezier.js:50-74 | tangent(0) = 3(P1 − P0) and tangent(1) = 3(P3 − P2). |
| BezierCurve.TangentIsHodograph | project1_ide/bezier.js:50-74 | The tangent is 3·(Q1 − Q0) of the clamped parameter. |
| BezierCurve.AnimatedPosition | project1_ide/bezier.js:186-188 | Parameter 0 gives P0 and parameter 1 gives P3. |
| BezierCurve.SamplesAt | project1_ide/bezier.js:77-94 | Sample i is the curve at i/resolution, and its colour is (t, 0.3, 1−t). |
| BezierCurve.GenerateCurveVertices | project1_ide/bezier.js:77-94 | Each array has 3·(resolution+1) entries. The first triple is P0 and the last is P3. A negative resolution gives empty arrays. |
| BezierCurve.SamplesEndAtControlPoints | project1_ide/bezier.js:77-94 | The first sample is P0 and the last is P3. |
| BezierCurve.EvaluateAtEnds | project1_ide/bezier.js:77-94 | The first and last sample parameters evaluate to P0 and P3. |
| BezierCurve.ControlPolygonVertices | project1_ide/bezier.js:97-108 | The positions are the flattened control points, and every colour component is 0.7. |
| BezierCurve.ControlPointVertices | project1_ide/bezier.js:111-127 | The positions are the flattened control points. Each of the first three markers has a colour different from every later marker. |
| BezierCurve.UpdateControlPoint | project1_ide/bezier.js:130-136 | An out-of-range index changes nothing. Otherwise only that point is replaced. |
| BezierCurve.ScreenToWorld | project1_ide/bezier.js:139-151 | The screen centre maps to the world origin, and mapping back to screen returns the input. |
| BezierCurve.ScreenWorldRoundTrip | project1_ide/bezier.js:139-151 | Screen-to-world undoes world-to-screen. |
| BezierCurve.SetControlPointFromScreen | project1_ide/bezier.js:139-151 | An out-of-range index changes nothing. Otherwise the point moves to the screen position's preimage and keeps its z. |
| BezierCurve.StartAnimation | project1_ide/bezier.js:154-158 | Animation starts from parameter 0 going forward, and nothing else changes. |
| BezierCurve.StopAnimation | project1_ide/bezier.js:160-162 | Only the flag is cleared. |
| BezierCurve.ToggleAnimation | project1_ide/bezier.js:164-167 | The flag flips, and the new flag is returned. |
| BezierCurve.AnimationControls | project1_ide/bezier.js:154-167 | Toggling twice restores the state. stop equals toggle when animating. start after stop after start is start. |
| BezierCurve.UpdateAnimation | project1_ide/bezier.js:170-183 | A no-op when not animating. Otherwise the parameter ends in [0, 1]. The step reaches or passes 1 exactly when the result is (1, −1), and reaches or passes 0 exactly when it is (0, +1). Strictly inside, the parameter is the stepped value and the direction is kept. |
| BezierCurve.UpdateAnimationBounces | project1_ide/bezier.js:170-183 | Overshooting 1 stops at 1 facing back, and the next step moves back by the speed. |
| BezierCurve.UpdateAnimationBouncesAtStart | project1_ide/bezier.js:170-183 | Overshooting 0 stops at 0 facing forward, and the next step moves on by the speed. |
| BezierCurve.SetAnimationSpeed | project1_ide/bezier.js:191-193 | The speed stays in [0.001, 0.02] and equals the input when the input is in range. |
| BezierCurve.ResetCurve | project1_ide/bezier.js:196-205 | Restores the default points, parameter 0 and direction 1, and keeps the flag, speed and resolution. |
| BezierCurve.OperationsKeepValid | project1_ide/bezier.js:130-205 | Every operation preserves the curve invariants. |
| Overlay.Initial | project1/js/bezier.js:4-18 | The initial editor state is valid. |
| Overlay.SamplePoint | project1/js/bezier.js:34-42 | samplePoint(0) = p0 and samplePoint(1) = p3. |
| Overlay.SamplePointIsDeCasteljau | project1/js_ide/bezier.js:43-56 | The hard-coded cubic equals the De Casteljau point of the four control points. |
| Overlay.PointAt | project1/js/bezier.js:116 | Samples at clamp(t, 0, 1), so t ≤ 0 gives p0 and t ≥ 1 gives p3. |
| Overlay.Pick | project1/js/bezier.js:86-93 | Returns the highest index whose squared distance is ≤ 2·radius², and −1 exactly when there is none. |
| Overlay.GetPoints | project1/js/bezier.js:113 | Returns a copy equal to the current points. |
| Overlay.SetPoints | project1/js_ide/bezier.js:150-157 | Replaces the points only when given exactly four. Otherwise the state is unchanged. |
| Overlay.PointsRoundTrip | project1/js/bezier.js:113-114 | Setting what get returned changes nothing, and get after set returns what was set. |
| Overlay.SetT | project1/js/bezier.js:117 | t stays in [0, 1] and equals the input when the input is in range. |
| Overlay.SetSpeed | project1/js_ide/bezier.js:176-178 | The speed stays ≥ 0 and equals the input when the input is non-negative. |
| Overlay.Play | project1/js/bezier.js:120 | Only the playing flag is set. |
| Overlay.Pause | project1/js/bezier.js:121 | Only the playing flag is cleared. |
| Overlay.ResetT | project1/js_ide/bezier.js:188-190 | Only t changes, to 0. |
| Overlay.WrapUnit | project1/js/bezier.js:126 | Values ≤ 1 are kept. Larger values drop a whole number ≥ 1 of units and land in (0, 1]. |
| Overlay.Step | project1/js_ide/bezier.js:192-198 | A no-op when paused. Otherwise t advances by speed·dt and is wrapped. |
| Overlay.WrapLoopResult | project1/js/bezier.js:126 | The subtract-one loop ends at the wrapped value. |
| Overlay.WrapKeepsParameterOnCurve | project1/js/bezier.js:123-127 | With t in [0, 1], speed ≥ 0 and dt ≥ 0, the new t stays in [0, 1]. |
| Overlay.SettersKeepValid | project1/js/bezier.js:113-122 | Every setter preserves the editor invariants. |
| Grid.Quad | lab6/2/script.js:150-154 | Each quad emits six indices. |
| Grid.QuadShape | lab6/2/script.js:150-154 | Each quad's six indices lie inside its vertex block, and each of its two triangles uses three distinct indices. |
| Grid.GridIndices | lab6/2/script.js:148-156 | A rows × cols grid emits 6·rows·cols indices. |
| Grid.GridIndicesShape | lab6/2/script.js:148-156 | Every index lies in [base, base + (rows+1)(cols+1)), and every triangle is non-degenerate. |
| Grid.QuadAt | lab6/2/script.js:148-156 | Quad (i, j) occupies the six slots starting at 6·(i·cols + j). |
| Grid.EmitQuads | lab6/3/script.js:122-138 | The index loop fills exactly 6·rows·cols slots, all in range and non-degenerate. |
| Grid.GridPointAt | lab6/3/script.js:92-120 | Vertex (i, j) is stored at i·(cols+1) + j. |
| Grid.GridPointsAll | lab6/2/script.js:134-145 | A property of every generated vertex holds of every stored vertex. |
| Grid.EmitPoints | lab6/3/script.js:92-120 | The vertex loop emits (rows+1)(cols+1) vertices in row-major order. |
| Grid.Uint16 | lab6/2/script.js:162 | Storing in a Uint16Array gives a value in [0, 65536) and keeps values already in range. |
| Grid.ToUint16 | lab6/2/script.js:162 | The conversion keeps the length, and it is the identity exactly on arrays already in range. |
| Meshes.BlockIndicesShape | lab6/1/generate_cube.js:44-54 | Across n face blocks every index is below n·(tess+1)², and every triangle is non-degenerate. |
| Meshes.BlockAt | lab6/1/generate_cube.js:44-54 | Face f's indices are the grid indices with base f·(tess+1)². |
| Meshes.FaceBlock | lab6/2/script.js:122-156 | Face f's indices stay in its own block [f·(tess+1)², (f+1)·(tess+1)²). |
| Meshes.EmitBlocks | lab6/1/generate_cube.js:15-55 | The per-face loop emits exactly the concatenated face points and face index blocks. |
| Meshes.GenerateBlocks | lab6/1/generate_cube.js:1-62 | There are 3 floats per vertex for positions and colours, and 6·tess² indices per face. When the count fits 16 bits, every index is in range and non-degenerate. |
| Meshes.GenerateCube | lab6/2/script.js:108-164 | There are 6(tess+1)² vertices, with colours matching positions, and 36·tess² indices. When the count fits 16 bits, all indices are below the vertex count. |
| Meshes.Coord | lab6/1/generate_cube.js:31-32 | The face parameter runs from −1 at 0 to 1 at tess and stays in [−1, 1]. |
| Meshes.CubeFacePoints | lab6/2/script.js:127-142 | Each face's parametric point is the expected square on the plane of its normal. |
| Meshes.AxisCross | lab6/1/generate_cube.js:20-25 | The right vector up × normal of each face is the expected unit axis. |
| Meshes.FacePointOnSurface | lab6/2/script.js:127-142 | Every face point has coordinate 1 along its normal and lies on the cube surface. |
| Meshes.CubeOnSurface | lab6/1/generate_cube.js:20-38 | Every generated cube vertex lies on the surface: one coordinate is ±1 and all lie in [−1, 1]. |
| Meshes.GenerateGrid | lab6/2/script.js:166-220 | A (rows+1)(cols+1) vertex grid with 6·rows·cols indices. When it fits 16 bits, every index is in range and non-degenerate. |
| Meshes.GenerateSphere | lab6/2/script.js:166-220 | There are (tess+1)(2tess+1) vertices and 12·tess² indices. When the count fits 16 bits, all indices are in range. |
| Meshes.SphereOnUnitSphere | lab6/2/script.js:166-220 | With exact trigonometry every sphere vertex has unit length, and its colour lies in the unit cube. |
| Meshes.GenerateDonut | lab6/2/script.js:223-277 | There are (tess+1)² vertices and 6·tess² indices. When the count fits 16 bits, all indices are in range. |
| Meshes.DonutOnTorus | lab6/2/script.js:223-277 | With exact trigonometry every vertex lies on the torus with R = 0.7 and r = 0.3. |
| CubeVariants.BilinearCorners | lab6/1/generate_cube.js:131-141 | At (s, t) ∈ {0,1}² the interpolation reproduces corners c0, c1, c2 and c3. |
| CubeVariants.BlendWeights | lab6/1/generate_cube.js:137-139 | The four bilinear weights sum to 1 and are non-negative on the unit square. |
| CubeVariants.BlendBounded | lab6/1/generate_cube.js:137-139 | Blending coordinates in [−1, 1] gives a coordinate in [−1, 1]. |
| CubeVariants.BilinearInCube | lab6/1/generate_cube.js:131-141 | Every explicit vertex lies in the cube [−1, 1]³. |
| CubeVariants.GenerateCubeExplicit | lab6/1/generate_cube.js:65-163 | Same counts and index blocks as generateCube. When the count fits 16 bits, all indices are in range. |
| CubeVariants.ExplicitIsTransposedCube | lab6/1/generate_cube.js:127-144 | Explicit vertex (i, j) of face f is vertex (j, i) of generateCube's face f. The explicit faces are transposed grids of the same squares. |
| CubeVariants.ExplicitOnSurface | lab6/1/generate_cube.js:127-144 | Every explicit vertex lies on the cube surface. |
| CubeVariants.GenerateCubeHardCoded | lab6/1/generate_cube.js:166-290 | The hard-coded cube is exactly the generic cube mesh, with the same vertex and index counts. |
| CubeVariants.HardCodedFace | lab6/1/generate_cube.js:166-290 | Each hard-coded face formula and colour equals the generic face's. |
| CubeVariants.HardCodedIsCube | lab6/1/generate_cube.js:166-290 | The hard-coded vertex list equals generateCube's. |
| Revolution.Profile | lab6/3/script.js:53-68 | bezierPoint(0) = (0.05, −0.8) and bezierPoint(1) = (0.08, 0.8). |
| Revolution.ProfileBounds | lab6/3/script.js:53-68 | For t in [0, 1], z lies in [−0.8, 0.8] and r in [0.05, 0.3]. |
| Revolution.ConvexProfile | lab6/3/script.js:53-68 | Any convex combination of the profile control points has z in [−0.8, 0.8] and r in [0.05, 0.3]. |
| Revolution.Shade | lab6/3/script.js:108 | For z in [−0.8, 0.8] the colour and v coordinate lie in [0, 1]. |
| Revolution.TessellationLevel | lab6/3/script.js:70-74 | A level exists exactly for 1, 2 and 3, with baseSlices = 2·curveSteps ≤ 64. |
| Revolution.Slices | lab6/3/script.js:79 | slices = max(3, floor(baseSlices·angle/360)): never below 3, and at most baseSlices when the angle is at most 360. |
| Revolution.SweepAngle | lab6/3/script.js:97 | Column 0 is at angle 0 and column `slices` at the full sweep. |
| Revolution.SweepVertexBounds | lab6/3/script.js:92-120 | The u = j/slices and v texcoords and the colour lie in [0, 1], and z lies in [−0.8, 0.8]. |
| Revolution.SweepOnSurface | lab6/3/script.js:92-120 | With exact trigonometry each vertex lies on the circle of radius r at height z of its profile point. |
| Revolution.GenerateMesh | lab6/3/script.js:76-149 | An unknown level gives no mesh. vertexCount = (curveSteps+1)(slices+1), and the arrays are sized to match. The index array is filled exactly and triangleCount = indices/3. When the angle is at most 360, vertexCount ≤ 65536 and every index is below it. |
| Revolution.VertexCountFits | lab6/3/script.js:70-86 | The largest level at a sweep of at most 360° has at most 65536 vertices. |
| CameraGeometry.PassCondition | project1_ide/camera.js:167 | Loop pass k runs exactly when −size + k·step ≤ size. |
| CameraGeometry.GridGeometry | project1_ide/camera.js:163-182 | Each pass adds 4 vertices. The colours match the positions in length and are all 0.3, and vertexCount = positions/3. A negative size gives empty arrays whatever the step. |
| CameraGeometry.GridInsideSquare | project1_ide/camera.js:163-182 | Every grid coordinate lies in [−size, size]. |
| CameraGeometry.IndicatorGeometry | project1_ide/camera.js:269-306 | 36 vertices and 108 floats, every coordinate ±0.2 and every colour magenta. |
| CameraGeometry.IndicatorCorners | project1_ide/deliverables/camera.js:258-295 | Every face index names one of the eight cube corners. |
| CameraGeometry.FrustumTriangles | project1_ide/camera.js:233-259 | The frustum is 16 triangles. |
| CameraGeometry.FrustumGeometry | project1_ide/camera.js:185-266 | 48 vertices with 144 position and 144 colour floats. |
| CameraGeometry.FrustumDepths | project1_ide/camera.js:189-218 | Every triangle vertex is at the camera origin, the near plane or the capped far plane min(far, near + 10). |
| CameraGeometry.FrustumIsPyramid | project1_ide/camera.js:192-218 | Each far corner is the matching near corner scaled by far/near: the frustum is a pyramid from the camera. |
| Obj.Classify | project2_ide/main.js:98-111 | A line is skipped exactly when it is empty or starts with '#'. Each other kind requires its prefix. |
| Obj.LookupIsOneBased | project2_ide/main.js:117-120 | Indices are 1-based. A missing or out-of-range position gives (0,0,0), uv gives (0,0) and normal gives (0,1,0). |
| Obj.CornerFloats | project2_ide/main.js:121 | Each emitted vertex is exactly 8 floats. |
| Obj.FanTriangle | project2_ide/main.js:114-115 | Fan triangle q is (corner 0, corner q+1, corner q+2). |
| Obj.Fan | project2_ide/main.js:111-116 | k corners give 3·max(0, k−2) corners: k−2 triangles, none when k < 3. |
| Obj.FaceFloats | project2_ide/main.js:111-122 | A face emits 24 floats per fan triangle. |
| Obj.Step | project2_ide/main.js:98-124 | Skipped and unknown lines change nothing. v, vn and vt lines append one record to their list only. A face line appends its floats only. |
| Obj.ParseCounts | project2_ide/main.js:91-124 | The list lengths count the record lines, and the output has 24 floats per triangle. |
| Obj.ParseExtends | project2_ide/main.js:98-124 | Parsing more lines only appends to every list. |
| Obj.FaceUsesEarlierRecords | project2_ide/main.js:98-124 | A face's floats are resolved against the records read on earlier lines only, and they appear in the final output at that point. |
| Obj.ParseObj | project2_ide/main.js:91-124 | The loop output equals the line-by-line fold and has 24 floats per triangle. |
| Obj.EmitFace | project2_ide/main.js:114-122 | The nested fan loop emits exactly the face's floats. |

## Left out

- WebGL and DOM calls are not modelled. This covers shaders, buffers, draw calls, event handlers, `requestAnimationFrame`, `fetch`, `FileReader` and Blob export. They are thin wrappers over browser APIs.
- The numeric values of `Math.sin`, `Math.cos`, `Math.tan`, `Math.hypot` and `Math.sqrt` are not computed. They enter as parameters (`Trig`, `tan`, `Hypot`, `norm`), and geometric properties assume `c² + s² = 1` where needed.
- IEEE-754 and Float32Array rounding are not modelled: all arithmetic is exact over the reals.
  - Bezier.BernsteinPoint: the near-1 fragility of the `uPow / u` update is not modelled.
  - Grid.Uint16 models the wrap of a Uint16Array store. Float32 storage of positions is not modelled.
- Meshes.GenerateCube, Meshes.GenerateSphere, Meshes.GenerateDonut, CubeVariants.GenerateCubeExplicit and CubeVariants.GenerateCubeHardCoded require `tess > 0`. The source divides by `tess`, and `tess = 0` produces NaN coordinates, which exact reals cannot represent.
- `toFixed` formatting of `formatMatrixAsJSON` is not modelled. Scene.FormatMatrixLines keeps the length-16 guard and the row split, not the text.
- `findNearestControlPoint` and `createAnimatedCubeTransform` of project1_ide/bezier.js are not modelled. They depend on screen projection with `sqrt` and on trigonometric values.
- The glMatrix-backed wrappers of project2_ide/math.js (`Mat4.*`, `Vec3.*`) and `OrbitCamera.viewMatrix` are not modelled. Each forwards to a glMatrix function (`viewMatrix` to `Mat4.lookAt`), and glMatrix is not part of this model. `getEye` computes its formula itself and is Orbit.GetEye; only its vector storage and the final add go through glMatrix.
- The text side of `parseOBJ` is not modelled: `split`, `trim`, `parseFloat` and `parseInt`. Obj takes each line as its trimmed text plus already-parsed tokens, with a NaN or missing number as `None`.
- Vec3.Normalize has no ensures of its own. Its contract is the lemma Vec3.NormalizeSpec, because it takes the length from the `Hypot` parameter.
- Vec3.NormalizeUnguarded requires a nonzero length. The project1_ide copy divides by zero otherwise, and that NaN result cannot be represented.
- Revolution.GenerateMesh returns `None` for an unknown tessellation level. The source throws a TypeError reading `curveSteps` of `undefined`.
- Projection.Perspective requires `aspect ≠ 0` and `near ≠ far`. The source divides by both, and a zero divisor gives Infinity or NaN entries, which exact reals cannot represent.
- Projection.PerspectiveFov requires `tan(fov/2) ≠ 0`, `aspect ≠ 0` and `near ≠ far`. The source divides by all three: `1 / tan(fov/2)` is Infinity at fov = 0, and exact reals cannot represent Infinity.
- Projection.PerspectiveDeg requires `tan(fov·π/360) ≠ 0`, `aspect ≠ 0` and `near ≠ far`, for the same reason: each is a divisor in the source, and a zero divisor gives Infinity, which exact reals cannot represent.
- Camera.ProjectionMatrix requires `aspect ≠ 0` and `near ≠ far`, and in perspective mode a nonzero tangent of half the field of view. These are the divisors of the two projections it chooses between. Camera.ValidCameraProjects shows that the clipping planes every method keeps meet `near ≠ far`.
- Projection.Ortho, Projection.Lab3Orthographic and Projection.Frustum require `right ≠ left`, `top ≠ bottom` and `near ≠ far`. The source divides by each difference, and a zero difference gives Infinity or NaN, which exact reals cannot represent.
- Bezier.SampleCurve and Bezier.SampleParameter require `segments ≥ 1`. The source computes `t = i / segments`, which is NaN at `segments = 0`; the default is 100.
- BezierCurve.GenerateCurveVertices requires `curveResolution ≠ 0`. The source computes `i / curveResolution`, which is NaN at 0; the constructor sets 100.
- BezierCurve.SetControlPointFromScreen and BezierCurve.ScreenToWorld require a nonzero canvas width and height when a point is moved. The source divides by both, and a zero size gives Infinity or NaN.
- CameraGeometry.GridGeometry requires `size < 0` or `step > 0`. With a non-negative size and a step of 0 or less, the loop of project1_ide/camera.js:167 never ends, and a method that does not terminate has no result to state. A negative size runs no pass, and the model covers that case.
- CameraGeometry.FrustumGeometry states the counts only. The corner geometry is stated by CameraGeometry.FrustumDepths and CameraGeometry.FrustumIsPyramid, and the per-face colours by no contract beyond their number (CameraGeometry.FrustumColors).
- Mutation aliasing is not modelled. lab 6's `mat4Multiply(out, a, b)` writes into `out`, and every caller passes a distinct `out`. The model is the pure product.

## Findings

| source | as written | input that shows it | evidently intended | confidence | as-written member | corrected member |
|---|---|---|---|---|---|---|
| project1_ide/math.js:210-235 | `invertMatrix` computes the translation −Rᵀt but copies the 3×3 block R unchanged instead of transposing it | the quarter turn about z (c = 0, s = 1): the product of the result with the input has −1 at entry 0 | inverse([R\|t]) = [Rᵀ\|−Rᵀt], so that inverse·M = I for every rigid M | high (not executed) | Scene.AsWrittenFailsOnQuarterTurn | Scene.InvertRigidIsInverse |
| project1/js_ide/camera.js:3-19 | `lookAt` stores the camera axes as columns while using the −dot(axis, eye) translation of the row layout | eye (1,0,0), target (0,0,0), up (0,1,0): the eye is sent to (0,0,−2) instead of the origin | axes stored as rows, as in project1/js/camera.js:9-11, so the eye maps to the origin | high (not executed) | View.ColumnsLayoutMovesEye | View.LookAtRowsMapsEyeToOrigin |
