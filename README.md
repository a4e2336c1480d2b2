# camera2d_ggez in Dafny

A model of the 2D camera library camera2d_ggez, which sits on top of the ggez game
framework. The library has two parts.

- **Camera** (`src/camera.rs`) is a view pose with four fields:
  - `offset`: a screen anchor;
  - `rotation`;
  - `scale`: the zoom;
  - `position`: the world point the camera looks at.

  It builds the world-to-screen matrix, which draws a world point w at
  R(rotation) ((w - position) * scale) + offset. It converts points between world
  and screen coordinates in both directions. It composes with an object's
  transform. Its mutators pan, zoom (plain, anchored at a screen point, or anchored
  at the middle of the window), turn and set the fields.
- **Transform** (`src/transform.rs`) is an object's local pose:
  - `dest`;
  - `rotation`;
  - `scale`;
  - `offset`: a pivot, which is divided by the scale before the matrix is built.

  It builds the local-to-parent matrix, composes it with a parent matrix, and
  converts from ggez's own `graphics::Transform`.

The project has three modules.

- `Geometry` (`geometry.dfy`) holds the shared algebra:
  - 2D vectors;
  - angles, given by their sine and cosine;
  - 2x3 affine maps, with composition and the closed-form inverse;
  - the map `RotScaleAbout`, whose six entries both components compute the same way;
  - the 4x4 homogeneous matrices that glam uses, with `transform_point3` and the
    matrix product.
- `Transform` (`transform.dfy`) is pure, as the source is: the datatype, its default,
  its matrix, the composition with a parent, and the conversion.
- `Camera` (`camera.dfy`) has three parts:
  - `Pose`, the value of the `Copy` struct. The queries are functions of a `Pose`:
    `to_matrix`, the two coordinate conversions and `apply_matrix`.
  - For each mutator, a function from the old pose to the new one. The lemmas
    about these functions state what the mutators achieve.
  - The class `Camera`. Its methods update the fields in place, step by step as
    the source does. Each method's contract ties the new state to the matching
    function.

Numbers are modelled as reals. An angle is modelled as its (sin, cos) pair on the
unit circle, which is what `f32::sin_cos` supplies to the matrix code.

## Model

| member | source | states |
|---|---|---|
| Geometry.RotScaleAboutApply | src/camera.rs:43-49 | the six matrix entries, computed as the source computes them, send a point p to R(rotation) ((p - from) * scale) + to |
| Geometry.RotScaleAboutDet | src/transform.rs:22-25 | the determinant of R(rotation) diag(scale) is scale.x * scale.y, so the block is invertible exactly when both scale components are non-zero |
| Geometry.RotateSum | src/camera.rs:183-185 | rotating by the sum of two angles is rotating by one and then by the other |
| Geometry.Inverse | src/camera.rs:86 | the closed-form inverse of an affine map with non-zero determinant is a left and a right inverse under composition |
| Geometry.InverseApply | src/camera.rs:86-89 | applying a map and then its inverse gives the point back, in both orders |
| Geometry.Embed | src/camera.rs:51-57 | the 4x4 form of a 2x3 map has the z row and column and the w row of the identity |
| Geometry.EmbedApply | src/camera.rs:74-75 | transform_point3 of the 4x4 form acts on (x, y) as the 2x3 map does and passes z through |
| Geometry.EmbedInverse | src/camera.rs:86-89 | the 4x4 form of the inverse undoes the 4x4 form of the map at every point of space, in both orders, so it is the matrix inverse() returns |
| Geometry.MulTransformPoint | src/transform.rs:38-40 | transform_point3 through a product parent * local is transform_point3 through local, then through parent |
| Transform.Default | src/transform.rs:43-52 | the default scale (1, 1) has no zero component, so the default transform has a matrix |
| Transform.ToMatrix | src/transform.rs:16-36 | the local matrix is planar: z and w pass through and the translation has no z part |
| Transform.ToMatrixMaps | src/transform.rs:17-27 | a local point p goes to R(rotation) ((p - offset / scale) * scale) + dest |
| Transform.ToMatrixKeepsZ | src/transform.rs:29-34 | the z coordinate of a point is unchanged by the local matrix |
| Transform.DefaultIsIdentity | src/transform.rs:43-52 | the default transform's matrix is the 4x4 identity |
| Transform.PivotMapsToDest | src/transform.rs:17-27 | the divided pivot offset / scale is the local point that lands on dest |
| Transform.ZeroPivotOriginToDest | src/transform.rs:26-27 | with the pivot at the origin, the local origin lands on dest |
| Transform.TranslationColumn | src/transform.rs:17-27 | the translation column is dest - R(rotation) offset, so the scale cancels out of it |
| Transform.LinearBlockDet | src/transform.rs:21-25 | the determinant of the linear block of the local matrix is scale.x * scale.y, which is non-zero |
| Transform.ApplyMatrixPoint | src/transform.rs:38-40 | a point through apply_matrix(parent) is the point through the local matrix, then through parent |
| Transform.FromGraphics | src/transform.rs:60-79 | the conversion succeeds exactly for the Values variant and then copies dest, rotation, scale and offset unchanged; the Matrix variant panics |
| Camera.DefaultPose | src/camera.rs:18-27 | the default zoom (1, 1) has no zero component |
| Camera.ToMatrix | src/camera.rs:42-58 | the camera matrix is planar: z and w pass through and the translation has no z part |
| Camera.WorldToScreenCoords | src/camera.rs:69-80 | the world point p is drawn at R(rotation) ((p - position) * scale) + offset |
| Camera.ScreenToWorldClosedForm | src/camera.rs:82-94 | with a non-zero zoom, the inverse matrix sends a screen point p to R(-rotation) (p - offset) / scale + position |
| Camera.RoundTrip | src/camera.rs:69-94 | with a non-zero zoom, world-to-screen after screen-to-world is the identity, and so is the other order |
| Camera.ApplyMatrixPoint | src/camera.rs:60-67 | a local point of an object through apply_matrix is drawn where world_to_screen_coords draws the world point the object's matrix gives |
| Camera.DefaultIsIdentity | src/camera.rs:18-26 | the default camera's matrix is the 4x4 identity |
| Camera.PositionMapsToOffset | src/camera.rs:48-49 | for every camera, the world point position is drawn at the screen anchor offset |
| Camera.ZoomAt | src/camera.rs:169-181 | the zoom after an anchored zoom by a non-zero factor is again non-zero |
| Camera.ZoomAtKeepsPoint | src/camera.rs:176-180 | for any rotation, the world point under p before zoom_at_screen_coords(p, f) is drawn at p after it |
| Camera.ZoomAtKeepsView | src/camera.rs:177-180 | the anchored zoom multiplies the scale by the factor componentwise and keeps the rotation and the anchor |
| Camera.Zoomed | src/camera.rs:143-150 | zoom(f) multiplies the scale by f componentwise and keeps the anchor, the rotation and the position |
| Camera.ZoomIsZoomAtOffset | src/camera.rs:143-150 | zoom(f) gives the same camera as the anchored zoom about the screen anchor offset |
| Camera.CenterZoomScenario | src/camera.rs:152-167 | a camera anchored at the middle of a 720 x 480 window at the world origin keeps its position when zoomed by (2, 2) about the middle, gets scale (2, 2), and still draws the origin at (360, 240) |
| Camera.MovedByWorld | src/camera.rs:114-121 | move_by_world_coords(d) leaves a position that gives the old one back when d is added, and keeps the other fields |
| Camera.MovedByWorldShifts | src/camera.rs:114-121 | after move_by_world_coords(d), every world point w is drawn where w + d was drawn before |
| Camera.MovedByScreen | src/camera.rs:123-130 | after move_by_screen_coords(d), the position moved back by an amount that the scale turns into d; the other fields are kept |
| Camera.MovedByScreenShifts | src/camera.rs:123-130 | after move_by_screen_coords(d), every world point is drawn R(rotation) d further along the screen |
| Camera.MovedByScreenUnrotated | src/camera.rs:123-130 | with rotation 0, move_by_screen_coords(d) moves the drawing of every world point by exactly d |
| Camera.Rotated | src/camera.rs:183-185 | rotate keeps the anchor, the scale and the position |
| Camera.RotatedTurnsAboutOffset | src/camera.rs:183-185 | after rotate(a), every world point is drawn at its old screen point turned by a about the anchor offset |
| Camera.WithOffset | src/camera.rs:105-112 | set_offset(p) stores p * scale componentwise, not p, and keeps the other fields |
| Camera.WithOffsetAnchor | src/camera.rs:105-112 | after set_offset(p), the world point position is drawn at p * scale |
| Camera.Camera.Default | src/camera.rs:18-27 | the new camera has offset 0, rotation 0, scale (1, 1) and position 0 |
| Camera.Camera.New | src/camera.rs:30-41 | the new camera has the four given fields |
| Camera.Camera.SetPosition | src/camera.rs:96-103 | position becomes the point; the other fields are unchanged |
| Camera.Camera.SetOffset | src/camera.rs:105-112 | the new state is WithOffset of the old one |
| Camera.Camera.MoveByWorldCoords | src/camera.rs:114-121 | the new state is MovedByWorld of the old one |
| Camera.Camera.MoveByScreenCoords | src/camera.rs:123-130 | the new state is MovedByScreen of the old one |
| Camera.Camera.GetZoom | src/camera.rs:132-134 | returns the current scale |
| Camera.Camera.SetZoom | src/camera.rs:136-141 | scale becomes the given value; the other fields are unchanged |
| Camera.Camera.Zoom | src/camera.rs:143-150 | the new state is Zoomed of the old one |
| Camera.Camera.ZoomCenter | src/camera.rs:152-167 | the new state is the anchored zoom of the old one about (width / 2, height / 2) |
| Camera.Camera.ZoomAtScreenCoords | src/camera.rs:169-181 | the new state is ZoomAt of the old one: scale multiplied by the factor, rotation and anchor kept |
| Camera.Camera.Rotate | src/camera.rs:183-185 | the new state is Rotated of the old one, whose rotation is the sum of the two angles |
| Camera.Camera.SetRotation | src/camera.rs:187-189 | rotation becomes the angle; the other fields are unchanged |

## Left out

- f32 arithmetic is modelled as exact reals. Rounding, overflow, infinities and NaN are not modelled.
- `f32::sin_cos` is not modelled. An angle is its (sin, cos) pair on the unit circle, and `rotation += angle` is the angle-sum formula on those pairs. The radian value, and its growth under repeated `rotate`, is not represented.
- glam's column-major storage and `from_cols_array(..).transpose()` are not modelled. A matrix is given by its rows, in the order the source writes them before the transpose.
- glam's general 4x4 `inverse()` is not modelled. It is replaced by the 4x4 form of the closed-form 2x3 inverse. `Geometry.EmbedInverse` shows that this form undoes the camera matrix at every point.
- Geometry.MulTransformPoint: stated only when the inner matrix is planar, because every local matrix in the library is.
- Zero scale and zero zoom factor: the code has no guard for either, and in f32 they give infinities or NaN. The model follows the code and adds no rejection behaviour. Non-zero components are preconditions of the paths that divide: screen-to-world, `move_by_screen_coords`, both anchored zooms, and the object matrix.
- `ggez::Context` is not modelled. `Camera.Camera.ZoomCenter` takes the drawable size of the window as a parameter instead of reading it.
- Camera.Camera.ZoomCenter: it calls `ZoomAtScreenCoords` instead of repeating its four assignments. The assignments in the source are the same.
- Camera.Camera.ZoomAtScreenCoords: the fixed-point property is not in its own contract. That contract ties the new state to `Camera.ZoomAt`, and the property is proved about `ZoomAt` by `Camera.ZoomAtKeepsPoint`.
- The `Into<Transform>` argument of `apply_matrix` is not modelled. `Camera.ApplyMatrix` takes an already converted `Transform`. The conversion from ggez's own transform is `Transform.FromGraphics`, whose Matrix variant panics.
- `From<Camera> for DrawParam` and `From<Transform> for DrawParam` (src/camera.rs:192-196, src/transform.rs:54-58) are thin wrappers that hand the matrix to ggez.
- `src/main.rs` and the `examples/` programs are not modelled. They are window setup, input handling and drawing, and only call the library.
