/** The 2D camera of src/camera.rs: a view pose that maps world points to the
    screen, R(rotation) ((world - position) * scale) + offset, together with the
    operations that pan, zoom and turn it.

    The struct is Copy, so its value is the datatype Pose; the queries
    (to_matrix, the two coordinate conversions, apply_matrix) are functions of a
    Pose. The mutators update the fields of a Camera object in place, step by step
    as the source does, and each is specified by a function from the old Pose to
    the new one; the lemmas about those functions state what the mutators achieve. */
module Camera {
  import opened Geometry
  import Transform

  /** The four public fields of a camera. */
  datatype Pose = Pose(offset: Vec2, rotation: Angle, scale: Vec2, position: Vec2)

  /** The default camera: anchor at the screen origin, no rotation, unit zoom,
      looking at the world origin. */
  function DefaultPose(): (v: Pose)
    ensures NonZero(v.scale)
  {
    Pose(Origin, Zero, Ones, Origin)
  }

  /** The world-to-screen matrix. Unlike an object transform, the anchor `offset`
      is used as it is, without dividing it by the scale. */
  function ToMatrix(v: Pose): (m: Mat4)
    ensures Planar(m)
  {
    Embed(RotScaleAbout(v.rotation, v.scale, v.position, v.offset))
  }

  /** A world point on the screen: measured from `position`, scaled, rotated and
      placed relative to the screen anchor `offset`. */
  function WorldToScreenCoords(v: Pose, p: Vec2): (r: Vec2)
    ensures r == Add(Rotate(v.rotation, Mul(Sub(p, v.position), v.scale)), v.offset)
  {
    var b := RotScaleAbout(v.rotation, v.scale, v.position, v.offset);
    EmbedApply2(b, p);
    RotScaleAboutApply(v.rotation, v.scale, v.position, v.offset, p);
    TransformPoint2(ToMatrix(v), p)
  }

  /** A screen point in the world, through the inverse of the camera matrix. The
      inverse exists exactly when both scale components are non-zero; the source
      does not check this, so it is the precondition here. */
  function ScreenToWorldCoords(v: Pose, p: Vec2): Vec2
    requires NonZero(v.scale)
  {
    var b := RotScaleAbout(v.rotation, v.scale, v.position, v.offset);
    RotScaleAboutDet(v.rotation, v.scale, v.position, v.offset);
    TransformPoint2(Embed(Inverse(b)), p)
  }

  /** The screen-to-world map in closed form: undo the anchor, turn back, divide
      by the scale, add `position`. */
  lemma ScreenToWorldClosedForm(v: Pose, p: Vec2)
    requires NonZero(v.scale)
    ensures ScreenToWorldCoords(v, p)
         == Add(Div(Rotate(Neg(v.rotation), Sub(p, v.offset)), v.scale), v.position)
  {
    var b := RotScaleAbout(v.rotation, v.scale, v.position, v.offset);
    RotScaleAboutDet(v.rotation, v.scale, v.position, v.offset);
    var u := Rotate(Neg(v.rotation), Sub(p, v.offset));
    var q := Add(Div(u, v.scale), v.position);
    assert Sub(q, v.position) == Div(u, v.scale);
    assert Mul(Sub(q, v.position), v.scale) == u;
    RotateNeg(v.rotation, Sub(p, v.offset));
    RotScaleAboutApply(v.rotation, v.scale, v.position, v.offset, q);
    assert Apply(b, q) == p;
    InverseApply(b, q);
    EmbedApply2(Inverse(b), p);
  }

  /** apply_matrix: the camera matrix times the object's local matrix. */
  function ApplyMatrix(v: Pose, t: Transform.Transform): Mat4
    requires NonZero(t.scale)
  {
    MulMat4(ToMatrix(v), Transform.ToMatrix(t))
  }

  /** A local point of the object drawn through apply_matrix lands where the
      camera puts the point the object's matrix places in the world. */
  lemma ApplyMatrixPoint(v: Pose, t: Transform.Transform, p: Vec2)
    requires NonZero(t.scale)
    ensures TransformPoint2(ApplyMatrix(v, t), p)
         == WorldToScreenCoords(v, TransformPoint2(Transform.ToMatrix(t), p))
  {
    var h := Vec3(p.x, p.y, 0.0);
    var local := Transform.ToMatrix(t);
    MulTransformPoint(ToMatrix(v), local, h);
    var w := TransformPoint3(local, h);
    Transform.ToMatrixKeepsZ(t, h);
    assert w == Vec3(w.x, w.y, 0.0);
  }

  /** The default camera's matrix is the identity. */
  lemma DefaultIsIdentity()
    ensures ToMatrix(DefaultPose()) == Identity4
  {
    var v := DefaultPose();
    RotScaleAboutIdentity(v.rotation, v.scale, Origin);
    EmbedIdentity();
  }

  /** The world point `position` is drawn at the screen anchor `offset`. */
  lemma PositionMapsToOffset(v: Pose)
    ensures WorldToScreenCoords(v, v.position) == v.offset
  {
    assert Sub(v.position, v.position) == Origin;
    assert Mul(Origin, v.scale) == Origin;
  }

  /** The two conversions undo each other, in both orders. */
  lemma RoundTrip(v: Pose, p: Vec2)
    requires NonZero(v.scale)
    ensures WorldToScreenCoords(v, ScreenToWorldCoords(v, p)) == p
    ensures ScreenToWorldCoords(v, WorldToScreenCoords(v, p)) == p
  {
    var b := RotScaleAbout(v.rotation, v.scale, v.position, v.offset);
    RotScaleAboutDet(v.rotation, v.scale, v.position, v.offset);
    var w := WorldToScreenCoords(v, p);
    EmbedApply2(Inverse(b), p);
    EmbedApply2(Inverse(b), w);
    EmbedApply2(b, p);
    EmbedApply2(b, Apply(Inverse(b), p));
    InverseApply(b, p);
  }

  /** The camera after zoom_at_screen_coords(p, f): the world point under p is
      found first; `position` is moved towards it by the factor, and the scale is
      multiplied by the factor. */
  function ZoomAt(v: Pose, p: Vec2, f: Vec2): (r: Pose)
    requires NonZero(v.scale) && NonZero(f)
    ensures NonZero(r.scale)
  {
    var w := ScreenToWorldCoords(v, p);
    NonZeroMul(v.scale, f);
    v.(position := Sub(w, Div(Sub(w, v.position), f)), scale := Mul(v.scale, f))
  }

  lemma NonZeroMul(a: Vec2, b: Vec2)
    requires NonZero(a) && NonZero(b)
    ensures NonZero(Mul(a, b))
  {
  }

  /** Anchored zoom, for any rotation: the world point that was under p before
      the zoom is under p after it. */
  lemma ZoomAtKeepsPoint(v: Pose, p: Vec2, f: Vec2)
    requires NonZero(v.scale) && NonZero(f)
    ensures WorldToScreenCoords(ZoomAt(v, p, f), ScreenToWorldCoords(v, p)) == p
  {
    var w := ScreenToWorldCoords(v, p);
    var z := ZoomAt(v, p, f);
    var d := Sub(w, v.position);
    assert Sub(w, z.position) == Div(d, f);
    var e := Div(d, f);
    CancelFactor(d.x, f.x, v.scale.x, e.x);
    CancelFactor(d.y, f.y, v.scale.y, e.y);
    assert Mul(Sub(w, z.position), z.scale) == Mul(d, v.scale);
    RoundTrip(v, p);
  }

  /** (d / f) (s f) = d s. */
  lemma CancelFactor(d: real, f: real, s: real, e: real)
    requires f != 0.0 && e == d / f
    ensures e * (s * f) == d * s
  {
    assert e * f == d;
    assert e * (s * f) == (e * f) * s;
  }

  /** The zoom changes only the position and the scale: the scale becomes
      scale * f, while the rotation and the screen anchor are kept. */
  lemma ZoomAtKeepsView(v: Pose, p: Vec2, f: Vec2)
    requires NonZero(v.scale) && NonZero(f)
    ensures ZoomAt(v, p, f).scale == Mul(v.scale, f)
    ensures ZoomAt(v, p, f).rotation == v.rotation && ZoomAt(v, p, f).offset == v.offset
  {
  }

  /** The camera after zoom(f): only the scale changes. */
  function Zoomed(v: Pose, f: Vec2): (r: Pose)
    ensures r.scale == Mul(v.scale, f)
    ensures r.offset == v.offset && r.rotation == v.rotation && r.position == v.position
  {
    v.(scale := Mul(v.scale, f))
  }

  /** zoom(f) is the anchored zoom about the screen anchor `offset`: the world
      point under the anchor is `position`, which stays where it is. */
  lemma ZoomIsZoomAtOffset(v: Pose, f: Vec2)
    requires NonZero(v.scale) && NonZero(f)
    ensures Zoomed(v, f) == ZoomAt(v, v.offset, f)
  {
    PositionMapsToOffset(v);
    RoundTrip(v, v.position);
    var w := ScreenToWorldCoords(v, v.offset);
    assert w == v.position;
    assert Sub(w, v.position) == Origin;
    assert Div(Origin, f) == Origin;
  }

  /** A camera anchored at the middle of a 720 x 480 window and looking at the
      world origin: zooming by (2, 2) about the middle of the window leaves the
      position at the origin, doubles the scale, and still draws the origin at
      the middle. */
  lemma CenterZoomScenario()
    ensures var v := Pose(Vec2(360.0, 240.0), Zero, Ones, Origin);
            var z := ZoomAt(v, Vec2(720.0 / 2.0, 480.0 / 2.0), Vec2(2.0, 2.0));
            z.position == Origin && z.scale == Vec2(2.0, 2.0) &&
            WorldToScreenCoords(z, Origin) == Vec2(360.0, 240.0)
  {
    var v := Pose(Vec2(360.0, 240.0), Zero, Ones, Origin);
    assert Vec2(720.0 / 2.0, 480.0 / 2.0) == v.offset;
    ZoomIsZoomAtOffset(v, Vec2(2.0, 2.0));
    PositionMapsToOffset(Zoomed(v, Vec2(2.0, 2.0)));
  }

  /** The camera after move_by_world_coords(d): `position` goes back by d. */
  function MovedByWorld(v: Pose, d: Vec2): (r: Pose)
    ensures Add(r.position, d) == v.position
    ensures r.offset == v.offset && r.rotation == v.rotation && r.scale == v.scale
  {
    v.(position := Sub(v.position, d))
  }

  /** After move_by_world_coords(d), each world point w is drawn where w + d was
      drawn before: the picture moves by -d in world units. */
  lemma MovedByWorldShifts(v: Pose, d: Vec2, w: Vec2)
    ensures WorldToScreenCoords(MovedByWorld(v, d), w) == WorldToScreenCoords(v, Add(w, d))
  {
    assert Sub(w, MovedByWorld(v, d).position) == Sub(Add(w, d), v.position);
  }

  /** The camera after move_by_screen_coords(d): `position` goes back by d
      divided by the scale. */
  function MovedByScreen(v: Pose, d: Vec2): (r: Pose)
    requires NonZero(v.scale)
    ensures Mul(Sub(v.position, r.position), v.scale) == d
    ensures r.offset == v.offset && r.rotation == v.rotation && r.scale == v.scale
  {
    var r := v.(position := Sub(v.position, Div(d, v.scale)));
    assert Sub(v.position, r.position) == Div(d, v.scale);
    r
  }

  /** After move_by_screen_coords(d), every world point is drawn d turned by the
      camera's rotation further along the screen. */
  lemma MovedByScreenShifts(v: Pose, d: Vec2, w: Vec2)
    requires NonZero(v.scale)
    ensures WorldToScreenCoords(MovedByScreen(v, d), w)
         == Add(WorldToScreenCoords(v, w), Rotate(v.rotation, d))
  {
    var m := MovedByScreen(v, d);
    var u := Sub(w, v.position);
    var e := Div(d, v.scale);
    assert Sub(w, m.position) == Add(u, e);
    ScaleAdd(u.x, e.x, v.scale.x, d.x);
    ScaleAdd(u.y, e.y, v.scale.y, d.y);
    assert Mul(Sub(w, m.position), v.scale) == Add(Mul(u, v.scale), d);
    RotateAdd(v.rotation, Mul(u, v.scale), d);
  }

  /** (u + d / s) s = u s + d. */
  lemma ScaleAdd(u: real, e: real, s: real, d: real)
    requires s != 0.0 && e == d / s
    ensures (u + e) * s == u * s + d
  {
    assert e * s == d;
  }

  /** With no rotation, move_by_screen_coords(d) moves every world point by
      exactly d on the screen. */
  lemma MovedByScreenUnrotated(v: Pose, d: Vec2, w: Vec2)
    requires NonZero(v.scale) && v.rotation == Zero
    ensures WorldToScreenCoords(MovedByScreen(v, d), w) == Add(WorldToScreenCoords(v, w), d)
  {
    MovedByScreenShifts(v, d, w);
  }

  /** The camera after rotate(a): the angles add. */
  function Rotated(v: Pose, a: Angle): (r: Pose)
    ensures r.offset == v.offset && r.scale == v.scale && r.position == v.position
  {
    v.(rotation := Sum(v.rotation, a))
  }

  /** rotate(a) turns the whole picture by a about the screen anchor `offset`. */
  lemma RotatedTurnsAboutOffset(v: Pose, a: Angle, w: Vec2)
    ensures WorldToScreenCoords(Rotated(v, a), w)
         == Add(Rotate(a, Sub(WorldToScreenCoords(v, w), v.offset)), v.offset)
  {
    var m := Mul(Sub(w, v.position), v.scale);
    SumCommutes(v.rotation, a);
    RotateSum(a, v.rotation, m);
    assert Sub(WorldToScreenCoords(v, w), v.offset) == Rotate(v.rotation, m);
  }

  /** The camera after set_offset(p): the anchor is p multiplied by the scale,
      not p itself. */
  function WithOffset(v: Pose, p: Vec2): (r: Pose)
    ensures r.offset == Mul(p, v.scale)
    ensures r.rotation == v.rotation && r.scale == v.scale && r.position == v.position
  {
    v.(offset := Mul(p, v.scale))
  }

  /** After set_offset(p), `position` is drawn at p * scale. */
  lemma WithOffsetAnchor(v: Pose, p: Vec2)
    ensures WorldToScreenCoords(WithOffset(v, p), v.position) == Mul(p, v.scale)
  {
    PositionMapsToOffset(WithOffset(v, p));
  }

  /** The camera object, whose fields the mutators update in place. */
  class Camera {
    var offset: Vec2
    var rotation: Angle
    var scale: Vec2
    var position: Vec2

    /** The current value of the camera. */
    function Snapshot(): Pose
      reads this
    {
      Pose(offset, rotation, scale, position)
    }

    /** Camera::default(). */
    constructor Default()
      ensures Snapshot() == DefaultPose()
    {
      offset := Origin;
      rotation := Zero;
      scale := Ones;
      position := Origin;
    }

    /** Camera::new: the four fields as given. */
    constructor New(offset: Vec2, rotation: Angle, scale: Vec2, position: Vec2)
      ensures Snapshot() == Pose(offset, rotation, scale, position)
    {
      this.offset := offset;
      this.rotation := rotation;
      this.scale := scale;
      this.position := position;
    }

    method SetPosition(point: Vec2)
      modifies this
      ensures position == point
      ensures offset == old(offset) && rotation == old(rotation) && scale == old(scale)
    {
      position := position.(x := point.x);
      position := position.(y := point.y);
    }

    method SetOffset(point: Vec2)
      modifies this
      ensures Snapshot() == WithOffset(old(Snapshot()), point)
    {
      offset := offset.(x := point.x * scale.x);
      offset := offset.(y := point.y * scale.y);
    }

    method MoveByWorldCoords(delta: Vec2)
      modifies this
      ensures Snapshot() == MovedByWorld(old(Snapshot()), delta)
    {
      position := position.(x := position.x - delta.x);
      position := position.(y := position.y - delta.y);
    }

    method MoveByScreenCoords(delta: Vec2)
      requires NonZero(scale)
      modifies this
      ensures Snapshot() == MovedByScreen(old(Snapshot()), delta)
    {
      position := position.(x := position.x - delta.x / scale.x);
      position := position.(y := position.y - delta.y / scale.y);
    }

    method GetZoom() returns (z: Vec2)
      ensures z == scale
    {
      z := scale;
    }

    method SetZoom(z: Vec2)
      modifies this
      ensures scale == z
      ensures offset == old(offset) && rotation == old(rotation) && position == old(position)
    {
      scale := z;
    }

    method Zoom(factor: Vec2)
      modifies this
      ensures Snapshot() == Zoomed(old(Snapshot()), factor)
    {
      scale := scale.(x := scale.x * factor.x);
      scale := scale.(y := scale.y * factor.y);
    }

    /** zoom_center, with the drawable size of the window as a parameter: the
        anchored zoom about the middle of the window. */
    method ZoomCenter(size: Vec2, factor: Vec2)
      requires NonZero(scale) && NonZero(factor)
      modifies this
      ensures Snapshot() == ZoomAt(old(Snapshot()), Vec2(size.x / 2.0, size.y / 2.0), factor)
    {
      var center := Vec2(size.x / 2.0, size.y / 2.0);
      ZoomAtScreenCoords(center, factor);
    }

    /** zoom_at_screen_coords: the world point under `point` stays under it. */
    method ZoomAtScreenCoords(point: Vec2, factor: Vec2)
      requires NonZero(scale) && NonZero(factor)
      modifies this
      ensures Snapshot() == ZoomAt(old(Snapshot()), point, factor)
      ensures scale == Mul(old(scale), factor)
      ensures rotation == old(rotation) && offset == old(offset)
    {
      var v := Snapshot();
      var worldCenter := ScreenToWorldCoords(v, point);
      var shift := Div(Sub(worldCenter, position), factor);
      assert shift.x == (worldCenter.x - position.x) / factor.x;
      assert shift.y == (worldCenter.y - position.y) / factor.y;
      position := position.(x := worldCenter.x - (worldCenter.x - position.x) / factor.x);
      position := position.(y := worldCenter.y - (worldCenter.y - position.y) / factor.y);
      scale := scale.(x := scale.x * factor.x);
      scale := scale.(y := scale.y * factor.y);
      assert position == Vec2(worldCenter.x - shift.x, worldCenter.y - shift.y);
    }

    method Rotate(angle: Angle)
      modifies this
      ensures Snapshot() == Rotated(old(Snapshot()), angle)
    {
      rotation := Sum(rotation, angle);
    }

    method SetRotation(angle: Angle)
      modifies this
      ensures rotation == angle
      ensures offset == old(offset) && scale == old(scale) && position == old(position)
    {
      rotation := angle;
    }
  }
}
