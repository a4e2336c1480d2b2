/** An object's local pose (src/transform.rs): where it is placed in its parent's
    space, how it is rotated and scaled, and the pivot it is rotated and scaled
    about. Everything here computes values; nothing is updated in place. */
module Transform {
  import opened Geometry

  /** The Transform struct: `dest` in parent space, `rotation`, `scale`, and the
      pivot `offset`, given in unscaled local units. */
  datatype Transform = Transform(dest: Vec2, rotation: Angle, scale: Vec2, offset: Vec2)

  /** ggez's graphics::Transform, the type the conversion reads. */
  datatype GraphicsTransform =
    | Values(dest: Vec2, rotation: Angle, scale: Vec2, offset: Vec2)
    | Matrix(m: Mat4)

  /** The outcome of a conversion that may panic. */
  datatype Conversion = Converted(value: Transform) | Panicked(message: string)

  /** The default transform: no translation, no rotation, unit scale, pivot at the origin. */
  function Default(): (t: Transform)
    ensures NonZero(t.scale)
  {
    Transform(Origin, Zero, Ones, Origin)
  }

  /** The pivot divided componentwise by the scale. */
  function ScaledPivot(t: Transform): Vec2
    requires NonZero(t.scale)
  {
    Div(t.offset, t.scale)
  }

  /** The local-to-parent matrix. The pivot is first divided by the scale; the
      linear block is R(rotation) diag(scale); the translation sends the divided
      pivot to `dest`. The source never checks the scale, so a zero component is
      excluded by the precondition. */
  function ToMatrix(t: Transform): (m: Mat4)
    requires NonZero(t.scale)
    ensures Planar(m)
  {
    Embed(RotScaleAbout(t.rotation, t.scale, ScaledPivot(t), t.dest))
  }

  /** What the matrix does to a local point p (with z = 0): scale it about the
      divided pivot, rotate it, and place it relative to `dest`. */
  lemma ToMatrixMaps(t: Transform, p: Vec2)
    requires NonZero(t.scale)
    ensures TransformPoint2(ToMatrix(t), p)
         == Add(Rotate(t.rotation, Mul(Sub(p, Div(t.offset, t.scale)), t.scale)), t.dest)
  {
    RotScaleAboutApply(t.rotation, t.scale, ScaledPivot(t), t.dest, p);
  }

  /** z and the homogeneous w pass through the local matrix unchanged. */
  lemma ToMatrixKeepsZ(t: Transform, p: Vec3)
    requires NonZero(t.scale)
    ensures TransformPoint3(ToMatrix(t), p).z == p.z
  {
  }

  /** The default transform gives the identity matrix. */
  lemma DefaultIsIdentity()
    ensures ToMatrix(Default()) == Identity4
  {
    var t := Default();
    assert ScaledPivot(t) == Origin;
    RotScaleAboutIdentity(t.rotation, t.scale, Origin);
    EmbedIdentity();
  }

  /** The divided pivot is the local point that lands on `dest`. */
  lemma PivotMapsToDest(t: Transform)
    requires NonZero(t.scale)
    ensures TransformPoint2(ToMatrix(t), ScaledPivot(t)) == t.dest
  {
    ToMatrixMaps(t, ScaledPivot(t));
  }

  /** With the pivot at the origin, the local origin lands on `dest`
      (dest (100, 100) draws the object's origin at (100, 100)). */
  lemma ZeroPivotOriginToDest(t: Transform)
    requires NonZero(t.scale) && t.offset == Origin
    ensures TransformPoint2(ToMatrix(t), Origin) == t.dest
  {
    assert ScaledPivot(t) == Origin;
    PivotMapsToDest(t);
  }

  /** The translation column is dest - R(rotation) offset: the scale cancels out,
      so the pivot is a point of the unscaled object. */
  lemma TranslationColumn(t: Transform)
    requires NonZero(t.scale)
    ensures Vec2(ToMatrix(t).r0.w, ToMatrix(t).r1.w) == Sub(t.dest, Rotate(t.rotation, t.offset))
  {
    var a, s := t.rotation, t.scale;
    TranslationRowX(a.sin, a.cos, s.x, s.y, t.offset.x, t.offset.y, t.dest.x);
    TranslationRowY(a.sin, a.cos, s.x, s.y, t.offset.x, t.offset.y, t.dest.y);
  }

  /** The first entry of the translation column: the divided pivot times the
      linear block gives back the rotated pivot. */
  lemma TranslationRowX(sn: real, c: real, sx: real, sy: real, ox: real, oy: real, tx: real)
    requires sx != 0.0 && sy != 0.0
    ensures (ox / sx) * (-(c * sx)) - (oy / sy) * (-sn * sy) + tx == tx - (c * ox - sn * oy)
  {
    assert (ox / sx) * sx == ox && (oy / sy) * sy == oy;
  }

  /** The second entry, as TranslationRowX. */
  lemma TranslationRowY(sn: real, c: real, sx: real, sy: real, ox: real, oy: real, ty: real)
    requires sx != 0.0 && sy != 0.0
    ensures (oy / sy) * (-(c * sy)) - (ox / sx) * (sn * sx) + ty == ty - (sn * ox + c * oy)
  {
    assert (ox / sx) * sx == ox && (oy / sy) * sy == oy;
  }

  /** The linear block is R(rotation) diag(scale); its determinant is
      scale.x * scale.y, so it is invertible exactly when both are non-zero. */
  lemma LinearBlockDet(t: Transform)
    requires NonZero(t.scale)
    ensures Det(Block(ToMatrix(t))) == t.scale.x * t.scale.y != 0.0
  {
    var b := RotScaleAbout(t.rotation, t.scale, ScaledPivot(t), t.dest);
    BlockEmbed(b);
    RotScaleAboutDet(t.rotation, t.scale, ScaledPivot(t), t.dest);
  }

  /** The matrix that carries the object's local points into the parent's
      screen or world: parent * local. */
  function ApplyMatrix(t: Transform, parent: Mat4): Mat4
    requires NonZero(t.scale)
  {
    MulMat4(parent, ToMatrix(t))
  }

  /** A local point goes through the local matrix first, then the parent's. */
  lemma ApplyMatrixPoint(t: Transform, parent: Mat4, p: Vec3)
    requires NonZero(t.scale)
    ensures TransformPoint3(ApplyMatrix(t, parent), p)
         == TransformPoint3(parent, TransformPoint3(ToMatrix(t), p))
  {
    MulTransformPoint(parent, ToMatrix(t), p);
  }

  /** From<graphics::Transform>: the Values variant is copied field by field; the
      Matrix variant panics, which is the Panicked outcome here. */
  function FromGraphics(g: GraphicsTransform): (r: Conversion)
    ensures r.Converted? <==> g.Values?
    ensures r.Converted? ==>
              r.value.dest == g.dest && r.value.rotation == g.rotation &&
              r.value.scale == g.scale && r.value.offset == g.offset
  {
    match g
    case Values(dest, rotation, scale, offset) => Converted(Transform(dest, rotation, scale, offset))
    case Matrix(_) => Panicked("Cannot convert ggez::Transform to crate::Transform")
  }
}
