/** The 2D affine algebra shared by the camera and the object transform: points,
    angles given by their sine/cosine pair, 2x3 affine blocks, and the 4x4
    homogeneous matrices (glam's Mat4) they are embedded in. All arithmetic is
    over the reals; the source computes in f32.

    Each polynomial identity is proved once, over plain reals, by a lemma whose
    parameters are the terms that occur in the statement it serves; the lemmas on
    points and matrices instantiate them. */
module Geometry {

  /** A 2D point or vector (mint's Point2<f32> and Vector2<f32>). */
  datatype Vec2 = Vec2(x: real, y: real)

  const Origin: Vec2 := Vec2(0.0, 0.0)
  const Ones: Vec2 := Vec2(1.0, 1.0)

  function Add(a: Vec2, b: Vec2): Vec2 { Vec2(a.x + b.x, a.y + b.y) }
  function Sub(a: Vec2, b: Vec2): Vec2 { Vec2(a.x - b.x, a.y - b.y) }

  /** Componentwise product, as the source multiplies a point by a scale. */
  function Mul(a: Vec2, b: Vec2): Vec2 { Vec2(a.x * b.x, a.y * b.y) }

  /** Both components non-zero: what every division by a scale or factor needs. */
  predicate NonZero(v: Vec2) { v.x != 0.0 && v.y != 0.0 }

  /** Componentwise quotient; multiplying back by b gives a. */
  function Div(a: Vec2, b: Vec2): (r: Vec2)
    requires NonZero(b)
    ensures Mul(r, b) == a
  {
    Vec2(a.x / b.x, a.y / b.y)
  }

  /** The pair that f32::sin_cos returns for an angle. */
  datatype SinCos = SinCos(sin: real, cos: real)

  /** An angle, represented by its sine and cosine, which lie on the unit circle. */
  type Angle = a: SinCos | a.sin * a.sin + a.cos * a.cos == 1.0 witness SinCos(0.0, 1.0)

  /** The angle 0: sin 0 = 0, cos 0 = 1. */
  const Zero: Angle := SinCos(0.0, 1.0)

  /** The angle-sum formulas for sine and cosine. */
  function SumPair(a: SinCos, b: SinCos): SinCos
  {
    SinCos(a.sin * b.cos + a.cos * b.sin, a.cos * b.cos - a.sin * b.sin)
  }

  /** The angle a + b; the formulas keep it on the unit circle. */
  function Sum(a: Angle, b: Angle): Angle
  {
    var r := SumPair(a, b);
    SumOnCircle(a.sin, a.cos, b.sin, b.cos, r.sin, r.cos);
    r
  }

  lemma SumOnCircle(sa: real, ca: real, sb: real, cb: real, s: real, c: real)
    requires sa * sa + ca * ca == 1.0 && sb * sb + cb * cb == 1.0
    requires s == sa * cb + ca * sb && c == ca * cb - sa * sb
    ensures s * s + c * c == 1.0
  {
    assert s * s + c * c == (sa * sa + ca * ca) * (sb * sb + cb * cb);
  }

  /** The angle -a. */
  function Neg(a: Angle): Angle { SinCos(-a.sin, a.cos) }

  /** Counter-clockwise rotation of v by the angle a. */
  function Rotate(a: SinCos, v: Vec2): Vec2
  {
    Vec2(a.cos * v.x - a.sin * v.y, a.sin * v.x + a.cos * v.y)
  }

  /** Rotating by a sum is rotating by each summand in turn. */
  lemma RotateSum(a: SinCos, b: SinCos, v: Vec2)
    ensures Rotate(SumPair(a, b), v) == Rotate(a, Rotate(b, v))
  {
    SumRowX(a.sin, a.cos, b.sin, b.cos, v.x, v.y);
    SumRowY(a.sin, a.cos, b.sin, b.cos, v.x, v.y);
  }

  lemma SumRowX(sa: real, ca: real, sb: real, cb: real, x: real, y: real)
    ensures (ca * cb - sa * sb) * x - (sa * cb + ca * sb) * y
         == ca * (cb * x - sb * y) - sa * (sb * x + cb * y)
  {
  }

  lemma SumRowY(sa: real, ca: real, sb: real, cb: real, x: real, y: real)
    ensures (sa * cb + ca * sb) * x + (ca * cb - sa * sb) * y
         == sa * (cb * x - sb * y) + ca * (sb * x + cb * y)
  {
  }

  /** Rotating by -a undoes rotating by a, and the other way round. */
  lemma RotateNeg(a: Angle, v: Vec2)
    ensures Rotate(Neg(a), Rotate(a, v)) == v
    ensures Rotate(a, Rotate(Neg(a), v)) == v
  {
    var n, w, u := Neg(a), Rotate(a, v), Rotate(Neg(a), v);
    NegRows(a.sin, a.cos, n.sin, v.x, v.y, w.x, w.y);
    NegRows(n.sin, a.cos, a.sin, v.x, v.y, u.x, u.y);
  }

  /** Rotating (x, y) by (s, c) into (wx, wy) and then by (t, c) with t = -s
      gives (x, y) back, since s^2 + c^2 = 1. */
  lemma NegRows(s: real, c: real, t: real, x: real, y: real, wx: real, wy: real)
    requires s * s + c * c == 1.0 && t == -s
    requires wx == c * x - s * y && wy == s * x + c * y
    ensures c * wx - t * wy == x && t * wx + c * wy == y
  {
    assert c * wx - t * wy == (s * s + c * c) * x;
    assert t * wx + c * wy == (s * s + c * c) * y;
  }

  /** Rotation is linear. */
  lemma RotateSub(a: SinCos, u: Vec2, v: Vec2)
    ensures Rotate(a, Sub(u, v)) == Sub(Rotate(a, u), Rotate(a, v))
  {
    var d := Sub(u, v);
    DiffRows(a.sin, a.cos, u.x, u.y, v.x, v.y, d.x, d.y);
  }

  lemma RotateAdd(a: SinCos, u: Vec2, v: Vec2)
    ensures Rotate(a, Add(u, v)) == Add(Rotate(a, u), Rotate(a, v))
  {
    var d := Add(u, v);
    SumRowsLinear(a.sin, a.cos, u.x, u.y, v.x, v.y, d.x, d.y);
  }

  lemma DiffRows(s: real, c: real, ux: real, uy: real, vx: real, vy: real, dx: real, dy: real)
    requires dx == ux - vx && dy == uy - vy
    ensures c * dx - s * dy == (c * ux - s * uy) - (c * vx - s * vy)
    ensures s * dx + c * dy == (s * ux + c * uy) - (s * vx + c * vy)
  {
  }

  lemma SumRowsLinear(s: real, c: real, ux: real, uy: real, vx: real, vy: real, dx: real, dy: real)
    requires dx == ux + vx && dy == uy + vy
    ensures c * dx - s * dy == (c * ux - s * uy) + (c * vx - s * vy)
    ensures s * dx + c * dy == (s * ux + c * uy) + (s * vx + c * vy)
  {
  }

  /** Angle addition is commutative. */
  lemma SumCommutes(a: Angle, b: Angle)
    ensures Sum(a, b) == Sum(b, a)
  {
    SumCommutesReal(a.sin, a.cos, b.sin, b.cos);
  }

  lemma SumCommutesReal(sa: real, ca: real, sb: real, cb: real)
    ensures sa * cb + ca * sb == sb * ca + cb * sa && ca * cb - sa * sb == cb * ca - sb * sa
  {
  }

  /** A 2D affine map p |-> L p + t, written with the entry names the source uses:
      row 0 is (m00, m01 | m03), row 1 is (m10, m11 | m13). */
  datatype Affine = Affine(m00: real, m01: real, m03: real, m10: real, m11: real, m13: real)

  const Identity: Affine := Affine(1.0, 0.0, 0.0, 0.0, 1.0, 0.0)

  function Apply(m: Affine, p: Vec2): Vec2
  {
    Vec2(m.m00 * p.x + m.m01 * p.y + m.m03, m.m10 * p.x + m.m11 * p.y + m.m13)
  }

  /** The affine map that applies b first, then a. */
  function Compose(a: Affine, b: Affine): Affine
  {
    Affine(a.m00 * b.m00 + a.m01 * b.m10, a.m00 * b.m01 + a.m01 * b.m11,
           a.m00 * b.m03 + a.m01 * b.m13 + a.m03,
           a.m10 * b.m00 + a.m11 * b.m10, a.m10 * b.m01 + a.m11 * b.m11,
           a.m10 * b.m03 + a.m11 * b.m13 + a.m13)
  }

  lemma ApplyCompose(a: Affine, b: Affine, p: Vec2)
    ensures Apply(Compose(a, b), p) == Apply(a, Apply(b, p))
  {
    ApplyComposeX(a, b, p);
    ApplyComposeY(a, b, p);
  }

  lemma ApplyComposeX(a: Affine, b: Affine, p: Vec2)
    ensures Apply(Compose(a, b), p).x == Apply(a, Apply(b, p)).x
  {
  }

  lemma ApplyComposeY(a: Affine, b: Affine, p: Vec2)
    ensures Apply(Compose(a, b), p).y == Apply(a, Apply(b, p)).y
  {
  }

  /** Determinant of the linear part. */
  function Det(m: Affine): real { m.m00 * m.m11 - m.m01 * m.m10 }

  /** The inverse of m computed with k, the reciprocal of its determinant. */
  function InverseWith(m: Affine, k: real): Affine
  {
    Affine(k * m.m11, -k * m.m01, k * (m.m01 * m.m13 - m.m11 * m.m03),
           -k * m.m10, k * m.m00, k * (m.m10 * m.m03 - m.m00 * m.m13))
  }

  lemma InverseWithLeft(m: Affine, k: real)
    requires k * Det(m) == 1.0
    ensures Compose(InverseWith(m, k), m) == Identity
  {
    var a, b, c, d, tx, ty := m.m00, m.m01, m.m10, m.m11, m.m03, m.m13;
    assert k * d * a + -k * b * c == 1.0;
    assert k * d * b + -k * b * d == 0.0;
    assert k * d * tx + -k * b * ty + k * (b * ty - d * tx) == 0.0;
    assert -k * c * a + k * a * c == 0.0;
    assert -k * c * b + k * a * d == 1.0;
    assert -k * c * tx + k * a * ty + k * (c * tx - a * ty) == 0.0;
  }

  lemma InverseWithRight(m: Affine, k: real)
    requires k * Det(m) == 1.0
    ensures Compose(m, InverseWith(m, k)) == Identity
  {
    var a, b, c, d, tx, ty := m.m00, m.m01, m.m10, m.m11, m.m03, m.m13;
    assert a * (k * d) + b * (-k * c) == 1.0;
    assert a * (-k * b) + b * (k * a) == 0.0;
    assert a * (k * (b * ty - d * tx)) + b * (k * (c * tx - a * ty)) + tx == 0.0;
    assert c * (k * d) + d * (-k * c) == 0.0;
    assert c * (-k * b) + d * (k * a) == 1.0;
    assert c * (k * (b * ty - d * tx)) + d * (k * (c * tx - a * ty)) + ty == 0.0;
  }

  /** The inverse affine map; it exists exactly when the determinant is non-zero. */
  function Inverse(m: Affine): (r: Affine)
    requires Det(m) != 0.0
    ensures Compose(r, m) == Identity && Compose(m, r) == Identity
  {
    var k := 1.0 / Det(m);
    InverseWithLeft(m, k);
    InverseWithRight(m, k);
    InverseWith(m, k)
  }

  /** Applying m and then its inverse gives back the point, and the other way round. */
  lemma InverseApply(m: Affine, p: Vec2)
    requires Det(m) != 0.0
    ensures Apply(Inverse(m), Apply(m, p)) == p
    ensures Apply(m, Apply(Inverse(m), p)) == p
  {
    ApplyCompose(Inverse(m), m, p);
    ApplyCompose(m, Inverse(m), p);
  }

  /** The map that scales componentwise by s, rotates by a, and is translated so
      that the point `from` lands on `to`: p |-> R(a) ((p - from) * s) + to.
      The entries are computed as both the camera and the object transform compute
      them: the linear block first, then the translation column from it. */
  function RotScaleAbout(a: SinCos, s: Vec2, from: Vec2, to: Vec2): Affine
  {
    var m00 := a.cos * s.x;
    var m01 := -a.sin * s.y;
    var m10 := a.sin * s.x;
    var m11 := a.cos * s.y;
    var m03 := from.x * (-m00) - from.y * m01 + to.x;
    var m13 := from.y * (-m11) - from.x * m10 + to.y;
    Affine(m00, m01, m03, m10, m11, m13)
  }

  lemma RotScaleAboutApply(a: SinCos, s: Vec2, from: Vec2, to: Vec2, p: Vec2)
    ensures Apply(RotScaleAbout(a, s, from, to), p) == Add(Rotate(a, Mul(Sub(p, from), s)), to)
  {
    RotScaleAboutApplyX(a, s, from, to, p);
    RotScaleAboutApplyY(a, s, from, to, p);
  }

  lemma RotScaleAboutApplyX(a: SinCos, s: Vec2, from: Vec2, to: Vec2, p: Vec2)
    ensures Apply(RotScaleAbout(a, s, from, to), p).x == Add(Rotate(a, Mul(Sub(p, from), s)), to).x
  {
    AnchorRowX(a.sin, a.cos, s.x, s.y, from.x, from.y, to.x, p.x, p.y);
  }

  lemma RotScaleAboutApplyY(a: SinCos, s: Vec2, from: Vec2, to: Vec2, p: Vec2)
    ensures Apply(RotScaleAbout(a, s, from, to), p).y == Add(Rotate(a, Mul(Sub(p, from), s)), to).y
  {
    AnchorRowY(a.sin, a.cos, s.x, s.y, from.x, from.y, to.y, p.x, p.y);
  }

  /** RotScaleAboutApply over reals, first row: the entries of RotScaleAbout
      applied to p give the rotation by (sn, c) of the scaled difference
      (p - from) * (sx, sy), shifted by `to`. */
  lemma AnchorRowX(sn: real, c: real, sx: real, sy: real, fx: real, fy: real, tx: real,
                   px: real, py: real)
    ensures (c * sx) * px + (-sn * sy) * py + (fx * (-(c * sx)) - fy * (-sn * sy) + tx)
         == (c * ((px - fx) * sx) - sn * ((py - fy) * sy)) + tx
  {
  }

  /** The second row, as AnchorRowX. */
  lemma AnchorRowY(sn: real, c: real, sx: real, sy: real, fx: real, fy: real, ty: real,
                   px: real, py: real)
    ensures (sn * sx) * px + (c * sy) * py + (fy * (-(c * sy)) - fx * (sn * sx) + ty)
         == (sn * ((px - fx) * sx) + c * ((py - fy) * sy)) + ty
  {
  }

  /** No rotation, unit scale and equal anchors give the identity map. */
  lemma RotScaleAboutIdentity(a: SinCos, s: Vec2, from: Vec2)
    requires a.sin == 0.0 && a.cos == 1.0 && s == Ones
    ensures RotScaleAbout(a, s, from, from) == Identity
  {
  }

  /** The determinant of R(a) diag(s) is s.x * s.y, so the map is invertible
      exactly when both scale components are non-zero. */
  lemma RotScaleAboutDet(a: Angle, s: Vec2, from: Vec2, to: Vec2)
    ensures Det(RotScaleAbout(a, s, from, to)) == s.x * s.y
    ensures Det(RotScaleAbout(a, s, from, to)) != 0.0 <==> NonZero(s)
  {
    var m := RotScaleAbout(a, s, from, to);
    DetRows(a.sin, a.cos, s.x, s.y, m.m00, m.m01, m.m10, m.m11);
  }

  lemma DetRows(s: real, c: real, sx: real, sy: real, m00: real, m01: real, m10: real, m11: real)
    requires s * s + c * c == 1.0
    requires m00 == c * sx && m01 == -s * sy && m10 == s * sx && m11 == c * sy
    ensures m00 * m11 - m01 * m10 == sx * sy
  {
    assert m00 * m11 - m01 * m10 == (s * s + c * c) * (sx * sy);
  }

  /** glam's Vec3 and Vec4. */
  datatype Vec3 = Vec3(x: real, y: real, z: real)
  datatype Vec4 = Vec4(x: real, y: real, z: real, w: real)

  /** A 4x4 matrix given by its rows, in the order the source writes the entries
      before it transposes them into glam's column-major storage. */
  datatype Mat4 = Mat4(r0: Vec4, r1: Vec4, r2: Vec4, r3: Vec4)

  const Identity4: Mat4 :=
    Mat4(Vec4(1.0, 0.0, 0.0, 0.0), Vec4(0.0, 1.0, 0.0, 0.0),
         Vec4(0.0, 0.0, 1.0, 0.0), Vec4(0.0, 0.0, 0.0, 1.0))

  function Dot(a: Vec4, b: Vec4): real { a.x * b.x + a.y * b.y + a.z * b.z + a.w * b.w }

  /** Row r times each column of b. */
  function RowTimes(r: Vec4, b: Mat4): Vec4
  {
    Vec4(r.x * b.r0.x + r.y * b.r1.x + r.z * b.r2.x + r.w * b.r3.x,
         r.x * b.r0.y + r.y * b.r1.y + r.z * b.r2.y + r.w * b.r3.y,
         r.x * b.r0.z + r.y * b.r1.z + r.z * b.r2.z + r.w * b.r3.z,
         r.x * b.r0.w + r.y * b.r1.w + r.z * b.r2.w + r.w * b.r3.w)
  }

  /** The matrix product a * b (glam's mul_mat4). */
  function MulMat4(a: Mat4, b: Mat4): Mat4
  {
    Mat4(RowTimes(a.r0, b), RowTimes(a.r1, b), RowTimes(a.r2, b), RowTimes(a.r3, b))
  }

  /** glam's transform_point3: the point (x, y, z, 1) through the first three rows,
      with no division by w. */
  function TransformPoint3(m: Mat4, p: Vec3): Vec3
  {
    var h := Vec4(p.x, p.y, p.z, 1.0);
    Vec3(Dot(m.r0, h), Dot(m.r1, h), Dot(m.r2, h))
  }

  /** The (x, y) of the image of the point (p.x, p.y, 0), as the source turns a
      Point2 into a Vec3 with z = 0 and back. */
  function TransformPoint2(m: Mat4, p: Vec2): Vec2
  {
    var q := TransformPoint3(m, Vec3(p.x, p.y, 0.0));
    Vec2(q.x, q.y)
  }

  /** The last row is (0, 0, 0, 1): the matrix is affine. */
  predicate AffineRow(m: Mat4) { m.r3 == Vec4(0.0, 0.0, 0.0, 1.0) }

  /** A purely planar transform: the z row and column and the w row are those of
      the identity, so z passes through and the translation has no z part. */
  predicate Planar(m: Mat4)
  {
    AffineRow(m) && m.r2 == Vec4(0.0, 0.0, 1.0, 0.0) && m.r0.z == 0.0 && m.r1.z == 0.0
  }

  /** The 4x4 homogeneous form of a 2D affine map. */
  function Embed(a: Affine): (m: Mat4)
    ensures Planar(m)
  {
    Mat4(Vec4(a.m00, a.m01, 0.0, a.m03), Vec4(a.m10, a.m11, 0.0, a.m13),
         Vec4(0.0, 0.0, 1.0, 0.0), Vec4(0.0, 0.0, 0.0, 1.0))
  }

  /** The embedding acts on (x, y) as the affine map does and passes z through. */
  lemma EmbedApply(a: Affine, p: Vec3)
    ensures TransformPoint3(Embed(a), p)
         == Vec3(Apply(a, Vec2(p.x, p.y)).x, Apply(a, Vec2(p.x, p.y)).y, p.z)
  {
  }

  lemma EmbedApply2(a: Affine, p: Vec2)
    ensures TransformPoint2(Embed(a), p) == Apply(a, p)
  {
    EmbedApply(a, Vec3(p.x, p.y, 0.0));
  }

  /** The 2x3 affine block of a 4x4 matrix. */
  function Block(m: Mat4): Affine
  {
    Affine(m.r0.x, m.r0.y, m.r0.w, m.r1.x, m.r1.y, m.r1.w)
  }

  lemma BlockEmbed(a: Affine)
    ensures Block(Embed(a)) == a
  {
  }

  lemma EmbedIdentity()
    ensures Embed(Identity) == Identity4
  {
  }

  /** A row times a planar matrix: only the x and y rows of the matrix mix. */
  lemma RowTimesPlanar(r: Vec4, b: Mat4)
    requires Planar(b)
    ensures RowTimes(r, b) == Vec4(r.x * b.r0.x + r.y * b.r1.x, r.x * b.r0.y + r.y * b.r1.y, r.z,
                                   r.x * b.r0.w + r.y * b.r1.w + r.w)
  {
    PlanarRowReal(r.x, r.y, r.z, r.w, b.r0.x, b.r0.y, b.r0.z, b.r0.w, b.r1.x, b.r1.y, b.r1.z, b.r1.w,
                  b.r2.x, b.r2.y, b.r2.z, b.r2.w, b.r3.x, b.r3.y, b.r3.z, b.r3.w);
  }

  lemma PlanarRowReal(rx: real, ry: real, rz: real, rw: real,
                      e00: real, e01: real, e02: real, e03: real,
                      e10: real, e11: real, e12: real, e13: real,
                      e20: real, e21: real, e22: real, e23: real,
                      e30: real, e31: real, e32: real, e33: real)
    requires e02 == 0.0 && e12 == 0.0
    requires e20 == 0.0 && e21 == 0.0 && e22 == 1.0 && e23 == 0.0
    requires e30 == 0.0 && e31 == 0.0 && e32 == 0.0 && e33 == 1.0
    ensures rx * e00 + ry * e10 + rz * e20 + rw * e30 == rx * e00 + ry * e10
    ensures rx * e01 + ry * e11 + rz * e21 + rw * e31 == rx * e01 + ry * e11
    ensures rx * e02 + ry * e12 + rz * e22 + rw * e32 == rz
    ensures rx * e03 + ry * e13 + rz * e23 + rw * e33 == rx * e03 + ry * e13 + rw
  {
  }

  /** The embedding of the inverse undoes the embedding at every point of space,
      and the other way round: it is the inverse of the camera matrix that glam's
      inverse() computes. */
  lemma EmbedInverse(a: Affine, p: Vec3)
    requires Det(a) != 0.0
    ensures TransformPoint3(Embed(Inverse(a)), TransformPoint3(Embed(a), p)) == p
    ensures TransformPoint3(Embed(a), TransformPoint3(Embed(Inverse(a)), p)) == p
  {
    var q := Vec2(p.x, p.y);
    EmbedApply(a, p);
    EmbedApply(Inverse(a), p);
    EmbedApply(Inverse(a), TransformPoint3(Embed(a), p));
    EmbedApply(a, TransformPoint3(Embed(Inverse(a)), p));
    InverseApply(a, q);
  }

  /** Transforming by a product of matrices is transforming by each in turn, when
      the inner matrix is planar, as every local matrix here is. */
  lemma MulTransformPoint(a: Mat4, b: Mat4, p: Vec3)
    requires Planar(b)
    ensures TransformPoint3(MulMat4(a, b), p) == TransformPoint3(a, TransformPoint3(b, p))
  {
    var q := TransformPoint3(b, p);
    PlanarColumn(b, p);
    PlanarPoint(a.r0, b, p);
    PlanarPoint(a.r1, b, p);
    PlanarPoint(a.r2, b, p);
  }

  /** A planar matrix sends (x, y, z, 1) to (x', y', z, 1). */
  lemma PlanarColumn(b: Mat4, p: Vec3)
    requires Planar(b)
    ensures TransformPoint3(b, p).z == p.z
    ensures TransformPoint3(b, p).x == b.r0.x * p.x + b.r0.y * p.y + b.r0.w
    ensures TransformPoint3(b, p).y == b.r1.x * p.x + b.r1.y * p.y + b.r1.w
  {
    DotPlanarReal(b.r0.x, b.r0.y, b.r0.z, b.r0.w, p.x, p.y, p.z, 1.0);
    DotPlanarReal(b.r1.x, b.r1.y, b.r1.z, b.r1.w, p.x, p.y, p.z, 1.0);
    DotUnitReal(b.r2.x, b.r2.y, b.r2.z, b.r2.w, p.x, p.y, p.z, 1.0);
  }

  lemma DotPlanarReal(e0: real, e1: real, e2: real, e3: real, x: real, y: real, z: real, w: real)
    requires e2 == 0.0 && w == 1.0
    ensures e0 * x + e1 * y + e2 * z + e3 * w == e0 * x + e1 * y + e3
  {
  }

  lemma DotUnitReal(e0: real, e1: real, e2: real, e3: real, x: real, y: real, z: real, w: real)
    requires e0 == 0.0 && e1 == 0.0 && e2 == 1.0 && e3 == 0.0
    ensures e0 * x + e1 * y + e2 * z + e3 * w == z
  {
  }

  /** (r b) h == r (b h), for a row r and a planar b. */
  lemma PlanarPoint(r: Vec4, b: Mat4, p: Vec3)
    requires Planar(b)
    ensures Dot(RowTimes(r, b), Vec4(p.x, p.y, p.z, 1.0))
         == Dot(r, Vec4(TransformPoint3(b, p).x, TransformPoint3(b, p).y, p.z, 1.0))
  {
    var c := RowTimes(r, b);
    var q := TransformPoint3(b, p);
    PlanarColumn(b, p);
    RowTimesPlanar(r, b);
    PointReal(r.x, r.y, r.z, r.w, b.r0.x, b.r0.y, b.r0.w, b.r1.x, b.r1.y, b.r1.w,
              p.x, p.y, p.z, c.x, c.y, c.w, q.x, q.y);
  }

  /** PlanarPoint over reals: c is the row (r0, r1, r2, r3) times the planar
      matrix with rows (a, b, 0, t), (d, e, 0, u); q is that matrix applied to (x, y). */
  lemma PointReal(r0: real, r1: real, r2: real, r3: real,
                  a: real, b: real, t: real, d: real, e: real, u: real,
                  x: real, y: real, z: real, c0: real, c1: real, c3: real, qx: real, qy: real)
    requires c0 == r0 * a + r1 * d && c1 == r0 * b + r1 * e && c3 == r0 * t + r1 * u + r3
    requires qx == a * x + b * y + t && qy == d * x + e * y + u
    ensures c0 * x + c1 * y + r2 * z + c3 * 1.0 == r0 * qx + r1 * qy + r2 * z + r3 * 1.0
  {
  }
}
