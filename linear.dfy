/** The part of glm that the mesh code relies on: four-component vectors and
    column-major 4x4 matrices over the reals, with `translate`, `rotate` by a
    quarter or half turn, matrix products and matrix-vector products. */
module Linear {

  datatype Vec4 = Vec4(x: real, y: real, z: real, w: real)

  /** A matrix stored by columns, as glm stores `mat4x4`. */
  datatype Mat4 = Mat4(c0: Vec4, c1: Vec4, c2: Vec4, c3: Vec4)

  function Scale(v: Vec4, k: real): Vec4
  {
    Vec4(v.x * k, v.y * k, v.z * k, v.w * k)
  }

  function Add(a: Vec4, b: Vec4): Vec4
  {
    Vec4(a.x + b.x, a.y + b.y, a.z + b.z, a.w + b.w)
  }

  /** `m * v` */
  function Apply(m: Mat4, v: Vec4): Vec4
  {
    Add(Add(Scale(m.c0, v.x), Scale(m.c1, v.y)), Add(Scale(m.c2, v.z), Scale(m.c3, v.w)))
  }

  /** `a * b`: column i of the product is `a` applied to column i of `b`. */
  function Mul(a: Mat4, b: Mat4): Mat4
  {
    Mat4(Apply(a, b.c0), Apply(a, b.c1), Apply(a, b.c2), Apply(a, b.c3))
  }

  /** `glm::mat4x4(1.f)` */
  const Identity: Mat4 :=
    Mat4(Vec4(1.0, 0.0, 0.0, 0.0), Vec4(0.0, 1.0, 0.0, 0.0), Vec4(0.0, 0.0, 1.0, 0.0), Vec4(0.0, 0.0, 0.0, 1.0))

  /** `glm::translate(glm::mat4x4(1.f), {tx, ty, tz})` */
  function Translate(tx: real, ty: real, tz: real): Mat4
  {
    Mat4(Vec4(1.0, 0.0, 0.0, 0.0), Vec4(0.0, 1.0, 0.0, 0.0), Vec4(0.0, 0.0, 1.0, 0.0), Vec4(tx, ty, tz, 1.0))
  }

  /** `glm::rotate(glm::mat4x4(1.f), angle, {0, 1, 0})` for an angle whose cosine
      is `c` and sine is `s`. */
  function RotateY(c: real, s: real): Mat4
  {
    Mat4(Vec4(c, 0.0, -s, 0.0), Vec4(0.0, 1.0, 0.0, 0.0), Vec4(s, 0.0, c, 0.0), Vec4(0.0, 0.0, 0.0, 1.0))
  }

  /** `glm::rotate(glm::mat4x4(1.f), angle, {1, 0, 0})` for an angle whose cosine
      is `c` and sine is `s`. */
  function RotateX(c: real, s: real): Mat4
  {
    Mat4(Vec4(1.0, 0.0, 0.0, 0.0), Vec4(0.0, c, s, 0.0), Vec4(0.0, -s, c, 0.0), Vec4(0.0, 0.0, 0.0, 1.0))
  }

  /** The rotation `r` followed by a move by `(tx, ty, tz)`, written out. */
  function Placed(r: Mat4, tx: real, ty: real, tz: real): Mat4
  {
    Mat4(r.c0, r.c1, r.c2, Vec4(tx, ty, tz, 1.0))
  }

  /** `translate * rotate` is the rotation with the translation in its last column:
      the product of a translation and a matrix that fixes the origin and keeps
      directions directions. */
  lemma TranslateAfterRotate(tx: real, ty: real, tz: real, r: Mat4)
    requires r.c0.w == 0.0 && r.c1.w == 0.0 && r.c2.w == 0.0 && r.c3 == Vec4(0.0, 0.0, 0.0, 1.0)
    ensures Mul(Translate(tx, ty, tz), r) == Placed(r, tx, ty, tz)
  {
    ApplyTranslate(tx, ty, tz, r.c0);
    ApplyTranslate(tx, ty, tz, r.c1);
    ApplyTranslate(tx, ty, tz, r.c2);
    ApplyTranslate(tx, ty, tz, r.c3);
  }

  /** A translation adds its offset, scaled by `w`, to a vector. */
  lemma ApplyTranslate(tx: real, ty: real, tz: real, v: Vec4)
    ensures Apply(Translate(tx, ty, tz), v) == Vec4(v.x + v.w * tx, v.y + v.w * ty, v.z + v.w * tz, v.w)
  {
  }

  /** `transform * glm::vec4(p, 1.f)`, keeping the first three components. */
  function TransformPoint(m: Mat4, p: seq<real>): (r: seq<real>)
    requires |p| == 3
    ensures |r| == 3
  {
    var v := Apply(m, Vec4(p[0], p[1], p[2], 1.0));
    [v.x, v.y, v.z]
  }

  lemma DivLeOne(a: real, n: real)
    requires 0.0 <= a <= n && n > 0.0
    ensures 0.0 <= a / n <= 1.0
  {
  }

  lemma DivSelf(n: real)
    requires n > 0.0
    ensures n / n == 1.0 && 0.0 / n == 0.0
  {
  }

  lemma MulDiv(w: real, n: real)
    requires n > 0.0
    ensures n * (w / n) == w
  {
  }

  /** The identity leaves every vector unchanged, so skipping it is unobservable. */
  lemma IdentityFixes(v: Vec4)
    ensures Apply(Identity, v) == v
  {
  }

  lemma IdentityFixesPoint(p: seq<real>)
    requires |p| == 3
    ensures TransformPoint(Identity, p) == p
  {
  }

  /** A translation moves a point by its offset. */
  lemma TranslateMovesPoint(tx: real, ty: real, tz: real, p: seq<real>)
    requires |p| == 3
    ensures TransformPoint(Translate(tx, ty, tz), p) == [p[0] + tx, p[1] + ty, p[2] + tz]
  {
  }
}
