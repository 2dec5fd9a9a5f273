/**
 * The Transform class: a translation, three axis vectors, a scale and a cached world-to-object
 * matrix guarded by a dirty flag. Every mutator overwrites fields in place and marks the cache
 * dirty; the matrix is derived from the vectors on demand.
 */
module Transforms {
  import opened Linear

  /** The three axis vectors of a transform, as values. */
  datatype Frame = Frame(x: Vec3, y: Vec3, z: Vec3)

  /** The axes of a new transform. */
  const Canonical := Frame(XAxis, YAxis, ZAxis)

  const UnitScale := Vec3(1.0, 1.0, 1.0)

  predicate IsOrthonormal(f: Frame)
  {
    Orthonormal(f.x, f.y, f.z)
  }

  /** Each axis of the frame has unit length. */
  predicate UnitAxes(f: Frame)
  {
    Dot(f.x, f.x) == 1.0 && Dot(f.y, f.y) == 1.0 && Dot(f.z, f.z) == 1.0
  }

  predicate Invertible(s: Vec3)
  {
    s.x != 0.0 && s.y != 0.0 && s.z != 0.0
  }

  // ---------------------------------------------------------------------------------------
  // The cached matrix
  // ---------------------------------------------------------------------------------------

  /**
   * `derive_world_to_obj`: axis k becomes column k, entry k of the translation row becomes
   * -(translation . axis k), and column k is then divided by scale k. The fourth column is
   * not written and keeps whatever the previous matrix held.
   */
  function DerivedMatrix(previous: Mat4, t: Vec3, f: Frame, s: Vec3): Mat4
    requires Invertible(s)
  {
    Mat4(f.x.x / s.x, f.y.x / s.y, f.z.x / s.z, previous.xw,
         f.x.y / s.x, f.y.y / s.y, f.z.y / s.z, previous.yw,
         f.x.z / s.x, f.y.z / s.y, f.z.z / s.z, previous.zw,
         (-1.0 * Dot(t, f.x)) / s.x, (-1.0 * Dot(t, f.y)) / s.y, (-1.0 * Dot(t, f.z)) / s.z, previous.ww)
  }

  /**
   * Deriving again from a derived matrix gives the same matrix: only the fourth column is carried
   * over, and it is carried over unchanged. So re-deriving on every read of a dirty transform is harmless.
   */
  lemma DerivedMatrixIdempotent(previous: Mat4, t: Vec3, f: Frame, s: Vec3)
    requires Invertible(s)
    ensures DerivedMatrix(DerivedMatrix(previous, t, f, s), t, f, s) == DerivedMatrix(previous, t, f, s)
  {
  }

  /** The derived matrix takes the transform's own location to the object-space origin. */
  lemma DerivedMatrixMapsTranslationToOrigin(previous: Mat4, t: Vec3, f: Frame, s: Vec3)
    requires Invertible(s)
    ensures TransformPoint(t, DerivedMatrix(previous, t, f, s)) == Zero3
  {
    var m := DerivedMatrix(previous, t, f, s);
    PointThroughColumnX(m, t, t, f.x, s.x);
    PointThroughColumnY(m, t, t, f.y, s.y);
    PointThroughColumnZ(m, t, t, f.z, s.z);
  }

  /**
   * For an orthonormal frame the derived matrix turns each axis direction into the matching
   * object-space basis direction, shrunk by that axis' scale.
   */
  lemma DerivedMatrixMapsAxesToBasis(previous: Mat4, t: Vec3, f: Frame, s: Vec3)
    requires Invertible(s) && IsOrthonormal(f)
    ensures RotateByMatrix(f.x, DerivedMatrix(previous, t, f, s)) == Vec3(1.0 / s.x, 0.0, 0.0)
    ensures RotateByMatrix(f.y, DerivedMatrix(previous, t, f, s)) == Vec3(0.0, 1.0 / s.y, 0.0)
    ensures RotateByMatrix(f.z, DerivedMatrix(previous, t, f, s)) == Vec3(0.0, 0.0, 1.0 / s.z)
  {
    DotSymmetric(f.x, f.y);
    DotSymmetric(f.x, f.z);
    DotSymmetric(f.y, f.z);
    DerivedMatrixMapsVector(previous, t, f, s, f.x);
    DerivedMatrixMapsVector(previous, t, f, s, f.y);
    DerivedMatrixMapsVector(previous, t, f, s, f.z);
  }

  /** A direction taken through the derived matrix: its components along the axes, divided by the scales. */
  lemma DerivedMatrixMapsVector(previous: Mat4, t: Vec3, f: Frame, s: Vec3, v: Vec3)
    requires Invertible(s)
    ensures RotateByMatrix(v, DerivedMatrix(previous, t, f, s)) == Vec3(Dot(v, f.x) / s.x, Dot(v, f.y) / s.y, Dot(v, f.z) / s.z)
  {
    var m := DerivedMatrix(previous, t, f, s);
    DirectionThroughColumnX(m, v, f.x, s.x);
    DirectionThroughColumnY(m, v, f.y, s.y);
    DirectionThroughColumnZ(m, v, f.z, s.z);
  }

  // Column k of a derived matrix, one column at a time: axis `a` divided by `s`, and the
  // translation entry -(t . a) / s.

  lemma DirectionThroughColumnX(m: Mat4, v: Vec3, a: Vec3, s: real)
    requires s != 0.0 && m.xx == a.x / s && m.yx == a.y / s && m.zx == a.z / s
    ensures RotateByMatrix(v, m).x == Dot(v, a) / s
  {
    SumOfQuotients(v.x, v.y, v.z, a.x, a.y, a.z, 0.0, s);
  }

  lemma DirectionThroughColumnY(m: Mat4, v: Vec3, a: Vec3, s: real)
    requires s != 0.0 && m.xy == a.x / s && m.yy == a.y / s && m.zy == a.z / s
    ensures RotateByMatrix(v, m).y == Dot(v, a) / s
  {
    SumOfQuotients(v.x, v.y, v.z, a.x, a.y, a.z, 0.0, s);
  }

  lemma DirectionThroughColumnZ(m: Mat4, v: Vec3, a: Vec3, s: real)
    requires s != 0.0 && m.xz == a.x / s && m.yz == a.y / s && m.zz == a.z / s
    ensures RotateByMatrix(v, m).z == Dot(v, a) / s
  {
    SumOfQuotients(v.x, v.y, v.z, a.x, a.y, a.z, 0.0, s);
  }

  lemma PointThroughColumnX(m: Mat4, w: Vec3, t: Vec3, a: Vec3, s: real)
    requires s != 0.0 && m.xx == a.x / s && m.yx == a.y / s && m.zx == a.z / s && m.wx == (-1.0 * Dot(t, a)) / s
    ensures TransformPoint(w, m).x == (Dot(w, a) + -1.0 * Dot(t, a)) / s
  {
    SumOfQuotients(w.x, w.y, w.z, a.x, a.y, a.z, -1.0 * Dot(t, a), s);
  }

  lemma PointThroughColumnY(m: Mat4, w: Vec3, t: Vec3, a: Vec3, s: real)
    requires s != 0.0 && m.xy == a.x / s && m.yy == a.y / s && m.zy == a.z / s && m.wy == (-1.0 * Dot(t, a)) / s
    ensures TransformPoint(w, m).y == (Dot(w, a) + -1.0 * Dot(t, a)) / s
  {
    SumOfQuotients(w.x, w.y, w.z, a.x, a.y, a.z, -1.0 * Dot(t, a), s);
  }

  lemma PointThroughColumnZ(m: Mat4, w: Vec3, t: Vec3, a: Vec3, s: real)
    requires s != 0.0 && m.xz == a.x / s && m.yz == a.y / s && m.zz == a.z / s && m.wz == (-1.0 * Dot(t, a)) / s
    ensures TransformPoint(w, m).z == (Dot(w, a) + -1.0 * Dot(t, a)) / s
  {
    SumOfQuotients(w.x, w.y, w.z, a.x, a.y, a.z, -1.0 * Dot(t, a), s);
  }

  lemma SumOfQuotients(vx: real, vy: real, vz: real, a: real, b: real, c: real, d: real, s: real)
    requires s != 0.0
    ensures vx * (a / s) + vy * (b / s) + vz * (c / s) + d / s == (vx * a + vy * b + vz * c + d) / s
    ensures vx * (a / s) + vy * (b / s) + vz * (c / s) == (vx * a + vy * b + vz * c) / s
  {
    assert vx * (a / s) == (vx * a) / s;
    assert vy * (b / s) == (vy * b) / s;
    assert vz * (c / s) == (vz * c) / s;
  }

  /** With the canonical axes and unit scale the translation row is the negated translation. */
  lemma DerivedMatrixOfTranslation(t: Vec3)
    ensures DerivedMatrix(Identity4, t, Canonical, UnitScale)
         == Mat4(1.0, 0.0, 0.0, 0.0,
                 0.0, 1.0, 0.0, 0.0,
                 0.0, 0.0, 1.0, 0.0,
                 -t.x, -t.y, -t.z, 1.0)
  {
  }

  /** With the canonical axes, no translation and scale s the diagonal holds 1/s. */
  lemma DerivedMatrixOfScale(s: Vec3)
    requires Invertible(s)
    ensures DerivedMatrix(Identity4, Zero3, Canonical, s)
         == Mat4(1.0 / s.x, 0.0, 0.0, 0.0,
                 0.0, 1.0 / s.y, 0.0, 0.0,
                 0.0, 0.0, 1.0 / s.z, 0.0,
                 0.0, 0.0, 0.0, 1.0)
  {
  }

  /** The default transform derives the identity matrix. */
  lemma DerivedMatrixOfDefault()
    ensures DerivedMatrix(Identity4, Zero3, Canonical, UnitScale) == Identity4
  {
    DerivedMatrixOfTranslation(Zero3);
  }

  // ---------------------------------------------------------------------------------------
  // Recovering the vectors from a matrix (the world_to_obj setter)
  // ---------------------------------------------------------------------------------------

  /**
   * The vectors `derive_vectors` reads off the inverse of a world-to-object matrix: the image
   * of the origin, and the normalized images of the three basis directions.
   */
  datatype Pose = Pose(translation: Vec3, axes: Frame, scale: Vec3)

  /** `derive_vectors` as written: translation and axes are recovered, the scale is left alone. */
  function DeriveVectorsAsWritten(math: Math, objToWorld: Mat4, oldScale: Vec3): (p: Pose)
    ensures p.scale == oldScale
    ensures p.translation == TransformPoint(Zero3, objToWorld)
  {
    Pose(TransformPoint(Zero3, objToWorld),
         Frame(Normalize(math, RotateByMatrix(XAxis, objToWorld)),
               Normalize(math, RotateByMatrix(YAxis, objToWorld)),
               Normalize(math, RotateByMatrix(ZAxis, objToWorld))),
         oldScale)
  }

  /**
   * `derive_vectors` as intended: as written, and the scale of axis k is also recovered as the
   * length of the image of basis direction k.
   */
  function DeriveVectors(math: Math, objToWorld: Mat4): (p: Pose)
    ensures p.translation == DeriveVectorsAsWritten(math, objToWorld, p.scale).translation
    ensures p.axes == DeriveVectorsAsWritten(math, objToWorld, p.scale).axes
  {
    Pose(TransformPoint(Zero3, objToWorld),
         Frame(Normalize(math, RotateByMatrix(XAxis, objToWorld)),
               Normalize(math, RotateByMatrix(YAxis, objToWorld)),
               Normalize(math, RotateByMatrix(ZAxis, objToWorld))),
         Vec3(Length(math, RotateByMatrix(XAxis, objToWorld)),
              Length(math, RotateByMatrix(YAxis, objToWorld)),
              Length(math, RotateByMatrix(ZAxis, objToWorld))))
  }

  /**
   * The object-to-world matrix of a pose: row k holds axis k stretched by scale k and the
   * translation row holds the location. It is the inverse of the derived world-to-object matrix.
   */
  function ObjToWorld(p: Pose): Mat4
  {
    Mat4(p.scale.x * p.axes.x.x, p.scale.x * p.axes.x.y, p.scale.x * p.axes.x.z, 0.0,
         p.scale.y * p.axes.y.x, p.scale.y * p.axes.y.y, p.scale.y * p.axes.y.z, 0.0,
         p.scale.z * p.axes.z.x, p.scale.z * p.axes.z.y, p.scale.z * p.axes.z.z, 0.0,
         p.translation.x, p.translation.y, p.translation.z, 1.0)
  }

  predicate PositiveScale(s: Vec3)
  {
    s.x > 0.0 && s.y > 0.0 && s.z > 0.0
  }

  /**
   * Object coordinates taken to world space by `ObjToWorld` and back by the derived matrix are
   * unchanged: the two matrices are inverse to each other.
   */
  lemma ObjToWorldInvertsDerivedMatrix(previous: Mat4, p: Pose, q: Vec3)
    requires IsOrthonormal(p.axes) && Invertible(p.scale)
    ensures TransformPoint(TransformPoint(q, ObjToWorld(p)), DerivedMatrix(previous, p.translation, p.axes, p.scale)) == q
  {
    var w := TransformPoint(q, ObjToWorld(p));
    ObjToWorldCoordinates(p, q);
    DerivedMatrixReadsCoordinates(previous, p.translation, p.axes, p.scale, w, q);
  }

  /** A point whose coordinates along the frame, relative to t, are q scaled by s is taken back to q. */
  lemma DerivedMatrixReadsCoordinates(previous: Mat4, t: Vec3, f: Frame, s: Vec3, w: Vec3, q: Vec3)
    requires Invertible(s)
    requires Dot(w, f.x) + -1.0 * Dot(t, f.x) == q.x * s.x
    requires Dot(w, f.y) + -1.0 * Dot(t, f.y) == q.y * s.y
    requires Dot(w, f.z) + -1.0 * Dot(t, f.z) == q.z * s.z
    ensures TransformPoint(w, DerivedMatrix(previous, t, f, s)) == q
  {
    DerivedMatrixReadsX(previous, t, f, s, w, q.x);
    DerivedMatrixReadsY(previous, t, f, s, w, q.y);
    DerivedMatrixReadsZ(previous, t, f, s, w, q.z);
  }

  lemma DerivedMatrixReadsX(previous: Mat4, t: Vec3, f: Frame, s: Vec3, w: Vec3, qk: real)
    requires Invertible(s) && Dot(w, f.x) + -1.0 * Dot(t, f.x) == qk * s.x
    ensures TransformPoint(w, DerivedMatrix(previous, t, f, s)).x == qk
  {
    var m := DerivedMatrix(previous, t, f, s);
    PointThroughColumnX(m, w, t, f.x, s.x);
    ReadBackCoordinate(TransformPoint(w, m).x, Dot(w, f.x) + -1.0 * Dot(t, f.x), qk, s.x);
  }

  lemma DerivedMatrixReadsY(previous: Mat4, t: Vec3, f: Frame, s: Vec3, w: Vec3, qk: real)
    requires Invertible(s) && Dot(w, f.y) + -1.0 * Dot(t, f.y) == qk * s.y
    ensures TransformPoint(w, DerivedMatrix(previous, t, f, s)).y == qk
  {
    var m := DerivedMatrix(previous, t, f, s);
    PointThroughColumnY(m, w, t, f.y, s.y);
    ReadBackCoordinate(TransformPoint(w, m).y, Dot(w, f.y) + -1.0 * Dot(t, f.y), qk, s.y);
  }

  lemma DerivedMatrixReadsZ(previous: Mat4, t: Vec3, f: Frame, s: Vec3, w: Vec3, qk: real)
    requires Invertible(s) && Dot(w, f.z) + -1.0 * Dot(t, f.z) == qk * s.z
    ensures TransformPoint(w, DerivedMatrix(previous, t, f, s)).z == qk
  {
    var m := DerivedMatrix(previous, t, f, s);
    PointThroughColumnZ(m, w, t, f.z, s.z);
    ReadBackCoordinate(TransformPoint(w, m).z, Dot(w, f.z) + -1.0 * Dot(t, f.z), qk, s.z);
  }

  /** A coordinate read back as e / s, where e was placed as qk * s, is qk again. */
  lemma ReadBackCoordinate(r: real, e: real, qk: real, s: real)
    requires s != 0.0 && r == e / s && e == qk * s
    ensures r == qk
  {
    CancelScale(qk, s);
  }

  /** Read back along an orthonormal frame, a point placed by `ObjToWorld` has its scaled coordinates. */
  lemma ObjToWorldCoordinates(p: Pose, q: Vec3)
    requires IsOrthonormal(p.axes)
    ensures var w := TransformPoint(q, ObjToWorld(p));
      && Dot(w, p.axes.x) + -1.0 * Dot(p.translation, p.axes.x) == q.x * p.scale.x
      && Dot(w, p.axes.y) + -1.0 * Dot(p.translation, p.axes.y) == q.y * p.scale.y
      && Dot(w, p.axes.z) + -1.0 * Dot(p.translation, p.axes.z) == q.z * p.scale.z
  {
    ObjToWorldPlaces(p, q);
    CombinationCoordinates(p.axes, q.x * p.scale.x, q.y * p.scale.y, q.z * p.scale.z, p.translation);
  }

  /** `ObjToWorld` places object coordinates q at the translation plus q_k * scale_k along axis k. */
  lemma ObjToWorldPlaces(p: Pose, q: Vec3)
    ensures TransformPoint(q, ObjToWorld(p))
         == Add(Add(Add(Scale(p.axes.x, q.x * p.scale.x), Scale(p.axes.y, q.y * p.scale.y)), Scale(p.axes.z, q.z * p.scale.z)), p.translation)
  {
    RowsPoint(ObjToWorld(p), q, p.axes.x, p.axes.y, p.axes.z, p.scale.x, p.scale.y, p.scale.z, p.translation);
  }

  /** A matrix whose rows are stretched axes and a translation places a point along those axes. */
  lemma RowsPoint(m: Mat4, q: Vec3, a: Vec3, b: Vec3, c: Vec3, sa: real, sb: real, sc: real, t: Vec3)
    requires m.xx == sa * a.x && m.yx == sb * b.x && m.zx == sc * c.x && m.wx == t.x
    requires m.xy == sa * a.y && m.yy == sb * b.y && m.zy == sc * c.y && m.wy == t.y
    requires m.xz == sa * a.z && m.yz == sb * b.z && m.zz == sc * c.z && m.wz == t.z
    ensures TransformPoint(q, m) == Add(Add(Add(Scale(a, q.x * sa), Scale(b, q.y * sb)), Scale(c, q.z * sc)), t)
  {
    RowsPointX(m, q, a, b, c, sa, sb, sc, t);
    RowsPointY(m, q, a, b, c, sa, sb, sc, t);
    RowsPointZ(m, q, a, b, c, sa, sb, sc, t);
  }

  /** The coordinates, along an orthonormal frame, of a combination of its axes offset by t. */
  lemma CombinationCoordinates(f: Frame, k1: real, k2: real, k3: real, t: Vec3)
    requires IsOrthonormal(f)
    ensures var w := Add(Add(Add(Scale(f.x, k1), Scale(f.y, k2)), Scale(f.z, k3)), t);
      && Dot(w, f.x) + -1.0 * Dot(t, f.x) == k1
      && Dot(w, f.y) + -1.0 * Dot(t, f.y) == k2
      && Dot(w, f.z) + -1.0 * Dot(t, f.z) == k3
  {
    var d := Add(Add(Scale(f.x, k1), Scale(f.y, k2)), Scale(f.z, k3));
    DotAddLeft(d, t, f.x);
    DotAddLeft(d, t, f.y);
    DotAddLeft(d, t, f.z);
    DotCombinationLeft(f.x, f.y, f.z, k1, k2, k3, f.x);
    DotCombinationLeft(f.x, f.y, f.z, k1, k2, k3, f.y);
    DotCombinationLeft(f.x, f.y, f.z, k1, k2, k3, f.z);
    DotSymmetric(f.x, f.y);
    DotSymmetric(f.x, f.z);
    DotSymmetric(f.y, f.z);
  }

  // Rows of an object-to-world matrix, one output component at a time: row k is axis k
  // stretched by its scale, and the last row is the translation.

  lemma RowsPointX(m: Mat4, q: Vec3, a: Vec3, b: Vec3, c: Vec3, sa: real, sb: real, sc: real, t: Vec3)
    requires m.xx == sa * a.x && m.yx == sb * b.x && m.zx == sc * c.x && m.wx == t.x
    ensures TransformPoint(q, m).x == Add(Add(Add(Scale(a, q.x * sa), Scale(b, q.y * sb)), Scale(c, q.z * sc)), t).x
  {
    StretchedRows(q.x, q.y, q.z, a.x, b.x, c.x, sa, sb, sc);
  }

  lemma RowsPointY(m: Mat4, q: Vec3, a: Vec3, b: Vec3, c: Vec3, sa: real, sb: real, sc: real, t: Vec3)
    requires m.xy == sa * a.y && m.yy == sb * b.y && m.zy == sc * c.y && m.wy == t.y
    ensures TransformPoint(q, m).y == Add(Add(Add(Scale(a, q.x * sa), Scale(b, q.y * sb)), Scale(c, q.z * sc)), t).y
  {
    StretchedRows(q.x, q.y, q.z, a.y, b.y, c.y, sa, sb, sc);
  }

  lemma RowsPointZ(m: Mat4, q: Vec3, a: Vec3, b: Vec3, c: Vec3, sa: real, sb: real, sc: real, t: Vec3)
    requires m.xz == sa * a.z && m.yz == sb * b.z && m.zz == sc * c.z && m.wz == t.z
    ensures TransformPoint(q, m).z == Add(Add(Add(Scale(a, q.x * sa), Scale(b, q.y * sb)), Scale(c, q.z * sc)), t).z
  {
    StretchedRows(q.x, q.y, q.z, a.z, b.z, c.z, sa, sb, sc);
  }

  lemma StretchedRows(qx: real, qy: real, qz: real, a: real, b: real, c: real, sa: real, sb: real, sc: real)
    ensures qx * (sa * a) + qy * (sb * b) + qz * (sc * c) == a * (qx * sa) + b * (qy * sb) + c * (qz * sc)
  {
  }

  /** A non-negative number is the square root of its square. */
  lemma SqrtOfSquare(math: Math, s: real)
    requires SqrtLaw(math) && 0.0 <= s
    ensures math.sqrt(s * s) == s
  {
    var r := math.sqrt(s * s);
    assert 0.0 <= r && r * r == s * s;
    EqualSquares(r, s);
  }

  lemma EqualSquares(r: real, s: real)
    requires 0.0 <= r && 0.0 <= s && r * r == s * s
    ensures r == s
  {
    if s < r {
      SquareMonotone(r, s);
    } else if r < s {
      SquareMonotone(s, r);
    }
  }

  lemma SquareMonotone(r: real, s: real)
    requires 0.0 <= s < r
    ensures s * s < r * r
  {
    var a, b, c := s * s, s * r, r * r;
    assert a <= b;
    assert b < c;
  }

  lemma CancelScale(v: real, s: real)
    requires s != 0.0
    ensures (v * s) * (1.0 / s) == v
    ensures (v * s) / s == v
  {
    assert s * (1.0 / s) == 1.0;
    assert (v * s) * (1.0 / s) == v * (s * (1.0 / s));
  }

  /** A unit vector stretched by a positive factor has that factor as its length and normalizes back. */
  lemma StretchedUnit(math: Math, a: Vec3, s: real)
    requires SqrtLaw(math) && Dot(a, a) == 1.0 && 0.0 < s
    ensures Length(math, Scale(a, s)) == s
    ensures Normalize(math, Scale(a, s)) == a
  {
    ScaleDot(a, a, s, s);
    assert Dot(Scale(a, s), Scale(a, s)) == s * s;
    SqrtOfSquare(math, s);
    CancelScale(a.x, s);
    CancelScale(a.y, s);
    CancelScale(a.z, s);
  }

  /**
   * Setting the matrix of a pose recovers that pose: translation, axes and scale, as long as
   * the axes have unit length and the scale is positive (orthogonality is not needed).
   */
  lemma DeriveVectorsRecoversPose(math: Math, p: Pose)
    requires SqrtLaw(math) && UnitAxes(p.axes) && PositiveScale(p.scale)
    ensures DeriveVectors(math, ObjToWorld(p)) == p
  {
    DeriveVectorsOfRows(math, ObjToWorld(p), p.axes.x, p.axes.y, p.axes.z, p.scale.x, p.scale.y, p.scale.z, p.translation);
  }

  /**
   * As written, setting the matrix of a pose recovers its translation and axes, and recovers
   * the whole pose exactly when the scale the transform keeps is already the pose's scale.
   */
  lemma DeriveVectorsAsWrittenRecoversPose(math: Math, p: Pose, kept: Vec3)
    requires SqrtLaw(math) && UnitAxes(p.axes) && PositiveScale(p.scale)
    ensures DeriveVectorsAsWritten(math, ObjToWorld(p), kept) == Pose(p.translation, p.axes, kept)
    ensures DeriveVectorsAsWritten(math, ObjToWorld(p), kept) == p <==> kept == p.scale
  {
    DeriveVectorsRecoversPose(math, p);
  }

  /** A matrix whose rows are unit axes stretched by positive factors, over a translation row, derives that pose. */
  lemma DeriveVectorsOfRows(math: Math, m: Mat4, a: Vec3, b: Vec3, c: Vec3, sa: real, sb: real, sc: real, t: Vec3)
    requires SqrtLaw(math) && Dot(a, a) == 1.0 && Dot(b, b) == 1.0 && Dot(c, c) == 1.0
    requires 0.0 < sa && 0.0 < sb && 0.0 < sc
    requires m.xx == sa * a.x && m.yx == sb * b.x && m.zx == sc * c.x && m.wx == t.x
    requires m.xy == sa * a.y && m.yy == sb * b.y && m.zy == sc * c.y && m.wy == t.y
    requires m.xz == sa * a.z && m.yz == sb * b.z && m.zz == sc * c.z && m.wz == t.z
    ensures DeriveVectors(math, m) == Pose(t, Frame(a, b, c), Vec3(sa, sb, sc))
  {
    BasisRows(m, a, b, c, sa, sb, sc);
    StretchedUnit(math, a, sa);
    StretchedUnit(math, b, sb);
    StretchedUnit(math, c, sc);
  }

  /** The basis directions pick out the rows of a matrix. */
  lemma BasisRows(m: Mat4, a: Vec3, b: Vec3, c: Vec3, sa: real, sb: real, sc: real)
    requires m.xx == sa * a.x && m.xy == sa * a.y && m.xz == sa * a.z
    requires m.yx == sb * b.x && m.yy == sb * b.y && m.yz == sb * b.z
    requires m.zx == sc * c.x && m.zy == sc * c.y && m.zz == sc * c.z
    ensures RotateByMatrix(XAxis, m) == Scale(a, sa)
    ensures RotateByMatrix(YAxis, m) == Scale(b, sb)
    ensures RotateByMatrix(ZAxis, m) == Scale(c, sc)
  {
  }

  /**
   * The second `set world_to_obj` example of the client tests, reduced to its scale: a fresh
   * transform is given a matrix whose columns are shrunk by (2, 0.2, 4). As written the source
   * keeps the old unit scale where (2, 0.2, 4) is expected.
   */
  lemma DeriveVectorsAsWrittenLosesScale(math: Math, p: Pose)
    requires p == Pose(Zero3, Canonical, Vec3(2.0, 0.2, 4.0))
    ensures DeriveVectorsAsWritten(math, ObjToWorld(p), UnitScale).scale != p.scale
  {
  }

  /** The intended `derive_vectors` recovers the scale of that example. */
  lemma DeriveVectorsRecoversExampleScale(math: Math, p: Pose)
    requires SqrtLaw(math) && p == Pose(Zero3, Canonical, Vec3(2.0, 0.2, 4.0))
    ensures DeriveVectors(math, ObjToWorld(p)).scale == p.scale
  {
    DeriveVectorsRecoversCanonicalScale(math, p.scale);
  }

  /** Any positive scale over the canonical axes and the origin is recovered. */
  lemma DeriveVectorsRecoversCanonicalScale(math: Math, s: Vec3)
    requires SqrtLaw(math) && PositiveScale(s)
    ensures DeriveVectors(math, ObjToWorld(Pose(Zero3, Canonical, s))).scale == s
  {
    CanonicalHasUnitAxes();
    DeriveVectorsRecoversPose(math, Pose(Zero3, Canonical, s));
  }

  lemma CanonicalHasUnitAxes()
    ensures UnitAxes(Canonical)
  {
    assert Orthonormal(XAxis, YAxis, ZAxis);
  }

  // ---------------------------------------------------------------------------------------
  // Translation
  // ---------------------------------------------------------------------------------------

  /**
   * Where `_translate_vector` moves `v`: by dx, dy, dz along the frame's axes in object space,
   * or along the world axes otherwise.
   */
  function Moved(f: Frame, v: Vec3, dx: real, dy: real, dz: real, inObjectSpace: bool): Vec3
  {
    if inObjectSpace then Add(v, Add(Scale(f.x, dx), Add(Scale(f.y, dy), Scale(f.z, dz))))
    else Add(v, Vec3(dx, dy, dz))
  }

  /** Moving by the negated amounts undoes a move, in either space. */
  lemma MovedBackIsIdentity(f: Frame, v: Vec3, dx: real, dy: real, dz: real, inObjectSpace: bool)
    ensures Moved(f, Moved(f, v, dx, dy, dz, inObjectSpace), -dx, -dy, -dz, inObjectSpace) == v
  {
  }

  /** With the canonical axes, object space and world space agree. */
  lemma MovedInCanonicalFrame(v: Vec3, dx: real, dy: real, dz: real)
    ensures Moved(Canonical, v, dx, dy, dz, true) == Moved(Canonical, v, dx, dy, dz, false)
  {
  }

  /** In object space the displacement, read back along an orthonormal frame, is (dx, dy, dz). */
  lemma MovedAlongAxes(f: Frame, v: Vec3, dx: real, dy: real, dz: real)
    requires IsOrthonormal(f)
    ensures var d := Sub(Moved(f, v, dx, dy, dz, true), v);
      Dot(d, f.x) == dx && Dot(d, f.y) == dy && Dot(d, f.z) == dz
  {
    var d := Add(Add(Scale(f.x, dx), Scale(f.y, dy)), Scale(f.z, dz));
    assert Sub(Moved(f, v, dx, dy, dz, true), v) == d;
    DotCombinationLeft(f.x, f.y, f.z, dx, dy, dz, f.x);
    DotCombinationLeft(f.x, f.y, f.z, dx, dy, dz, f.y);
    DotCombinationLeft(f.x, f.y, f.z, dx, dy, dz, f.z);
    DotSymmetric(f.x, f.y);
    DotSymmetric(f.x, f.z);
    DotSymmetric(f.y, f.z);
  }

  // ---------------------------------------------------------------------------------------
  // Rotation
  // ---------------------------------------------------------------------------------------

  /** `_rotate_x_vectors`: the y and z axes turn about `axis`, the x axis stays. */
  function SpinAboutX(math: Math, f: Frame, axis: Vec3, angle: real): Frame
  {
    Frame(f.x, Rotate(math, axis, angle, f.y), Rotate(math, axis, angle, f.z))
  }

  /** `_rotate_y_vectors`: the x and z axes turn about `axis`, the y axis stays. */
  function SpinAboutY(math: Math, f: Frame, axis: Vec3, angle: real): Frame
  {
    Frame(Rotate(math, axis, angle, f.x), f.y, Rotate(math, axis, angle, f.z))
  }

  /** `_rotate_z_vectors`: the x and y axes turn about `axis`, the z axis stays. */
  function SpinAboutZ(math: Math, f: Frame, axis: Vec3, angle: real): Frame
  {
    Frame(Rotate(math, axis, angle, f.x), Rotate(math, axis, angle, f.y), f.z)
  }

  /** All three axes turn about `axis`. */
  function TurnAll(math: Math, f: Frame, axis: Vec3, angle: real): Frame
  {
    Frame(Rotate(math, axis, angle, f.x), Rotate(math, axis, angle, f.y), Rotate(math, axis, angle, f.z))
  }

  /** `rotate(dx, dy, dz)`: about the current z axis by dz, then the new y axis by dy, then the new x axis by dx. */
  function Turned(math: Math, f: Frame, dx: real, dy: real, dz: real): Frame
  {
    var afterZ := SpinAboutZ(math, f, f.z, dz);
    var afterY := SpinAboutY(math, afterZ, afterZ.y, dy);
    SpinAboutX(math, afterY, afterY.x, dx)
  }

  /** Turning every axis about a unit axis keeps an orthonormal frame orthonormal. */
  lemma TurnAllKeepsOrthonormal(math: Math, f: Frame, axis: Vec3, angle: real)
    requires Pythagorean(math) && Dot(axis, axis) == 1.0 && IsOrthonormal(f)
    ensures IsOrthonormal(TurnAll(math, f, axis, angle))
  {
    RotatePreservesDot(math, axis, angle, f.x, f.x);
    RotatePreservesDot(math, axis, angle, f.y, f.y);
    RotatePreservesDot(math, axis, angle, f.z, f.z);
    RotatePreservesDot(math, axis, angle, f.x, f.y);
    RotatePreservesDot(math, axis, angle, f.x, f.z);
    RotatePreservesDot(math, axis, angle, f.y, f.z);
  }

  /** Spinning the other two axes about one axis of an orthonormal frame keeps it orthonormal. */
  lemma SpinAboutXKeepsOrthonormal(math: Math, f: Frame, angle: real)
    requires Pythagorean(math) && IsOrthonormal(f)
    ensures IsOrthonormal(SpinAboutX(math, f, f.x, angle))
  {
    RotateFixesAxis(math, f.x, angle);
    TurnAllKeepsOrthonormal(math, f, f.x, angle);
  }

  lemma SpinAboutYKeepsOrthonormal(math: Math, f: Frame, angle: real)
    requires Pythagorean(math) && IsOrthonormal(f)
    ensures IsOrthonormal(SpinAboutY(math, f, f.y, angle))
  {
    RotateFixesAxis(math, f.y, angle);
    TurnAllKeepsOrthonormal(math, f, f.y, angle);
  }

  lemma SpinAboutZKeepsOrthonormal(math: Math, f: Frame, angle: real)
    requires Pythagorean(math) && IsOrthonormal(f)
    ensures IsOrthonormal(SpinAboutZ(math, f, f.z, angle))
  {
    RotateFixesAxis(math, f.z, angle);
    TurnAllKeepsOrthonormal(math, f, f.z, angle);
  }

  /** `rotate` keeps the axes orthonormal. */
  lemma TurnedKeepsOrthonormal(math: Math, f: Frame, dx: real, dy: real, dz: real)
    requires Pythagorean(math) && IsOrthonormal(f)
    ensures IsOrthonormal(Turned(math, f, dx, dy, dz))
  {
    var afterZ := SpinAboutZ(math, f, f.z, dz);
    SpinAboutZKeepsOrthonormal(math, f, dz);
    var afterY := SpinAboutY(math, afterZ, afterZ.y, dy);
    SpinAboutYKeepsOrthonormal(math, afterZ, dy);
    SpinAboutXKeepsOrthonormal(math, afterY, dx);
  }

  lemma CanonicalIsOrthonormal()
    ensures IsOrthonormal(Canonical)
  {
    assert Orthonormal(XAxis, YAxis, ZAxis);
  }

  /** `set_rotation` always produces orthonormal axes. */
  lemma SetRotationIsOrthonormal(math: Math, dx: real, dy: real, dz: real)
    requires Pythagorean(math)
    ensures IsOrthonormal(Turned(math, Canonical, dx, dy, dz))
  {
    CanonicalIsOrthonormal();
    TurnedKeepsOrthonormal(math, Canonical, dx, dy, dz);
  }

  /** `set_rotation_around_axis` about a unit axis produces orthonormal axes. */
  lemma SetRotationAroundAxisIsOrthonormal(math: Math, axis: Vec3, angle: real)
    requires Pythagorean(math) && Dot(axis, axis) == 1.0
    ensures IsOrthonormal(TurnAll(math, Canonical, axis, angle))
  {
    CanonicalIsOrthonormal();
    TurnAllKeepsOrthonormal(math, Canonical, axis, angle);
  }

  /** Rotating by zero angles changes no axis. */
  lemma TurnedByZero(math: Math, f: Frame)
    requires TrigAtZero(math)
    ensures Turned(math, f, 0.0, 0.0, 0.0) == f
  {
    RotateByZero(math, f.z, f.x);
    RotateByZero(math, f.z, f.y);
    RotateByZero(math, f.y, f.x);
    RotateByZero(math, f.y, f.z);
    RotateByZero(math, f.x, f.y);
    RotateByZero(math, f.x, f.z);
  }

  /**
   * The loop of `_rotate_vectors`: rotates every vector of `vs` in place about `axis`.
   */
  method RotateEach(math: Math, axis: Vec3, angle: real, vs: array<Vec3>)
    modifies vs
    ensures forall i :: 0 <= i < vs.Length ==> vs[i] == Rotate(math, axis, angle, old(vs[i]))
  {
    var i := 0;
    while i < vs.Length
      invariant 0 <= i <= vs.Length
      invariant forall j :: 0 <= j < i ==> vs[j] == Rotate(math, axis, angle, old(vs[j]))
      invariant forall j :: i <= j < vs.Length ==> vs[j] == old(vs[j])
    {
      vs[i] := Rotate(math, axis, angle, vs[i]);
      i := i + 1;
    }
  }

  /** `vs` rotated element by element. */
  function RotatedAll(math: Math, axis: Vec3, angle: real, vs: seq<Vec3>): (r: seq<Vec3>)
    ensures |r| == |vs|
    ensures forall i :: 0 <= i < |vs| ==> r[i] == Rotate(math, axis, angle, vs[i])
  {
    if vs == [] then [] else [Rotate(math, axis, angle, vs[0])] + RotatedAll(math, axis, angle, vs[1..])
  }

  // ---------------------------------------------------------------------------------------
  // The class
  // ---------------------------------------------------------------------------------------

  class Transform {
    var translation: Vec3
    var xAxis: Vec3
    var yAxis: Vec3
    var zAxis: Vec3
    var scale: Vec3
    var dirtyMatrix: bool
    var worldToObj: Mat4

    function Axes(): Frame
      reads this
    {
      Frame(xAxis, yAxis, zAxis)
    }

    /** What the world_to_obj getter returns: the derived matrix when dirty, the cache otherwise. */
    function CurrentWorldToObj(): Mat4
      reads this
      requires dirtyMatrix ==> Invertible(scale)
    {
      if dirtyMatrix then DerivedMatrix(worldToObj, translation, Axes(), scale) else worldToObj
    }

    /** A new transform: at the origin, canonical axes, unit scale, identity matrix marked dirty. */
    constructor ()
      ensures translation == Zero3 && Axes() == Canonical && scale == UnitScale
      ensures dirtyMatrix && worldToObj == Identity4
    {
      translation := Zero3;
      xAxis, yAxis, zAxis := XAxis, YAxis, ZAxis;
      scale := UnitScale;
      dirtyMatrix := true;
      worldToObj := Identity4;
    }

    /** `populate_clone`: copies every field into `clone`. */
    method PopulateClone(clone: Transform)
      modifies clone
      ensures clone.translation == old(translation) && clone.Axes() == old(Axes()) && clone.scale == old(scale)
      ensures clone.dirtyMatrix == old(dirtyMatrix) && clone.worldToObj == old(worldToObj)
    {
      var t, f, s, d, m := translation, Axes(), scale, dirtyMatrix, worldToObj;
      clone.translation := t;
      clone.zAxis, clone.yAxis, clone.xAxis := f.z, f.y, f.x;
      clone.scale := s;
      clone.dirtyMatrix := d;
      clone.worldToObj := m;
    }

    /** `clone`: a new transform with every field copied. */
    method Clone() returns (c: Transform)
      ensures fresh(c)
      ensures c.translation == translation && c.Axes() == Axes() && c.scale == scale
      ensures c.dirtyMatrix == dirtyMatrix && c.worldToObj == worldToObj
    {
      c := new Transform();
      PopulateClone(c);
    }

    /** `derive_world_to_obj`: rebuilds the cached matrix from the vectors; it does not clear the flag. */
    method DeriveWorldToObj()
      requires Invertible(scale)
      modifies this
      ensures translation == old(translation) && Axes() == old(Axes()) && scale == old(scale)
      ensures worldToObj == DerivedMatrix(old(worldToObj), translation, Axes(), scale)
      ensures dirtyMatrix == old(dirtyMatrix)
    {
      worldToObj := DerivedMatrix(worldToObj, translation, Axes(), scale);
    }

    /**
     * The world_to_obj getter: re-derives the cache when dirty and returns a copy of it. The
     * flag is left set, so a dirty transform re-derives on every read.
     */
    method GetWorldToObj() returns (m: Mat4)
      requires dirtyMatrix ==> Invertible(scale)
      modifies this
      ensures m == old(CurrentWorldToObj()) && worldToObj == m
      ensures translation == old(translation) && Axes() == old(Axes()) && scale == old(scale)
      ensures dirtyMatrix == old(dirtyMatrix)
    {
      if dirtyMatrix {
        DeriveWorldToObj();
      }
      m := worldToObj;
    }

    /**
     * The world_to_obj setter: stores the matrix, reads translation and axes off its inverse
     * `objToWorld` (computed by the client library), keeps the scale, and clears the flag.
     */
    method SetWorldToObj(math: Math, m: Mat4, objToWorld: Mat4)
      requires UndoesPoints(m, objToWorld)
      modifies this
      ensures worldToObj == m && !dirtyMatrix
      ensures Pose(translation, Axes(), scale) == DeriveVectorsAsWritten(math, objToWorld, old(scale))
    {
      worldToObj := m;
      var p := DeriveVectorsAsWritten(math, objToWorld, scale);
      translation := p.translation;
      zAxis, yAxis, xAxis := p.axes.z, p.axes.y, p.axes.x;
      scale := p.scale;
      dirtyMatrix := false;
    }

    /** `_set_translation` and the translation setter. */
    method SetTranslation(v: Vec3)
      modifies this
      ensures translation == v && dirtyMatrix
      ensures Axes() == old(Axes()) && scale == old(scale) && worldToObj == old(worldToObj)
    {
      translation := v;
      dirtyMatrix := true;
    }

    /** `_translate_vector`: `v` moved by dx, dy, dz, skipping zero amounts in object space. */
    method TranslateVector(dx: real, dy: real, dz: real, v: Vec3, inObjectSpace: bool) returns (r: Vec3)
      ensures r == Moved(Axes(), v, dx, dy, dz, inObjectSpace)
    {
      r := v;
      if inObjectSpace {
        if dx != 0.0 {
          r := Add(r, Scale(xAxis, dx));
        }
        if dy != 0.0 {
          r := Add(r, Scale(yAxis, dy));
        }
        if dz != 0.0 {
          r := Add(r, Scale(zAxis, dz));
        }
      } else {
        r := Vec3(r.x + dx, r.y + dy, r.z + dz);
      }
    }

    /** `translate`: moves the translation; axes and scale are untouched. */
    method Translate(dx: real, dy: real, dz: real, inObjectSpace: bool)
      modifies this
      ensures translation == Moved(old(Axes()), old(translation), dx, dy, dz, inObjectSpace)
      ensures Axes() == old(Axes()) && scale == old(scale) && worldToObj == old(worldToObj)
      ensures dirtyMatrix
    {
      translation := TranslateVector(dx, dy, dz, translation, inObjectSpace);
      dirtyMatrix := true;
    }

    /** `_set_scale` and the scale setter: replaces the scale. */
    method SetScale(v: Vec3)
      modifies this
      ensures scale == v && dirtyMatrix
      ensures translation == old(translation) && Axes() == old(Axes()) && worldToObj == old(worldToObj)
    {
      scale := v;
      dirtyMatrix := true;
    }

    /** `_scale` and `multiply_scale`: multiplies the scale componentwise. */
    method MultiplyScale(v: Vec3)
      modifies this
      ensures scale == Stretch(old(scale), v) && dirtyMatrix
      ensures translation == old(translation) && Axes() == old(Axes()) && worldToObj == old(worldToObj)
    {
      scale := Stretch(scale, v);
      dirtyMatrix := true;
    }

    /**
     * `_rotate_vectors`: rotates every vector of `vs` about `axis`; in object space the axis is
     * first carried through the transposed world_to_obj matrix, read through its getter.
     */
    method RotateVectors(math: Math, axis: Vec3, angle: real, vs: array<Vec3>, inObjectSpace: bool)
      requires inObjectSpace && dirtyMatrix ==> Invertible(scale)
      modifies this, vs
      ensures var used := if inObjectSpace then RotateTransposeByMatrix(axis, old(CurrentWorldToObj())) else axis;
        forall i :: 0 <= i < vs.Length ==> vs[i] == Linear.Rotate(math, used, angle, old(vs[i]))
      ensures worldToObj == (if inObjectSpace then old(CurrentWorldToObj()) else old(worldToObj))
      ensures translation == old(translation) && Axes() == old(Axes()) && scale == old(scale)
      ensures dirtyMatrix == old(dirtyMatrix)
    {
      var used := axis;
      if inObjectSpace {
        var m := GetWorldToObj();
        used := RotateTransposeByMatrix(axis, m);
      }
      RotateEach(math, used, angle, vs);
    }

    /** `_rotate_x_vectors`: y and z axes and the `extra` vectors turn about `axis`. */
    method RotateXVectors(math: Math, axis: Vec3, angle: real, extra: seq<Vec3>) returns (rotated: seq<Vec3>)
      modifies this
      ensures Axes() == SpinAboutX(math, old(Axes()), axis, angle)
      ensures rotated == RotatedAll(math, axis, angle, extra)
      ensures translation == old(translation) && scale == old(scale) && worldToObj == old(worldToObj)
      ensures dirtyMatrix
    {
      var all := [yAxis, zAxis] + extra;
      var vs := new Vec3[|all|](i requires 0 <= i < |all| => all[i]);
      RotateVectors(math, axis, angle, vs, false);
      yAxis, zAxis := vs[0], vs[1];
      rotated := vs[2..];
      dirtyMatrix := true;
    }

    /** `_rotate_y_vectors`: x and z axes and the `extra` vectors turn about `axis`. */
    method RotateYVectors(math: Math, axis: Vec3, angle: real, extra: seq<Vec3>) returns (rotated: seq<Vec3>)
      modifies this
      ensures Axes() == SpinAboutY(math, old(Axes()), axis, angle)
      ensures rotated == RotatedAll(math, axis, angle, extra)
      ensures translation == old(translation) && scale == old(scale) && worldToObj == old(worldToObj)
      ensures dirtyMatrix
    {
      var all := [xAxis, zAxis] + extra;
      var vs := new Vec3[|all|](i requires 0 <= i < |all| => all[i]);
      RotateVectors(math, axis, angle, vs, false);
      xAxis, zAxis := vs[0], vs[1];
      rotated := vs[2..];
      dirtyMatrix := true;
    }

    /** `_rotate_z_vectors`: x and y axes and the `extra` vectors turn about `axis`. */
    method RotateZVectors(math: Math, axis: Vec3, angle: real, extra: seq<Vec3>) returns (rotated: seq<Vec3>)
      modifies this
      ensures Axes() == SpinAboutZ(math, old(Axes()), axis, angle)
      ensures rotated == RotatedAll(math, axis, angle, extra)
      ensures translation == old(translation) && scale == old(scale) && worldToObj == old(worldToObj)
      ensures dirtyMatrix
    {
      var all := [xAxis, yAxis] + extra;
      var vs := new Vec3[|all|](i requires 0 <= i < |all| => all[i]);
      RotateVectors(math, axis, angle, vs, false);
      xAxis, yAxis := vs[0], vs[1];
      rotated := vs[2..];
      dirtyMatrix := true;
    }

    /** `rotate(dx, dy, dz)`: z first, then y, then x, each about the transform's current axis. */
    method Rotate(math: Math, dx: real, dy: real, dz: real)
      modifies this
      ensures Axes() == Turned(math, old(Axes()), dx, dy, dz)
      ensures translation == old(translation) && scale == old(scale) && worldToObj == old(worldToObj)
      ensures dirtyMatrix
    {
      var none := RotateZVectors(math, zAxis, dz, []);
      none := RotateYVectors(math, yAxis, dy, []);
      none := RotateXVectors(math, xAxis, dx, []);
      dirtyMatrix := true;
    }

    /** `set_rotation`: resets the axes to the canonical ones, then rotates. */
    method SetRotation(math: Math, dx: real, dy: real, dz: real)
      modifies this
      ensures Axes() == Turned(math, Canonical, dx, dy, dz)
      ensures translation == old(translation) && scale == old(scale) && worldToObj == old(worldToObj)
      ensures dirtyMatrix
    {
      var canonical := Canonical;
      xAxis, yAxis, zAxis := canonical.x, canonical.y, canonical.z;
      assert Axes() == canonical;
      Rotate(math, dx, dy, dz);
    }

    /** `rotate_around_axis`: all three axes turn about `axis`, carried into object space if asked. */
    method RotateAroundAxis(math: Math, axis: Vec3, angle: real, inObjectSpace: bool)
      requires inObjectSpace && dirtyMatrix ==> Invertible(scale)
      modifies this
      ensures var used := if inObjectSpace then RotateTransposeByMatrix(axis, old(CurrentWorldToObj())) else axis;
        Axes() == TurnAll(math, old(Axes()), used, angle)
      ensures worldToObj == (if inObjectSpace then old(CurrentWorldToObj()) else old(worldToObj))
      ensures translation == old(translation) && scale == old(scale) && dirtyMatrix
    {
      var all := [xAxis, yAxis, zAxis];
      var vs := new Vec3[3](i requires 0 <= i < 3 => all[i]);
      RotateVectors(math, axis, angle, vs, inObjectSpace);
      xAxis, yAxis, zAxis := vs[0], vs[1], vs[2];
      dirtyMatrix := true;
    }

    /** `set_rotation_around_axis`: resets the axes, then turns them about `axis` in world space. */
    method SetRotationAroundAxis(math: Math, axis: Vec3, angle: real)
      modifies this
      ensures Axes() == TurnAll(math, Canonical, axis, angle)
      ensures translation == old(translation) && scale == old(scale) && worldToObj == old(worldToObj)
      ensures dirtyMatrix
    {
      var canonical := Canonical;
      xAxis, yAxis, zAxis := canonical.x, canonical.y, canonical.z;
      assert Axes() == canonical;
      RotateAroundAxis(math, axis, angle, false);
    }
  }

  /** Componentwise product, as `_scale` applies it. */
  function Stretch(s: Vec3, factor: Vec3): Vec3
  {
    Vec3(s.x * factor.x, s.y * factor.y, s.z * factor.z)
  }

  /** Two `multiply_scale` calls accumulate: the result is scaled by the product of both factors. */
  lemma StretchAccumulates(s: Vec3, a: Vec3, b: Vec3)
    ensures Stretch(Stretch(s, a), b) == Stretch(s, Stretch(a, b))
  {
    assert (s.x * a.x) * b.x == s.x * (a.x * b.x);
    assert (s.y * a.y) * b.y == s.y * (a.y * b.y);
    assert (s.z * a.z) * b.z == s.z * (a.z * b.z);
  }
}
