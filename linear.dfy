/**
 * The linear-algebra primitives the placement library consumes from its external client
 * library (three-vectors, 4x4 matrices with fields xx..ww, rotation about an axis, tolerant
 * equality) and the host's `Math` object. Only their observable effect is modelled here.
 */
module Linear {

  datatype Option<+T> = None | Some(value: T)

  /** How an operation that the source lets throw ended: normally, or with the error's message. */
  datatype Outcome = Success | Failure(message: string)

  function Abs(v: real): (r: real)
    ensures 0.0 <= r && (r == v || r == -v)
  {
    if v < 0.0 then -v else v
  }

  /** Default tolerance of the client library's `equal_with_tolerance` (ALMOST_ZERO, 10e-5). */
  const AlmostZero: real := 0.0001

  // ---------------------------------------------------------------------------------------
  // Three-vectors (the client library's Vector3, and Vector4 used as a point)
  // ---------------------------------------------------------------------------------------

  datatype Vec3 = Vec3(x: real, y: real, z: real)

  const Zero3 := Vec3(0.0, 0.0, 0.0)
  const XAxis := Vec3(1.0, 0.0, 0.0)
  const YAxis := Vec3(0.0, 1.0, 0.0)
  const ZAxis := Vec3(0.0, 0.0, 1.0)

  function Add(a: Vec3, b: Vec3): Vec3 { Vec3(a.x + b.x, a.y + b.y, a.z + b.z) }
  function Sub(a: Vec3, b: Vec3): Vec3 { Vec3(a.x - b.x, a.y - b.y, a.z - b.z) }
  function Scale(a: Vec3, k: real): Vec3 { Vec3(a.x * k, a.y * k, a.z * k) }
  function Dot(a: Vec3, b: Vec3): real { a.x * b.x + a.y * b.y + a.z * b.z }
  function Cross(a: Vec3, b: Vec3): Vec3
  {
    Vec3(a.y * b.z - a.z * b.y, a.z * b.x - a.x * b.z, a.x * b.y - a.y * b.x)
  }

  /** `equal_with_tolerance` of two vectors: every component differs by strictly less than `tol`. */
  predicate NearlyEqual(a: Vec3, b: Vec3, tol: real)
  {
    Abs(a.x - b.x) < tol && Abs(a.y - b.y) < tol && Abs(a.z - b.z) < tol
  }

  predicate Orthonormal(x: Vec3, y: Vec3, z: Vec3)
  {
    && Dot(x, x) == 1.0 && Dot(y, y) == 1.0 && Dot(z, z) == 1.0
    && Dot(x, y) == 0.0 && Dot(x, z) == 0.0 && Dot(y, z) == 0.0
  }

  // ---------------------------------------------------------------------------------------
  // 4x4 matrices. Field `ab` is row a, column b; a point is a row vector multiplied on the left.
  // ---------------------------------------------------------------------------------------

  datatype Mat4 = Mat4(xx: real, xy: real, xz: real, xw: real,
                       yx: real, yy: real, yz: real, yw: real,
                       zx: real, zy: real, zz: real, zw: real,
                       wx: real, wy: real, wz: real, ww: real)

  /** A freshly constructed client matrix. */
  const Identity4 := Mat4(1.0, 0.0, 0.0, 0.0,
                          0.0, 1.0, 0.0, 0.0,
                          0.0, 0.0, 1.0, 0.0,
                          0.0, 0.0, 0.0, 1.0)

  /** `Vector3.rotate(m)`: the row vector times the upper-left 3x3 block. */
  function RotateByMatrix(v: Vec3, m: Mat4): Vec3
  {
    Vec3(v.x * m.xx + v.y * m.yx + v.z * m.zx,
         v.x * m.xy + v.y * m.yy + v.z * m.zy,
         v.x * m.xz + v.y * m.yz + v.z * m.zz)
  }

  /** `Vector3.rotate_transpose(m)`: the row vector times the transposed 3x3 block. */
  function RotateTransposeByMatrix(v: Vec3, m: Mat4): Vec3
  {
    Vec3(v.x * m.xx + v.y * m.xy + v.z * m.xz,
         v.x * m.yx + v.y * m.yy + v.z * m.yz,
         v.x * m.zx + v.y * m.zy + v.z * m.zz)
  }

  /** A point (w = 1) transformed by an affine matrix: rotated, then moved by the w row. */
  function TransformPoint(v: Vec3, m: Mat4): Vec3
  {
    Add(RotateByMatrix(v, m), Vec3(m.wx, m.wy, m.wz))
  }

  /** `inv` undoes `m` on every point: what the client library's matrix inverse delivers. */
  ghost predicate UndoesPoints(m: Mat4, inv: Mat4)
  {
    forall p :: TransformPoint(TransformPoint(p, m), inv) == p
  }

  /** `Matrix4x4.equal_with_tolerance`: all sixteen entries within `tol`. */
  predicate MatNearlyEqual(a: Mat4, b: Mat4, tol: real)
  {
    && Abs(a.xx - b.xx) < tol && Abs(a.xy - b.xy) < tol && Abs(a.xz - b.xz) < tol && Abs(a.xw - b.xw) < tol
    && Abs(a.yx - b.yx) < tol && Abs(a.yy - b.yy) < tol && Abs(a.yz - b.yz) < tol && Abs(a.yw - b.yw) < tol
    && Abs(a.zx - b.zx) < tol && Abs(a.zy - b.zy) < tol && Abs(a.zz - b.zz) < tol && Abs(a.zw - b.zw) < tol
    && Abs(a.wx - b.wx) < tol && Abs(a.wy - b.wy) < tol && Abs(a.wz - b.wz) < tol && Abs(a.ww - b.ww) < tol
  }

  // ---------------------------------------------------------------------------------------
  // The host's Math functions. They are parameters: nothing is assumed about them except the
  // laws a lemma states as a hypothesis.
  // ---------------------------------------------------------------------------------------

  datatype Math = Math(sqrt: real -> real, sin: real -> real, cos: real -> real,
                       tan: real -> real, asin: real -> real, acos: real -> real,
                       atan2: (real, real) -> real)

  /** `Math.sqrt` is the non-negative square root on non-negative arguments, with sqrt 0 = 0 and sqrt 1 = 1. */
  ghost predicate SqrtLaw(math: Math)
  {
    && math.sqrt(0.0) == 0.0
    && math.sqrt(1.0) == 1.0
    && forall v: real :: 0.0 <= v ==> 0.0 <= math.sqrt(v) && math.sqrt(v) * math.sqrt(v) == v
  }

  predicate TrigAtZero(math: Math)
  {
    math.sin(0.0) == 0.0 && math.cos(0.0) == 1.0
  }

  ghost predicate Pythagorean(math: Math)
  {
    forall t: real :: math.sin(t) * math.sin(t) + math.cos(t) * math.cos(t) == 1.0
  }

  function Length(math: Math, v: Vec3): real
  {
    math.sqrt(Dot(v, v))
  }

  function Distance(math: Math, a: Vec3, b: Vec3): real
  {
    Length(math, Sub(a, b))
  }

  /** `Vector3.normalize`: divides by the length; a zero-length vector is left as it is. */
  function Normalize(math: Math, v: Vec3): Vec3
  {
    var len := Length(math, v);
    if len == 0.0 then v else Scale(v, 1.0 / len)
  }

  /**
   * `v.rotate(m)` after `m.set_rotation(axis, angle)`: the right-handed rotation of `v` about
   * `axis` (Rodrigues' formula; the axis is expected to have unit length).
   */
  function Rotate(math: Math, axis: Vec3, angle: real, v: Vec3): Vec3
  {
    var c, s := math.cos(angle), math.sin(angle);
    Add(Add(Scale(v, c), Scale(Cross(axis, v), s)), Scale(axis, (1.0 - c) * Dot(axis, v)))
  }

  // ---------------------------------------------------------------------------------------
  // Facts about the primitives
  // ---------------------------------------------------------------------------------------

  lemma DotSelfNonNegative(v: Vec3)
    ensures 0.0 <= Dot(v, v)
  {
    assert v.x * v.x >= 0.0 && v.y * v.y >= 0.0 && v.z * v.z >= 0.0;
  }

  /** A product of two numbers of the same strict sign is positive. */
  lemma SameSignProduct(a: real, b: real)
    requires (a > 0.0 && b > 0.0) || (a < 0.0 && b < 0.0)
    ensures a * b > 0.0
  {
    if a < 0.0 {
      assert a * b == (-a) * (-b);
    }
  }

  /** A number times itself, returned as `p`: never negative, and positive unless the number is 0. */
  lemma SelfProduct(a: real, b: real) returns (p: real)
    requires a == b
    ensures p == a * b && 0.0 <= p
    ensures a != 0.0 ==> 0.0 < p
  {
    p := a * b;
    if a != 0.0 {
      SameSignProduct(a, b);
    }
  }

  /** Only the zero vector has a zero dot product with itself. */
  lemma DotSelfPositive(v: Vec3)
    ensures v != Zero3 ==> Dot(v, v) > 0.0
  {
    var a := SelfProduct(v.x, v.x);
    var b := SelfProduct(v.y, v.y);
    var c := SelfProduct(v.z, v.z);
    assert Dot(v, v) == a + b + c;
  }

  /** Two points are at distance 0 exactly when they coincide, and otherwise at a positive distance. */
  lemma DistanceApart(math: Math, a: Vec3, b: Vec3)
    requires SqrtLaw(math)
    ensures 0.0 <= Distance(math, a, b)
    ensures Distance(math, a, b) == 0.0 <==> a == b
  {
    var v := Sub(a, b);
    DotSelfNonNegative(v);
    DotSelfPositive(v);
    assert a == b <==> v == Zero3;
    var s := math.sqrt(Dot(v, v));
    assert 0.0 <= s && s * s == Dot(v, v);
  }

  /** A vector of non-zero length normalizes to unit length. */
  lemma NormalizeUnit(math: Math, v: Vec3)
    requires SqrtLaw(math) && Length(math, v) != 0.0
    ensures Dot(Normalize(math, v), Normalize(math, v)) == 1.0
  {
    var d := Dot(v, v);
    DotSelfNonNegative(v);
    var len := math.sqrt(d);
    assert len * len == d;
    var k := 1.0 / len;
    ScaleDot(v, v, k, k);
    assert k * len == 1.0;
    assert k * k * (len * len) == (k * len) * (k * len);
  }

  /** Normalizing and scaling back by the length restores a non-zero vector. */
  lemma NormalizeTimesLength(math: Math, v: Vec3)
    requires Length(math, v) != 0.0
    ensures Scale(Normalize(math, v), Length(math, v)) == v
  {
    var len := Length(math, v);
    assert (1.0 / len) * len == 1.0;
  }

  /** The cross product is orthogonal to both factors. */
  lemma CrossOrthogonal(a: Vec3, b: Vec3)
    ensures Dot(Cross(a, b), a) == 0.0 && Dot(Cross(a, b), b) == 0.0
  {
  }

  /** Lagrange's identity. */
  lemma CrossDot(a: Vec3, b: Vec3, c: Vec3, d: Vec3)
    ensures Dot(Cross(a, b), Cross(c, d)) == Dot(a, c) * Dot(b, d) - Dot(a, d) * Dot(b, c)
  {
  }

  lemma ScaleDot(a: Vec3, b: Vec3, k: real, l: real)
    ensures Dot(Scale(a, k), Scale(b, l)) == k * l * Dot(a, b)
  {
  }

  /** Rotating by a zero angle changes nothing when sin 0 = 0 and cos 0 = 1. */
  lemma RotateByZero(math: Math, axis: Vec3, v: Vec3)
    requires TrigAtZero(math)
    ensures Rotate(math, axis, 0.0, v) == v
  {
  }

  /** A unit axis is left where it is by a rotation about itself. */
  lemma RotateFixesAxis(math: Math, axis: Vec3, angle: real)
    requires Dot(axis, axis) == 1.0
    ensures Rotate(math, axis, angle, axis) == axis
  {
  }

  lemma DotAddLeft(a: Vec3, b: Vec3, c: Vec3)
    ensures Dot(Add(a, b), c) == Dot(a, c) + Dot(b, c)
  {
  }

  lemma DotScaleLeft(a: Vec3, k: real, c: Vec3)
    ensures Dot(Scale(a, k), c) == k * Dot(a, c)
  {
  }

  lemma DotSymmetric(a: Vec3, b: Vec3)
    ensures Dot(a, b) == Dot(b, a)
  {
  }

  /** Dot product with a three-term combination on the right. */
  lemma DotCombinationRight(v: Vec3, p: Vec3, q: Vec3, r: Vec3, a: real, b: real, c: real)
    ensures Dot(v, Add(Add(Scale(p, a), Scale(q, b)), Scale(r, c))) == a * Dot(v, p) + b * Dot(v, q) + c * Dot(v, r)
  {
    var w := Add(Add(Scale(p, a), Scale(q, b)), Scale(r, c));
    DotSymmetric(v, w);
    DotAddLeft(Add(Scale(p, a), Scale(q, b)), Scale(r, c), v);
    DotAddLeft(Scale(p, a), Scale(q, b), v);
    DotScaleLeft(p, a, v);
    DotScaleLeft(q, b, v);
    DotScaleLeft(r, c, v);
    DotSymmetric(p, v);
    DotSymmetric(q, v);
    DotSymmetric(r, v);
  }

  lemma RotateUnfold(math: Math, axis: Vec3, angle: real, v: Vec3)
    ensures Rotate(math, axis, angle, v)
         == Add(Add(Scale(v, math.cos(angle)), Scale(Cross(axis, v), math.sin(angle))),
                Scale(axis, (1.0 - math.cos(angle)) * Dot(axis, v)))
  {
  }

  /** Dot product with a three-term combination on the left. */
  lemma DotCombinationLeft(p: Vec3, q: Vec3, r: Vec3, a: real, b: real, c: real, v: Vec3)
    ensures Dot(Add(Add(Scale(p, a), Scale(q, b)), Scale(r, c)), v) == a * Dot(p, v) + b * Dot(q, v) + c * Dot(r, v)
  {
    DotAddLeft(Add(Scale(p, a), Scale(q, b)), Scale(r, c), v);
    DotAddLeft(Scale(p, a), Scale(q, b), v);
    DotScaleLeft(p, a, v);
    DotScaleLeft(q, b, v);
    DotScaleLeft(r, c, v);
  }

  /** The two triple products that appear in a rotated dot product cancel. */
  lemma TripleProductsCancel(a: Vec3, u: Vec3, v: Vec3)
    ensures Dot(u, Cross(a, v)) + Dot(Cross(a, u), v) == 0.0
  {
    assert Dot(u, Cross(a, v)) == u.x * (a.y * v.z - a.z * v.y) + u.y * (a.z * v.x - a.x * v.z) + u.z * (a.x * v.y - a.y * v.x);
    assert Dot(Cross(a, u), v) == (a.y * u.z - a.z * u.y) * v.x + (a.z * u.x - a.x * u.z) * v.y + (a.x * u.y - a.y * u.x) * v.z;
  }

  /** The scalar identity behind `RotatePreservesDot`. */
  lemma RotationIdentity(c: real, s: real, k: real, uv: real, ucv: real, cuv: real, cucv: real,
                          au: real, av: real, ua: real, cua: real)
    requires s * s + c * c == 1.0 && k == 1.0 - c && ucv + cuv == 0.0 && cucv == uv - au * av
    requires ua == au && cua == 0.0
    ensures c * (c * uv + s * ucv + (k * av) * ua) + s * (c * cuv + s * cucv + (k * av) * cua) + (k * au) * av == uv
  {
    var m := au * av;
    calc {
      c * (c * uv + s * ucv + (k * av) * ua) + s * (c * cuv + s * cucv + (k * av) * cua) + (k * au) * av;
      c * (c * uv + s * ucv + (k * av) * au) + s * (c * cuv + s * cucv) + (k * au) * av;
      { assert c * (c * uv + s * ucv + (k * av) * au) == c * c * uv + c * s * ucv + c * k * m;
        assert s * (c * cuv + s * cucv) == c * s * cuv + s * s * cucv;
        assert (k * au) * av == k * m; }
      c * c * uv + c * s * ucv + c * k * m + c * s * cuv + s * s * cucv + k * m;
      { assert c * s * ucv + c * s * cuv == c * s * (ucv + cuv) == 0.0; }
      c * c * uv + c * k * m + s * s * cucv + k * m;
      c * c * uv + c * k * m + s * s * (uv - m) + k * m;
      { assert s * s * (uv - m) == s * s * uv - s * s * m; }
      (c * c + s * s) * uv + m * (c * k + k - s * s);
      { assert c * k + k == (c + 1.0) * (1.0 - c) == 1.0 - c * c == s * s; }
      uv;
    }
  }

  /** `RotationIdentity` over the dot products that appear when both rotated vectors are expanded. */
  lemma RotatedDotIdentity(c: real, s: real, k: real, uv: real, ucv: real, cuv: real, cucv: real,
                           au: real, av: real, ua: real, cua: real, xu: real, xcu: real, xa: real, left: real)
    requires s * s + c * c == 1.0 && k == 1.0 - c && ucv + cuv == 0.0 && cucv == uv - au * av
    requires ua == au && cua == 0.0 && xa == av
    requires xu == c * uv + s * ucv + (k * av) * ua
    requires xcu == c * cuv + s * cucv + (k * av) * cua
    requires left == c * xu + s * xcu + (k * au) * xa
    ensures left == uv
  {
    RotationIdentity(c, s, k, uv, ucv, cuv, cucv, au, av, ua, cua);
  }

  /** The dot products between the pieces of two rotated vectors. */
  lemma RotationPieces(axis: Vec3, u: Vec3, v: Vec3)
    ensures Dot(u, Cross(axis, v)) + Dot(Cross(axis, u), v) == 0.0
    ensures Dot(Cross(axis, u), Cross(axis, v)) == Dot(axis, axis) * Dot(u, v) - Dot(axis, u) * Dot(axis, v)
    ensures Dot(u, axis) == Dot(axis, u)
    ensures Dot(Cross(axis, u), axis) == 0.0
    ensures Dot(axis, Cross(axis, v)) == 0.0
  {
    TripleProductsCancel(axis, u, v);
    CrossDot(axis, u, axis, v);
    DotSymmetric(u, axis);
    CrossOrthogonal(axis, u);
    CrossOrthogonal(axis, v);
    DotSymmetric(axis, Cross(axis, v));
  }

  /** A rotation about a unit axis keeps every vector's component along the axis. */
  lemma RotateKeepsAxialComponent(math: Math, axis: Vec3, angle: real, v: Vec3)
    requires Dot(axis, axis) == 1.0
    ensures Dot(axis, Rotate(math, axis, angle, v)) == Dot(axis, v)
  {
    var c, s := math.cos(angle), math.sin(angle);
    DotRotatedRight(math, axis, angle, axis, v);
    RotationPieces(axis, v, v);
    assert ((1.0 - c) * Dot(axis, v)) * Dot(axis, axis) == (1.0 - c) * Dot(axis, v);
  }

  /** Dot product of any vector with a rotated one, expanded over the three terms of the rotation. */
  lemma DotRotatedRight(math: Math, axis: Vec3, angle: real, w: Vec3, v: Vec3)
    ensures var c, s := math.cos(angle), math.sin(angle);
      Dot(w, Rotate(math, axis, angle, v))
        == c * Dot(w, v) + s * Dot(w, Cross(axis, v)) + ((1.0 - c) * Dot(axis, v)) * Dot(w, axis)
  {
    RotateUnfold(math, axis, angle, v);
    var c, s := math.cos(angle), math.sin(angle);
    DotCombinationRight(w, v, Cross(axis, v), axis, c, s, (1.0 - c) * Dot(axis, v));
  }

  /** Dot product of a rotated vector with any vector, expanded over the three terms of the rotation. */
  lemma DotRotatedLeft(math: Math, axis: Vec3, angle: real, u: Vec3, w: Vec3)
    ensures var c, s := math.cos(angle), math.sin(angle);
      Dot(Rotate(math, axis, angle, u), w)
        == c * Dot(u, w) + s * Dot(Cross(axis, u), w) + ((1.0 - c) * Dot(axis, u)) * Dot(axis, w)
  {
    RotateUnfold(math, axis, angle, u);
    var c, s := math.cos(angle), math.sin(angle);
    DotCombinationLeft(u, Cross(axis, u), axis, c, s, (1.0 - c) * Dot(axis, u), w);
  }

  /** A rotation about a unit axis preserves dot products (hence lengths and angles). */
  lemma {:induction false} RotatePreservesDot(math: Math, axis: Vec3, angle: real, u: Vec3, v: Vec3)
    requires Pythagorean(math) && Dot(axis, axis) == 1.0
    ensures Dot(Rotate(math, axis, angle, u), Rotate(math, axis, angle, v)) == Dot(u, v)
  {
    var c, s := math.cos(angle), math.sin(angle);
    var cu, cv := Cross(axis, u), Cross(axis, v);
    var rv := Rotate(math, axis, angle, v);
    assert s * s + c * c == 1.0;
    RotationPieces(axis, u, v);
    DotRotatedLeft(math, axis, angle, u, rv);
    DotRotatedRight(math, axis, angle, u, v);
    DotRotatedRight(math, axis, angle, cu, v);
    RotateKeepsAxialComponent(math, axis, angle, v);
    RotatedDotIdentity(c, s, 1.0 - c, Dot(u, v), Dot(u, cv), Dot(cu, v), Dot(cu, cv), Dot(axis, u), Dot(axis, v),
                       Dot(u, axis), Dot(cu, axis), Dot(u, rv), Dot(cu, rv), Dot(axis, rv),
                       Dot(Rotate(math, axis, angle, u), rv));
  }
}
