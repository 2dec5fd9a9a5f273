/**
 * Quaternions as values: the algebra the Quaternion class performs on its four components, and
 * the conversions to a rotation matrix and from Euler angles.
 */
module QuaternionMath {
  import opened Linear
  import EulerMath

  datatype Quat = Quat(x: real, y: real, z: real, w: real)

  /** The no-rotation quaternion, which a new Quaternion holds. */
  const IdentityQuat := Quat(0.0, 0.0, 0.0, 1.0)

  /** `Number.EPSILON`, 2^-52. */
  const Epsilon: real := 1.0 / 4503599627370496.0

  /**
   * The components `set` stores for four parsed inputs: an unparsable x, y or z becomes 0 and
   * an unparsable w becomes 1.
   */
  function FromParsed(x: Option<real>, y: Option<real>, z: Option<real>, w: Option<real>): (r: Quat)
    ensures x.Some? ==> r.x == x.value
    ensures y.Some? ==> r.y == y.value
    ensures z.Some? ==> r.z == z.value
    ensures w.Some? ==> r.w == w.value
    ensures x.None? ==> r.x == 0.0
    ensures y.None? ==> r.y == 0.0
    ensures z.None? ==> r.z == 0.0
    ensures w.None? ==> r.w == 1.0
  {
    Quat(if x.Some? then x.value else 0.0, if y.Some? then y.value else 0.0,
         if z.Some? then z.value else 0.0, if w.Some? then w.value else 1.0)
  }

  /** `conjugate` (and `invert`, which assumes unit length): the vector part is negated. */
  function Conjugate(q: Quat): Quat
  {
    Quat(-q.x, -q.y, -q.z, q.w)
  }

  function Neg(q: Quat): Quat
  {
    Quat(-q.x, -q.y, -q.z, -q.w)
  }

  function Dot(a: Quat, b: Quat): real
  {
    a.x * b.x + a.y * b.y + a.z * b.z + a.w * b.w
  }

  function LengthSq(q: Quat): real
  {
    q.x * q.x + q.y * q.y + q.z * q.z + q.w * q.w
  }

  function Length(math: Math, q: Quat): real
  {
    math.sqrt(LengthSq(q))
  }

  /** `multiply_quaternions(a, b)`: the Hamilton product a x b. */
  function Times(a: Quat, b: Quat): Quat
  {
    Quat(a.x * b.w + a.w * b.x + a.y * b.z - a.z * b.y,
         a.y * b.w + a.w * b.y + a.z * b.x - a.x * b.z,
         a.z * b.w + a.w * b.z + a.x * b.y - a.y * b.x,
         a.w * b.w - a.x * b.x - a.y * b.y - a.z * b.z)
  }

  /** `normalize`: a zero-length quaternion becomes the identity; otherwise divide by the length. */
  function Normalize(math: Math, q: Quat): Quat
  {
    var l := Length(math, q);
    if l == 0.0 then IdentityQuat
    else
      var k := 1.0 / l;
      Quat(q.x * k, q.y * k, q.z * k, q.w * k)
  }

  /** `s * a + t * b` componentwise. */
  function Combine(a: Quat, s: real, b: Quat, t: real): Quat
  {
    Quat(s * a.x + t * b.x, s * a.y + t * b.y, s * a.z + t * b.z, s * a.w + t * b.w)
  }

  /**
   * `slerp(end, t)` applied to `q`: t = 0 keeps q, t = 1 copies end; otherwise the nearer of end
   * and -end is chosen, equal rotations keep q, a tiny angle falls back to a normalized linear
   * interpolation, and the general case weighs both ends by sines of the half angle.
   */
  function Slerp(math: Math, q: Quat, end: Quat, t: real): Quat
    requires SqrtLaw(math)
  {
    if t == 0.0 then q
    else if t == 1.0 then end
    else
      var d := Dot(q, end);
      if d < 0.0 then SlerpTowards(math, q, Neg(end), -d, t)
      else SlerpTowards(math, q, end, d, t)
  }

  /** The part of `slerp` after the end has been chosen, given the cosine of the half angle. */
  function SlerpTowards(math: Math, q: Quat, target: Quat, cosHalf: real, t: real): Quat
    requires SqrtLaw(math)
  {
    if cosHalf >= 1.0 then q
    else
      var sqrSin := 1.0 - cosHalf * cosHalf;
      if sqrSin <= Epsilon then Normalize(math, Combine(q, 1.0 - t, target, t))
      else
        var sinHalf := math.sqrt(sqrSin);
        assert sinHalf * sinHalf == sqrSin;
        var half := math.atan2(sinHalf, cosHalf);
        Combine(q, math.sin((1.0 - t) * half) / sinHalf, target, math.sin(t * half) / sinHalf)
  }

  /** `equal_with_tolerance`: every component differs by strictly less than the tolerance. */
  predicate EqualWithTolerance(a: Quat, b: Quat, tolerance: Option<real>)
  {
    var tol := if tolerance.Some? then tolerance.value else AlmostZero;
    Abs(a.x - b.x) < tol && Abs(a.y - b.y) < tol && Abs(a.z - b.z) < tol && Abs(a.w - b.w) < tol
  }

  /** `equal`: tolerant when a non-zero tolerance is given, exact otherwise. */
  predicate Equal(a: Quat, b: Quat, tolerance: Option<real>)
  {
    if tolerance.Some? && tolerance.value != 0.0 then EqualWithTolerance(a, b, tolerance)
    else b.x == a.x && b.y == a.y && b.z == a.z && b.w == a.w
  }

  /** `to_matrix`: the forward rotation matrix, rows are the images of the basis vectors. */
  function ToMatrix(q: Quat): Mat4
  {
    var x2, y2, z2 := q.x + q.x, q.y + q.y, q.z + q.z;
    var xx, xy, xz := q.x * x2, q.x * y2, q.x * z2;
    var yy, yz, zz := q.y * y2, q.y * z2, q.z * z2;
    var wx, wy, wz := q.w * x2, q.w * y2, q.w * z2;
    Identity4.(xx := 1.0 - (yy + zz), xy := xy + wz, xz := xz - wy,
               yx := xy - wz, yy := 1.0 - (xx + zz), yz := yz + wx,
               zx := xz + wy, zy := yz - wx, zz := 1.0 - (xx + yy))
  }

  /** `rotate_vector`: q v q*, written out as the source computes it. */
  function RotateVector(q: Quat, v: Vec3): Vec3
  {
    var ix := q.w * v.x + q.y * v.z - q.z * v.y;
    var iy := q.w * v.y + q.z * v.x - q.x * v.z;
    var iz := q.w * v.z + q.x * v.y - q.y * v.x;
    var iw := -q.x * v.x - q.y * v.y - q.z * v.z;
    Vec3(ix * q.w + iw * -q.x + iy * -q.z - iz * -q.y,
         iy * q.w + iw * -q.y + iz * -q.x - ix * -q.z,
         iz * q.w + iw * -q.z + ix * -q.y - iy * -q.x)
  }

  /**
   * `set_fron_euler`: the quaternion of the Euler angles for each order, from the half-angle
   * sines and cosines; an unknown order leaves `current` as it is.
   */
  function FromEuler(math: Math, e: EulerMath.Angles, current: Quat): Quat
  {
    var c1, c2, c3 := math.cos(e.x / 2.0), math.cos(e.y / 2.0), math.cos(e.z / 2.0);
    var s1, s2, s3 := math.sin(e.x / 2.0), math.sin(e.y / 2.0), math.sin(e.z / 2.0);
    var xa, xb := s1 * c2 * c3, c1 * s2 * s3;
    var ya, yb := c1 * s2 * c3, s1 * c2 * s3;
    var za, zb := c1 * c2 * s3, s1 * s2 * c3;
    var wa, wb := c1 * c2 * c3, s1 * s2 * s3;
    if e.order == "XYZ" then Quat(xa + xb, ya - yb, za + zb, wa - wb)
    else if e.order == "YXZ" then Quat(xa + xb, ya - yb, za - zb, wa + wb)
    else if e.order == "ZXY" then Quat(xa - xb, ya + yb, za + zb, wa - wb)
    else if e.order == "ZYX" then Quat(xa - xb, ya + yb, za - zb, wa + wb)
    else if e.order == "YZX" then Quat(xa + xb, ya + yb, za - zb, wa - wb)
    else if e.order == "XZY" then Quat(xa - xb, ya - yb, za + zb, wa + wb)
    else current
  }

  // ---------------------------------------------------------------------------------------
  // Algebra
  // ---------------------------------------------------------------------------------------

  /** Conjugating twice restores the quaternion. */
  lemma ConjugateInvolution(q: Quat)
    ensures Conjugate(Conjugate(q)) == q
  {
  }

  /** The product worked through in the test suite: (4,-3,-8,5) x (2,3,4,5) = (42,-32,-2,58). */
  lemma TimesExample()
    ensures Times(Quat(4.0, -3.0, -8.0, 5.0), Quat(2.0, 3.0, 4.0, 5.0)) == Quat(42.0, -32.0, -2.0, 58.0)
  {
  }

  /** The identity quaternion is neutral on both sides. */
  lemma TimesIdentity(q: Quat)
    ensures Times(q, IdentityQuat) == q && Times(IdentityQuat, q) == q
  {
  }

  /** The product is not commutative: i x j = k but j x i = -k. */
  lemma TimesNotCommutative()
    ensures Times(Quat(1.0, 0.0, 0.0, 0.0), Quat(0.0, 1.0, 0.0, 0.0)) == Quat(0.0, 0.0, 1.0, 0.0)
    ensures Times(Quat(0.0, 1.0, 0.0, 0.0), Quat(1.0, 0.0, 0.0, 0.0)) == Quat(0.0, 0.0, -1.0, 0.0)
  {
    var i, j := Quat(1.0, 0.0, 0.0, 0.0), Quat(0.0, 1.0, 0.0, 0.0);
    var ij, ji := Times(i, j), Times(j, i);
    assert ij.x == 0.0 && ij.y == 0.0 && ij.z == 1.0 && ij.w == 0.0;
    assert ji.x == 0.0 && ji.y == 0.0 && ji.z == -1.0 && ji.w == 0.0;
  }

  /** A quaternion times its conjugate is the real quaternion of its squared length. */
  lemma TimesConjugate(q: Quat)
    ensures Times(q, Conjugate(q)) == Quat(0.0, 0.0, 0.0, LengthSq(q))
  {
  }

  lemma LengthSqNonNegative(q: Quat)
    ensures 0.0 <= LengthSq(q)
  {
    assert q.x * q.x >= 0.0 && q.y * q.y >= 0.0 && q.z * q.z >= 0.0 && q.w * q.w >= 0.0;
  }

  /** `normalize` yields unit length whenever the length is non-zero. */
  lemma NormalizeUnit(math: Math, q: Quat)
    requires SqrtLaw(math) && Length(math, q) != 0.0
    ensures LengthSq(Normalize(math, q)) == 1.0
  {
    var d := LengthSq(q);
    LengthSqNonNegative(q);
    var l := math.sqrt(d);
    assert l * l == d;
    var k := 1.0 / l;
    assert k * l == 1.0;
    var n := Normalize(math, q);
    assert n == Quat(q.x * k, q.y * k, q.z * k, q.w * k);
    calc {
      LengthSq(n);
      (q.x * k) * (q.x * k) + (q.y * k) * (q.y * k) + (q.z * k) * (q.z * k) + (q.w * k) * (q.w * k);
      k * k * d;
      k * k * (l * l);
      (k * l) * (k * l);
      1.0;
    }
  }

  /** The zero quaternion normalizes to the identity. */
  lemma NormalizeZero(math: Math)
    requires SqrtLaw(math)
    ensures Normalize(math, Quat(0.0, 0.0, 0.0, 0.0)) == IdentityQuat
  {
  }

  /** A unit quaternion is left unchanged by `normalize`. */
  lemma NormalizeUnitIsIdentity(math: Math, q: Quat)
    requires SqrtLaw(math) && LengthSq(q) == 1.0
    ensures Normalize(math, q) == q
  {
  }

  // ---------------------------------------------------------------------------------------
  // Slerp
  // ---------------------------------------------------------------------------------------

  /** `slerp(end, 0)` leaves the quaternion untouched and `slerp(end, 1)` yields `end`. */
  lemma SlerpEnds(math: Math, q: Quat, end: Quat)
    requires SqrtLaw(math)
    ensures Slerp(math, q, end, 0.0) == q
    ensures Slerp(math, q, end, 1.0) == end
  {
  }

  /**
   * Slerp does not tell `end` from `-end` (both stand for the same rotation) once the dot product
   * is non-zero: the nearer of the two is always used.
   */
  lemma SlerpSignOfEnd(math: Math, q: Quat, end: Quat, t: real)
    requires SqrtLaw(math) && t != 1.0 && Dot(q, end) != 0.0
    ensures Slerp(math, q, Neg(end), t) == Slerp(math, q, end, t)
  {
    assert Neg(Neg(end)) == end;
    var d, e := Dot(q, end), Dot(q, Neg(end));
    assert e == -d;
    if t != 0.0 {
      if d < 0.0 {
        assert Slerp(math, q, Neg(end), t) == SlerpTowards(math, q, Neg(end), e, t);
      } else {
        assert Slerp(math, q, Neg(end), t) == SlerpTowards(math, q, end, -e, t);
      }
    }
  }

  /** Interpolating a unit quaternion towards itself keeps it. */
  lemma SlerpToSelf(math: Math, q: Quat, t: real)
    requires SqrtLaw(math) && LengthSq(q) == 1.0
    ensures Slerp(math, q, q, t) == q
  {
    assert Dot(q, q) == LengthSq(q);
  }

  // ---------------------------------------------------------------------------------------
  // Equality
  // ---------------------------------------------------------------------------------------

  /** Without a tolerance `equal` is exactly componentwise equality. */
  lemma EqualExact(a: Quat, b: Quat)
    ensures Equal(a, b, None) <==> a == b
    ensures Equal(a, b, Some(0.0)) <==> a == b
  {
  }

  /** Equal quaternions are tolerance-equal exactly when the tolerance is positive. */
  lemma EqualWithToleranceReflexive(q: Quat, tolerance: Option<real>)
    ensures EqualWithTolerance(q, q, tolerance) <==> (tolerance.None? || tolerance.value > 0.0)
  {
  }

  /** Tolerance-equality is symmetric. */
  lemma EqualWithToleranceSymmetric(a: Quat, b: Quat, tolerance: Option<real>)
    ensures EqualWithTolerance(a, b, tolerance) <==> EqualWithTolerance(b, a, tolerance)
  {
    assert Abs(a.x - b.x) == Abs(b.x - a.x) && Abs(a.y - b.y) == Abs(b.y - a.y);
    assert Abs(a.z - b.z) == Abs(b.z - a.z) && Abs(a.w - b.w) == Abs(b.w - a.w);
  }

  /** A larger tolerance accepts everything a smaller one accepts. */
  lemma EqualWithToleranceMonotone(a: Quat, b: Quat, t1: real, t2: real)
    requires t1 <= t2 && EqualWithTolerance(a, b, Some(t1))
    ensures EqualWithTolerance(a, b, Some(t2))
  {
  }

  // ---------------------------------------------------------------------------------------
  // Rotation
  // ---------------------------------------------------------------------------------------

  /** The identity quaternion rotates nothing, and its matrix is the identity matrix. */
  lemma IdentityRotation(v: Vec3)
    ensures RotateVector(IdentityQuat, v) == v
    ensures ToMatrix(IdentityQuat) == Identity4
  {
  }

  /** q and -q give the same rotation matrix. */
  lemma ToMatrixOfNeg(q: Quat)
    ensures ToMatrix(Neg(q)) == ToMatrix(q)
  {
  }

  /** For a unit quaternion, `rotate_vector` agrees with rotating by `to_matrix()`. */
  lemma RotateVectorMatchesMatrix(q: Quat, v: Vec3)
    requires LengthSq(q) == 1.0
    ensures RotateVector(q, v) == RotateByMatrix(v, ToMatrix(q))
  {
    RotateVectorExpanded(q.x, q.y, q.z, q.w, v.x, v.y, v.z);
  }

  /** `RotateVectorMatchesMatrix` written out over the seven components. */
  lemma RotateVectorExpanded(x: real, y: real, z: real, w: real, vx: real, vy: real, vz: real)
    requires x * x + y * y + z * z + w * w == 1.0
    ensures
      var ix := w * vx + y * vz - z * vy;
      var iy := w * vy + z * vx - x * vz;
      var iz := w * vz + x * vy - y * vx;
      var iw := -x * vx - y * vy - z * vz;
      var x2, y2, z2 := x + x, y + y, z + z;
      && ix * w + iw * -x + iy * -z - iz * -y
         == vx * (1.0 - (y * y2 + z * z2)) + vy * (x * y2 - w * z2) + vz * (x * z2 + w * y2)
      && iy * w + iw * -y + iz * -x - ix * -z
         == vx * (x * y2 + w * z2) + vy * (1.0 - (x * x2 + z * z2)) + vz * (y * z2 - w * x2)
      && iz * w + iw * -z + ix * -y - iy * -x
         == vx * (x * z2 - w * y2) + vy * (y * z2 + w * x2) + vz * (1.0 - (x * x2 + y * y2))
  {
    var n := x * x + y * y + z * z + w * w;
    assert vx * n == vx && vy * n == vy && vz * n == vz;
  }

  // ---------------------------------------------------------------------------------------
  // From Euler angles
  // ---------------------------------------------------------------------------------------

  /** Zero Euler angles give the identity quaternion for every known order. */
  lemma FromEulerOfZeroAngles(math: Math, order: string, current: Quat)
    requires TrigAtZero(math) && EulerMath.KnownOrder(order)
    ensures FromEuler(math, EulerMath.Angles(0.0, 0.0, 0.0, order), current) == IdentityQuat
  {
  }

  /** An unknown order leaves the quaternion as it was. */
  lemma FromEulerUnknownOrder(math: Math, e: EulerMath.Angles, current: Quat)
    requires !EulerMath.KnownOrder(e.order)
    ensures FromEuler(math, e, current) == current
  {
  }
}
