/**
 * Euler angles as values: three angles in radians plus one of six rotation orders, and the two
 * conversions the Euler class performs — from a rotation matrix (`set_from_matrix`) and to one
 * (`to_matrix`).
 */
module EulerMath {
  import opened Linear

  /** The order a new Euler starts with. */
  const DefaultOrder: string := "ZYX"

  /** The supported orders, in the sequence the class publishes them. */
  const RotationOrders: seq<string> := ["XYZ", "YZX", "ZXY", "XZY", "YXZ", "ZYX"]

  predicate KnownOrder(order: string)
  {
    order in RotationOrders
  }

  /** A string naming each of the three axes exactly once. */
  predicate IsAxisPermutation(order: string)
  {
    |order| == 3 && 'X' in order && 'Y' in order && 'Z' in order
  }

  datatype Angles = Angles(x: real, y: real, z: real, order: string)

  /** JavaScript `order || current`: an absent or empty order falls back to the current one. */
  function ChooseOrder(order: Option<string>, current: string): (r: string)
    ensures order.Some? && order.value != "" ==> r == order.value
    ensures order.None? || order.value == "" ==> r == current
  {
    if order.Some? && order.value != "" then order.value else current
  }

  /** `Math.max(lo, Math.min(hi, v))`. */
  function Clamp(v: real, lo: real, hi: real): (r: real)
    requires lo <= hi
    ensures lo <= r <= hi
    ensures lo <= v <= hi ==> r == v
    ensures v < lo ==> r == lo
    ensures hi < v ==> r == hi
  {
    var upper := if hi < v then hi else v;
    if upper < lo then lo else upper
  }

  /** Magnitude from which the pivot entry is treated as gimbal lock. */
  const GimbalThreshold: real := 0.9999999

  /**
   * `set_from_matrix`: the angles extracted from the upper 3x3 block of `m` for the chosen
   * order. An unknown order leaves the angles as they were; the chosen order is stored in any
   * case.
   */
  function FromMatrix(math: Math, m: Mat4, order: Option<string>, current: Angles): Angles
  {
    var m11, m12, m13 := m.xx, m.yx, m.zx;
    var m21, m22, m23 := m.xy, m.yy, m.zy;
    var m31, m32, m33 := m.xz, m.yz, m.zz;
    var o := ChooseOrder(order, current.order);
    if o == "XYZ" then
      var y := math.asin(Clamp(m13, -1.0, 1.0));
      if Abs(m13) < GimbalThreshold then Angles(math.atan2(-m23, m33), y, math.atan2(-m12, m11), o)
      else Angles(math.atan2(m32, m22), y, 0.0, o)
    else if o == "YXZ" then
      var x := math.asin(-Clamp(m23, -1.0, 1.0));
      if Abs(m23) < GimbalThreshold then Angles(x, math.atan2(m13, m33), math.atan2(m21, m22), o)
      else Angles(x, math.atan2(-m31, m11), 0.0, o)
    else if o == "ZXY" then
      var x := math.asin(Clamp(m32, -1.0, 1.0));
      if Abs(m32) < GimbalThreshold then Angles(x, math.atan2(-m31, m33), math.atan2(-m12, m22), o)
      else Angles(x, 0.0, math.atan2(m21, m11), o)
    else if o == "ZYX" then
      var y := math.asin(-Clamp(m31, -1.0, 1.0));
      if Abs(m31) < GimbalThreshold then Angles(math.atan2(m32, m33), y, math.atan2(m21, m11), o)
      else Angles(0.0, y, math.atan2(-m12, m22), o)
    else if o == "YZX" then
      var z := math.asin(Clamp(m21, -1.0, 1.0));
      if Abs(m21) < GimbalThreshold then Angles(math.atan2(-m23, m22), math.atan2(-m31, m11), z, o)
      else Angles(0.0, math.atan2(m13, m33), z, o)
    else if o == "XZY" then
      var z := math.asin(-Clamp(m12, -1.0, 1.0));
      if Abs(m12) < GimbalThreshold then Angles(math.atan2(m32, m22), math.atan2(m13, m11), z, o)
      else Angles(math.atan2(-m23, m33), 0.0, z, o)
    else
      Angles(current.x, current.y, current.z, o)
  }

  /** The matrix entry whose arcsine gives the middle angle of `order`. */
  function Pivot(m: Mat4, order: string): real
    requires KnownOrder(order)
  {
    if order == "XYZ" then m.zx
    else if order == "YXZ" then m.zy
    else if order == "ZXY" then m.yz
    else if order == "ZYX" then m.xz
    else if order == "YZX" then m.xy
    else m.yx
  }

  /** +1 when the pivot angle is `asin(pivot)`, -1 when it is `asin(-pivot)`. */
  function PivotSign(order: string): real
  {
    if order in ["XYZ", "ZXY", "YZX"] then 1.0 else -1.0
  }

  /** The angle computed from the pivot entry. */
  function PivotAngle(a: Angles, order: string): real
  {
    if order in ["XYZ", "ZYX"] then a.y
    else if order in ["YXZ", "ZXY"] then a.x
    else a.z
  }

  /** The angle forced to zero under gimbal lock. */
  function LockedAngle(a: Angles, order: string): real
  {
    if order in ["XYZ", "YXZ"] then a.z
    else if order in ["ZXY", "XZY"] then a.y
    else a.x
  }

  /**
   * `to_matrix`: the forward (object to world) rotation of the angles, for each order, on a
   * freshly constructed matrix; an unknown order returns that matrix untouched.
   */
  function ToMatrix(math: Math, e: Angles): Mat4
  {
    var a, b := math.cos(e.x), math.sin(e.x);
    var c, d := math.cos(e.y), math.sin(e.y);
    var f0, f := math.cos(e.z), math.sin(e.z);
    var i := Identity4;
    if e.order == "XYZ" then
      var ae, af, be, bf := a * f0, a * f, b * f0, b * f;
      i.(xx := c * f0, yx := -c * f, zx := d,
         xy := af + be * d, yy := ae - bf * d, zy := -b * c,
         xz := bf - ae * d, yz := be + af * d, zz := a * c)
    else if e.order == "YXZ" then
      var ce, cf, de, df := c * f0, c * f, d * f0, d * f;
      i.(xx := ce + df * b, yx := de * b - cf, zx := a * d,
         xy := a * f, yy := a * f0, zy := -b,
         xz := cf * b - de, yz := df + ce * b, zz := a * c)
    else if e.order == "ZXY" then
      var ce, cf, de, df := c * f0, c * f, d * f0, d * f;
      i.(xx := ce - df * b, yx := -a * f, zx := de + cf * b,
         xy := cf + de * b, yy := a * f0, zy := df - ce * b,
         xz := -a * d, yz := b, zz := a * c)
    else if e.order == "ZYX" then
      var ae, af, be, bf := a * f0, a * f, b * f0, b * f;
      i.(xx := c * f0, yx := be * d - af, zx := ae * d + bf,
         xy := c * f, yy := bf * d + ae, zy := af * d - be,
         xz := -d, yz := b * c, zz := a * c)
    else if e.order == "YZX" then
      var ac, ad, bc, bd := a * c, a * d, b * c, b * d;
      i.(xx := c * f0, yx := bd - ac * f, zx := bc * f + ad,
         xy := f, yy := a * f0, zy := -b * f0,
         xz := -d * f0, yz := ad * f + bc, zz := ac - bd * f)
    else if e.order == "XZY" then
      var ac, ad, bc, bd := a * c, a * d, b * c, b * d;
      i.(xx := c * f0, yx := -f, zx := d * f0,
         xy := ac * f + bd, yy := a * f0, zy := ad * f - bc,
         xz := bc * f - ad, yz := b * f0, zz := bd * f + ac)
    else
      i
  }

  /** `equal_with_tolerance`: every angle differs by strictly less than the tolerance, same order. */
  predicate EqualWithTolerance(a: Angles, b: Angles, tolerance: Option<real>)
  {
    var tol := if tolerance.Some? then tolerance.value else AlmostZero;
    Abs(a.x - b.x) < tol && Abs(a.y - b.y) < tol && Abs(a.z - b.z) < tol && b.order == a.order
  }

  /** `equal`: tolerant when a non-zero tolerance is given, exact otherwise. */
  predicate Equal(a: Angles, b: Angles, tolerance: Option<real>)
  {
    if tolerance.Some? && tolerance.value != 0.0 then EqualWithTolerance(a, b, tolerance)
    else b.x == a.x && b.y == a.y && b.z == a.z && b.order == a.order
  }

  // ---------------------------------------------------------------------------------------
  // Properties
  // ---------------------------------------------------------------------------------------

  /** The six supported orders are exactly the arrangements of the three axis letters. */
  lemma KnownOrderIffPermutation(order: string)
    ensures KnownOrder(order) <==> IsAxisPermutation(order)
  {
    if IsAxisPermutation(order) {
      var a, b, c := order[0], order[1], order[2];
      assert order == [a, b, c];
      assert a in "XYZ" && b in "XYZ" && c in "XYZ" by {
        if a !in "XYZ" || b !in "XYZ" || c !in "XYZ" {
          // then only two positions are left for the three axis letters
          assert false;
        }
      }
    }
  }

  /** `set_from_matrix` always stores the chosen order, known or not. */
  lemma FromMatrixStoresOrder(math: Math, m: Mat4, order: Option<string>, current: Angles)
    ensures FromMatrix(math, m, order, current).order == ChooseOrder(order, current.order)
  {
  }

  /** With an unknown order `set_from_matrix` leaves the three angles as they were. */
  lemma FromMatrixUnknownOrder(math: Math, m: Mat4, order: Option<string>, current: Angles)
    requires !KnownOrder(ChooseOrder(order, current.order))
    ensures var r := FromMatrix(math, m, order, current);
      r.x == current.x && r.y == current.y && r.z == current.z
  {
  }

  /**
   * For every known order the pivot angle is the arcsine of the clamped pivot entry (with the
   * order's sign), so the arcsine argument always lies in [-1, 1].
   */
  lemma FromMatrixPivot(math: Math, m: Mat4, order: Option<string>, current: Angles)
    requires KnownOrder(ChooseOrder(order, current.order))
    ensures var o := ChooseOrder(order, current.order);
      exists c: real {:trigger math.asin(c)} :: -1.0 <= c <= 1.0 && PivotAngle(FromMatrix(math, m, order, current), o) == math.asin(c)
  {
    var o := ChooseOrder(order, current.order);
    var c := PivotSign(o) * Clamp(Pivot(m, o), -1.0, 1.0);
    assert PivotAngle(FromMatrix(math, m, order, current), o) == math.asin(c);
  }

  /** A pivot entry at or beyond +-1 saturates: the pivot angle is asin(+-1). */
  lemma FromMatrixSaturates(math: Math, m: Mat4, order: Option<string>, current: Angles)
    requires KnownOrder(ChooseOrder(order, current.order))
    ensures var o := ChooseOrder(order, current.order);
      var r := FromMatrix(math, m, order, current);
      && (Pivot(m, o) >= 1.0 ==> PivotAngle(r, o) == math.asin(PivotSign(o)))
      && (Pivot(m, o) <= -1.0 ==> PivotAngle(r, o) == math.asin(-PivotSign(o)))
  {
  }

  /** Under gimbal lock exactly the order's designated angle is set to zero. */
  lemma FromMatrixGimbalLock(math: Math, m: Mat4, order: Option<string>, current: Angles)
    requires KnownOrder(ChooseOrder(order, current.order))
    requires Abs(Pivot(m, ChooseOrder(order, current.order))) >= GimbalThreshold
    ensures LockedAngle(FromMatrix(math, m, order, current), ChooseOrder(order, current.order)) == 0.0
  {
  }

  /** `to_matrix` with an unknown order is the freshly constructed (identity) matrix. */
  lemma ToMatrixUnknownOrder(math: Math, e: Angles)
    requires !KnownOrder(e.order)
    ensures ToMatrix(math, e) == Identity4
  {
  }

  /** Whatever the order, `to_matrix` only fills the rotation block: no translation, w = 1. */
  lemma ToMatrixIsRotationBlock(math: Math, e: Angles)
    ensures var m := ToMatrix(math, e);
      m.xw == 0.0 && m.yw == 0.0 && m.zw == 0.0 && m.wx == 0.0 && m.wy == 0.0 && m.wz == 0.0 && m.ww == 1.0
  {
  }

  /** Zero angles give the identity rotation for every order, given sin 0 = 0 and cos 0 = 1. */
  lemma ToMatrixOfZeroAngles(math: Math, order: string)
    requires TrigAtZero(math)
    ensures ToMatrix(math, Angles(0.0, 0.0, 0.0, order)) == Identity4
  {
  }

  /** Without a tolerance `equal` is exact equality of the angles and the order. */
  lemma EqualExact(a: Angles, b: Angles)
    ensures Equal(a, b, None) <==> a == b
  {
  }

  /** Tolerance-equality never identifies two different orders, whatever the tolerance. */
  lemma EqualWithToleranceNeedsOrder(a: Angles, b: Angles, tolerance: Option<real>)
    requires a.order != b.order
    ensures !Equal(a, b, tolerance) && !EqualWithTolerance(a, b, tolerance)
  {
  }

  /** A value is tolerance-equal to itself exactly when the tolerance is positive. */
  lemma EqualWithToleranceReflexive(a: Angles, tolerance: Option<real>)
    ensures EqualWithTolerance(a, a, tolerance) <==> (tolerance.None? || tolerance.value > 0.0)
  {
  }
}
