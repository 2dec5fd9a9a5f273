/**
 * The Quaternion and Euler classes: mutable four- and three-component rotations whose methods
 * overwrite their components in place. Each method is specified by the value functions of
 * QuaternionMath and EulerMath applied to the state before the call.
 */
module Rotations {
  import opened Linear
  import QM = QuaternionMath
  import EM = EulerMath

  /** The client library's mutable three-vector, as far as `rotate_vector` uses it. */
  class Vector3 {
    var x: real
    var y: real
    var z: real

    function Value(): Vec3
      reads this
    {
      Vec3(x, y, z)
    }

    constructor (v: Vec3)
      ensures Value() == v
    {
      x, y, z := v.x, v.y, v.z;
    }
  }

  class Quaternion {
    var x: real
    var y: real
    var z: real
    var w: real

    function Value(): QM.Quat
      reads this
    {
      QM.Quat(x, y, z, w)
    }

    /** `new Quaternion()`: the identity rotation. */
    constructor ()
      ensures Value() == QM.IdentityQuat
    {
      x, y, z, w := 0.0, 0.0, 0.0, 1.0;
    }

    /**
     * `new Quaternion(x, y, z, w)` with parsed (possibly unparsable) components. A missing or NaN
     * first component leaves the identity: `undefined` takes the default path, and NaN sends
     * `set` to its object path, where every field of a number is undefined.
     */
    constructor FromParts(px: Option<real>, py: Option<real>, pz: Option<real>, pw: Option<real>)
      ensures px.Some? ==> Value() == QM.FromParsed(px, py, pz, pw)
      ensures px.None? ==> Value() == QM.IdentityQuat
    {
      var q := if px.Some? then QM.FromParsed(px, py, pz, pw) else QM.FromParsed(None, None, None, None);
      x, y, z, w := q.x, q.y, q.z, q.w;
    }

    /**
     * `set(x, y, z, w)`: a first argument that is a number selects the numeric path, where
     * unparsable y, z become 0 and an unparsable w becomes 1. A NaN first argument selects the
     * object path instead, which reads the undefined fields of a number: the identity.
     */
    method SetParts(px: Option<real>, py: Option<real>, pz: Option<real>, pw: Option<real>)
      modifies this
      ensures px.Some? ==> Value() == QM.FromParsed(px, py, pz, pw)
      ensures px.None? ==> Value() == QM.IdentityQuat
    {
      if px.Some? {
        SetFields(px, py, pz, pw);
      } else {
        SetFields(None, None, None, None);
      }
    }

    /** `set({x, y, z, w})` and the body of `set(array)`: each field parsed, with the NaN defaults. */
    method SetFields(px: Option<real>, py: Option<real>, pz: Option<real>, pw: Option<real>)
      modifies this
      ensures Value() == QM.FromParsed(px, py, pz, pw)
    {
      x := if px.Some? then px.value else 0.0;
      y := if py.Some? then py.value else 0.0;
      z := if pz.Some? then pz.value else 0.0;
      w := if pw.Some? then pw.value else 1.0;
    }

    /**
     * `new Quaternion(euler)`: the quaternion of the angles. The constructor sets no component
     * before converting, so only a known order gives a defined value.
     */
    constructor FromAngles(math: Math, e: EM.Angles)
      requires EM.KnownOrder(e.order)
      ensures Value() == QM.FromEuler(math, e, QM.IdentityQuat)
    {
      var q := QM.FromEuler(math, e, QM.IdentityQuat);
      x, y, z, w := q.x, q.y, q.z, q.w;
    }

    /** `set(array)`: needs at least four entries, otherwise it fails and changes nothing. */
    method SetFromArray(a: seq<Option<real>>) returns (r: Outcome)
      modifies this
      ensures r.Success? <==> |a| >= 4
      ensures r.Success? ==> Value() == QM.FromParsed(a[0], a[1], a[2], a[3])
      ensures r.Failure? ==> Value() == old(Value())
    {
      if |a| < 4 {
        return Failure("Array needs at least 4 elements.");
      }
      SetFields(a[0], a[1], a[2], a[3]);
      r := Success;
    }

    /** `set(quaternion)`: copies the four components. */
    method SetFromQuaternion(source: Quaternion)
      modifies this
      ensures Value() == old(source.Value())
    {
      x, y, z, w := source.x, source.y, source.z, source.w;
    }

    /** `set(euler)`: the quaternion of the angles; an unknown order leaves the value alone. */
    method SetFromEuler(math: Math, e: Euler)
      modifies this
      ensures Value() == QM.FromEuler(math, old(e.Value()), old(Value()))
    {
      var q := QM.FromEuler(math, e.Value(), Value());
      x, y, z, w := q.x, q.y, q.z, q.w;
    }

    /** `identity()`. */
    method Identity()
      modifies this
      ensures Value() == QM.IdentityQuat
    {
      SetParts(Some(0.0), Some(0.0), Some(0.0), Some(1.0));
    }

    /** `conjugate()`: negates x, y and z. */
    method Conjugate()
      modifies this
      ensures Value() == QM.Conjugate(old(Value()))
    {
      x := x * -1.0;
      y := y * -1.0;
      z := z * -1.0;
    }

    /** `invert()`: the conjugate, which is the inverse of a unit quaternion. */
    method Invert()
      modifies this
      ensures Value() == QM.Conjugate(old(Value()))
    {
      Conjugate();
    }

    /** `normalize()`: zero length gives the identity, otherwise every component is divided by the length. */
    method Normalize(math: Math)
      modifies this
      ensures Value() == QM.Normalize(math, old(Value()))
    {
      var q := QM.Normalize(math, Value());
      x, y, z, w := q.x, q.y, q.z, q.w;
    }

    /**
     * `multiply_quaternions(lhs, rhs)`: stores lhs x rhs. Both operands are read before anything is
     * written, so either may be this quaternion itself.
     */
    method MultiplyQuaternions(lhs: Quaternion, rhs: Quaternion)
      modifies this
      ensures Value() == QM.Times(old(lhs.Value()), old(rhs.Value()))
    {
      var q := QM.Times(lhs.Value(), rhs.Value());
      x, y, z, w := q.x, q.y, q.z, q.w;
    }

    /** `multiply(q)`: this = this x q. */
    method Multiply(q: Quaternion)
      modifies this
      ensures Value() == QM.Times(old(Value()), old(q.Value()))
    {
      MultiplyQuaternions(this, q);
    }

    /** `premultiply(lhs)`: this = lhs x this. */
    method Premultiply(lhs: Quaternion)
      modifies this
      ensures Value() == QM.Times(old(lhs.Value()), old(Value()))
    {
      MultiplyQuaternions(lhs, this);
    }

    /** `slerp(end, t)`: moves this quaternion the fraction `t` of the way towards `end`. */
    method Slerp(math: Math, end: Quaternion, t: real)
      requires SqrtLaw(math)
      modifies this
      ensures Value() == QM.Slerp(math, old(Value()), old(end.Value()), t)
    {
      var q := QM.Slerp(math, Value(), end.Value(), t);
      x, y, z, w := q.x, q.y, q.z, q.w;
    }

    /** `rotate_vector(vec)`: rotates `vec` in place by this quaternion; nothing else changes. */
    method RotateVector(vec: Vector3)
      modifies vec
      ensures vec.Value() == QM.RotateVector(Value(), old(vec.Value()))
    {
      var v := QM.RotateVector(Value(), vec.Value());
      vec.x, vec.y, vec.z := v.x, v.y, v.z;
    }

    /**
     * The static `slerp(start, end, target, t)`: `target` is set to `start` and then slerped
     * towards `end`. When `end` is `target` itself, the copy has overwritten it first.
     */
    static method SlerpInto(math: Math, start: Quaternion, end: Quaternion, target: Quaternion, t: real)
      requires SqrtLaw(math)
      modifies target
      ensures target.Value() == QM.Slerp(math, old(start.Value()), if end == target then old(start.Value()) else old(end.Value()), t)
    {
      target.SetFromQuaternion(start);
      target.Slerp(math, end, t);
    }

    /** `clone()`: a new quaternion with the same components. */
    method Clone() returns (c: Quaternion)
      ensures fresh(c) && c.Value() == Value()
    {
      c := new Quaternion.FromParts(Some(x), Some(y), Some(z), Some(w));
    }
  }

  class Euler {
    var x: real
    var y: real
    var z: real
    var order: string

    function Value(): EM.Angles
      reads this
    {
      EM.Angles(x, y, z, order)
    }

    /** `new Euler()`: zero angles in the default order. */
    constructor ()
      ensures Value() == EM.Angles(0.0, 0.0, 0.0, EM.DefaultOrder)
    {
      x, y, z, order := 0.0, 0.0, 0.0, EM.DefaultOrder;
    }

    /**
     * `new Euler(x, y, z, order)`: the order falls back to the default when absent or empty. A
     * missing or NaN first angle leaves zero angles: `undefined` takes the default path, and NaN
     * sends `set` to its object path, which reads the undefined fields of a number.
     */
    constructor FromParts(px: Option<real>, py: Option<real>, pz: Option<real>, po: Option<string>)
      ensures px.Some? ==> Value() == EM.Angles(ParsedAngle(px), ParsedAngle(py), ParsedAngle(pz), EM.ChooseOrder(po, EM.DefaultOrder))
      ensures px.None? ==> x == 0.0 && y == 0.0 && z == 0.0
      ensures px.None? && (py.None? || py.value == 0.0) ==> order == EM.DefaultOrder
    {
      x, y, z := ParsedAngle(px), ParsedAngle(py), ParsedAngle(pz);
      order := EM.ChooseOrder(po, EM.DefaultOrder);
      if px.None? {
        x, y, z, order := 0.0, 0.0, 0.0, EM.DefaultOrder;
      }
    }

    /** `set(euler)`: copies the three angles and the order. */
    method SetFromEuler(source: Euler)
      modifies this
      ensures Value() == old(source.Value())
    {
      x, y, z, order := source.x, source.y, source.z, source.order;
    }

    /**
     * `set(x, y, z, order)`: a first argument that is a number selects the numeric path, where
     * unparsable angles become 0 and the fourth argument replaces the order when non-empty. A NaN
     * first argument selects the object path, which reads the undefined fields of a number and
     * takes the second argument as the order; a NaN or zero second argument keeps the order.
     */
    method SetParts(px: Option<real>, py: Option<real>, pz: Option<real>, po: Option<string>)
      modifies this
      ensures px.Some? ==> Value() == EM.Angles(ParsedAngle(px), ParsedAngle(py), ParsedAngle(pz), EM.ChooseOrder(po, old(order)))
      ensures px.None? ==> x == 0.0 && y == 0.0 && z == 0.0
      ensures px.None? && (py.None? || py.value == 0.0) ==> order == old(order)
    {
      if px.Some? {
        SetFields(px, py, pz, po);
      } else {
        SetFields(None, None, None, None);
      }
    }

    /** `set({x, y, z}, order)` and the body of `set(array, order)`: unparsable angles become 0; the order is kept unless given. */
    method SetFields(px: Option<real>, py: Option<real>, pz: Option<real>, po: Option<string>)
      modifies this
      ensures Value() == EM.Angles(ParsedAngle(px), ParsedAngle(py), ParsedAngle(pz), EM.ChooseOrder(po, old(order)))
    {
      x, y, z := ParsedAngle(px), ParsedAngle(py), ParsedAngle(pz);
      order := if po.Some? && po.value != "" then po.value else order;
    }

    /** `set(array, order)`: needs at least three entries, otherwise it fails and changes nothing. */
    method SetFromArray(a: seq<Option<real>>, po: Option<string>) returns (r: Outcome)
      modifies this
      ensures r.Success? <==> |a| >= 3
      ensures r.Success? ==> Value() == EM.Angles(ParsedAngle(a[0]), ParsedAngle(a[1]), ParsedAngle(a[2]), EM.ChooseOrder(po, old(order)))
      ensures r.Failure? ==> Value() == old(Value())
    {
      if |a| < 3 {
        return Failure("Array needs at least 3 elements.");
      }
      SetFields(a[0], a[1], a[2], po);
      r := Success;
    }

    /** `set_from_matrix(m, order)`: the angles of the rotation block for the chosen order. */
    method SetFromMatrix(math: Math, m: Mat4, po: Option<string>)
      modifies this
      ensures Value() == EM.FromMatrix(math, m, po, old(Value()))
    {
      var e := EM.FromMatrix(math, m, po, Value());
      x, y, z, order := e.x, e.y, e.z, e.order;
    }

    /** `set_from_quaternion(q, order)`: exactly `set_from_matrix(q.to_matrix(), order)`. */
    method SetFromQuaternion(math: Math, q: Quaternion, po: Option<string>)
      modifies this
      ensures Value() == EM.FromMatrix(math, QM.ToMatrix(old(q.Value())), po, old(Value()))
    {
      SetFromMatrix(math, QM.ToMatrix(q.Value()), po);
    }

    /** `to_quaternion()`: a new quaternion of these angles. */
    method ToQuaternion(math: Math) returns (q: Quaternion)
      requires EM.KnownOrder(order)
      ensures fresh(q) && q.Value() == QM.FromEuler(math, Value(), QM.IdentityQuat)
    {
      q := new Quaternion.FromAngles(math, Value());
    }

    /**
     * `reorder(new_order)`: the same rotation expressed in another order, through the quaternion
     * of the current angles and its matrix. The chosen order is stored in any case.
     */
    method Reorder(math: Math, newOrder: Option<string>)
      requires EM.KnownOrder(order)
      modifies this
      ensures Value() == EM.FromMatrix(math, QM.ToMatrix(QM.FromEuler(math, old(Value()), QM.IdentityQuat)), newOrder, old(Value()))
      ensures order == EM.ChooseOrder(newOrder, old(order))
    {
      var q := ToQuaternion(math);
      SetFromQuaternion(math, q, newOrder);
      EM.FromMatrixStoresOrder(math, QM.ToMatrix(QM.FromEuler(math, old(Value()), QM.IdentityQuat)), newOrder, old(Value()));
    }

    /**
     * `clone()`: a new Euler built from this one's angles and order; an empty order is replaced
     * by the default on the way.
     */
    method Clone() returns (c: Euler)
      ensures fresh(c) && c.Value() == EM.Angles(x, y, z, EM.ChooseOrder(Some(order), EM.DefaultOrder))
    {
      c := new Euler.FromParts(Some(x), Some(y), Some(z), Some(order));
    }
  }

  /** `parseFloat` followed by the NaN check of Euler's `set`: an unparsable angle becomes 0. */
  function ParsedAngle(p: Option<real>): (r: real)
    ensures p.Some? ==> r == p.value
    ensures p.None? ==> r == 0.0
  {
    if p.Some? then p.value else 0.0
  }

  // ---------------------------------------------------------------------------------------
  // Properties that involve the objects
  // ---------------------------------------------------------------------------------------

  /** `clone()` of an Euler with a non-empty order is an equal but distinct object. */
  lemma CloneOfEulerIsEqual(e: EM.Angles)
    requires e.order != ""
    ensures EM.Equal(EM.Angles(e.x, e.y, e.z, EM.ChooseOrder(Some(e.order), EM.DefaultOrder)), e, None)
  {
  }

  /** Setting a quaternion from numbers and then normalizing a zero value gives the identity. */
  method NormalizeZeroExample(math: Math) returns (q: Quaternion)
    requires SqrtLaw(math)
    ensures q.Value() == QM.IdentityQuat
  {
    q := new Quaternion.FromParts(Some(0.0), Some(0.0), Some(0.0), Some(0.0));
    q.Normalize(math);
    QM.NormalizeZero(math);
  }

}
