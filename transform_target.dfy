/**
 * Transform_target: a Transform that also keeps a target point, a nominal up direction and a
 * flag saying whether the axes follow the target. The JS subclass is modelled by composition:
 * a TransformTarget owns the Transform whose fields it updates.
 */
module TransformTargets {
  import opened Linear
  import opened Transforms

  // ---------------------------------------------------------------------------------------
  // Looking at a point
  // ---------------------------------------------------------------------------------------

  /**
   * The axes `_look_at_point` builds: z points from `point` to the translation `t` (the camera
   * looks down -z), x is up x z and y is z x x, each normalized.
   */
  function LookAtFrame(math: Math, t: Vec3, point: Vec3, up: Vec3): Frame
  {
    var z := Normalize(math, Sub(t, point));
    var x := Normalize(math, Cross(Normalize(math, up), z));
    Frame(x, Normalize(math, Cross(z, x)), z)
  }

  /** Normalizing only rescales, so it keeps a vector orthogonal to whatever it was orthogonal to. */
  lemma NormalizeKeepsOrthogonal(math: Math, v: Vec3, w: Vec3)
    requires Dot(v, w) == 0.0
    ensures Dot(Normalize(math, v), w) == 0.0
  {
    if Length(math, v) != 0.0 {
      DotScaleLeft(v, 1.0 / Length(math, v), w);
    }
  }

  /** The three look-at axes are pairwise orthogonal, whatever the point and the up vector. */
  lemma LookAtFrameOrthogonal(math: Math, t: Vec3, point: Vec3, up: Vec3)
    ensures var f := LookAtFrame(math, t, point, up);
      Dot(f.x, f.y) == 0.0 && Dot(f.x, f.z) == 0.0 && Dot(f.y, f.z) == 0.0
  {
    var z := Normalize(math, Sub(t, point));
    var c := Cross(Normalize(math, up), z);
    var x := Normalize(math, c);
    CrossOrthogonal(Normalize(math, up), z);
    NormalizeKeepsOrthogonal(math, c, z);
    CrossOrthogonal(z, x);
    NormalizeKeepsOrthogonal(math, Cross(z, x), x);
    NormalizeKeepsOrthogonal(math, Cross(z, x), z);
    DotSymmetric(x, Normalize(math, Cross(z, x)));
  }

  /**
   * The look-at axes are orthonormal unless the point sits on the translation or the up vector
   * is parallel to the viewing direction (the two degenerate cases the source does not guard).
   */
  lemma LookAtFrameOrthonormal(math: Math, t: Vec3, point: Vec3, up: Vec3)
    requires SqrtLaw(math)
    requires Length(math, Sub(t, point)) != 0.0
    requires Length(math, Cross(Normalize(math, up), Normalize(math, Sub(t, point)))) != 0.0
    ensures IsOrthonormal(LookAtFrame(math, t, point, up))
  {
    var f := LookAtFrame(math, t, point, up);
    LookAtFrameOrthogonal(math, t, point, up);
    NormalizeUnit(math, Sub(t, point));
    NormalizeUnit(math, Cross(Normalize(math, up), f.z));
    CrossDot(f.z, f.x, f.z, f.x);
    DotSymmetric(f.x, f.z);
    assert Dot(Cross(f.z, f.x), Cross(f.z, f.x)) == 1.0;
    NormalizeUnit(math, Cross(f.z, f.x));
  }

  /** The look-at z axis points from the point to the translation: its component along that offset is the distance. */
  lemma LookAtFrameFacesPoint(math: Math, t: Vec3, point: Vec3, up: Vec3)
    requires SqrtLaw(math) && Length(math, Sub(t, point)) != 0.0
    ensures Dot(LookAtFrame(math, t, point, up).z, Sub(t, point)) == Distance(math, t, point)
  {
    var v := Sub(t, point);
    var len := Length(math, v);
    DotSelfNonNegative(v);
    DotScaleLeft(v, 1.0 / len, v);
    assert len * len == Dot(v, v);
    assert (1.0 / len) * (len * len) == len;
  }

  /**
   * `_calculate_roll_angle`: the angle between the x axis and the roll-free x axis (up x z,
   * normalized), negative when x leans towards `up`. `Math.acos` gives NaN outside [-1, 1] and the
   * source turns NaN into 0.
   */
  function RollAngle(math: Math, up: Vec3, f: Frame): real
  {
    var d := Dot(f.x, Normalize(math, Cross(up, f.z)));
    if d < -1.0 || 1.0 < d then 0.0
    else if Dot(up, f.x) > 0.0 then math.acos(d) * -1.0
    else math.acos(d)
  }

  /**
   * The roll is zero when the cosine falls outside [-1, 1] (where acos would give NaN); otherwise
   * it is the arc cosine, negated when the x axis leans towards `up`.
   */
  lemma RollAngleRange(math: Math, up: Vec3, f: Frame)
    ensures var d := Dot(f.x, Normalize(math, Cross(up, f.z)));
      var r := RollAngle(math, up, f);
      && (d < -1.0 || 1.0 < d ==> r == 0.0)
      && (-1.0 <= d <= 1.0 ==> r == math.acos(d) || r == -math.acos(d))
      && (-1.0 <= d <= 1.0 && 0.0 < Dot(up, f.x) ==> r == -math.acos(d))
      && (-1.0 <= d <= 1.0 && Dot(up, f.x) <= 0.0 ==> r == math.acos(d))
  {
  }

  // ---------------------------------------------------------------------------------------
  // Rotating while keeping a target
  // ---------------------------------------------------------------------------------------

  /**
   * Transform_target `rotate`: x and y roll about z by -dz; when `full`, all three axes then turn
   * about the nominal `up` by dy, and y and z spin about the new x axis by dx.
   */
  function TargetTurned(math: Math, f: Frame, up: Vec3, dx: real, dy: real, dz: real, full: bool): Frame
  {
    var rolled := SpinAboutZ(math, f, f.z, -dz);
    if !full then rolled
    else
      var level := TurnAll(math, rolled, up, dy);
      SpinAboutX(math, level, level.x, dx)
  }

  /** Rolling never moves the z axis, so a roll-only rotation keeps the view direction. */
  lemma RollKeepsViewDirection(math: Math, f: Frame, up: Vec3, dz: real)
    ensures TargetTurned(math, f, up, 0.0, 0.0, dz, false).z == f.z
    ensures TargetTurned(math, f, up, 0.0, 0.0, dz, false).x == Linear.Rotate(math, f.z, -dz, f.x)
  {
  }

  /** With a unit up direction, the target-keeping rotation keeps the axes orthonormal. */
  lemma TargetTurnedKeepsOrthonormal(math: Math, f: Frame, up: Vec3, dx: real, dy: real, dz: real, full: bool)
    requires Pythagorean(math) && IsOrthonormal(f) && Dot(up, up) == 1.0
    ensures IsOrthonormal(TargetTurned(math, f, up, dx, dy, dz, full))
  {
    var rolled := SpinAboutZ(math, f, f.z, -dz);
    SpinAboutZKeepsOrthonormal(math, f, -dz);
    if full {
      var level := TurnAll(math, rolled, up, dy);
      TurnAllKeepsOrthonormal(math, rolled, up, dy);
      SpinAboutXKeepsOrthonormal(math, level, dx);
    }
  }

  /**
   * The axes after looking at `point` and re-applying a roll through `rotate(0, 0, roll, false)`:
   * a roll of 0 is skipped; otherwise the roll is about z, plus zero turns about up and x when
   * the transform does not follow its target.
   */
  function LookAtRolled(math: Math, t: Vec3, point: Vec3, up: Vec3, roll: real, follow: bool): Frame
  {
    var looked := LookAtFrame(math, t, point, up);
    if roll == 0.0 then looked else TargetTurned(math, looked, up, 0.0, 0.0, roll, !follow)
  }

  /** `look_at_target_point(reset_y)`: without reset, the roll measured on the old axes `f` is kept. */
  function LookAtTarget(math: Math, f: Frame, t: Vec3, target: Vec3, up: Vec3, resetY: bool, follow: bool): Frame
  {
    if resetY then LookAtFrame(math, t, target, up)
    else LookAtRolled(math, t, target, up, RollAngle(math, up, f), follow)
  }

  /** While following, looking at the target always leaves z pointing from the target to the translation. */
  lemma LookAtTargetFacesTarget(math: Math, f: Frame, t: Vec3, target: Vec3, up: Vec3, resetY: bool)
    ensures LookAtTarget(math, f, t, target, up, resetY, true).z == Normalize(math, Sub(t, target))
  {
  }

  /** Looking at a target in a non-degenerate position yields orthonormal axes, roll or no roll. */
  lemma LookAtTargetOrthonormal(math: Math, f: Frame, t: Vec3, target: Vec3, up: Vec3, resetY: bool, follow: bool)
    requires SqrtLaw(math) && Pythagorean(math) && Dot(up, up) == 1.0
    requires Length(math, Sub(t, target)) != 0.0
    requires Length(math, Cross(Normalize(math, up), Normalize(math, Sub(t, target)))) != 0.0
    ensures IsOrthonormal(LookAtTarget(math, f, t, target, up, resetY, follow))
  {
    var looked := LookAtFrame(math, t, target, up);
    LookAtFrameOrthonormal(math, t, target, up);
    if !resetY {
      var roll := RollAngle(math, up, f);
      if roll != 0.0 {
        TargetTurnedKeepsOrthonormal(math, looked, up, 0.0, 0.0, roll, !follow);
      }
    }
  }

  // ---------------------------------------------------------------------------------------
  // Placing the target
  // ---------------------------------------------------------------------------------------

  /** `update_target_point`: the target `d` units down the -z axis from the translation. */
  function PlacedTarget(t: Vec3, z: Vec3, d: real): Vec3
  {
    Add(t, Scale(z, -d))
  }

  /** The distance `update_target_point` uses: the given one, or the current one when absent or 0. */
  function TargetDistance(math: Math, t: Vec3, target: Vec3, dist: Option<real>): (d: real)
    ensures dist.Some? && dist.value != 0.0 ==> d == dist.value
    ensures dist.None? || dist.value == 0.0 ==> d == Distance(math, t, target)
  {
    if dist.None? || dist.value == 0.0 then Distance(math, t, target) else dist.value
  }

  /** Along a unit z axis, the placed target lies at distance |d| from the translation. */
  lemma PlacedTargetDistance(math: Math, t: Vec3, z: Vec3, d: real)
    requires SqrtLaw(math) && Dot(z, z) == 1.0
    ensures Distance(math, t, PlacedTarget(t, z, d)) == Abs(d)
  {
    var v := Sub(t, PlacedTarget(t, z, d));
    assert v == Scale(z, d);
    ScaleDot(z, z, d, d);
    var a := Abs(d);
    assert a * a == d * d;
    assert Dot(v, v) == a * a;
    SqrtOfSquare(math, a);
    assert Distance(math, t, PlacedTarget(t, z, d)) == math.sqrt(a * a);
  }

  /** Re-placing the target at the current distance keeps that distance. */
  lemma UpdateKeepsDistance(math: Math, t: Vec3, z: Vec3, target: Vec3)
    requires SqrtLaw(math) && Dot(z, z) == 1.0
    ensures Distance(math, t, PlacedTarget(t, z, TargetDistance(math, t, target, None))) == Distance(math, t, target)
  {
    DotSelfNonNegative(Sub(t, target));
    PlacedTargetDistance(math, t, z, Distance(math, t, target));
  }

  /** Along a unit z axis, the placed target coincides with the translation exactly when d is 0. */
  lemma PlacedTargetAvoidsTranslation(t: Vec3, z: Vec3, d: real)
    requires Dot(z, z) == 1.0
    ensures PlacedTarget(t, z, d) == t <==> d == 0.0
  {
    NonZeroSquare(-d);
    if PlacedTarget(t, z, d) == t {
      var v := Scale(z, -d);
      assert v == Zero3;
      ScaleDot(z, z, -d, -d);
      var k := (-d) * (-d);
      assert Dot(v, v) == k * Dot(z, z);
      assert k == 0.0;
    }
  }

  /**
   * Re-placing the target at its own distance along a unit z axis keeps it off the translation
   * exactly when it was off the translation before.
   */
  lemma PlacedTargetApart(math: Math, t: Vec3, z: Vec3, target: Vec3)
    requires SqrtLaw(math) && Dot(z, z) == 1.0
    ensures PlacedTarget(t, z, Distance(math, t, target)) != t <==> target != t
  {
    DistanceApart(math, t, target);
    PlacedTargetAvoidsTranslation(t, z, Distance(math, t, target));
  }

  lemma NonZeroSquare(d: real)
    ensures d != 0.0 ==> d * d > 0.0
  {
    if d < 0.0 {
      assert d * d == (-d) * (-d);
    }
  }

  // ---------------------------------------------------------------------------------------
  // Translating both points
  // ---------------------------------------------------------------------------------------

  /** Moving two points by the same amounts in the same frame keeps their offset. */
  lemma MovedKeepsOffset(f: Frame, a: Vec3, b: Vec3, dx: real, dy: real, dz: real, inObjectSpace: bool)
    ensures Sub(Moved(f, a, dx, dy, dz, inObjectSpace), Moved(f, b, dx, dy, dz, inObjectSpace)) == Sub(a, b)
  {
  }

  /** ... and so the moved points coincide exactly when the original points did. */
  lemma MovedMeets(f: Frame, a: Vec3, b: Vec3, dx: real, dy: real, dz: real, inObjectSpace: bool)
    ensures Moved(f, a, dx, dy, dz, inObjectSpace) == Moved(f, b, dx, dy, dz, inObjectSpace) <==> a == b
  {
    MovedKeepsOffset(f, a, b, dx, dy, dz, inObjectSpace);
    if Moved(f, a, dx, dy, dz, inObjectSpace) == Moved(f, b, dx, dy, dz, inObjectSpace) {
      assert Sub(a, b) == Zero3;
    }
  }

  /**
   * `translate` leaves an undragged target unchecked: on a new target transform (translation at
   * the origin, canonical axes, target (0, 0, -1)) a move of -1 along the object z axis lands the
   * translation on the target, which `set_target_point` and `set_translation` both refuse.
   */
  lemma UndraggedMoveCanMeetTarget()
    ensures Moved(Canonical, Zero3, 0.0, 0.0, -1.0, true) == Vec3(0.0, 0.0, -1.0)
  {
  }

  /**
   * The `translate` evidently intended, as the new (location, target) pair: a dragged target
   * moves with the location, refused when it lands on it as `translate_target_point` does, and
   * an undragged move onto the target is refused like `set_translation` refuses it.
   */
  function CorrectedTranslate(f: Frame, t: Vec3, target: Vec3, dx: real, dy: real, dz: real, inObjectSpace: bool, drag: bool): Option<(Vec3, Vec3)>
  {
    var moved := Moved(f, t, dx, dy, dz, inObjectSpace);
    var newTarget := if drag then Moved(f, target, dx, dy, dz, inObjectSpace) else target;
    if moved == newTarget then None else Some((moved, newTarget))
  }

  /**
   * The corrected `translate` keeps a target off the location off it in both branches: a
   * dragged move is never refused, and an undragged one is refused exactly when it would land
   * on the target.
   */
  lemma CorrectedTranslateKeepsApart(f: Frame, t: Vec3, target: Vec3, dx: real, dy: real, dz: real, inObjectSpace: bool, drag: bool)
    requires target != t
    ensures var r := CorrectedTranslate(f, t, target, dx, dy, dz, inObjectSpace, drag);
      && (r.Some? ==> r.value.0 != r.value.1 && r.value.0 == Moved(f, t, dx, dy, dz, inObjectSpace))
      && (r.None? <==> !drag && Moved(f, t, dx, dy, dz, inObjectSpace) == target)
  {
    if drag {
      MovedMeets(f, t, target, dx, dy, dz, inObjectSpace);
    }
  }

  // ---------------------------------------------------------------------------------------
  // Rotating about a pivot
  // ---------------------------------------------------------------------------------------

  /**
   * Where `rotate_around_point` carries an offset from the pivot: about the nominal up by dy,
   * then about the x axis the frame has after the roll and the turn about up.
   */
  function Swung(math: Math, f: Frame, up: Vec3, dx: real, dy: real, dz: real, v: Vec3): Vec3
  {
    var level := TurnAll(math, SpinAboutZ(math, f, f.z, -dz), up, dy);
    Linear.Rotate(math, level.x, dx, Linear.Rotate(math, up, dy, v))
  }

  /**
   * With a unit up direction and orthonormal axes, swinging offsets about the pivot is rigid:
   * lengths and the angle between two offsets are kept.
   */
  lemma SwungKeepsDot(math: Math, f: Frame, up: Vec3, dx: real, dy: real, dz: real, u: Vec3, v: Vec3)
    requires Pythagorean(math) && IsOrthonormal(f) && Dot(up, up) == 1.0
    ensures Dot(Swung(math, f, up, dx, dy, dz, u), Swung(math, f, up, dx, dy, dz, v)) == Dot(u, v)
  {
    var rolled := SpinAboutZ(math, f, f.z, -dz);
    SpinAboutZKeepsOrthonormal(math, f, -dz);
    var level := TurnAll(math, rolled, up, dy);
    TurnAllKeepsOrthonormal(math, rolled, up, dy);
    RotatePreservesDot(math, up, dy, u, v);
    RotatePreservesDot(math, level.x, dx, Linear.Rotate(math, up, dy, u), Linear.Rotate(math, up, dy, v));
  }

  /** Offsets swung about a pivot keep their length, so the swung point stays as far from the pivot. */
  lemma SwingKeepsPivotDistance(math: Math, f: Frame, up: Vec3, dx: real, dy: real, dz: real, pivot: Vec3, t: Vec3)
    requires Pythagorean(math) && IsOrthonormal(f) && Dot(up, up) == 1.0
    ensures var moved := Add(pivot, Swung(math, f, up, dx, dy, dz, Sub(t, pivot)));
      Dot(Sub(moved, pivot), Sub(moved, pivot)) == Dot(Sub(t, pivot), Sub(t, pivot))
  {
    var w := Swung(math, f, up, dx, dy, dz, Sub(t, pivot));
    assert Sub(Add(pivot, w), pivot) == w;
    SwungKeepsDot(math, f, up, dx, dy, dz, Sub(t, pivot), Sub(t, pivot));
  }

  /** The squared length of a difference, expanded. */
  lemma DotSubSelf(u: Vec3, w: Vec3)
    ensures Dot(Sub(u, w), Sub(u, w)) == Dot(u, u) - 2.0 * Dot(u, w) + Dot(w, w)
  {
  }

  /** Swinging is rigid, so an offset swings to zero exactly when it was zero. */
  lemma SwungKeepsZero(math: Math, f: Frame, up: Vec3, dx: real, dy: real, dz: real, u: Vec3)
    requires Pythagorean(math) && IsOrthonormal(f) && Dot(up, up) == 1.0
    ensures Swung(math, f, up, dx, dy, dz, u) == Zero3 <==> u == Zero3
  {
    SwungKeepsDot(math, f, up, dx, dy, dz, u, u);
    DotSelfPositive(u);
    DotSelfPositive(Swung(math, f, up, dx, dy, dz, u));
  }

  /** Two offsets swing to the same vector exactly when they were the same. */
  lemma SwungKeepsApart(math: Math, f: Frame, up: Vec3, dx: real, dy: real, dz: real, u: Vec3, w: Vec3)
    requires Pythagorean(math) && IsOrthonormal(f) && Dot(up, up) == 1.0
    ensures Swung(math, f, up, dx, dy, dz, u) == Swung(math, f, up, dx, dy, dz, w) <==> u == w
  {
    var su, sw := Swung(math, f, up, dx, dy, dz, u), Swung(math, f, up, dx, dy, dz, w);
    SwungKeepsDot(math, f, up, dx, dy, dz, u, u);
    SwungKeepsDot(math, f, up, dx, dy, dz, w, w);
    SwungKeepsDot(math, f, up, dx, dy, dz, u, w);
    DotSubSelf(u, w);
    DotSubSelf(su, sw);
    DotSelfPositive(Sub(u, w));
    DotSelfPositive(Sub(su, sw));
    assert su == sw <==> Sub(su, sw) == Zero3;
    assert u == w <==> Sub(u, w) == Zero3;
  }

  /** Two points swung about the same pivot land on each other exactly when they started on each other. */
  lemma SwungPointsApart(math: Math, f: Frame, up: Vec3, dx: real, dy: real, dz: real, pivot: Vec3, a: Vec3, b: Vec3)
    requires Pythagorean(math) && IsOrthonormal(f) && Dot(up, up) == 1.0
    ensures Add(pivot, Swung(math, f, up, dx, dy, dz, Sub(a, pivot))) == Add(pivot, Swung(math, f, up, dx, dy, dz, Sub(b, pivot)))
            <==> a == b
  {
    SwungKeepsApart(math, f, up, dx, dy, dz, Sub(a, pivot), Sub(b, pivot));
    assert Sub(a, pivot) == Sub(b, pivot) <==> a == b;
    var sa, sb := Swung(math, f, up, dx, dy, dz, Sub(a, pivot)), Swung(math, f, up, dx, dy, dz, Sub(b, pivot));
    assert Add(pivot, sa) == Add(pivot, sb) <==> sa == sb;
  }

  /** The axes `set_rotation` starts from: all canonical for a full rotation, else only z is reset. */
  function ResetForRotation(f: Frame, full: bool): Frame
  {
    if full then Canonical else Frame(f.x, f.y, ZAxis)
  }

  /**
   * Resetting only z can collapse the axes: when x already lies along world z, `set_rotation`
   * without the full rotation (rotate_target false while following) rolls about z, which keeps
   * x on z, so the resulting x and z axes coincide.
   */
  lemma ResetForRotationCanCollapse(math: Math, f: Frame, up: Vec3, dx: real, dy: real, dz: real)
    requires IsOrthonormal(f) && f.x == ZAxis
    ensures var r := TargetTurned(math, ResetForRotation(f, false), up, dx, dy, dz, false);
      r.x == r.z == ZAxis && !IsOrthonormal(r)
  {
    var g := ResetForRotation(f, false);
    assert g == Frame(ZAxis, f.y, ZAxis);
    var r := TargetTurned(math, g, up, dx, dy, dz, false);
    assert r == SpinAboutZ(math, g, ZAxis, -dz);
    RotateFixesAxis(math, ZAxis, -dz);
    assert r.x == ZAxis;
    assert Dot(r.x, r.z) == 1.0;
  }

  /**
   * The reset `set_rotation` evidently intends: the full rotation starts from the canonical axes,
   * and the roll-only rotation of a followed target starts from the current axes, so that the
   * transform keeps looking at the target.
   */
  function ResetKeepingView(f: Frame, full: bool): Frame
  {
    if full then Canonical else f
  }

  /**
   * With the intended reset, `set_rotation` always leaves orthonormal axes, and the roll-only
   * rotation keeps the view direction.
   */
  lemma ResetKeepingViewStaysOrthonormal(math: Math, f: Frame, up: Vec3, dx: real, dy: real, dz: real, full: bool)
    requires Pythagorean(math) && IsOrthonormal(f) && Dot(up, up) == 1.0
    ensures IsOrthonormal(TargetTurned(math, ResetKeepingView(f, full), up, dx, dy, dz, full))
    ensures !full ==> TargetTurned(math, ResetKeepingView(f, full), up, dx, dy, dz, full).z == f.z
  {
    if full {
      CanonicalIsOrthonormal();
    } else {
      RollKeepsViewDirection(math, f, up, dz);
    }
    TargetTurnedKeepsOrthonormal(math, ResetKeepingView(f, full), up, dx, dy, dz, full);
  }

  /** The vectors of `vs` rotated by the loop of `_rotate_vectors`, run over a fresh array. */
  method RotatedCopies(math: Math, axis: Vec3, angle: real, vs: seq<Vec3>) returns (r: seq<Vec3>)
    ensures r == RotatedAll(math, axis, angle, vs)
  {
    var a := new Vec3[|vs|](i requires 0 <= i < |vs| => vs[i]);
    RotateEach(math, axis, angle, a);
    r := a[..];
  }

  /** Rotating a concatenation rotates each part. */
  lemma RotatedAllSplits(math: Math, axis: Vec3, angle: real, a: seq<Vec3>, b: seq<Vec3>)
    ensures RotatedAll(math, axis, angle, a + b)[..|a|] == RotatedAll(math, axis, angle, a)
    ensures RotatedAll(math, axis, angle, a + b)[|a|..] == RotatedAll(math, axis, angle, b)
  {
    var r := RotatedAll(math, axis, angle, a + b);
    assert forall i :: 0 <= i < |b| ==> r[|a|..][i] == r[|a| + i];
  }

  // ---------------------------------------------------------------------------------------
  // Re-looking when the up direction changes
  // ---------------------------------------------------------------------------------------

  /** The point `set up_direction` looks at when not following, as written: translation + z. */
  function UpLookPointAsWritten(t: Vec3, z: Vec3): Vec3
  {
    Add(z, t)
  }

  /** Looking at translation + z turns a unit z axis around: the view direction is reversed. */
  lemma UpLookAsWrittenReversesView(math: Math, t: Vec3, z: Vec3, up: Vec3)
    requires SqrtLaw(math) && Dot(z, z) == 1.0
    ensures LookAtFrame(math, t, UpLookPointAsWritten(t, z), up).z == Scale(z, -1.0)
  {
    var v := Sub(t, UpLookPointAsWritten(t, z));
    assert v == Scale(z, -1.0);
    ScaleDot(z, z, -1.0, -1.0);
    assert Length(math, v) == math.sqrt(1.0) == 1.0;
    assert Normalize(math, v) == Scale(v, 1.0 / 1.0);
  }

  /** The point ahead of the camera, which looks down -z: translation - z. */
  function UpLookPoint(t: Vec3, z: Vec3): Vec3
  {
    Sub(t, z)
  }

  /** Looking at translation - z keeps a unit z axis, so only the up direction changes the frame. */
  lemma UpLookKeepsView(math: Math, t: Vec3, z: Vec3, up: Vec3)
    requires SqrtLaw(math) && Dot(z, z) == 1.0
    ensures LookAtFrame(math, t, UpLookPoint(t, z), up).z == z
  {
    var v := Sub(t, UpLookPoint(t, z));
    assert v == z;
    assert Length(math, v) == math.sqrt(1.0) == 1.0;
    assert Normalize(math, v) == Scale(v, 1.0 / 1.0);
  }

  // ---------------------------------------------------------------------------------------
  // The class
  // ---------------------------------------------------------------------------------------

  /** Every field of a TransformTarget and of the Transform it owns, for stating "nothing changed". */
  datatype TargetState = TargetState(translation: Vec3, axes: Frame, scale: Vec3, dirty: bool,
                                     worldToObj: Mat4, follow: bool, up: Vec3, target: Vec3)

  class TransformTarget {
    const base: Transform
    var follow: bool
    var up: Vec3
    var target: Vec3

    function State(): TargetState
      reads this, base
    {
      TargetState(base.translation, base.Axes(), base.scale, base.dirtyMatrix, base.worldToObj, follow, up, target)
    }

    /** What the class documents and its error paths guard: the target never sits on the translation. */
    predicate TargetApart()
      reads this, base
    {
      target != base.translation
    }

    /** A new target transform: a default Transform following the target (0, 0, -1) with y up. */
    constructor ()
      ensures fresh(base)
      ensures base.translation == Zero3 && base.Axes() == Canonical && base.scale == UnitScale
      ensures base.dirtyMatrix && base.worldToObj == Identity4
      ensures follow && up == YAxis && target == Vec3(0.0, 0.0, -1.0)
      ensures TargetApart()
    {
      base := new Transform();
      follow := true;
      up := YAxis;
      target := Vec3(0.0, 0.0, -1.0);
    }

    /** `populate_clone`: the Transform fields, then the follow flag, up direction and target. */
    method PopulateClone(clone: TransformTarget)
      modifies clone, clone.base
      ensures clone.State() == old(State())
    {
      var f, u, t := follow, up, target;
      base.PopulateClone(clone.base);
      clone.follow, clone.up, clone.target := f, u, t;
    }

    /** `clone`: a new target transform, with its own Transform, equal in every field. */
    method Clone() returns (c: TransformTarget)
      ensures fresh(c) && fresh(c.base) && c.State() == State()
    {
      c := new TransformTarget();
      PopulateClone(c);
    }

    /**
     * `_look_at_point(point, up, location)`: optionally moves to `location`, then rebuilds the
     * axes to look at `point` and marks the matrix dirty.
     */
    method LookAtPoint(math: Math, point: Vec3, upVector: Vec3, location: Option<Vec3>)
      modifies base
      ensures base.translation == (if location.Some? then location.value else old(base.translation))
      ensures base.Axes() == LookAtFrame(math, base.translation, point, upVector)
      ensures base.scale == old(base.scale) && base.worldToObj == old(base.worldToObj) && base.dirtyMatrix
    {
      if location.Some? {
        base.SetTranslation(location.value);
      }
      var y := Normalize(math, upVector);
      var z := Normalize(math, Sub(base.translation, point));
      var x := Normalize(math, Cross(y, z));
      y := Normalize(math, Cross(z, x));
      base.xAxis, base.yAxis, base.zAxis := x, y, z;
      base.dirtyMatrix := true;
    }

    /** `look_at_target_point(reset_y)`: looks at the target, re-applying the current roll unless `resetY`. */
    method LookAtTargetPoint(math: Math, resetY: bool)
      modifies this, base
      ensures base.Axes() == LookAtTarget(math, old(base.Axes()), base.translation, target, up, resetY, follow)
      ensures base.translation == old(base.translation) && base.scale == old(base.scale)
      ensures base.worldToObj == old(base.worldToObj) && base.dirtyMatrix
      ensures follow == old(follow) && up == old(up) && target == old(target)
    {
      if resetY {
        LookAtPoint(math, target, up, None);
      } else {
        var roll := RollAngle(math, up, base.Axes());
        LookAtPoint(math, target, up, None);
        if roll != 0.0 {
          Rotate(math, 0.0, 0.0, roll, false);
        }
      }
    }

    /** `update_target_point(dist)`: puts the target `dist` down -z, or at its current distance. */
    method UpdateTargetPoint(math: Math, dist: Option<real>)
      modifies this
      ensures target == PlacedTarget(base.translation, base.zAxis, TargetDistance(math, base.translation, old(target), dist))
      ensures follow == old(follow) && up == old(up)
      ensures Dot(base.zAxis, base.zAxis) == 1.0 && dist.Some? && dist.value != 0.0 ==> TargetApart()
      ensures SqrtLaw(math) && Dot(base.zAxis, base.zAxis) == 1.0 && (dist.None? || dist.value == 0.0) ==>
        (TargetApart() <==> old(TargetApart()))
    {
      if Dot(base.zAxis, base.zAxis) == 1.0 {
        if dist.Some? && dist.value != 0.0 {
          PlacedTargetAvoidsTranslation(base.translation, base.zAxis, dist.value);
        } else if SqrtLaw(math) {
          PlacedTargetApart(math, base.translation, base.zAxis, target);
        }
      }
      var d := if dist.None? || dist.value == 0.0 then Distance(math, base.translation, target) else dist.value;
      target := Add(base.translation, Scale(base.zAxis, -d));
    }

    /**
     * The world_to_obj setter: the Transform setter, then the target is put back at the distance
     * it had from the old translation.
     */
    method SetWorldToObj(math: Math, m: Mat4, objToWorld: Mat4)
      requires UndoesPoints(m, objToWorld)
      modifies this, base
      ensures base.worldToObj == m && !base.dirtyMatrix
      ensures Pose(base.translation, base.Axes(), base.scale) == DeriveVectorsAsWritten(math, objToWorld, old(base.scale))
      ensures target == PlacedTarget(base.translation, base.zAxis,
                          TargetDistance(math, base.translation, old(target), Some(old(Distance(math, base.translation, target)))))
      ensures follow == old(follow) && up == old(up)
      ensures SqrtLaw(math) && Dot(base.zAxis, base.zAxis) == 1.0 && old(TargetApart()) ==> TargetApart()
    {
      var d := Distance(math, base.translation, target);
      if SqrtLaw(math) {
        DistanceApart(math, base.translation, target);
      }
      base.SetWorldToObj(math, m, objToWorld);
      UpdateTargetPoint(math, Some(d));
    }

    /**
     * The up_direction setter: stores the new up, re-looks at the target (or, when not following,
     * at translation + z, as written) and re-applies the roll measured before the change.
     */
    method SetUpDirection(math: Math, value: Vec3)
      modifies this, base
      ensures up == value
      ensures base.Axes() == LookAtRolled(math, base.translation,
                               if follow then target else UpLookPointAsWritten(base.translation, old(base.zAxis)),
                               value, RollAngle(math, old(up), old(base.Axes())), follow)
      ensures base.translation == old(base.translation) && base.scale == old(base.scale)
      ensures base.worldToObj == old(base.worldToObj) && base.dirtyMatrix
      ensures follow == old(follow) && target == old(target)
    {
      var roll := RollAngle(math, up, base.Axes());
      up := value;
      var toward := if follow then target else UpLookPointAsWritten(base.translation, base.zAxis);
      LookAtPoint(math, toward, up, None);
      if roll != 0.0 {
        Rotate(math, 0.0, 0.0, roll, false);
      }
    }

    /** The follow_target_point setter: turning following on looks at the target, keeping the roll. */
    method SetFollowTargetPoint(math: Math, value: bool)
      modifies this, base
      ensures follow == value && up == old(up) && target == old(target)
      ensures base.Axes() == (if value then LookAtTarget(math, old(base.Axes()), base.translation, target, up, false, true)
                              else old(base.Axes()))
      ensures base.translation == old(base.translation) && base.scale == old(base.scale)
      ensures base.worldToObj == old(base.worldToObj)
      ensures base.dirtyMatrix == (value || old(base.dirtyMatrix))
    {
      follow := value;
      if value {
        LookAtTargetPoint(math, false);
      }
    }

    /**
     * `set_target_point(p, reset_y)`: a point on the translation is refused; a point within the
     * tolerance of the current target changes nothing; otherwise the target moves and, when
     * following, the axes look at it.
     */
    method SetTargetPoint(math: Math, p: Vec3, resetY: bool) returns (r: Outcome)
      modifies this, base
      ensures r.Failure? <==> p == old(base.translation)
      ensures r.Failure? ==> r.message == "Target point is equal to translation"
      ensures r.Failure? || NearlyEqual(p, old(target), AlmostZero) ==> State() == old(State())
      ensures r.Success? && !NearlyEqual(p, old(target), AlmostZero) ==>
        && target == p
        && base.Axes() == (if follow then LookAtTarget(math, old(base.Axes()), base.translation, p, up, resetY, true)
                           else old(base.Axes()))
        && base.translation == old(base.translation) && base.scale == old(base.scale)
        && base.worldToObj == old(base.worldToObj)
        && base.dirtyMatrix == (follow || old(base.dirtyMatrix))
        && follow == old(follow) && up == old(up)
      ensures r.Success? && !NearlyEqual(p, old(target), AlmostZero) ==> TargetApart()
      ensures old(TargetApart()) ==> TargetApart()
    {
      if p == base.translation {
        return Failure("Target point is equal to translation");
      }
      r := Success;
      if NearlyEqual(p, target, AlmostZero) {
        return;
      }
      target := p;
      if follow {
        LookAtTargetPoint(math, resetY);
      }
    }

    /**
     * `translate_target_point`: moves the target; if it lands on the translation it is put back
     * and the call fails, otherwise the axes follow it when following and the matrix is dirty.
     */
    method TranslateTargetPoint(math: Math, dx: real, dy: real, dz: real, inObjectSpace: bool) returns (r: Outcome)
      modifies this, base
      ensures var moved := Moved(old(base.Axes()), old(target), dx, dy, dz, inObjectSpace);
        r.Failure? <==> moved == old(base.translation)
      ensures r.Failure? ==> r.message == "Target point is equal to translation" && State() == old(State())
      ensures r.Success? ==>
        && target == Moved(old(base.Axes()), old(target), dx, dy, dz, inObjectSpace)
        && base.Axes() == (if follow then LookAtTarget(math, old(base.Axes()), base.translation, target, up, false, true)
                           else old(base.Axes()))
        && base.translation == old(base.translation) && base.scale == old(base.scale)
        && base.worldToObj == old(base.worldToObj) && base.dirtyMatrix
        && follow == old(follow) && up == old(up)
      ensures r.Success? ==> TargetApart()
      ensures old(TargetApart()) ==> TargetApart()
    {
      var saved := target;
      target := base.TranslateVector(dx, dy, dz, target, inObjectSpace);
      if target == base.translation {
        target := saved;
        return Failure("Target point is equal to translation");
      }
      if follow {
        LookAtTargetPoint(math, false);
      }
      base.dirtyMatrix := true;
      r := Success;
    }
      /**
     * The overriding `_rotate_y_vectors`: all three axes (not just x and z) and the `extra`
     * vectors turn about `axis` (through the world-space loop of `_rotate_vectors`); unlike the
     * Transform version it leaves the dirty flag alone.
     */
    method RotateYVectors(math: Math, axis: Vec3, angle: real, extra: seq<Vec3>) returns (rotated: seq<Vec3>)
      modifies base
      ensures base.Axes() == TurnAll(math, old(base.Axes()), axis, angle)
      ensures rotated == RotatedAll(math, axis, angle, extra)
      ensures base.translation == old(base.translation) && base.scale == old(base.scale)
      ensures base.worldToObj == old(base.worldToObj) && base.dirtyMatrix == old(base.dirtyMatrix)
    {
      var all := RotatedCopies(math, axis, angle, [base.xAxis, base.yAxis, base.zAxis] + extra);
      RotatedAllSplits(math, axis, angle, [base.xAxis, base.yAxis, base.zAxis], extra);
      base.xAxis, base.yAxis, base.zAxis := all[0], all[1], all[2];
      rotated := all[3..];
    }

    /**
     * `rotate(dx, dy, dz, rotate_target)`: always rolls about z by -dz; turns about up and x only
     * when the target is rotated too or not followed; then re-places the target when it is rotated.
     */
    method Rotate(math: Math, dx: real, dy: real, dz: real, rotateTarget: bool)
      modifies this, base
      ensures base.Axes() == TargetTurned(math, old(base.Axes()), up, dx, dy, dz, rotateTarget || !follow)
      ensures target == (if rotateTarget then PlacedTarget(base.translation, base.zAxis, Distance(math, base.translation, old(target)))
                         else old(target))
      ensures base.translation == old(base.translation) && base.scale == old(base.scale)
      ensures base.worldToObj == old(base.worldToObj) && base.dirtyMatrix
      ensures follow == old(follow) && up == old(up)
      ensures !rotateTarget || (SqrtLaw(math) && Dot(base.zAxis, base.zAxis) == 1.0) ==> (TargetApart() <==> old(TargetApart()))
    {
      var none := base.RotateZVectors(math, base.zAxis, -dz, []);
      if rotateTarget || !follow {
        none := RotateYVectors(math, up, dy, []);
        none := base.RotateXVectors(math, base.xAxis, dx, []);
      }
      if rotateTarget {
        UpdateTargetPoint(math, None);
      }
      base.dirtyMatrix := true;
    }

    /**
     * `translate(dx, dy, dz, in_object_space, translate_target)`: moves the translation and, if
     * asked, the target by the same amounts; otherwise a following transform re-looks at the target.
     */
    method Translate(math: Math, dx: real, dy: real, dz: real, inObjectSpace: bool, translateTarget: bool) returns (r: Outcome)
      modifies this, base
      ensures base.translation == Moved(old(base.Axes()), old(base.translation), dx, dy, dz, inObjectSpace)
      ensures translateTarget ==> (r.Failure? <==> old(target) == old(base.translation))
      ensures !translateTarget ==> r.Success?
      ensures r.Failure? ==> target == old(target) && base.Axes() == old(base.Axes())
      ensures translateTarget && r.Success? ==> Sub(target, base.translation) == Sub(old(target), old(base.translation))
      ensures !translateTarget ==> target == old(target)
      ensures r.Success? ==>
        base.Axes() == (if follow then LookAtTarget(math, old(base.Axes()), base.translation, target, up, false, true)
                        else old(base.Axes()))
      ensures base.scale == old(base.scale) && base.worldToObj == old(base.worldToObj) && base.dirtyMatrix
      ensures follow == old(follow) && up == old(up)
      ensures translateTarget && old(TargetApart()) ==> TargetApart()
    {
      base.Translate(dx, dy, dz, inObjectSpace);
      if translateTarget {
        MovedMeets(base.Axes(), old(target), old(base.translation), dx, dy, dz, inObjectSpace);
        MovedKeepsOffset(base.Axes(), old(target), old(base.translation), dx, dy, dz, inObjectSpace);
        r := TranslateTargetPoint(math, dx, dy, dz, inObjectSpace);
      } else {
        if follow {
          LookAtTargetPoint(math, false);
        }
        r := Success;
      }
    }

    /**
     * `set_translation(x, y, z, translate_target)`: without dragging the target, a location on the
     * target is refused before anything changes; with it, the target moves by the same world delta.
     */
    method SetTranslation(math: Math, v: Vec3, translateTarget: bool) returns (r: Outcome)
      modifies this, base
      ensures !translateTarget ==> (r.Failure? <==> old(target) == v)
      ensures !translateTarget && r.Failure? ==> r.message == "Translation is equal to target point" && State() == old(State())
      ensures translateTarget ==> (r.Failure? <==> old(target) == old(base.translation))
      ensures translateTarget || r.Success? ==> base.translation == v && base.dirtyMatrix
      ensures r.Failure? ==> target == old(target) && base.Axes() == old(base.Axes())
      ensures translateTarget && r.Success? ==> Sub(target, base.translation) == Sub(old(target), old(base.translation))
      ensures !translateTarget ==> target == old(target)
      ensures r.Success? ==>
        base.Axes() == (if follow then LookAtTarget(math, old(base.Axes()), v, target, up, false, true)
                        else old(base.Axes()))
      ensures base.scale == old(base.scale) && base.worldToObj == old(base.worldToObj)
      ensures follow == old(follow) && up == old(up)
      ensures !translateTarget && r.Success? ==> TargetApart()
      ensures old(TargetApart()) ==> TargetApart()
    {
      if !translateTarget && target == v {
        return Failure("Translation is equal to target point");
      }
      var previous := base.translation;
      base.SetTranslation(v);
      if translateTarget {
        var dx, dy, dz := v.x - previous.x, v.y - previous.y, v.z - previous.z;
        assert Moved(base.Axes(), previous, dx, dy, dz, false) == v;
        MovedMeets(base.Axes(), target, previous, dx, dy, dz, false);
        MovedKeepsOffset(base.Axes(), target, previous, dx, dy, dz, false);
        r := TranslateTargetPoint(math, dx, dy, dz, false);
      } else {
        if follow {
          LookAtTargetPoint(math, false);
        }
        r := Success;
      }
    }

    /**
     * `set_rotation(x, y, z, rotate_target)`: resets z (and x and y when the full rotation
     * applies) to the canonical axes, then rotates.
     */
    method SetRotation(math: Math, dx: real, dy: real, dz: real, rotateTarget: bool)
      modifies this, base
      ensures base.Axes() == TargetTurned(math, ResetForRotation(old(base.Axes()), rotateTarget || !follow), up,
                                          dx, dy, dz, rotateTarget || !follow)
      ensures target == (if rotateTarget then PlacedTarget(base.translation, base.zAxis, Distance(math, base.translation, old(target)))
                         else old(target))
      ensures base.translation == old(base.translation) && base.scale == old(base.scale)
      ensures base.worldToObj == old(base.worldToObj) && base.dirtyMatrix
      ensures follow == old(follow) && up == old(up)
      ensures !rotateTarget || (SqrtLaw(math) && Dot(base.zAxis, base.zAxis) == 1.0) ==> (TargetApart() <==> old(TargetApart()))
    {
      var reset := ResetForRotation(base.Axes(), rotateTarget || !follow);
      base.xAxis, base.yAxis, base.zAxis := reset.x, reset.y, reset.z;
      assert base.Axes() == reset;
      Rotate(math, dx, dy, dz, rotateTarget);
    }

    /**
     * `rotate_around_axis(axis, angle, in_object_space, rotate_target)`: the Transform rotation,
     * then the target is re-placed, or a following transform re-looks at it.
     */
    method RotateAroundAxis(math: Math, axis: Vec3, angle: real, inObjectSpace: bool, rotateTarget: bool)
      requires inObjectSpace && base.dirtyMatrix ==> Invertible(base.scale)
      modifies this, base
      ensures var used := if inObjectSpace then RotateTransposeByMatrix(axis, old(base.CurrentWorldToObj())) else axis;
        var turned := TurnAll(math, old(base.Axes()), used, angle);
        base.Axes() == (if !rotateTarget && follow then LookAtTarget(math, turned, base.translation, target, up, false, true)
                        else turned)
      ensures target == (if rotateTarget then PlacedTarget(base.translation, base.zAxis, Distance(math, base.translation, old(target)))
                         else old(target))
      ensures base.worldToObj == (if inObjectSpace then old(base.CurrentWorldToObj()) else old(base.worldToObj))
      ensures base.translation == old(base.translation) && base.scale == old(base.scale) && base.dirtyMatrix
      ensures follow == old(follow) && up == old(up)
      ensures !rotateTarget || (SqrtLaw(math) && Dot(base.zAxis, base.zAxis) == 1.0) ==> (TargetApart() <==> old(TargetApart()))
    {
      base.RotateAroundAxis(math, axis, angle, inObjectSpace);
      if rotateTarget {
        UpdateTargetPoint(math, None);
      } else if follow {
        LookAtTargetPoint(math, false);
      }
      base.dirtyMatrix := true;
    }

    /** `set_rotation_around_axis(axis, angle, rotate_target)`: resets the axes, then turns them in world space. */
    method SetRotationAroundAxis(math: Math, axis: Vec3, angle: real, rotateTarget: bool)
      modifies this, base
      ensures var turned := TurnAll(math, Canonical, axis, angle);
        base.Axes() == (if !rotateTarget && follow then LookAtTarget(math, turned, base.translation, target, up, false, true)
                        else turned)
      ensures target == (if rotateTarget then PlacedTarget(base.translation, base.zAxis, Distance(math, base.translation, old(target)))
                         else old(target))
      ensures base.translation == old(base.translation) && base.scale == old(base.scale)
      ensures base.worldToObj == old(base.worldToObj) && base.dirtyMatrix
      ensures follow == old(follow) && up == old(up)
      ensures !rotateTarget || (SqrtLaw(math) && Dot(base.zAxis, base.zAxis) == 1.0) ==> (TargetApart() <==> old(TargetApart()))
    {
      var canonical := Canonical;
      base.xAxis, base.yAxis, base.zAxis := canonical.x, canonical.y, canonical.z;
      assert base.Axes() == canonical;
      ghost var kept := (base.translation, base.scale, base.worldToObj);
      assert kept == old((base.translation, base.scale, base.worldToObj));
      RotateAroundAxis(math, axis, angle, false, rotateTarget);
      assert kept == (base.translation, base.scale, old(base.worldToObj));
    }

    /**
     * `rotate_around_point(point, dx, dy, dz, rotate_target)`: the axes rotate as in `rotate`, and
     * the offsets of the translation (and of the target, unless it sits on the pivot within the
     * tolerance) from the pivot swing with them.
     */
    method RotateAroundPoint(math: Math, point: Vec3, dx: real, dy: real, dz: real, rotateTarget: bool)
      modifies this, base
      ensures var drag := rotateTarget && !NearlyEqual(point, old(target), AlmostZero);
        var turned := TargetTurned(math, old(base.Axes()), up, dx, dy, dz, true);
        && base.translation == Add(point, Swung(math, old(base.Axes()), up, dx, dy, dz, Sub(old(base.translation), point)))
        && (drag ==> target == Add(point, Swung(math, old(base.Axes()), up, dx, dy, dz, Sub(old(target), point)))
                     && base.Axes() == turned)
        && (!drag ==> target == old(target)
                      && base.Axes() == (if follow then LookAtTarget(math, turned, base.translation, target, up, false, true)
                                         else turned))
      ensures base.scale == old(base.scale) && base.worldToObj == old(base.worldToObj) && base.dirtyMatrix
      ensures follow == old(follow) && up == old(up)
    {
      var drag := rotateTarget && !NearlyEqual(point, target, AlmostZero);
      var toPoint := Sub(base.translation, point);
      var swing := if drag then [toPoint, Sub(target, point)] else [toPoint];
      var none := base.RotateZVectors(math, base.zAxis, -dz, []);
      swing := RotateYVectors(math, up, dy, swing);
      swing := base.RotateXVectors(math, base.xAxis, dx, swing);
      base.translation := Add(point, swing[0]);
      if drag {
        target := Add(point, swing[1]);
      } else if follow {
        LookAtTargetPoint(math, false);
      }
      base.dirtyMatrix := true;
    }

    /** `orbit_around_target_point(dx, dy, dz)`: rotates about the target without moving it. */
    method OrbitAroundTargetPoint(math: Math, dx: real, dy: real, dz: real)
      modifies this, base
      ensures target == old(target)
      ensures base.translation == Add(target, Swung(math, old(base.Axes()), up, dx, dy, dz, Sub(old(base.translation), target)))
      ensures var turned := TargetTurned(math, old(base.Axes()), up, dx, dy, dz, true);
        base.Axes() == (if follow then LookAtTarget(math, turned, base.translation, target, up, false, true) else turned)
      ensures base.scale == old(base.scale) && base.worldToObj == old(base.worldToObj) && base.dirtyMatrix
      ensures follow == old(follow) && up == old(up)
      ensures Pythagorean(math) && old(IsOrthonormal(base.Axes())) && Dot(up, up) == 1.0 ==>
        (TargetApart() <==> old(TargetApart()))
    {
      if Pythagorean(math) && IsOrthonormal(base.Axes()) && Dot(up, up) == 1.0 {
        SwungKeepsZero(math, base.Axes(), up, dx, dy, dz, Sub(base.translation, target));
      }
      RotateAroundPoint(math, target, dx, dy, dz, false);
    }
  }

}
