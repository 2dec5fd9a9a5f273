/**
 * The Camera: a lens (projection mode, aperture, focal length, clip range and the scene-up enum)
 * on top of a TransformTarget, with the manipulation verbs that move the transform and announce
 * what changed. The announcements are kept as a ghost log of event names; the listeners and the
 * payload of each event are not part of the model.
 */
module Cameras {
  import opened Linear
  import opened Transforms
  import opened TransformTargets

  /** The scene-up enum: y up or z up. */
  const YUp: int := 0
  const ZUp: int := 1

  /** Everything a camera holds apart from its transform. */
  datatype Lens = Lens(orthographic: bool, aperture: real, focal: real, clipMax: real, clipMin: real, sceneUp: int)

  /** The change events a camera emits, one per property that `changed(what)` names. */
  datatype Event =
    | ApertureChanged | ClipMaxChanged | ClipMinChanged | FocalChanged
    | OrthographicChanged | TargetPointChanged | TransformChanged | UpDirectionChanged

  /** The name under which an event is emitted: the property followed by "-changed". */
  function Name(e: Event): string
  {
    match e
    case ApertureChanged => "aperture-changed"
    case ClipMaxChanged => "clip_max-changed"
    case ClipMinChanged => "clip_min-changed"
    case FocalChanged => "focal-changed"
    case OrthographicChanged => "orthographic-changed"
    case TargetPointChanged => "target_point-changed"
    case TransformChanged => "transform-changed"
    case UpDirectionChanged => "up_direction-changed"
  }

  /** Distinct events go out under distinct names, so a listener can tell every change apart. */
  lemma NamesDistinct(a: Event, b: Event)
    ensures Name(a) == Name(b) <==> a == b
  {
    if a != b {
      assert Name(a)[0] != Name(b)[0] || Name(a)[6] != Name(b)[6];
    }
  }

  /** The lens of a new camera: perspective, aperture 100, focal 50, clip range [0.1, 1000], y up. */
  const DefaultLens := Lens(false, 100.0, 50.0, 1000.0, 0.1, YUp)

  // ---------------------------------------------------------------------------------------
  // The lens as values
  // ---------------------------------------------------------------------------------------

  /** What the aperture setter stores: its magnitude, or 1.0 for a value that is not a number. */
  function StoredAperture(value: Option<real>): (a: real)
    ensures 0.0 <= a
    ensures value.None? ==> a == 1.0
    ensures value.Some? ==> a == value.value || a == -value.value
  {
    if value.None? then 1.0 else Abs(value.value)
  }

  /** Storing what was stored changes nothing: the setter is idempotent. */
  lemma StoredApertureIdempotent(value: Option<real>)
    ensures StoredAperture(Some(StoredAperture(value))) == StoredAperture(value)
  {
  }

  /** The aperture setter announces itself exactly when the stored value differs from the current one. */
  function ApertureEvents(current: real, value: Option<real>): (e: seq<Event>)
    ensures e == [] <==> StoredAperture(value) == current
    ensures e != [] ==> e == [ApertureChanged]
  {
    if StoredAperture(value) != current then [ApertureChanged] else []
  }

  /** The field_of_view getter: the sentinel -1 when orthographic, else atan2(aperture / 2, focal). */
  function FieldOfView(math: Math, lens: Lens): real
  {
    if lens.orthographic then -1.0 else math.atan2(lens.aperture / 2.0, lens.focal)
  }

  /** An orthographic camera reports the sentinel whatever its aperture and focal length. */
  lemma FieldOfViewOrthographic(math: Math, lens: Lens)
    requires lens.orthographic
    ensures FieldOfView(math, lens) == -1.0
  {
  }

  /** The aperture the field_of_view setter stores on a perspective camera. */
  function ApertureForFieldOfView(math: Math, focal: real, angle: real): (a: real)
    ensures 0.0 <= a
  {
    StoredAperture(Some(focal * math.tan(angle) * 2.0))
  }

  /**
   * Reading the field of view back after setting it on a perspective camera with a positive
   * focal length gives atan2(focal * |tan angle|, focal): the angle itself for angles in [0, pi/2),
   * and its magnitude for negative ones, because the setter stores the aperture's magnitude.
   */
  lemma FieldOfViewAfterSetting(math: Math, lens: Lens, angle: real)
    requires !lens.orthographic && 0.0 < lens.focal
    ensures FieldOfView(math, lens.(aperture := ApertureForFieldOfView(math, lens.focal, angle)))
            == math.atan2(lens.focal * Abs(math.tan(angle)), lens.focal)
  {
    var f, t := lens.focal, math.tan(angle);
    var a := ApertureForFieldOfView(math, f, angle);
    DoubledMagnitude(f, t);
    assert a == f * Abs(t) * 2.0;
    assert a / 2.0 == f * Abs(t);
    assert FieldOfView(math, lens.(aperture := a)) == math.atan2(a / 2.0, f) == math.atan2(f * Abs(t), f);
    assert lens.(aperture := ApertureForFieldOfView(math, lens.focal, angle)) == lens.(aperture := a);
    assert lens.focal * Abs(math.tan(angle)) == f * Abs(t);
  }

  /** For a positive factor f, |f * t * 2| is f * |t| * 2. */
  lemma DoubledMagnitude(f: real, t: real)
    requires 0.0 < f
    ensures Abs(f * t * 2.0) == f * Abs(t) * 2.0
  {
    if 0.0 <= t {
      assert 0.0 <= f * t;
    } else {
      assert f * t < 0.0;
      assert Abs(f * t * 2.0) == -(f * t * 2.0) == f * -t * 2.0;
    }
  }

  /** The aperture after an orthographic dolly: it grows by `depth` only if the result stays positive. */
  function OrthographicDolly(aperture: real, depth: real): (a: real)
    ensures 0.0 < aperture + depth ==> a == aperture + depth
    ensures aperture + depth <= 0.0 ==> a == aperture
  {
    if 0.0 < aperture + depth then aperture + depth else aperture
  }

  /** A positive aperture stays positive under orthographic dollies, however far they go. */
  lemma OrthographicDollyKeepsPositive(aperture: real, depth: real)
    requires 0.0 < aperture
    ensures 0.0 < OrthographicDolly(aperture, depth)
  {
  }

  /** Dollying back by the same depth undoes an orthographic dolly that was applied. */
  lemma OrthographicDollyUndone(aperture: real, depth: real)
    requires 0.0 < aperture && 0.0 < aperture + depth
    ensures OrthographicDolly(OrthographicDolly(aperture, depth), -depth) == aperture
  {
  }

  /**
   * The events of an orthographic dolly: the aperture setter's own announcement, when the value
   * changes, followed by a second explicit one; nothing when the dolly is refused.
   */
  function OrthographicDollyEvents(aperture: real, depth: real): seq<Event>
  {
    if 0.0 < aperture + depth then ApertureEvents(aperture, Some(aperture + depth)) + [ApertureChanged] else []
  }

  /** A dolly that moves a positive aperture announces ApertureChanged twice; a zero-depth dolly once. */
  lemma OrthographicDollyAnnouncements(aperture: real, depth: real)
    requires 0.0 < aperture
    ensures 0.0 < aperture + depth && depth != 0.0 ==>
              OrthographicDollyEvents(aperture, depth) == [ApertureChanged, ApertureChanged]
    ensures depth == 0.0 ==> OrthographicDollyEvents(aperture, depth) == [ApertureChanged]
    ensures aperture + depth <= 0.0 ==> OrthographicDollyEvents(aperture, depth) == []
  {
  }

  /**
   * The events of a manipulation verb: TransformChanged last, preceded by
   * TargetPointChanged exactly when the target point was shifted too.
   */
  function VerbEvents(shift: bool): (e: seq<Event>)
    ensures 0 < |e| && e[|e| - 1] == TransformChanged
    ensures shift <==> |e| == 2
    ensures shift ==> e[0] == TargetPointChanged
  {
    (if shift then [TargetPointChanged] else []) + [TransformChanged]
  }

  /** The direction the scene_up_direction setter gives the transform: y for Y_UP, z for anything else. */
  function SceneUpVector(sceneUp: int): (v: Vec3)
    ensures Dot(v, v) == 1.0
    ensures sceneUp == YUp ==> v == YAxis
    ensures sceneUp != YUp ==> v == ZAxis
  {
    if sceneUp == YUp then YAxis else ZAxis
  }

  /**
   * The comparison of `equal` for two distinct cameras: identical aperture, focal length and field
   * of view, and world-to-object matrices equal within the tolerance.
   */
  predicate SameView(math: Math, a: Lens, ma: Mat4, b: Lens, mb: Mat4)
  {
    && a.aperture == b.aperture && a.focal == b.focal
    && FieldOfView(math, a) == FieldOfView(math, b)
    && MatNearlyEqual(ma, mb, AlmostZero)
  }

  /** Every camera has the same view as itself. */
  lemma SameViewReflexive(math: Math, lens: Lens, m: Mat4)
    ensures SameView(math, lens, m, lens, m)
  {
  }

  /** The comparison does not depend on which camera is on the left. */
  lemma SameViewSymmetric(math: Math, a: Lens, ma: Mat4, b: Lens, mb: Mat4)
    ensures SameView(math, a, ma, b, mb) <==> SameView(math, b, mb, a, ma)
  {
  }

  /** The orthographic flag is not compared, but two cameras that differ in it differ in field of view when the perspective one does not report -1. */
  lemma SameViewSeesProjection(math: Math, a: Lens, ma: Mat4, b: Lens, mb: Mat4)
    requires a.orthographic && !b.orthographic && FieldOfView(math, b) != -1.0
    ensures !SameView(math, a, ma, b, mb)
  {
  }

  // ---------------------------------------------------------------------------------------
  // The camera object
  // ---------------------------------------------------------------------------------------

  class Camera {
    var transform: TransformTarget
    var orthographic: bool
    var aperture: real
    var focal: real
    var clipMax: real
    var clipMin: real
    var sceneUp: int
    /** The names of the change events emitted so far, oldest first. */
    ghost var events: seq<Event>

    function Settings(): Lens
      reads this
    {
      Lens(orthographic, aperture, focal, clipMax, clipMin, sceneUp)
    }

    /** A new camera: the default lens on a new target transform; nothing emitted yet. */
    constructor ()
      ensures fresh(transform) && fresh(transform.base)
      ensures Settings() == DefaultLens
      ensures transform.State() == TargetState(Zero3, Canonical, UnitScale, true, Identity4, true, YAxis, Vec3(0.0, 0.0, -1.0))
      ensures events == []
    {
      transform := new TransformTarget();
      orthographic, aperture, focal := false, 100.0, 50.0;
      clipMax, clipMin := 1000.0, 0.1;
      sceneUp := YUp;
      events := [];
    }

    /** `populate_clone`: copies the lens and gives the clone a deep copy of the transform. */
    method PopulateClone(clone: Camera)
      modifies clone
      ensures clone.Settings() == old(Settings())
      ensures fresh(clone.transform) && fresh(clone.transform.base)
      ensures clone.transform.State() == old(transform.State())
      ensures clone.events == old(clone.events)
    {
      var lens := Settings();
      var copy := transform.Clone();
      clone.orthographic, clone.aperture, clone.focal := lens.orthographic, lens.aperture, lens.focal;
      clone.clipMax, clone.clipMin := lens.clipMax, lens.clipMin;
      clone.transform := copy;
      clone.sceneUp := lens.sceneUp;
    }

    /** `clone`: a new camera equal to this one, sharing no object with it. */
    method Clone() returns (c: Camera)
      ensures fresh(c) && fresh(c.transform) && fresh(c.transform.base)
      ensures c.Settings() == Settings() && c.transform.State() == transform.State()
      ensures c.events == []
    {
      c := new Camera();
      PopulateClone(c);
    }

    /** The orthographic setter: a no-op for the current value, otherwise stores it and announces it. */
    method SetOrthographic(value: bool)
      modifies this
      ensures Settings() == old(Settings()).(orthographic := value) && transform == old(transform)
      ensures events == old(events) + (if value != old(orthographic) then [OrthographicChanged] else [])
    {
      if value != orthographic {
        orthographic := value;
        events := events + [OrthographicChanged];
      }
    }

    /** The aperture setter; `None` stands for a value that is not a number. */
    method SetAperture(value: Option<real>)
      modifies this
      ensures Settings() == old(Settings()).(aperture := StoredAperture(value)) && transform == old(transform)
      ensures events == old(events) + ApertureEvents(old(aperture), value)
    {
      var stored := if value.None? then 1.0 else Abs(value.value);
      if aperture != stored {
        aperture := stored;
        events := events + [ApertureChanged];
      }
    }

    /** The field_of_view setter: on a perspective camera, the aperture for that half-angle; ignored when orthographic. */
    method SetFieldOfView(math: Math, angle: real)
      modifies this
      ensures transform == old(transform)
      ensures old(orthographic) ==> Settings() == old(Settings()) && events == old(events)
      ensures !old(orthographic) ==>
        && Settings() == old(Settings()).(aperture := ApertureForFieldOfView(math, old(focal), angle))
        && events == old(events) + ApertureEvents(old(aperture), Some(old(focal) * math.tan(angle) * 2.0)) + [ApertureChanged]
    {
      if !orthographic {
        SetAperture(Some(focal * math.tan(angle) * 2.0));
        events := events + [ApertureChanged];
      }
    }

    /** The focal setter: always stores and announces. */
    method SetFocal(value: real)
      modifies this
      ensures Settings() == old(Settings()).(focal := value) && transform == old(transform)
      ensures events == old(events) + [FocalChanged]
    {
      focal := value;
      events := events + [FocalChanged];
    }

    /** The clip_max setter: always stores and announces. */
    method SetClipMax(value: real)
      modifies this
      ensures Settings() == old(Settings()).(clipMax := value) && transform == old(transform)
      ensures events == old(events) + [ClipMaxChanged]
    {
      clipMax := value;
      events := events + [ClipMaxChanged];
    }

    /** The clip_min setter: always stores and announces. */
    method SetClipMin(value: real)
      modifies this
      ensures Settings() == old(Settings()).(clipMin := value) && transform == old(transform)
      ensures events == old(events) + [ClipMinChanged]
    {
      clipMin := value;
      events := events + [ClipMinChanged];
    }

    /** The transform setter: adopts another transform object (without copying it) unless it is the current one. */
    method SetTransform(value: TransformTarget)
      modifies this
      ensures transform == value && Settings() == old(Settings())
      ensures events == old(events) + (if value != old(transform) then [TargetPointChanged, TransformChanged] else [])
    {
      if value != transform {
        transform := value;
        events := events + [TargetPointChanged, TransformChanged];
      }
    }

    /**
     * The matrix setter: a present matrix becomes the transform's world-to-object matrix, the
     * location and axes are derived from its inverse `objToWorld` (the scale is kept), and the
     * target is put back at its distance; an absent one is ignored.
     */
    method SetMatrix(math: Math, value: Option<Mat4>, objToWorld: Mat4)
      requires value.Some? ==> UndoesPoints(value.value, objToWorld)
      modifies this, transform, transform.base
      ensures transform == old(transform) && Settings() == old(Settings())
      ensures value.None? ==> transform.State() == old(transform.State()) && events == old(events)
      ensures value.Some? ==>
        var p := DeriveVectorsAsWritten(math, objToWorld, old(transform.base.scale));
        var d := old(Distance(math, transform.base.translation, transform.target));
        && transform.State() == old(transform.State()).(
             translation := p.translation, axes := p.axes, dirty := false, worldToObj := value.value,
             target := PlacedTarget(p.translation, p.axes.z, TargetDistance(math, p.translation, old(transform.target), Some(d))))
        && events == old(events) + [TransformChanged]
    {
      if value.Some? {
        transform.SetWorldToObj(math, value.value, objToWorld);
        events := events + [TransformChanged];
      }
    }

    /**
     * The scene_up_direction setter: a no-op for the current value; otherwise stores it, gives the
     * transform the y or z axis as its up direction, and announces both changes.
     */
    method SetSceneUpDirection(math: Math, value: int)
      modifies this, transform, transform.base
      ensures transform == old(transform) && Settings() == old(Settings()).(sceneUp := value)
      ensures value == old(sceneUp) ==> transform.State() == old(transform.State()) && events == old(events)
      ensures value != old(sceneUp) ==>
        var s := old(transform.State());
        && transform.State() == s.(up := SceneUpVector(value), dirty := true,
             axes := LookAtRolled(math, s.translation, if s.follow then s.target else UpLookPointAsWritten(s.translation, s.axes.z),
                                  SceneUpVector(value), RollAngle(math, s.up, s.axes), s.follow))
        && events == old(events) + [UpDirectionChanged, TransformChanged]
    {
      if sceneUp != value {
        sceneUp := value;
        transform.SetUpDirection(math, if value == YUp then YAxis else ZAxis);
        events := events + [UpDirectionChanged, TransformChanged];
      }
    }

    /** The follow_target_point setter: forwards a change to the transform; only switching it on is announced. */
    method SetFollowTargetPoint(math: Math, value: bool)
      modifies this, transform, transform.base
      ensures transform == old(transform) && Settings() == old(Settings())
      ensures var s := old(transform.State());
        var on := value && !s.follow;
        transform.State() == s.(follow := value, dirty := on || s.dirty,
          axes := if on then LookAtTarget(math, s.axes, s.translation, s.target, s.up, false, true) else s.axes)
      ensures events == old(events) + (if value && !old(transform.follow) then [TransformChanged] else [])
    {
      if transform.follow != value {
        transform.SetFollowTargetPoint(math, value);
        if value {
          events := events + [TransformChanged];
        }
      }
    }

    /**
     * `set_target_point(p, reset_up)` (the target_point setter passes false): the transform's
     * target moves; a point on the camera's location is refused and nothing is announced.
     */
    method SetTargetPoint(math: Math, p: Vec3, resetUp: bool) returns (r: Outcome)
      modifies this, transform, transform.base
      ensures transform == old(transform) && Settings() == old(Settings())
      ensures r.Failure? <==> p == old(transform.base.translation)
      ensures r.Failure? ==> r.message == "Target point is equal to translation"
      ensures r.Failure? ==> transform.State() == old(transform.State())
      ensures r.Success? && !NearlyEqual(p, old(transform.target), AlmostZero) ==>
        var s := old(transform.State());
        transform.State() == s.(target := p, dirty := s.follow || s.dirty,
          axes := if s.follow then LookAtTarget(math, s.axes, s.translation, p, s.up, resetUp, true) else s.axes)
      ensures r.Success? && NearlyEqual(p, old(transform.target), AlmostZero) ==> transform.State() == old(transform.State())
      ensures events == old(events) + (if r.Success? then [TargetPointChanged, TransformChanged] else [])
    {
      r := transform.SetTargetPoint(math, p, resetUp);
      if r.Success? {
        events := events + [TargetPointChanged, TransformChanged];
      }
    }

    /**
     * What the transform's `translate(dx, dy, dz, in_object_space, shift)` does, seen from the
     * camera: the location moves, the target moves with it when shifted (a shift from a location
     * on the target is refused), a following transform keeps looking at the target, and the
     * lens stays as it was.
     */
    twostate predicate TranslatedBy(math: Math, dx: real, dy: real, dz: real, inObjectSpace: bool, shift: bool, r: Outcome)
      reads this, transform, transform.base
    {
      && transform == old(transform) && Settings() == old(Settings())
      && transform.base.translation == Moved(old(transform.base.Axes()), old(transform.base.translation), dx, dy, dz, inObjectSpace)
      && (shift ==> (r.Failure? <==> old(transform.target) == old(transform.base.translation)))
      && (!shift ==> r.Success? && transform.target == old(transform.target))
      && (r.Failure? ==> transform.target == old(transform.target) && transform.base.Axes() == old(transform.base.Axes()))
      && (shift && r.Success? ==>
            Sub(transform.target, transform.base.translation) == Sub(old(transform.target), old(transform.base.translation)))
      && (r.Success? ==>
            transform.base.Axes() == (if transform.follow
                                      then LookAtTarget(math, old(transform.base.Axes()), transform.base.translation,
                                                        transform.target, transform.up, false, true)
                                      else old(transform.base.Axes())))
      && transform.follow == old(transform.follow) && transform.up == old(transform.up)
      && transform.base.scale == old(transform.base.scale)
      && transform.base.worldToObj == old(transform.base.worldToObj) && transform.base.dirtyMatrix
    }

    /**
     * The transform's `translate(dx, dy, dz, in_object_space, shift)` followed by the announcement
     * of a manipulation verb; a refused move announces nothing. Shared by the moving verbs below.
     */
    method MoveAndAnnounce(math: Math, dx: real, dy: real, dz: real, inObjectSpace: bool, shift: bool) returns (r: Outcome)
      modifies this, transform, transform.base
      ensures TranslatedBy(math, dx, dy, dz, inObjectSpace, shift, r)
      ensures events == old(events) + (if r.Success? then VerbEvents(shift) else [])
    {
      r := transform.Translate(math, dx, dy, dz, inObjectSpace, shift);
      if r.Success? {
        events := events + VerbEvents(shift);
      }
    }

    /** `pan(horizontal, vertical, shift)`: moves along the camera's right and up vectors. */
    method Pan(math: Math, horizontal: real, vertical: real, shift: bool) returns (r: Outcome)
      modifies this, transform, transform.base
      ensures TranslatedBy(math, horizontal, vertical, 0.0, true, shift, r)
      ensures events == old(events) + (if r.Success? then VerbEvents(shift) else [])
    {
      r := MoveAndAnnounce(math, horizontal, vertical, 0.0, true, shift);
    }

    /**
     * `dolly(depth, shift)`: an orthographic camera changes its aperture instead of moving (and
     * only when the result stays positive); a perspective one moves along its local z axis.
     */
    method Dolly(math: Math, depth: real, shift: bool) returns (r: Outcome)
      modifies this, transform, transform.base
      ensures old(orthographic) ==>
        && r.Success? && transform == old(transform) && transform.State() == old(transform.State())
        && Settings() == old(Settings()).(aperture := OrthographicDolly(old(aperture), depth))
        && events == old(events) + OrthographicDollyEvents(old(aperture), depth)
      ensures !old(orthographic) ==>
        && TranslatedBy(math, 0.0, 0.0, depth, true, shift, r)
        && events == old(events) + (if r.Success? then VerbEvents(shift) else [])
    {
      if orthographic {
        if 0.0 < aperture + depth {
          SetAperture(Some(aperture + depth));
          events := events + [ApertureChanged];
        }
        r := Success;
      } else {
        r := MoveAndAnnounce(math, 0.0, 0.0, depth, true, shift);
      }
    }

    /** `elevate(vertical)`: moves along the camera's up vector, always taking the target along. */
    method Elevate(math: Math, vertical: real) returns (r: Outcome)
      modifies this, transform, transform.base
      ensures TranslatedBy(math, 0.0, vertical, 0.0, true, true, r)
      ensures events == old(events) + (if r.Success? then [TargetPointChanged, TransformChanged] else [])
    {
      r := MoveAndAnnounce(math, 0.0, vertical, 0.0, true, true);
    }

    /** `translate(move, shift)`: moves by a world-space vector. */
    method Translate(math: Math, move: Vec3, shift: bool) returns (r: Outcome)
      modifies this, transform, transform.base
      ensures TranslatedBy(math, move.x, move.y, move.z, false, shift, r)
      ensures events == old(events) + (if r.Success? then VerbEvents(shift) else [])
    {
      r := MoveAndAnnounce(math, move.x, move.y, move.z, false, shift);
    }

    /**
     * `set_location(location, shift)`: moves the camera to `location`; a shifted target moves by
     * the same world delta, an unshifted one may not be the new location.
     */
    method SetLocation(math: Math, location: Vec3, shift: bool) returns (r: Outcome)
      modifies this, transform, transform.base
      ensures transform == old(transform) && Settings() == old(Settings())
      ensures shift ==> (r.Failure? <==> old(transform.target) == old(transform.base.translation))
      ensures !shift ==> (r.Failure? <==> old(transform.target) == location)
      ensures shift || r.Success? ==> transform.base.translation == location
      ensures r.Failure? ==> transform.target == old(transform.target) && transform.base.Axes() == old(transform.base.Axes())
      ensures shift && r.Success? ==>
        Sub(transform.target, transform.base.translation) == Sub(old(transform.target), old(transform.base.translation))
      ensures !shift ==> transform.target == old(transform.target)
      ensures !shift && r.Failure? ==> r.message == "Translation is equal to target point"
      ensures !shift && r.Failure? ==> transform.State() == old(transform.State())
      ensures shift || r.Success? ==> transform.base.dirtyMatrix
      ensures r.Success? ==>
        transform.base.Axes() == (if transform.follow
                                  then LookAtTarget(math, old(transform.base.Axes()), location, transform.target, transform.up, false, true)
                                  else old(transform.base.Axes()))
      ensures transform.base.scale == old(transform.base.scale) && transform.base.worldToObj == old(transform.base.worldToObj)
      ensures transform.follow == old(transform.follow) && transform.up == old(transform.up)
      ensures events == old(events) + (if r.Success? then VerbEvents(shift) else [])
    {
      r := transform.SetTranslation(math, location, shift);
      if r.Success? {
        events := events + VerbEvents(shift);
      }
    }

    /**
     * What the transform's `rotate(dx, dy, dz, shift)` does, seen from the camera: the axes turn
     * (roll always; pitch and yaw unless a followed target holds them), and a shifted target is
     * carried round at its distance.
     */
    twostate predicate TurnedBy(math: Math, dx: real, dy: real, dz: real, shift: bool)
      reads this, transform, transform.base
    {
      && transform == old(transform) && Settings() == old(Settings())
      && transform.base.Axes() == TargetTurned(math, old(transform.base.Axes()), transform.up, dx, dy, dz, shift || !transform.follow)
      && transform.target == (if shift then PlacedTarget(transform.base.translation, transform.base.zAxis,
                                                         Distance(math, transform.base.translation, old(transform.target)))
                              else old(transform.target))
      && transform.base.translation == old(transform.base.translation) && transform.base.scale == old(transform.base.scale)
      && transform.follow == old(transform.follow) && transform.up == old(transform.up)
      && transform.base.worldToObj == old(transform.base.worldToObj) && transform.base.dirtyMatrix
    }

    /**
     * `rotate(vertical, horizontal, direction, shift)`: the horizontal amount pitches, the
     * vertical one yaws and the direction one rolls; `None` (not a number) counts as no roll.
     */
    method Rotate(math: Math, vertical: real, horizontal: real, direction: Option<real>, shift: bool)
      modifies this, transform, transform.base
      ensures TurnedBy(math, horizontal, vertical, if direction.Some? then direction.value else 0.0, shift)
      ensures events == old(events) + VerbEvents(shift)
    {
      var roll := if direction.Some? then direction.value else 0.0;
      transform.Rotate(math, horizontal, vertical, roll, shift);
      events := events + VerbEvents(shift);
    }

    /** `tilt(horizontal, shift)`: pitches about the camera's right vector. */
    method Tilt(math: Math, horizontal: real, shift: bool)
      modifies this, transform, transform.base
      ensures TurnedBy(math, horizontal, 0.0, 0.0, shift)
      ensures events == old(events) + VerbEvents(shift)
    {
      transform.Rotate(math, horizontal, 0.0, 0.0, shift);
      events := events + VerbEvents(shift);
    }

    /** `spin(vertical, shift)`: yaws about the transform's up direction. */
    method Spin(math: Math, vertical: real, shift: bool)
      modifies this, transform, transform.base
      ensures TurnedBy(math, 0.0, vertical, 0.0, shift)
      ensures events == old(events) + VerbEvents(shift)
    {
      transform.Rotate(math, 0.0, vertical, 0.0, shift);
      events := events + VerbEvents(shift);
    }

    /**
     * `rotate_around_axis(axis, angle, in_camera_space, shift)`: turns all three axes about
     * `axis` (taken into world space first when it is given in camera space).
     */
    method RotateAroundAxis(math: Math, axis: Vec3, angle: real, inCameraSpace: bool, shift: bool)
      requires inCameraSpace && transform.base.dirtyMatrix ==> Invertible(transform.base.scale)
      modifies this, transform, transform.base
      ensures transform == old(transform) && Settings() == old(Settings())
      ensures var used := if inCameraSpace then RotateTransposeByMatrix(axis, old(transform.base.CurrentWorldToObj())) else axis;
        var turned := TurnAll(math, old(transform.base.Axes()), used, angle);
        transform.base.Axes() == (if !shift && transform.follow
                                  then LookAtTarget(math, turned, transform.base.translation, transform.target, transform.up, false, true)
                                  else turned)
      ensures transform.target == (if shift then PlacedTarget(transform.base.translation, transform.base.zAxis,
                                                              Distance(math, transform.base.translation, old(transform.target)))
                                   else old(transform.target))
      ensures transform.base.translation == old(transform.base.translation) && transform.base.scale == old(transform.base.scale)
      ensures transform.base.worldToObj == (if inCameraSpace then old(transform.base.CurrentWorldToObj()) else old(transform.base.worldToObj))
      ensures transform.base.dirtyMatrix
      ensures transform.follow == old(transform.follow) && transform.up == old(transform.up)
      ensures events == old(events) + VerbEvents(shift)
    {
      ghost var before := transform.State();
      transform.RotateAroundAxis(math, axis, angle, inCameraSpace, shift);
      assert transform.State() == before.(axes := transform.base.Axes(), target := transform.target,
                                          worldToObj := transform.base.worldToObj, dirty := true);
      events := events + VerbEvents(shift);
    }

    /**
     * `orbit(vertical, horizontal)` without an orbit point: swings the camera round its target,
     * which stays where it is.
     */
    method Orbit(math: Math, vertical: real, horizontal: real)
      modifies this, transform, transform.base
      ensures transform == old(transform) && Settings() == old(Settings())
      ensures var s := old(transform.State());
        var moved := Add(s.target, Swung(math, s.axes, s.up, horizontal, vertical, 0.0, Sub(s.translation, s.target)));
        var turned := TargetTurned(math, s.axes, s.up, horizontal, vertical, 0.0, true);
        transform.State() == s.(translation := moved, dirty := true,
          axes := if s.follow then LookAtTarget(math, turned, moved, s.target, s.up, false, true) else turned)
      ensures events == old(events) + [TransformChanged]
    {
      transform.OrbitAroundTargetPoint(math, horizontal, vertical, 0.0);
      events := events + [TransformChanged];
    }

    /**
     * `orbit_around_point(point, vertical, horizontal, shift)`: swings the camera round `point`;
     * a shifted target swings with it unless it sits on the pivot.
     */
    method OrbitAroundPoint(math: Math, point: Vec3, vertical: real, horizontal: real, shift: bool)
      modifies this, transform, transform.base
      ensures transform == old(transform) && Settings() == old(Settings())
      ensures var s := old(transform.State());
        var drag := shift && !NearlyEqual(point, s.target, AlmostZero);
        var moved := Add(point, Swung(math, s.axes, s.up, horizontal, vertical, 0.0, Sub(s.translation, point)));
        var turned := TargetTurned(math, s.axes, s.up, horizontal, vertical, 0.0, true);
        transform.State() == s.(translation := moved, dirty := true,
          target := if drag then Add(point, Swung(math, s.axes, s.up, horizontal, vertical, 0.0, Sub(s.target, point))) else s.target,
          axes := if !drag && s.follow then LookAtTarget(math, turned, moved, s.target, s.up, false, true) else turned)
      ensures events == old(events) + VerbEvents(shift)
    {
      transform.RotateAroundPoint(math, point, horizontal, vertical, 0.0, shift);
      events := events + VerbEvents(shift);
    }

    /**
     * `equal(rhs)`: true for the same camera; otherwise the aperture, focal length and field of
     * view must be identical and the world-to-object matrices equal within the tolerance. Reading
     * the matrices refreshes the transforms' caches, which changes no observable value.
     */
    method Equal(math: Math, rhs: Camera) returns (b: bool)
      requires transform.base.dirtyMatrix ==> Invertible(transform.base.scale)
      requires rhs.transform.base.dirtyMatrix ==> Invertible(rhs.transform.base.scale)
      modifies transform.base, rhs.transform.base
      ensures b <==> rhs == this || SameView(math, old(Settings()), old(transform.base.CurrentWorldToObj()),
                                             old(rhs.Settings()), old(rhs.transform.base.CurrentWorldToObj()))
      ensures transform.base.translation == old(transform.base.translation) && transform.base.Axes() == old(transform.base.Axes())
      ensures transform.base.scale == old(transform.base.scale) && transform.base.dirtyMatrix == old(transform.base.dirtyMatrix)
      ensures transform.base.CurrentWorldToObj() == old(transform.base.CurrentWorldToObj())
      ensures rhs.transform.base.translation == old(rhs.transform.base.translation)
      ensures rhs.transform.base.Axes() == old(rhs.transform.base.Axes())
      ensures rhs.transform.base.scale == old(rhs.transform.base.scale)
      ensures rhs.transform.base.dirtyMatrix == old(rhs.transform.base.dirtyMatrix)
      ensures rhs.transform.base.CurrentWorldToObj() == old(rhs.transform.base.CurrentWorldToObj())
    {
      if rhs == this {
        return true;
      }
      b := false;
      if aperture == rhs.aperture && focal == rhs.focal && FieldOfView(math, Settings()) == FieldOfView(math, rhs.Settings()) {
        var mine := transform.base;
        var theirs := rhs.transform.base;
        ghost var cached := mine.worldToObj;
        var m1 := mine.GetWorldToObj();
        if theirs == mine && mine.dirtyMatrix {
          // the first read already refreshed the shared cache; deriving again gives the same matrix
          DerivedMatrixIdempotent(cached, mine.translation, mine.Axes(), mine.scale);
        }
        var m2 := theirs.GetWorldToObj();
        b := MatNearlyEqual(m1, m2, AlmostZero);
      }
    }

    /**
     * `set_from_camera(camera)`: adopts a deep copy of the other camera's transform, then its
     * aperture, focal length, projection mode, clip range and scene-up, each through its setter
     * and in that order.
     */
    method SetFromCamera(math: Math, camera: Camera)
      modifies this
      ensures fresh(transform) && fresh(transform.base)
      ensures Settings() == Lens(old(camera.orthographic), StoredAperture(Some(old(camera.aperture))), old(camera.focal),
                                 old(camera.clipMax), old(camera.clipMin), old(camera.sceneUp))
      ensures old(sceneUp) == old(camera.sceneUp) ==> transform.State() == old(camera.transform.State())
      ensures old(sceneUp) != old(camera.sceneUp) ==>
        var s := old(camera.transform.State());
        var up := SceneUpVector(old(camera.sceneUp));
        transform.State() == s.(up := up, dirty := true,
          axes := LookAtRolled(math, s.translation, if s.follow then s.target else UpLookPointAsWritten(s.translation, s.axes.z),
                               up, RollAngle(math, s.up, s.axes), s.follow))
      ensures events == old(events) + [TargetPointChanged, TransformChanged]
                        + ApertureEvents(old(aperture), Some(old(camera.aperture))) + [FocalChanged]
                        + (if old(camera.orthographic) != old(orthographic) then [OrthographicChanged] else [])
                        + [ClipMaxChanged, ClipMinChanged]
                        + (if old(camera.sceneUp) != old(sceneUp) then [UpDirectionChanged, TransformChanged] else [])
    {
      // Each setter below changes only its own field, so reading the other camera's settings
      // first gives the same values even when `camera` is this camera.
      var lens := camera.Settings();
      ghost var mine := Settings();
      ghost var log := events;
      var copy := camera.transform.Clone();
      SetTransform(copy);
      log := log + [TargetPointChanged, TransformChanged];
      assert events == log;
      SetAperture(Some(lens.aperture));
      log := log + ApertureEvents(mine.aperture, Some(lens.aperture));
      assert events == log;
      SetFocal(lens.focal);
      log := log + [FocalChanged];
      assert events == log;
      SetOrthographic(lens.orthographic);
      log := log + (if lens.orthographic != mine.orthographic then [OrthographicChanged] else []);
      assert events == log;
      SetClipMax(lens.clipMax);
      SetClipMin(lens.clipMin);
      log := log + [ClipMaxChanged, ClipMinChanged];
      assert events == log;
      SetSceneUpDirection(math, lens.sceneUp);
      log := log + (if lens.sceneUp != mine.sceneUp then [UpDirectionChanged, TransformChanged] else []);
      assert events == log;
    }
  }
}
