# RealityServer 3D placement, modelled in Dafny

This project models the placement helpers of the RealityServer extras library:
- `Quaternion` and `Euler` rotations;
- `Transform`: a translation, three axis vectors and a scale, with a cached world-to-object matrix behind a dirty flag;
- `Transform_target`: a transform that keeps a target point, an up direction and a "follow the target" flag;
- `Camera`: a lens on a target transform, with manipulation verbs (pan, dolly, orbit, ...) that announce what changed.

Each JavaScript class whose methods update their fields in place is a Dafny `class` with the same fields:
- the `modifies` clauses say which objects each method changes;
- the `ensures` clauses state the whole new state.

The arithmetic behind each method is a pure function in its own module:
- `EulerMath` and `QuaternionMath` for the rotations;
- the value functions of `Transforms` and `TransformTargets` for the transforms.

Lemmas prove what the library promises about those functions:
- round trips (the derived world-to-object matrix inverts the object-to-world matrix; `derive_vectors` recovers the translation and axes of a pose, and its scale only in the corrected version, see Findings);
- rigidity: turning about a unit axis keeps orthonormal axes orthonormal, and so do the rotation verbs of `Transform` when their axis is a unit vector. Those of `Transform_target` do too when the up direction is a unit vector and the view is not along it. The exception is `set_rotation` without rotating a followed target, which can collapse the axes. Every swing keeps distances to the pivot. The library normalizes neither the axis it is given nor the up direction it stores;
- the target point stays off the translation: each verb that re-places the target along a unit z axis, or moves or swings the target, keeps it apart. The verbs that move the location without the target are the exception recorded under Findings;
- algebra (quaternion product, slerp ends, equality with tolerance);
- the error paths: a target point on the translation is refused, and the target setters leave the state as it was. The dragging `translate` and `set_translation` move the location before they fail.

Modelling conventions:
- Numbers are Dafny `real`s.
- A value JavaScript would parse to `NaN` is `None` of an `Option`.
- JavaScript's `Math` functions are a `Math` value of function fields passed as a parameter. The few laws a lemma needs (`SqrtLaw`, `TrigAtZero`, `Pythagorean`) are stated as hypotheses of that lemma.
- The client library's vector and matrix primitives are in module `Linear`:
  - `Vec3` and `Mat4` with the row-vector convention `v' = v M`;
  - `normalize`;
  - rotation about an axis, as Rodrigues' formula.
- A JavaScript `throw` is a `Failure` outcome, with the state left as the code leaves it at that point.
- The camera's change events are a ghost log (`Camera.events`) of `Event` values, oldest first; `Name` gives the string each is emitted under.

Files:
- `linear.dfy`: vectors, matrices and the `Math` parameter.
- `euler_math.dfy`, `quaternion_math.dfy`: pure rotation arithmetic.
- `rotations.dfy`: the `Quaternion` and `Euler` classes.
- `transform.dfy`: `Transform`.
- `transform_target.dfy`: `TransformTarget`. It models the JavaScript subclass by composition: it owns the `Transform` whose fields it updates.
- `camera.dfy`: `Camera`.

Where the library's documentation and its code disagree, the model follows the code:
- The documentation says that setting `world_to_obj` recovers the scale. `derive_vectors` never writes it, and the setters of the three classes keep the old scale. See Findings.
- `set(...)` of `Quaternion` and `Euler` picks its path from the first argument: a NaN first number sends it to the object path, which reads the undefined fields of a number. The numeric setters model that dispatch.
- The `world_to_obj` getter never clears the dirty flag, so every read of a dirty transform derives the matrix again. `DerivedMatrixIdempotent` shows this is harmless.
- The `Transform_target` constructor takes no arguments, whatever callers pass it.
- `ALMOST_ZERO` is 0.0001.

## Model

| member | source | states |
|---|---|---|
| Linear.NormalizeUnit | src/Transform_target.js:71-89 | a vector of non-zero length normalizes to a unit vector, which is what makes the look-at axes unit axes |
| Linear.DotSelfPositive | src/Transform_target.js:181-186 | a non-zero vector has a positive squared length |
| Linear.DistanceApart | src/Transform_target.js:181-186 | the distance between two points is never negative and is zero exactly when they coincide |
| Linear.RotatePreservesDot | src/Transform.js:327-337 | rotating two vectors about the same unit axis keeps their dot product: the turn every rotation verb applies is rigid |
| EulerMath.KnownOrderIffPermutation | src/Euler.js:9 | the six published rotation orders are exactly the arrangements of the letters X, Y and Z |
| EulerMath.ChooseOrder | src/Euler.js:208 | a given non-empty order wins; an absent or empty one falls back to the current order |
| EulerMath.Clamp | src/Euler.js:197-199 | the result lies in [lo, hi], equals the value inside the range and the nearer bound outside it |
| EulerMath.FromMatrixStoresOrder | src/Euler.js:208-326 | `set_from_matrix` always stores the chosen order, known or not |
| EulerMath.FromMatrixUnknownOrder | src/Euler.js:318-326 | with an unknown order the three angles are left as they were |
| EulerMath.FromMatrixPivot | src/Euler.js:210-316 | for each known order the middle angle is the arcsine of a value in [-1, 1] |
| EulerMath.FromMatrixSaturates | src/Euler.js:197-316 | a pivot entry at or beyond +-1 gives the arcsine of exactly +-1 |
| EulerMath.FromMatrixGimbalLock | src/Euler.js:210-316 | at gimbal lock (pivot magnitude at least 0.9999999) the order's designated angle is zero |
| EulerMath.ToMatrixUnknownOrder | src/Euler.js:398-506 | `to_matrix` with an unknown order returns the fresh identity matrix |
| EulerMath.ToMatrixIsRotationBlock | src/Euler.js:398-506 | for every order only the rotation block is filled: no translation, w = 1 |
| EulerMath.ToMatrixOfZeroAngles | src/Euler.js:398-506 | zero angles give the identity matrix in every order |
| EulerMath.EqualExact | src/Euler.js:383-389 | without a tolerance, `equal` is exact equality of the angles and the order |
| EulerMath.EqualWithToleranceNeedsOrder | src/Euler.js:366-389 | two different orders are never equal, whatever the tolerance |
| EulerMath.EqualWithToleranceReflexive | src/Euler.js:366-375 | a value is tolerance-equal to itself exactly when the tolerance is positive |
| QuaternionMath.FromParsed | src/Quaternion.js:243-254 | each given component is stored; an unparsable x, y or z becomes 0 and an unparsable w becomes 1 |
| QuaternionMath.ConjugateInvolution | src/Quaternion.js:527-533 | conjugating twice restores the quaternion |
| QuaternionMath.TimesExample | src/Quaternion.js:615-628 | a worked Hamilton product, (4,-3,-8,5) x (2,3,4,5) = (42,-32,-2,58) |
| QuaternionMath.TimesIdentity | src/Quaternion.js:615-628 | the identity quaternion is a two-sided unit of the product |
| QuaternionMath.TimesNotCommutative | src/Quaternion.js:615-628 | i x j = k but j x i = -k: the order of `multiply` and `premultiply` matters |
| QuaternionMath.TimesConjugate | src/Quaternion.js:615-628 | q x conj(q) is the real quaternion whose w is the squared length |
| QuaternionMath.LengthSqNonNegative | src/Quaternion.js:548-550 | the squared length is never negative |
| QuaternionMath.NormalizeUnit | src/Quaternion.js:566-589 | normalizing a quaternion of non-zero length gives unit length |
| QuaternionMath.NormalizeZero | src/Quaternion.js:566-589 | the zero quaternion normalizes to the identity |
| QuaternionMath.NormalizeUnitIsIdentity | src/Quaternion.js:566-589 | normalizing a unit quaternion changes nothing |
| QuaternionMath.SlerpEnds | src/Quaternion.js:638-701 | t = 0 keeps the start and t = 1 gives the end |
| QuaternionMath.SlerpSignOfEnd | src/Quaternion.js:638-701 | slerp towards -end and towards end coincide, because the nearer of the two is always taken |
| QuaternionMath.SlerpToSelf | src/Quaternion.js:638-701 | slerp from a unit quaternion to itself stays put for every t |
| QuaternionMath.EqualExact | src/Quaternion.js:727-733 | with no tolerance or tolerance 0, `equal` is exact equality |
| QuaternionMath.EqualWithToleranceReflexive | src/Quaternion.js:710-718 | a quaternion is tolerance-equal to itself exactly when the tolerance is positive |
| QuaternionMath.EqualWithToleranceSymmetric | src/Quaternion.js:710-718 | tolerance-equality does not depend on the order of the operands |
| QuaternionMath.EqualWithToleranceMonotone | src/Quaternion.js:710-718 | equal within a tolerance implies equal within any larger one |
| QuaternionMath.IdentityRotation | src/Quaternion.js:741-787 | the identity quaternion rotates no vector and has the identity matrix |
| QuaternionMath.ToMatrixOfNeg | src/Quaternion.js:765-787 | q and -q give the same rotation matrix |
| QuaternionMath.RotateVectorMatchesMatrix | src/Quaternion.js:741-787 | for a unit quaternion, `rotate_vector` agrees with applying `to_matrix` |
| QuaternionMath.FromEulerOfZeroAngles | src/Quaternion.js:275-344 | zero Euler angles give the identity quaternion for every known order |
| QuaternionMath.FromEulerUnknownOrder | src/Quaternion.js:275-344 | an unknown order leaves the quaternion unchanged |
| Rotations.Quaternion.constructor | src/Quaternion.js:19-25 | a new quaternion is the identity rotation |
| Rotations.Quaternion.FromParts | src/Quaternion.js:19-25 | a quaternion built from components holds them, with the NaN defaults; a missing or NaN first component gives the identity |
| Rotations.Quaternion.SetParts | src/Quaternion.js:213-258 | `set` from numbers stores them with the NaN defaults when the first is a number; a NaN first number takes the object path and gives the identity |
| Rotations.Quaternion.SetFields | src/Quaternion.js:221-258 | `set` from an object's fields (and the body of `set` from an array) stores them with the NaN defaults |
| Rotations.Quaternion.SetFromArray | src/Quaternion.js:221-230 | `set` from an array succeeds exactly when it has four entries or more; a shorter one fails and leaves the value alone |
| Rotations.Quaternion.SetFromQuaternion | src/Quaternion.js:213-220 | copying from another quaternion stores its four components |
| Rotations.Quaternion.SetFromEuler | src/Quaternion.js:275-344 | the new value is the quaternion of the Euler angles in their order |
| Rotations.Quaternion.Identity | src/Quaternion.js:509-511 | `identity` resets to the no-rotation quaternion |
| Rotations.Quaternion.Conjugate | src/Quaternion.js:527-533 | `conjugate` negates the vector part |
| Rotations.Quaternion.Invert | src/Quaternion.js:517-520 | `invert` is the conjugate, the inverse of a unit quaternion |
| Rotations.Quaternion.Normalize | src/Quaternion.js:566-589 | the new value is the normalized old value |
| Rotations.Quaternion.MultiplyQuaternions | src/Quaternion.js:615-628 | stores lhs x rhs of the values before the call, even when an operand is this quaternion |
| Rotations.Quaternion.Multiply | src/Quaternion.js:596-598 | this becomes this x q |
| Rotations.Quaternion.Premultiply | src/Quaternion.js:605-607 | this becomes lhs x this |
| Rotations.Quaternion.Slerp | src/Quaternion.js:638-701 | this moves the fraction t of the way towards end |
| Rotations.Quaternion.RotateVector | src/Quaternion.js:741-756 | the vector is rotated in place by this quaternion, and only the vector changes |
| Rotations.Quaternion.FromAngles | src/Quaternion.js:19-25 | a quaternion built from Euler angles of a known order is the quaternion of those angles |
| Rotations.Quaternion.SlerpInto | src/Quaternion.js:34-36 | the static `slerp` leaves in target the slerp from the old start towards the old end; when end is the target itself, it is read after start was copied in |
| Rotations.Quaternion.Clone | src/Quaternion.js:264-267 | a new, distinct quaternion with the same components |
| Rotations.Euler.constructor | src/Euler.js:29-36 | a new Euler has zero angles and the default order ZYX |
| Rotations.Euler.FromParts | src/Euler.js:29-36 | given angles are stored (NaN becomes 0) and the order falls back to the default; a missing or NaN first angle gives zero angles |
| Rotations.Euler.SetFromEuler | src/Euler.js:135-139 | copying from another Euler stores its angles and order |
| Rotations.Euler.SetParts | src/Euler.js:134-176 | with a number first, angles are stored (NaN becomes 0) and the fourth argument replaces the order when non-empty; a NaN first angle gives zero angles and, with a NaN or zero second argument, keeps the order |
| Rotations.Euler.SetFields | src/Euler.js:144-176 | `set` from an object's fields (and the body of `set` from an array) stores the angles (NaN becomes 0); the order changes only when a non-empty one is given |
| Rotations.Euler.SetFromArray | src/Euler.js:144-152 | `set` from an array succeeds exactly when it has three entries or more; a shorter one fails and changes nothing |
| Rotations.Euler.SetFromMatrix | src/Euler.js:195-329 | the new value is the angles extracted from the matrix for the chosen order |
| Rotations.Euler.SetFromQuaternion | src/Euler.js:338-342 | exactly `set_from_matrix` of the quaternion's matrix |
| Rotations.Euler.Reorder | src/Euler.js:349-355 | the new value is the old rotation, through its quaternion, read back as angles in the new order, and the new order is stored |
| Rotations.Euler.ToQuaternion | src/Euler.js:510-512 | a new quaternion holding the rotation of these angles |
| Rotations.Euler.Clone | src/Euler.js:184-186 | a new, distinct Euler with the same angles; an empty order becomes the default |
| Rotations.ParsedAngle | src/Euler.js:134-176 | a parsed angle is kept and an unparsable one becomes 0 |
| Rotations.CloneOfEulerIsEqual | src/Euler.js:184-186 | the clone of an Euler with an order is `equal` to it |
| Rotations.NormalizeZeroExample | src/Quaternion.js:566-589 | a quaternion set to all zeros and normalized is the identity |
| Transforms.DerivedMatrixIdempotent | src/Transform.js:88-132 | deriving the matrix again from a derived matrix gives the same matrix, so re-deriving on every read is harmless |
| Transforms.DerivedMatrixMapsTranslationToOrigin | src/Transform.js:88-132 | the world-to-object matrix sends the transform's location to the origin |
| Transforms.DerivedMatrixMapsAxesToBasis | src/Transform.js:88-132 | with orthonormal axes, axis k goes to basis direction k divided by scale k |
| Transforms.DerivedMatrixMapsVector | src/Transform.js:88-132 | a direction's object coordinates are its components along the axes divided by the scales |
| Transforms.DerivedMatrixOfTranslation | src/Transform.js:88-132 | with canonical axes and unit scale, the matrix is a pure translation by minus the location |
| Transforms.DerivedMatrixOfScale | src/Transform.js:88-132 | at the origin with canonical axes, the matrix scales by the reciprocal scales |
| Transforms.DerivedMatrixOfDefault | src/Transform.js:48-60 | a new transform's derived matrix is the identity |
| Transforms.ObjToWorldInvertsDerivedMatrix | src/Transform.js:88-132 | the object-to-world matrix of a pose followed by its derived world-to-object matrix returns every point unchanged |
| Transforms.DeriveVectorsAsWritten | src/Transform.js:137-155 | as written, the translation is the image of the origin and the scale is left as it was |
| Transforms.DeriveVectorsAsWrittenLosesScale | src/Transform.js:137-155 | as written, a pose with scale (2, 0.2, 4) does not get its scale back |
| Transforms.DeriveVectors | src/Transform.js:137-155 | the corrected version recovers the translation and axes exactly as written does |
| Transforms.DeriveVectorsRecoversPose | src/Transform.js:137-155 | for unit axes and positive scales, deriving the vectors from the object-to-world matrix recovers the whole pose |
| Transforms.DeriveVectorsAsWrittenRecoversPose | src/Transform.js:137-155 | as written, a pose comes back with its translation and axes and the kept scale, so exactly when the kept scale is its own |
| Transforms.DeriveVectorsOfRows | src/Transform.js:137-155 | a matrix whose rows are unit axes stretched by positive scales yields those axes, scales and translation |
| Transforms.DeriveVectorsRecoversExampleScale | src/Transform.js:137-155 | the corrected version gets the scale (2, 0.2, 4) back |
| Transforms.DeriveVectorsRecoversCanonicalScale | src/Transform.js:137-155 | any positive scale on canonical axes is recovered |
| Transforms.CanonicalHasUnitAxes | src/Transform.js:48-60 | the axes of a new transform have unit length |
| Transforms.CanonicalIsOrthonormal | src/Transform.js:48-60 | the axes of a new transform are orthonormal |
| Transforms.MovedBackIsIdentity | src/Transform.js:306-322 | translating by the negated amounts undoes a translation, in either space |
| Transforms.MovedInCanonicalFrame | src/Transform.js:306-322 | with canonical axes, object-space and world-space translation agree |
| Transforms.MovedAlongAxes | src/Transform.js:306-322 | in object space the displacement, read along orthonormal axes, is exactly (dx, dy, dz) |
| Transforms.TurnAllKeepsOrthonormal | src/Transform.js:267-271 | turning all three axes about a unit axis keeps them orthonormal |
| Transforms.SpinAboutXKeepsOrthonormal | src/Transform.js:343-351 | turning y and z about the x axis keeps the axes orthonormal |
| Transforms.SpinAboutYKeepsOrthonormal | src/Transform.js:357-365 | turning x and z about the y axis keeps the axes orthonormal |
| Transforms.SpinAboutZKeepsOrthonormal | src/Transform.js:371-379 | turning x and y about the z axis keeps the axes orthonormal |
| Transforms.TurnedKeepsOrthonormal | src/Transform.js:244-250 | `rotate(dx, dy, dz)` keeps orthonormal axes orthonormal |
| Transforms.SetRotationIsOrthonormal | src/Transform.js:255-261 | `set_rotation` always yields orthonormal axes |
| Transforms.SetRotationAroundAxisIsOrthonormal | src/Transform.js:277-283 | `set_rotation_around_axis` about a unit axis yields orthonormal axes |
| Transforms.TurnedByZero | src/Transform.js:244-250 | rotating by zero angles leaves the axes as they were |
| Transforms.RotateEach | src/Transform.js:327-337 | the loop rotates every vector of the array in place about the axis |
| Transforms.RotatedAll | src/Transform.js:327-337 | the rotated sequence has the same length, and entry i is entry i rotated |
| Transforms.StretchAccumulates | src/Transform.js:221-226 | multiplying the scale twice is multiplying it once by the product |
| Transforms.Transform.constructor | src/Transform.js:48-60 | a new transform sits at the origin with canonical axes, unit scale, an identity matrix and a dirty flag |
| Transforms.Transform.PopulateClone | src/Transform.js:78-86 | the clone receives every field of this transform |
| Transforms.Transform.Clone | src/Transform.js:66-71 | a new, distinct transform equal in every field |
| Transforms.Transform.DeriveWorldToObj | src/Transform.js:88-132 | the cached matrix becomes the one derived from the vectors; nothing else changes |
| Transforms.Transform.GetWorldToObj | src/Transform.js:169-174 | returns the derived matrix when dirty and the cached one otherwise, and caches it; the vectors are unchanged |
| Transforms.Transform.SetWorldToObj | src/Transform.js:163-167 | stores the matrix, clears the dirty flag, and takes translation and axes from the inverse matrix while keeping the old scale, as written |
| Transforms.Transform.SetTranslation | src/Transform.js:179-190 | the location becomes v and the matrix is dirty; axes and scale stay |
| Transforms.Transform.TranslateVector | src/Transform.js:306-322 | the moved vector is v displaced along the axes (object space) or the world axes |
| Transforms.Transform.Translate | src/Transform.js:195-198 | the location is moved; axes and scale stay; the matrix is dirty |
| Transforms.Transform.SetScale | src/Transform.js:213-234 | the scale becomes v and the matrix is dirty |
| Transforms.Transform.MultiplyScale | src/Transform.js:221-238 | the scale is multiplied componentwise and the matrix is dirty |
| Transforms.Transform.RotateVectors | src/Transform.js:327-337 | every vector turns about the axis (taken to world space in object space); the transform's own vectors stay |
| Transforms.Transform.RotateXVectors | src/Transform.js:343-351 | y and z turn about the axis and the extra vectors turn with them |
| Transforms.Transform.RotateYVectors | src/Transform.js:357-365 | x and z turn about the axis and the extra vectors turn with them |
| Transforms.Transform.RotateZVectors | src/Transform.js:371-379 | x and y turn about the axis and the extra vectors turn with them |
| Transforms.Transform.Rotate | src/Transform.js:244-250 | the axes turn by dx, dy, dz about the current axes |
| Transforms.Transform.SetRotation | src/Transform.js:255-261 | the axes are the canonical axes turned by dx, dy, dz |
| Transforms.Transform.RotateAroundAxis | src/Transform.js:267-271 | all three axes turn about the (world-space) axis |
| Transforms.Transform.SetRotationAroundAxis | src/Transform.js:277-283 | the axes are the canonical axes turned about the axis |
| TransformTargets.LookAtFrameOrthogonal | src/Transform_target.js:71-89 | the look-at axes are pairwise orthogonal for every point and up vector |
| TransformTargets.LookAtFrameOrthonormal | src/Transform_target.js:71-89 | away from the two degenerate cases, the look-at axes are orthonormal |
| TransformTargets.LookAtFrameFacesPoint | src/Transform_target.js:71-89 | the z axis points from the looked-at point to the location (the camera looks down -z) |
| TransformTargets.RollAngleRange | src/Transform_target.js:91-101 | the roll is 0 where acos would give NaN, else plus or minus acos of the cosine, negative when x leans towards up |
| TransformTargets.RollKeepsViewDirection | src/Transform_target.js:272-285 | a roll-only rotation keeps the z axis and turns x about it |
| TransformTargets.TargetTurnedKeepsOrthonormal | src/Transform_target.js:272-285 | the target-keeping rotation keeps the axes orthonormal |
| TransformTargets.LookAtTargetFacesTarget | src/Transform_target.js:106-120 | while following, looking at the target always points z from the target to the location |
| TransformTargets.LookAtTargetOrthonormal | src/Transform_target.js:106-120 | looking at a target in a non-degenerate position yields orthonormal axes, with or without the roll |
| TransformTargets.TargetDistance | src/Transform_target.js:127-138 | the given distance is used, or the current one when absent or 0 |
| TransformTargets.PlacedTargetDistance | src/Transform_target.js:127-138 | the placed target lies at distance abs(d) from the location |
| TransformTargets.UpdateKeepsDistance | src/Transform_target.js:127-138 | re-placing the target at its current distance keeps that distance |
| TransformTargets.PlacedTargetAvoidsTranslation | src/Transform_target.js:127-138 | the placed target is on the location exactly when the distance is 0 |
| TransformTargets.PlacedTargetApart | src/Transform_target.js:127-138 | re-placing the target at its current distance along a unit z leaves it off the location exactly when it was off before |
| TransformTargets.MovedKeepsOffset | src/Transform_target.js:229-237 | moving location and target by the same amounts keeps their offset |
| TransformTargets.MovedMeets | src/Transform_target.js:211-237 | two points moved alike coincide exactly when they coincided before |
| TransformTargets.SwungKeepsDot | src/Transform_target.js:340-371 | swinging offsets about a pivot keeps lengths and angles |
| TransformTargets.SwingKeepsPivotDistance | src/Transform_target.js:340-371 | a point swung about a pivot stays as far from the pivot |
| TransformTargets.SwungKeepsZero | src/Transform_target.js:340-371 | a swung offset is zero exactly when the offset was |
| TransformTargets.SwungKeepsApart | src/Transform_target.js:340-371 | two offsets swing to the same offset exactly when they were equal |
| TransformTargets.SwungPointsApart | src/Transform_target.js:340-371 | two points swung about the same pivot meet exactly when they met before, so a dragged target stays off the location |
| TransformTargets.UndraggedMoveCanMeetTarget | src/Transform_target.js:229-237 | as written, `translate(0, 0, -1, true, false)` on a new target transform puts the location on the target (0, 0, -1) |
| TransformTargets.CorrectedTranslateKeepsApart | src/Transform_target.js:229-237 | with the corrected `translate`, a target off the old location is off the new one in both branches: a dragged move is never refused, and an undragged one is refused exactly when it would land on the target |
| TransformTargets.ResetForRotationCanCollapse | src/Transform_target.js:294-303 | `set_rotation` without rotating a followed target, whose z axis is the canonical z, yields axes with x equal to z: not orthonormal |
| TransformTargets.ResetKeepingViewStaysOrthonormal | src/Transform_target.js:288-303 | with the corrected reset, `set_rotation` always leaves orthonormal axes, and the roll-only rotation keeps the view direction |
| TransformTargets.RotatedCopies | src/Transform_target.js:256-263 | the vectors rotated by the loop over a fresh array are the rotated sequence |
| TransformTargets.RotatedAllSplits | src/Transform_target.js:256-263 | rotating the axes together with extra vectors rotates each part |
| TransformTargets.UpLookAsWrittenReversesView | src/Transform_target.js:151-154 | as written, looking at z + translation turns the view direction around |
| TransformTargets.UpLookKeepsView | src/Transform_target.js:151-154 | looking at translation - z keeps the view direction |
| TransformTargets.TransformTarget.constructor | src/Transform_target.js:22-33 | a default transform following the target (0, 0, -1) with y up; the target starts off the location |
| TransformTargets.TransformTarget.PopulateClone | src/Transform_target.js:58-64 | the clone receives every field, its transform's included |
| TransformTargets.TransformTarget.Clone | src/Transform_target.js:51-56 | a new target transform with its own transform, equal in every field |
| TransformTargets.TransformTarget.LookAtPoint | src/Transform_target.js:71-89 | optionally moves, then the axes are the look-at axes and the matrix is dirty |
| TransformTargets.TransformTarget.LookAtTargetPoint | src/Transform_target.js:106-120 | the axes look at the target, re-applying the old roll unless it is reset |
| TransformTargets.TransformTarget.UpdateTargetPoint | src/Transform_target.js:127-138 | the target is put the given (or current) distance down -z; a non-zero distance along a unit z puts it off the location, and the current distance keeps apartness as it was |
| TransformTargets.TransformTarget.SetWorldToObj | src/Transform_target.js:45-49 | the transform setter as written (old scale kept), then the target is put back at its old distance along the new -z, which keeps a target off the location off it when the new z is a unit vector |
| TransformTargets.TransformTarget.SetUpDirection | src/Transform_target.js:143-160 | stores up, looks at the target (or, when not following, at translation + z as written) and re-applies the old roll |
| TransformTargets.TransformTarget.SetFollowTargetPoint | src/Transform_target.js:169-174 | stores the flag; switching it on looks at the target keeping the roll |
| TransformTargets.TransformTarget.SetTargetPoint | src/Transform_target.js:182-201 | fails exactly for a point on the location and then changes nothing; a nearly equal point changes nothing; otherwise the target moves and a following transform looks at it; a newly stored target is never the location, and a target off the location stays off it |
| TransformTargets.TransformTarget.TranslateTargetPoint | src/Transform_target.js:211-223 | fails exactly when the moved target lands on the location, restoring it; otherwise moves it and re-looks when following; on success, and whenever it was, the target is off the location |
| TransformTargets.TransformTarget.RotateYVectors | src/Transform_target.js:256-263 | all three axes and the extra vectors turn about the axis; the dirty flag is untouched |
| TransformTargets.TransformTarget.Rotate | src/Transform_target.js:272-285 | rolls always, pitches and yaws unless a followed target holds them, and re-places a rotated target at its distance; when the target is not rotated, or with a unit z, the target is off the location afterwards exactly when it was before |
| TransformTargets.TransformTarget.Translate | src/Transform_target.js:229-237 | the location moves; a dragged target keeps its offset (failing exactly when it sat on the location); otherwise a following transform re-looks; dragging the target keeps it off the location |
| TransformTargets.TransformTarget.SetTranslation | src/Transform_target.js:243-254 | without dragging, a location on the target is refused before any change; with dragging, the target keeps its offset; a target off the location stays off it |
| TransformTargets.TransformTarget.SetRotation | src/Transform_target.js:294-303 | resets the axes the rotation applies to, then rotates; when the target is not rotated, or with a unit z, the target is off the location afterwards exactly when it was before |
| TransformTargets.TransformTarget.RotateAroundAxis | src/Transform_target.js:310-319 | all axes turn about the axis; the target is re-placed or looked at; when the target is not rotated, or with a unit z, the target is off the location afterwards exactly when it was before |
| TransformTargets.TransformTarget.SetRotationAroundAxis | src/Transform_target.js:326-333 | canonical axes turned about the axis; the target is re-placed or looked at; when the target is not rotated, or with a unit z, the target is off the location afterwards exactly when it was before |
| TransformTargets.TransformTarget.RotateAroundPoint | src/Transform_target.js:340-371 | location (and a dragged target not on the pivot) swing about the pivot with the axes |
| TransformTargets.TransformTarget.OrbitAroundTargetPoint | src/Transform_target.js:376-378 | the location swings about the target, which stays put; for orthonormal axes and a unit up, the target is off the location afterwards exactly when it was before |
| Cameras.NamesDistinct | src/Camera.js:69-74 | distinct events are emitted under distinct names |
| Cameras.StoredAperture | src/Camera.js:442-453 | the stored aperture is the magnitude of the value, or 1 for NaN, never negative |
| Cameras.StoredApertureIdempotent | src/Camera.js:442-453 | storing the stored aperture again changes nothing |
| Cameras.ApertureEvents | src/Camera.js:442-453 | the aperture setter announces exactly when the stored value differs from the current one |
| Cameras.FieldOfViewOrthographic | src/Camera.js:421-426 | an orthographic camera reports a field of view of -1 |
| Cameras.ApertureForFieldOfView | src/Camera.js:428-433 | the aperture the field-of-view setter stores is never negative |
| Cameras.FieldOfViewAfterSetting | src/Camera.js:421-433 | reading the field of view back after setting it gives atan2(focal * abs(tan angle), focal) |
| Cameras.OrthographicDolly | src/Camera.js:166-171 | an orthographic dolly grows the aperture by depth only when the result stays positive |
| Cameras.OrthographicDollyKeepsPositive | src/Camera.js:166-171 | a positive aperture stays positive under every dolly |
| Cameras.OrthographicDollyUndone | src/Camera.js:166-171 | dollying back by the same depth undoes an applied dolly |
| Cameras.OrthographicDollyAnnouncements | src/Camera.js:166-171 | an orthographic dolly announces aperture-changed twice, once for a zero depth, never when refused |
| Cameras.VerbEvents | src/Camera.js:152-158 | a verb announces transform-changed last, preceded by target_point-changed exactly when shifted |
| Cameras.SceneUpVector | src/Camera.js:557-568 | Y_UP gives the y axis and anything else the z axis, both of unit length |
| Cameras.SameViewReflexive | src/Camera.js:369-387 | every camera compares equal to itself |
| Cameras.SameViewSymmetric | src/Camera.js:369-387 | the comparison does not depend on the order of the cameras |
| Cameras.SameViewSeesProjection | src/Camera.js:369-387 | an orthographic and a perspective camera differ, through the field-of-view sentinel |
| Cameras.Camera.constructor | src/Camera.js:32-42 | the default lens on a new target transform; nothing emitted yet |
| Cameras.Camera.PopulateClone | src/Camera.js:59-67 | the clone gets this lens and a deep copy of the transform |
| Cameras.Camera.Clone | src/Camera.js:49-53 | a new camera equal in lens and transform, sharing no object |
| Cameras.Camera.SetOrthographic | src/Camera.js:411-416 | a no-op for the current value; otherwise stores and announces |
| Cameras.Camera.SetAperture | src/Camera.js:442-453 | stores the magnitude (1 for NaN) and announces only a change |
| Cameras.Camera.SetFieldOfView | src/Camera.js:428-433 | ignored when orthographic; otherwise stores the aperture for the angle and announces twice |
| Cameras.Camera.SetFocal | src/Camera.js:462-465 | always stores and announces |
| Cameras.Camera.SetClipMax | src/Camera.js:489-492 | always stores and announces |
| Cameras.Camera.SetClipMin | src/Camera.js:501-504 | always stores and announces |
| Cameras.Camera.SetTransform | src/Camera.js:474-480 | adopts another transform object unless it is the current one, announcing both changes |
| Cameras.Camera.SetMatrix | src/Camera.js:79-84 | a present matrix becomes the world-to-object matrix; translation and axes come from its inverse with the scale kept, and the target is put back at its old distance along the new -z |
| Cameras.Camera.SetSceneUpDirection | src/Camera.js:557-568 | a no-op for the current value; otherwise the transform gets y or z as its up direction, looks again at the target (or at translation + z as written) re-applying its roll, is marked dirty, and both changes are announced |
| Cameras.Camera.SetFollowTargetPoint | src/Camera.js:574-582 | forwards the flag to the transform; only switching on looks at the target (keeping the roll), marks the matrix dirty and is announced; every other field stays |
| Cameras.Camera.SetTargetPoint | src/Camera.js:511-519 | refuses a point on the location with the source's message, changing and announcing nothing; a nearly equal point changes nothing; otherwise the target moves, a following transform looks at it, and both changes are announced |
| Cameras.Camera.MoveAndAnnounce | src/Camera.js:152-158 | the transform's translate (location, dragged target or re-look, dirty matrix, everything else kept) followed by the verb's announcements; a refused move announces nothing |
| Cameras.Camera.Pan | src/Camera.js:152-158 | the translate of MoveAndAnnounce along the camera's right and up vectors |
| Cameras.Camera.Dolly | src/Camera.js:166-180 | orthographic: the aperture changes and the transform stays; perspective: the translate of MoveAndAnnounce along local z |
| Cameras.Camera.Elevate | src/Camera.js:187-191 | the translate of MoveAndAnnounce along the camera's up vector, always taking the target along |
| Cameras.Camera.Translate | src/Camera.js:310-316 | the translate of MoveAndAnnounce by a world-space vector |
| Cameras.Camera.SetLocation | src/Camera.js:296-302 | moves to the location and marks the matrix dirty; a shifted target keeps its offset, an unshifted one may not be the new location (refused with the source's message, changing nothing); a following transform looks at the target; scale, matrix, flag and up stay |
| Cameras.Camera.Rotate | src/Camera.js:236-247 | the transform's rotate (axes turned or held by a followed target, target re-placed when shifted, dirty matrix, everything else kept), with NaN counting as no roll, then the verb's announcements |
| Cameras.Camera.Tilt | src/Camera.js:254-260 | the rotate of Rotate, pitching about the right vector |
| Cameras.Camera.Spin | src/Camera.js:267-273 | the rotate of Rotate, yawing about the transform's up direction |
| Cameras.Camera.RotateAroundAxis | src/Camera.js:281-287 | turns all three axes about the axis (taken to world space from camera space, which caches the matrix), re-places a shifted target or looks at a followed one, marks the matrix dirty and keeps location, scale, flag and up |
| Cameras.Camera.Orbit | src/Camera.js:200-209 | swings the location round the target, which stays put; the axes turn (or look at a followed target) and the matrix is dirty; nothing else changes |
| Cameras.Camera.OrbitAroundPoint | src/Camera.js:221-227 | swings the location round the point; a shifted target off the point swings too, otherwise it stays and a followed one is looked at; the matrix is dirty and nothing else changes |
| Cameras.Camera.Equal | src/Camera.js:369-387 | true for the same camera, else the same view; reading the matrices changes no observable value |
| Cameras.Camera.SetFromCamera | src/Camera.js:135-143 | adopts a deep copy of the other transform and the other lens through the setters, announcing in order; a different scene up re-orients the copy as the up setter does |

## Left out

- `Camera.orbit` with an orbit point: that branch calls `setTargetPoint`, a method the class does not define. Only the orbit without a point is modelled.
- `Camera.level_camera`: unfinished in the source (marked to-do).
- `Camera.transform_point`, `transform_direction` and `transform_direction_to_world`: thin wrappers over the client library's matrix products, which are not part of this model.
- `Camera.set_from_object`: the plain-object branch reads an untyped object and is not modelled. The Camera-typed branch is `SetFromCamera`.
- Event payloads, listeners and the event emitter: only the order of the event names is kept, as a ghost log.
- Getters that only return a field or a clone of one.
- `Transform.rotate_around_point` reads `m_up_direction`, which only `Transform_target` defines. Only the `Transform_target` override is modelled.
- `Quaternion.slerp_flat` and `multiply_quaternions_flat`: variants over flat arrays of numbers, not modelled. The second also returns an undefined value (src/Quaternion.js:135).
- `Quaternion.set_from_matrix`, `set_from_unit_vectors`, `angle_to`, `rotate_towards` and `set_rotation_around_axis`: not modelled. They rest on values of `sqrt`, `acos`, `sin` and `cos` that the uninterpreted `Math` parameter does not pin down. `Quaternion.set` from a matrix goes through `set_from_matrix`, so that branch is left out too.
- Rotations.Quaternion.FromAngles: requires a known order. With an unknown order the JavaScript constructor converts before any component is set, so the components stay undefined.
- Rotations.Euler.ToQuaternion: requires a known order, for the same reason.
- Rotations.Euler.Reorder: requires a known order, for the same reason.
- The client library's matrix inverse is not part of this model. Setting `world_to_obj` takes the inverse `objToWorld` as a parameter.
- Transforms.Transform.GetWorldToObj: requires a non-zero scale when the matrix is dirty. JavaScript would divide by zero and store Infinity or NaN.
- Transforms.Transform.DeriveWorldToObj: requires a non-zero scale, for the same reason.
- Cameras.Camera.Equal: requires a non-zero scale on a dirty transform, for the same reason.
- NaN is modelled only where the code tests for it, as `None`. Infinity and floating-point rounding are not modelled: arithmetic is exact.
- Lemmas that use the laws of `Math.sqrt`, `sin` and `cos` take them as hypotheses. Nothing about `tan`, `asin`, `acos` or `atan2` is assumed.
- TransformTargets.RollAngleRange: states which branch gives the roll and its sign. It does not state the geometric meaning of the angle, because that would need `acos` to be the true arc cosine.
- Vector equality in the target checks is modelled as exact equality. The client library's `equal` is not part of this model.
- Rotations.Euler.SetParts: with a NaN first angle and a non-zero second argument, the source stores that number as the order. The model keeps the previous order, because orders are strings here.
- Rotations.Euler.FromParts: with a NaN first angle and a non-zero second argument, the default order is kept, for the same reason.
- `Quaternion.set` and `Euler.set` with `undefined` first throw a TypeError when they read a field of it. The setters' first argument is a number or NaN. `undefined` is modelled only for the constructors, which take the default path. Strings and other non-number arguments are not modelled.
- TransformTargets.TransformTarget.RotateAroundPoint: its contract does not state that the target stays off the location. `SwungPointsApart` states it for a dragged target. A target that is not dragged can be met, as with `translate`.
- TransformTargets.TransformTarget.Translate: the location is stated to stay off the target only when the target is dragged. Without dragging it can land on the target. See Findings.
- TransformTargets.TransformTarget.SetRotation: the new axes are not stated to be orthonormal. Without rotating a followed target they can collapse. See Findings.
- Transforms.Transform.SetWorldToObj: requires the given object-to-world matrix to undo the world-to-object matrix on every point, because the inverse is a parameter.
- TransformTargets.TransformTarget.SetWorldToObj: requires the same, for the same reason.
- Cameras.Camera.SetMatrix: requires the same of a present matrix, for the same reason.
- Transforms.Transform.RotateAroundAxis: requires a non-zero scale when the axis is in object space and the matrix is dirty. Taking the axis to world space derives the matrix, which divides by the scale.
- Transforms.Transform.RotateVectors: requires a non-zero scale in the same case, for the same reason.
- TransformTargets.TransformTarget.RotateAroundAxis: requires a non-zero scale in the same case, for the same reason.
- Cameras.Camera.RotateAroundAxis: requires a non-zero scale when the axis is in camera space and the matrix is dirty, for the same reason.

## Findings

| source | as written | input that shows it | evidently intended | confidence | as-written member | corrected member |
|---|---|---|---|---|---|---|
| src/Transform.js:137-155 | `derive_vectors` recovers the translation and axes from the object-to-world matrix but never writes the scale | a transform with scale (2, 0.2, 4) at the origin with canonical axes: setting its `world_to_obj` keeps the old scale (1, 1, 1) | the scale of each axis is the length of the image of that basis direction, so that setting the matrix recovers the whole pose | not executed | Transforms.DeriveVectorsAsWrittenLosesScale | Transforms.DeriveVectorsRecoversPose |
| src/Transform_target.js:151-154 | when not following, the `up_direction` setter looks at `z_axis + translation` | any transform with unit z axis z: the new z axis is -z, so the view direction flips | the point ahead of the camera, `translation - z_axis`, so that changing the up direction keeps the view direction | not executed | TransformTargets.UpLookAsWrittenReversesView | TransformTargets.UpLookKeepsView |
| src/Transform_target.js:229-237 | `translate` without dragging the target moves the location with no check against the target; `rotate_around_point` without dragging does the same | `translate(0, 0, -1, true, false)` on a new target transform: the location moves from the origin onto the target (0, 0, -1) | refuse a move onto the target, as `set_translation` and `set_target_point` do, so that the target never sits on the location | not executed | TransformTargets.UndraggedMoveCanMeetTarget | TransformTargets.CorrectedTranslateKeepsApart |
| src/Transform_target.js:294-303 | when following without rotating the target, `set_rotation` resets z to the world z axis but keeps x and y, then only rolls | a followed target transform whose x axis is the world z axis: the new x and z axes coincide | keep the current axes for the roll-only rotation, so that the transform keeps looking at the target with orthonormal axes | not executed | TransformTargets.ResetForRotationCanCollapse | TransformTargets.ResetKeepingViewStaysOrthonormal |
