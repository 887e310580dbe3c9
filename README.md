# Pose classification core of PoseEstimationFitness

A Dafny model of the pose classifier in `pose_detector_website/pose/mypose1.py`.
The model covers the part of `classifyPose` that decides the label. Each frame's
body landmarks become six joint angles. These angles are compared with a fixed
catalogue of eight named poses, each given as six (low, high) angle ranges.
The nearest pose is returned, together with the per-angle deviations from its ranges.

Modules, leaves first:

- `Wrappers` (`wrappers.dfy`): `Option` and `Result`.
- `Angles` (`angles.dfy`): `calculateAngle`. A landmark is `(x, y, z)` and only
  x and y are used. The difference of the two ray directions is normalised into
  [0, 360) by adding 360 once. `math.degrees(math.atan2(...))` is a parameter
  `atan2: (real, real) -> Degrees`. `Degrees` is the real interval (-180, 180].
  For Python floats `math.atan2(-0.0, -1.0)` is -180, but the detector's
  coordinates are whole pixels, so a coordinate difference is never -0.0 and
  the half-open interval holds. The scale and straight-joint lemmas also
  assume `ScaleInvariant` (the arctangent ignores the length of its argument)
  and `Opposite` (a reversed non-zero vector is half a turn away).
- `Features` (`features.dfy`): the MediaPipe Pose landmark indices (shoulders
  11/12, elbows 13/14, wrists 15/16, hips 23/24, knees 25/26, ankles 27/28).
  It also holds the six joint triples in vector order and `InputAngles`, the
  vector `input_angles`. The right shoulder is measured hip-shoulder-elbow and
  the left one elbow-shoulder-hip, as in the source. The two hip angles are
  modelled (`HipAngles`) but, as in the source, never enter the vector.
- `Catalogue` (`catalogue.dfy`): the literal, ordered table `poses_ranges`.
- `Matcher` (`matcher.dfy`): `calculate_distance` and `find_nearest_pose`.
  Both are methods with loops, proved against the specification functions
  `Deviations`, `Distance` and `NearestIn`/`Nearest`. The per-angle deviation
  is `min(|angle - high|, |angle - low|)`, the distance to the nearer bound.
  It is positive even strictly inside a range. The scan keeps the current best
  and replaces it only on a strictly smaller distance, so the first of equal
  entries wins. Because of that, 'Mountain Pose', whose ranges repeat those of
  the earlier 'Staff Pose', is never returned.
- `Classifier` (`classifier.dfy`): the landmarks-to-label step of
  `classifyPose`, as a method over the two above and its specification function.

Distances are compared as sums of squares instead of Euclidean norms. The
square root is strictly increasing on non-negative numbers, so both give the
same comparisons (`SquaresOrderLikeRoots`).

Behaviour of the code that the model keeps:

- The code does not check the length of the landmark list: indexing a list of
  fewer than 29 landmarks raises Python's `IndexError`. The model returns
  `Err(InsufficientLandmarks)` for it (`Classify`, `ClassifyPose`).
- An empty catalogue gives `(None, [])`, and so does `FindNearestPose`.
- The two shoulder-hip-knee angles are computed but are not in `input_angles`.
- No aggregate distance is returned: only the name and the deviations.
- [180, 180, 95, 95, 180, 180] selects 'T Pose', with a deviation of 15 on
  every angle (`StraightArmsAndLegsIsTPose`).

## Model

| member | source | states |
|---|---|---|
| `Angles.RawAngle` | pose_detector_website/pose/mypose1.py:74-79 | The difference of two arctangents in degrees lies strictly between -360 and 360. |
| `Angles.Normalize` | pose_detector_website/pose/mypose1.py:81-88 | The normalised angle lies in [0, 360) and differs from the raw difference by 0 or by exactly 360. |
| `Angles.CalculateAngle` | pose_detector_website/pose/mypose1.py:70-88 | The joint angle lies in [0, 360) and is the raw ray difference, possibly plus one full turn. |
| `Angles.NormalizeIsCanonical` | pose_detector_website/pose/mypose1.py:79-88 | Any value in [0, 360) that differs from the raw difference by whole turns equals the normalised angle, so normalisation is reduction modulo 360. |
| `Angles.NormalizeCases` | pose_detector_website/pose/mypose1.py:82-85 | A non-negative raw difference is returned unchanged and a negative one gets exactly 360 added. |
| `Angles.AngleIgnoresDepth` | pose_detector_website/pose/mypose1.py:74-76 | Changing any landmark's z leaves the angle unchanged. |
| `Angles.AngleTranslationInvariant` | pose_detector_website/pose/mypose1.py:74-79 | Shifting all three points by the same (dx, dy) leaves the angle unchanged. |
| `Angles.AngleScaleInvariant` | pose_detector_website/pose/mypose1.py:74-79 | For an arctangent that ignores the length of its argument, scaling all three points by the same positive factor leaves the angle unchanged. |
| `Angles.StraightJointIs180` | pose_detector_website/pose/mypose1.py:74-88 | When the last point lies on the line through the first point and the vertex, on the far side of the vertex, the angle is exactly 180. This assumes an arctangent that ignores length and puts a reversed vector half a turn away. |
| `Features.AngleOf` | pose_detector_website/pose/mypose1.py:109-111 | The angle of a joint triple over a landmark list lies in [0, 360). |
| `Features.InputAngles` | pose_detector_website/pose/mypose1.py:109-136 | The feature vector has six angles, each in [0, 360). Component i is the angle of the i-th joint triple: left elbow, right elbow, left shoulder, right shoulder (hip-shoulder-elbow), left knee, right knee. |
| `Features.HipAngles` | pose_detector_website/pose/mypose1.py:138-144 | The right and left hip angles are the angles of the shoulder-hip-knee triples `RightHipJoint` and `LeftHipJoint`. The model uses it only to name the triples that `HipAnglesNotInVector` is about. |
| `Features.AngleOfIsPlanar` | pose_detector_website/pose/mypose1.py:74-76 | A joint angle depends only on the x and y of its three landmarks. |
| `Features.InputAnglesDependOnlyOnLimbXY` | pose_detector_website/pose/mypose1.py:109-136 | Two landmark lists that agree on x and y of the twelve limb landmarks give the same feature vector. |
| `Features.HipAnglesNotInVector` | pose_detector_website/pose/mypose1.py:305 | Neither hip triple is one of the six feature-vector triples. |
| `Catalogue.PosesRangesWellFormed` | pose_detector_website/pose/mypose1.py:263-272 | The table has 8 entries, each with exactly 6 ranges with 0 <= low <= high < 360. |
| `Catalogue.PosesRangesNamesDistinct` | pose_detector_website/pose/mypose1.py:263-272 | The 8 pose names are distinct, as dictionary keys are. |
| `Catalogue.MountainRepeatsStaff` | pose_detector_website/pose/mypose1.py:266-267 | 'Mountain Pose' directly follows 'Staff Pose' and has identical ranges. |
| `Matcher.EdgeDistance` | pose_detector_website/pose/mypose1.py:278 | The deviation is non-negative, equals the distance to one of the two bounds and is at most the distance to either. It is zero exactly when the angle equals a bound. |
| `Matcher.InsideRangeDeviates` | pose_detector_website/pose/mypose1.py:278 | An angle strictly inside a range has a positive deviation. For example, 180 against (160, 200) deviates by 20. |
| `Matcher.Deviations` | pose_detector_website/pose/mypose1.py:300 | As `zip` pairs them, the deviation list has the length of the shorter input and component i is the edge distance of angle i from range i. |
| `Matcher.Square` | pose_detector_website/pose/mypose1.py:281 | A square is non-negative and zero exactly for zero. |
| `Matcher.SquaredNorm` | pose_detector_website/pose/mypose1.py:281 | The squared Euclidean norm is non-negative. |
| `Matcher.Distance` | pose_detector_website/pose/mypose1.py:274-281 | The squared distance of an angle vector from a signature is non-negative. |
| `Matcher.SquaredNormZeroIff` | pose_detector_website/pose/mypose1.py:281 | The squared norm is zero exactly when every component is zero. |
| `Matcher.ComponentBoundedBySquaredNorm` | pose_detector_website/pose/mypose1.py:281 | Each component's square is at most the squared norm. |
| `Matcher.SquaresOrderLikeRoots` | pose_detector_website/pose/mypose1.py:296 | For non-negative numbers, comparing squares gives the same answer as comparing the numbers. This justifies comparing squared distances in place of norms. |
| `Matcher.DistanceZeroIffOnBounds` | pose_detector_website/pose/mypose1.py:277-281 | The distance is zero exactly when every angle sits on one of the bounds of its range. |
| `Matcher.ComponentBoundsDistance` | pose_detector_website/pose/mypose1.py:277-281 | One component's squared deviation is a lower bound on the whole distance. |
| `Matcher.CalculateDistance` | pose_detector_website/pose/mypose1.py:274-281 | The loop that appends one deviation per zipped pair returns the squared norm of exactly the deviation list of the specification. |
| `Matcher.NearestIn` | pose_detector_website/pose/mypose1.py:292-298 | After scanning the first n entries, the kept entry is among them and no farther than any of them. Every earlier entry is strictly farther, so ties stay with the first. |
| `Matcher.Nearest` | pose_detector_website/pose/mypose1.py:283-302 | For a non-empty catalogue the scan ends on an entry that is a first nearest entry. |
| `Matcher.FirstNearestUnique` | pose_detector_website/pose/mypose1.py:292-298 | At most one entry is a first nearest entry, so the answer is determined by the input and the table order. |
| `Matcher.FindNearestPose` | pose_detector_website/pose/mypose1.py:283-302 | A name is returned exactly when the catalogue is non-empty; with `min_distance` starting at +infinity the result is never `None` otherwise. The name is the first nearest entry's, and the returned differences are the deviations from that entry's ranges, not a later-examined one. An empty catalogue gives `None` and no differences. |
| `Matcher.SingleEntryAlwaysChosen` | pose_detector_website/pose/mypose1.py:285-298 | A one-entry catalogue always yields that entry: there is no rejection threshold. |
| `Matcher.ZipNeverTruncates` | pose_detector_website/pose/mypose1.py:300 | For a six-angle input, the deviations against any catalogue entry have all six components. |
| `Matcher.MountainPoseNeverChosen` | pose_detector_website/pose/mypose1.py:266-298 | For every input, the chosen entry is not 'Mountain Pose': it ties with the earlier 'Staff Pose', and ties go to the earlier entry. |
| `Matcher.StraightArmsAndLegsFromTPose` | pose_detector_website/pose/mypose1.py:270 | [180, 180, 95, 95, 180, 180] deviates by 15 on every angle from 'T Pose', a squared distance of 1350. |
| `Matcher.StraightArmsAndLegsFarFromFirstPoses` | pose_detector_website/pose/mypose1.py:264-266 | The same vector is at squared distance above 1350 from 'Butterfly Pose', 'Standing Pose' and 'Staff Pose'. |
| `Matcher.StraightArmsAndLegsFarFromMiddlePoses` | pose_detector_website/pose/mypose1.py:267-269 | The same vector is at squared distance above 1350 from 'Mountain Pose', 'Squat' and 'Warrior II Pose'. |
| `Matcher.StraightArmsAndLegsFarFromTreePose` | pose_detector_website/pose/mypose1.py:271 | The same vector is at squared distance above 1350 from 'Tree Pose'. |
| `Matcher.StraightArmsAndLegsIsTPose` | pose_detector_website/pose/mypose1.py:292-300 | The matcher selects 'T Pose' for [180, 180, 95, 95, 180, 180], with deviations [15, 15, 15, 15, 15, 15]. |
| `Classifier.Classify` | pose_detector_website/pose/mypose1.py:305-307 | A list with fewer than 29 landmarks is an error, and only such a list. Otherwise the label and deviations are those of a first nearest catalogue entry for the six angles. |
| `Classifier.ClassifyResultShape` | pose_detector_website/pose/mypose1.py:305-307 | For a full landmark list the result is a catalogue name other than 'Mountain Pose', with six non-negative deviations. |
| `Classifier.ClassifyPose` | pose_detector_website/pose/mypose1.py:305-307 | Computing the angles and running the nearest-pose loop yields exactly the specified classification. |

## Left out

- `detectPose` (mypose1.py:20-66): MediaPipe inference, OpenCV colour conversion and matplotlib display are foreign-library I/O. The landmark list is an input of the model.
- The module-level detector and webcam setup (mypose1.py:11-17, 333-341) and the `OutputPoseWebcam` capture loop (mypose1.py:343-371): camera I/O and GUI events.
- The nested threshold chain (mypose1.py:150-259): every label it assigns is overwritten at line 307, so it has no observable effect. The hip angles it alone reads are modelled, but the chain is not.
- The label text `label += str(a)` (mypose1.py:309-310): it depends on Python's float-to-string formatting. The model reports the name and the deviations separately.
- The 'Unknown Pose' colour check, `cv2.putText` and `cv2.imshow` (mypose1.py:314-330): rendering only. The colour is the same red on both branches.
- Floating point: angles, coordinates and distances are real numbers. Rounding in `atan2`, `degrees`, the subtraction and the norm is not modelled, nor are NaN and infinite coordinates.
- Angles.CalculateAngle: the arctangent is a parameter known by its range (-180, 180]. Its values are not computed, so no lemma gives the angle of particular coordinates.
- Angles.StraightJointIs180 and Angles.AngleScaleInvariant: they assume the arctangent properties `ScaleInvariant` and `Opposite` as hypotheses instead of deriving them from a definition of `atan2`. They do not cover rounding of the float arctangent.
- Matcher.CalculateDistance: returns the squared Euclidean norm, not the norm itself. `np.linalg.norm`'s square root is not modelled. `SquaresOrderLikeRoots` shows the two give the same comparisons.
- Landmark x and y from the detector are whole pixels (`int(...)` at mypose1.py:48). The model allows any real coordinates, a superset.
- Looking a pose up by name: the code never does this, so it is not modelled.
