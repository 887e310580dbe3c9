/**
  The feature vector of `classifyPose`: six joint angles computed from fixed
  MediaPipe Pose landmark indices, in a fixed order.
*/
module Features {
  import opened Angles

  // MediaPipe Pose landmark enumeration values used by the classifier.
  const LeftShoulder: nat := 11
  const RightShoulder: nat := 12
  const LeftElbow: nat := 13
  const RightElbow: nat := 14
  const LeftWrist: nat := 15
  const RightWrist: nat := 16
  const LeftHip: nat := 23
  const RightHip: nat := 24
  const LeftKnee: nat := 25
  const RightKnee: nat := 26
  const LeftAnkle: nat := 27
  const RightAnkle: nat := 28

  /** Every landmark index above is below this bound. */
  const LandmarkCount: nat := 29

  /** The three landmark indices defining one angle; `vertex` is the joint. */
  datatype JointTriple = JointTriple(first: nat, vertex: nat, last: nat)

  /**
    The joints of the feature vector, in its order: left elbow, right elbow,
    left shoulder, right shoulder, left knee, right knee. The right shoulder
    is measured hip-shoulder-elbow, the left one elbow-shoulder-hip.
  */
  const FeatureJoints: seq<JointTriple> := [
    JointTriple(LeftShoulder, LeftElbow, LeftWrist),
    JointTriple(RightShoulder, RightElbow, RightWrist),
    JointTriple(LeftElbow, LeftShoulder, LeftHip),
    JointTriple(RightHip, RightShoulder, RightElbow),
    JointTriple(LeftHip, LeftKnee, LeftAnkle),
    JointTriple(RightHip, RightKnee, RightAnkle)
  ]

  /** The two hip joints, whose angles are computed but never enter the feature vector. */
  const RightHipJoint := JointTriple(RightShoulder, RightHip, RightKnee)
  const LeftHipJoint := JointTriple(LeftShoulder, LeftHip, LeftKnee)

  /** The angle of one joint triple over a landmark list. */
  function AngleOf(atan2: Arctangent, landmarks: seq<Landmark>, j: JointTriple): (angle: real)
    requires j.first < |landmarks| && j.vertex < |landmarks| && j.last < |landmarks|
    ensures 0.0 <= angle < 360.0
  {
    CalculateAngle(atan2, landmarks[j.first], landmarks[j.vertex], landmarks[j.last])
  }

  /**
    `input_angles`: the six angles, each computed at its own call site from
    named landmarks. Its contract ties every component to the joint table
    above, so the order of the vector and the order of the table agree.
  */
  function InputAngles(atan2: Arctangent, landmarks: seq<Landmark>): (v: seq<real>)
    requires |landmarks| >= LandmarkCount
    ensures |v| == |FeatureJoints| == 6
    ensures forall i :: 0 <= i < |v| ==> v[i] == AngleOf(atan2, landmarks, FeatureJoints[i])
    ensures forall i :: 0 <= i < |v| ==> 0.0 <= v[i] < 360.0
  {
    var leftElbowAngle := CalculateAngle(atan2, landmarks[LeftShoulder], landmarks[LeftElbow], landmarks[LeftWrist]);
    var rightElbowAngle := CalculateAngle(atan2, landmarks[RightShoulder], landmarks[RightElbow], landmarks[RightWrist]);
    var leftShoulderAngle := CalculateAngle(atan2, landmarks[LeftElbow], landmarks[LeftShoulder], landmarks[LeftHip]);
    var rightShoulderAngle := CalculateAngle(atan2, landmarks[RightHip], landmarks[RightShoulder], landmarks[RightElbow]);
    var leftKneeAngle := CalculateAngle(atan2, landmarks[LeftHip], landmarks[LeftKnee], landmarks[LeftAnkle]);
    var rightKneeAngle := CalculateAngle(atan2, landmarks[RightHip], landmarks[RightKnee], landmarks[RightAnkle]);
    [leftElbowAngle, rightElbowAngle, leftShoulderAngle, rightShoulderAngle, leftKneeAngle, rightKneeAngle]
  }

  /** The right and left hip angles, as the classifier computes them. */
  function HipAngles(atan2: Arctangent, landmarks: seq<Landmark>): (hips: (real, real))
    requires |landmarks| >= LandmarkCount
    ensures hips.0 == AngleOf(atan2, landmarks, RightHipJoint)
    ensures hips.1 == AngleOf(atan2, landmarks, LeftHipJoint)
  {
    (CalculateAngle(atan2, landmarks[RightShoulder], landmarks[RightHip], landmarks[RightKnee]),
     CalculateAngle(atan2, landmarks[LeftShoulder], landmarks[LeftHip], landmarks[LeftKnee]))
  }

  /** The indices of the landmarks that the feature vector reads. */
  const UsedLandmarks: set<nat> := {
    LeftShoulder, RightShoulder, LeftElbow, RightElbow, LeftWrist, RightWrist,
    LeftHip, RightHip, LeftKnee, RightKnee, LeftAnkle, RightAnkle
  }

  /** Two landmark lists agree on the image-plane position of every landmark in `used`. */
  predicate SamePlanarJoints(l1: seq<Landmark>, l2: seq<Landmark>, used: set<nat>)
  {
    forall k :: k in used && k < |l1| && k < |l2| ==> l1[k].x == l2[k].x && l1[k].y == l2[k].y
  }

  /** The angle of a joint triple reads only the x and y of its three landmarks. */
  lemma AngleOfIsPlanar(atan2: Arctangent, l1: seq<Landmark>, l2: seq<Landmark>, j: JointTriple)
    requires j.first < |l1| && j.vertex < |l1| && j.last < |l1|
    requires j.first < |l2| && j.vertex < |l2| && j.last < |l2|
    requires SamePlanarJoints(l1, l2, {j.first, j.vertex, j.last})
    ensures AngleOf(atan2, l1, j) == AngleOf(atan2, l2, j)
  {
    assert RawAngle(atan2, l1[j.first], l1[j.vertex], l1[j.last])
        == RawAngle(atan2, l2[j.first], l2[j.vertex], l2[j.last]);
  }

  /**
    The feature vector depends only on the x and y of the twelve limb
    landmarks: depth, the face, hands and feet never influence it.
  */
  lemma {:induction false} InputAnglesDependOnlyOnLimbXY(atan2: Arctangent, l1: seq<Landmark>, l2: seq<Landmark>)
    requires |l1| >= LandmarkCount && |l2| >= LandmarkCount
    requires SamePlanarJoints(l1, l2, UsedLandmarks)
    ensures InputAngles(atan2, l1) == InputAngles(atan2, l2)
  {
    AngleOfIsPlanar(atan2, l1, l2, FeatureJoints[0]);
    AngleOfIsPlanar(atan2, l1, l2, FeatureJoints[1]);
    AngleOfIsPlanar(atan2, l1, l2, FeatureJoints[2]);
    AngleOfIsPlanar(atan2, l1, l2, FeatureJoints[3]);
    AngleOfIsPlanar(atan2, l1, l2, FeatureJoints[4]);
    AngleOfIsPlanar(atan2, l1, l2, FeatureJoints[5]);
  }

  /** Neither hip triple is one of the feature-vector triples. */
  lemma HipAnglesNotInVector()
    ensures RightHipJoint !in FeatureJoints && LeftHipJoint !in FeatureJoints
  {
  }
}
