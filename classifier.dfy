/**
  The part of `classifyPose` that decides the label: the six-angle feature
  vector is matched against the pose catalogue, and the nearest pose's name
  is reported together with the per-component deviations.
*/
module Classifier {
  import opened Wrappers
  import opened Angles
  import opened Features
  import opened Catalogue
  import opened Matcher

  /** A landmark list too short to hold every landmark the feature vector reads. */
  datatype ClassifyError = InsufficientLandmarks

  /** The chosen pose's name and the deviations of the input from its ranges. */
  datatype MatchResult = MatchResult(poseName: string, deviations: seq<real>)

  /**
    The classification of one landmark list. A list without the 29 landmarks
    up to the right ankle is an error; otherwise the catalogue entry nearest
    to the six joint angles is chosen, first entry on a tie.
  */
  function Classify(atan2: Arctangent, landmarks: seq<Landmark>): (r: Result<MatchResult, ClassifyError>)
    ensures r.Err? <==> |landmarks| < LandmarkCount
    ensures r.Ok? ==>
      var input := InputAngles(atan2, landmarks);
      exists w: nat :: IsFirstNearest(PosesRanges, input, w) &&
        r.value == MatchResult(PosesRanges[w].name, Deviations(input, PosesRanges[w].ranges))
  {
    if |landmarks| < LandmarkCount then Err(InsufficientLandmarks)
    else
      var input := InputAngles(atan2, landmarks);
      var w := Nearest(PosesRanges, input);
      Ok(MatchResult(PosesRanges[w].name, Deviations(input, PosesRanges[w].ranges)))
  }

  /**
    What the caller of the classifier can rely on: the label is a catalogue
    name other than 'Mountain Pose', and there are six non-negative
    deviations, each the edge distance of the matching angle from the
    chosen pose's range.
  */
  lemma ClassifyResultShape(atan2: Arctangent, landmarks: seq<Landmark>)
    requires |landmarks| >= LandmarkCount
    ensures Classify(atan2, landmarks).Ok?
    ensures var m := Classify(atan2, landmarks).value;
      && m.poseName != "Mountain Pose"
      && (exists w :: 0 <= w < |PosesRanges| && PosesRanges[w].name == m.poseName)
      && |m.deviations| == FeatureCount
      && forall i :: 0 <= i < FeatureCount ==> 0.0 <= m.deviations[i]
  {
    var input := InputAngles(atan2, landmarks);
    var w := Nearest(PosesRanges, input);
    MountainPoseNeverChosen(input);
    ZipNeverTruncates(input, w);
  }

  /**
    `classifyPose` from the angles on: computes the six angles, runs the
    nearest-pose search over the catalogue, and reports its answer.
  */
  method ClassifyPose(atan2: Arctangent, landmarks: seq<Landmark>) returns (result: Result<MatchResult, ClassifyError>)
    ensures result == Classify(atan2, landmarks)
  {
    if |landmarks| < LandmarkCount {
      return Err(InsufficientLandmarks);
    }
    var inputAngles := InputAngles(atan2, landmarks);
    var nearestPose, angleDifferences := FindNearestPose(PosesRanges, inputAngles);
    result := Ok(MatchResult(nearestPose.value, angleDifferences));
  }
}
