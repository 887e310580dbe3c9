/**
  The pose catalogue `poses_ranges`: an ordered table of named poses, each
  with one (low, high) degree range per feature-vector component.
*/
module Catalogue {

  /** An accepted angle range, in whole degrees. */
  datatype Range = Range(low: int, high: int)

  /** A named pose signature; `ranges` is matched to the feature vector by position. */
  datatype Pose = Pose(name: string, ranges: seq<Range>)

  /** The catalogue, in the insertion order of the source's dictionary literal. */
  const PosesRanges: seq<Pose> := [
    Pose("Butterfly Pose",
         [Range(160, 200), Range(160, 200), Range(0, 30), Range(0, 30), Range(0, 20), Range(0, 20)]),
    Pose("Standing Pose",
         [Range(160, 200), Range(160, 200), Range(0, 30), Range(0, 30), Range(160, 200), Range(160, 200)]),
    Pose("Staff Pose",
         [Range(160, 200), Range(160, 200), Range(160, 200), Range(160, 200), Range(160, 200), Range(160, 200)]),
    Pose("Mountain Pose",
         [Range(160, 200), Range(160, 200), Range(160, 200), Range(160, 200), Range(160, 200), Range(160, 200)]),
    Pose("Squat",
         [Range(160, 200), Range(160, 200), Range(80, 130), Range(80, 130), Range(40, 80), Range(40, 80)]),
    Pose("Warrior II Pose",
         [Range(165, 195), Range(165, 195), Range(80, 110), Range(80, 110), Range(165, 195), Range(90, 120)]),
    Pose("T Pose",
         [Range(165, 195), Range(165, 195), Range(80, 110), Range(80, 110), Range(160, 195), Range(160, 195)]),
    Pose("Tree Pose",
         [Range(165, 195), Range(165, 195), Range(80, 110), Range(80, 110), Range(165, 195), Range(25, 45)])
  ]

  /** Positions of the two poses whose signatures coincide. */
  const StaffIndex: nat := 2
  const MountainIndex: nat := 3

  /** The number of components of the feature vector. */
  const FeatureCount: nat := 6

  /**
    A catalogue that can be zipped with a feature vector without loss: every
    signature has one range per component, and every range is non-empty and
    within [0, 360).
  */
  predicate RangesWellFormed(catalogue: seq<Pose>)
  {
    && (forall i :: 0 <= i < |catalogue| ==> |catalogue[i].ranges| == FeatureCount)
    && (forall i, k :: 0 <= i < |catalogue| && 0 <= k < |catalogue[i].ranges| ==>
          0 <= catalogue[i].ranges[k].low <= catalogue[i].ranges[k].high < 360)
  }

  /** Pose names are distinct, as the keys of a dictionary are. */
  predicate NamesDistinct(catalogue: seq<Pose>)
  {
    forall i, j :: 0 <= i < j < |catalogue| ==> catalogue[i].name != catalogue[j].name
  }

  /** The literal table has eight entries, six well-formed ranges each. */
  lemma PosesRangesWellFormed()
    ensures |PosesRanges| == 8 && RangesWellFormed(PosesRanges)
  {
  }

  /** The eight names in the literal table are distinct. */
  lemma PosesRangesNamesDistinct()
    ensures NamesDistinct(PosesRanges)
  {
  }

  /** 'Mountain Pose' comes right after 'Staff Pose' and repeats its ranges exactly. */
  lemma MountainRepeatsStaff()
    ensures PosesRanges[StaffIndex].name == "Staff Pose" && PosesRanges[MountainIndex].name == "Mountain Pose"
    ensures PosesRanges[StaffIndex].ranges == PosesRanges[MountainIndex].ranges
  {
  }
}
