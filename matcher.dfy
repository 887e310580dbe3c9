/**
  The nearest-pose matcher: `calculate_distance` and `find_nearest_pose`.

  Each component's deviation is the distance from the angle to the nearer
  bound of its range, whether the angle lies inside the range or not. The
  source combines deviations by their Euclidean norm; since the square root
  is strictly increasing on non-negative numbers, the model compares the
  sums of squares instead (see SquaresOrderLikeRoots).
*/
module Matcher {
  import opened Wrappers
  import opened Catalogue

  function Abs(x: real): (r: real)
    ensures 0.0 <= r && (r == x || r == -x)
  {
    if x < 0.0 then -x else x
  }

  /**
    `min(abs(angle - high), abs(angle - low))`: the distance to the nearer
    bound. It is zero exactly on a bound, so an angle strictly inside the
    range still has a positive deviation.
  */
  function EdgeDistance(angle: real, r: Range): (d: real)
    ensures 0.0 <= d
    ensures d <= Abs(angle - r.high as real) && d <= Abs(angle - r.low as real)
    ensures d == Abs(angle - r.high as real) || d == Abs(angle - r.low as real)
    ensures d == 0.0 <==> angle == r.low as real || angle == r.high as real
  {
    var toHigh := Abs(angle - r.high as real);
    var toLow := Abs(angle - r.low as real);
    if toLow < toHigh then toLow else toHigh
  }

  /**
    The per-component deviations of `angles` against `ranges`, paired as
    `zip` pairs them: position by position, stopping at the shorter one.
  */
  function Deviations(angles: seq<real>, ranges: seq<Range>): (d: seq<real>)
    ensures |d| == if |angles| <= |ranges| then |angles| else |ranges|
    ensures forall i :: 0 <= i < |d| ==> d[i] == EdgeDistance(angles[i], ranges[i])
    decreases |angles|
  {
    if angles == [] || ranges == [] then []
    else [EdgeDistance(angles[0], ranges[0])] + Deviations(angles[1..], ranges[1..])
  }

  /**
    Real multiplication under a name of its own: the solver keeps facts about
    `Mul(a, b)` as stated instead of rewriting the product.
  */
  function Mul(a: real, b: real): real
  {
    a * b
  }

  lemma MulOfNonNegatives(a: real, b: real)
    requires 0.0 <= a && 0.0 <= b
    ensures 0.0 <= Mul(a, b)
    ensures Mul(a, b) == 0.0 <==> a == 0.0 || b == 0.0
  {
    if 0.0 < a && 0.0 < b {
      assert 0.0 < a * b;
    }
  }

  function Square(x: real): (s: real)
    ensures 0.0 <= s
    ensures s == 0.0 <==> x == 0.0
  {
    MulOfNonNegatives(Abs(x), Abs(x));
    Mul(Abs(x), Abs(x))
  }

  /** The square of the Euclidean norm of `d`. */
  function SquaredNorm(d: seq<real>): (s: real)
    ensures 0.0 <= s
  {
    if d == [] then 0.0 else Square(d[0]) + SquaredNorm(d[1..])
  }

  /** The squared distance of `calculate_distance`. */
  function Distance(angles: seq<real>, ranges: seq<Range>): (s: real)
    ensures 0.0 <= s
  {
    SquaredNorm(Deviations(angles, ranges))
  }

  /** The squared norm is zero exactly when every component is zero. */
  lemma {:induction false} SquaredNormZeroIff(d: seq<real>)
    ensures SquaredNorm(d) == 0.0 <==> forall i :: 0 <= i < |d| ==> d[i] == 0.0
  {
    if d != [] {
      var rest := d[1..];
      SquaredNormZeroIff(rest);
      assert SquaredNorm(d) == Square(d[0]) + SquaredNorm(rest);
      assert (forall i :: 0 <= i < |d| ==> d[i] == 0.0) <==> d[0] == 0.0 && (forall i :: 0 <= i < |rest| ==> rest[i] == 0.0) by {
        assert forall i :: 0 < i < |d| ==> d[i] == rest[i - 1];
      }
    }
  }

  /** Each component's square is bounded by the squared norm. */
  lemma {:induction false} ComponentBoundedBySquaredNorm(d: seq<real>, k: nat)
    requires k < |d|
    ensures Square(d[k]) <= SquaredNorm(d)
  {
    if k > 0 {
      ComponentBoundedBySquaredNorm(d[1..], k - 1);
      assert d[1..][k - 1] == d[k];
    }
  }

  /**
    Comparing squares is comparing norms: for non-negative values, the
    order of the values and the order of their squares agree.
  */
  lemma SquaresOrderLikeRoots(a: real, b: real)
    requires 0.0 <= a && 0.0 <= b
    ensures a < b <==> Square(a) < Square(b)
  {
    assert Square(b) - Square(a) == Mul(b - a, b + a);
    if a < b {
      MulOfNonNegatives(b - a, b + a);
    } else {
      MulOfNonNegatives(a - b, b + a);
      assert Square(a) - Square(b) == Mul(a - b, b + a);
    }
  }

  /**
    An angle has distance zero from a signature exactly when every component
    sits on one of the bounds of its range.
  */
  lemma DistanceZeroIffOnBounds(angles: seq<real>, ranges: seq<Range>)
    requires |angles| == |ranges|
    ensures Distance(angles, ranges) == 0.0 <==>
      forall i :: 0 <= i < |angles| ==> angles[i] == ranges[i].low as real || angles[i] == ranges[i].high as real
  {
    SquaredNormZeroIff(Deviations(angles, ranges));
  }

  /**
    `calculate_distance`: builds the list of deviations by appending in a
    loop over the zipped pairs, then returns its squared norm.
  */
  method CalculateDistance(angles: seq<real>, ranges: seq<Range>) returns (squared: real)
    ensures squared == SquaredNorm(Deviations(angles, ranges))
  {
    var distances: seq<real> := [];
    var n := if |angles| <= |ranges| then |angles| else |ranges|;
    for i := 0 to n
      invariant |distances| == i
      invariant forall k :: 0 <= k < i ==> distances[k] == EdgeDistance(angles[k], ranges[k])
    {
      var angleDiff := EdgeDistance(angles[i], ranges[i]);
      distances := distances + [angleDiff];
    }
    assert distances == Deviations(angles, ranges);
    squared := SquaredNorm(distances);
  }

  /**
    The position the left-to-right scan of the first `n` entries settles on:
    a strict `<` replaces the current best, so on a tie the earlier entry stays.
    The result has the least distance among those entries, and every earlier
    entry is strictly farther.
  */
  function NearestIn(catalogue: seq<Pose>, angles: seq<real>, n: nat): (w: nat)
    requires 0 < n <= |catalogue|
    ensures w < n
    ensures forall j :: 0 <= j < n ==>
      Distance(angles, catalogue[w].ranges) <= Distance(angles, catalogue[j].ranges)
    ensures forall j :: 0 <= j < w ==>
      Distance(angles, catalogue[w].ranges) < Distance(angles, catalogue[j].ranges)
  {
    if n == 1 then 0
    else
      var best := NearestIn(catalogue, angles, n - 1);
      if Distance(angles, catalogue[n - 1].ranges) < Distance(angles, catalogue[best].ranges) then n - 1
      else best
  }

  /** The entry `find_nearest_pose` returns for a non-empty catalogue. */
  function Nearest(catalogue: seq<Pose>, angles: seq<real>): (w: nat)
    requires catalogue != []
    ensures w < |catalogue|
    ensures IsFirstNearest(catalogue, angles, w)
  {
    NearestIn(catalogue, angles, |catalogue|)
  }

  /** `w` is a closest entry, and no earlier entry is equally close. */
  predicate IsFirstNearest(catalogue: seq<Pose>, angles: seq<real>, w: nat)
  {
    && w < |catalogue|
    && (forall j :: 0 <= j < |catalogue| ==>
          Distance(angles, catalogue[w].ranges) <= Distance(angles, catalogue[j].ranges))
    && (forall j :: 0 <= j < w ==>
          Distance(angles, catalogue[w].ranges) < Distance(angles, catalogue[j].ranges))
  }

  /** The first nearest entry is unique, so the matcher's answer is fully determined by its inputs. */
  lemma FirstNearestUnique(catalogue: seq<Pose>, angles: seq<real>, w1: nat, w2: nat)
    requires IsFirstNearest(catalogue, angles, w1) && IsFirstNearest(catalogue, angles, w2)
    ensures w1 == w2
  {
    var d1, d2 := Distance(angles, catalogue[w1].ranges), Distance(angles, catalogue[w2].ranges);
    assert d1 <= d2 && d2 <= d1;
    assert w1 < w2 ==> d2 < d1;
    assert w2 < w1 ==> d1 < d2;
  }

  /**
    `find_nearest_pose`: scans the catalogue in order, keeping the least
    distance seen (initially +infinity, here `None`), the name of its pose and
    that pose's deviations. An empty catalogue gives no pose and no deviations.
  */
  method FindNearestPose(catalogue: seq<Pose>, inputAngles: seq<real>)
    returns (nearestPose: Option<string>, angleDifferences: seq<real>)
    ensures nearestPose.Some? <==> catalogue != []
    ensures catalogue == [] ==> angleDifferences == []
    ensures catalogue != [] ==>
      var w := Nearest(catalogue, inputAngles);
      && nearestPose == Some(catalogue[w].name)
      && angleDifferences == Deviations(inputAngles, catalogue[w].ranges)
  {
    nearestPose := None;
    var minDistance: Option<real> := None;
    angleDifferences := [];
    for i := 0 to |catalogue|
      invariant i == 0 ==> nearestPose == None && minDistance == None && angleDifferences == []
      invariant 0 < i ==>
        var w := NearestIn(catalogue, inputAngles, i);
        && nearestPose == Some(catalogue[w].name)
        && minDistance == Some(Distance(inputAngles, catalogue[w].ranges))
        && angleDifferences == Deviations(inputAngles, catalogue[w].ranges)
    {
      var distance := CalculateDistance(inputAngles, catalogue[i].ranges);
      if minDistance.None? || distance < minDistance.value {
        minDistance := Some(distance);
        nearestPose := Some(catalogue[i].name);
        angleDifferences := Deviations(inputAngles, catalogue[i].ranges);
      }
    }
  }

  /** A one-entry catalogue always yields its only entry: there is no rejection threshold. */
  lemma SingleEntryAlwaysChosen(p: Pose, angles: seq<real>)
    ensures Nearest([p], angles) == 0
  {
  }

  /** With a six-component input, the deviations against any catalogue entry have all six components. */
  lemma ZipNeverTruncates(angles: seq<real>, i: nat)
    requires |angles| == FeatureCount && i < |PosesRanges|
    ensures |Deviations(angles, PosesRanges[i].ranges)| == FeatureCount
  {
    PosesRangesWellFormed();
  }

  /**
    'Mountain Pose' has the same ranges as the earlier 'Staff Pose', hence the
    same distance from every input, and ties go to the earlier entry: the
    matcher never picks it.
  */
  lemma {:induction false} MountainPoseNeverChosen(angles: seq<real>)
    ensures Nearest(PosesRanges, angles) != MountainIndex
    ensures PosesRanges[Nearest(PosesRanges, angles)].name != "Mountain Pose"
  {
    MountainRepeatsStaff();
    PosesRangesNamesDistinct();
    var w := Nearest(PosesRanges, angles);
    assert Distance(angles, PosesRanges[StaffIndex].ranges) == Distance(angles, PosesRanges[MountainIndex].ranges);
    assert PosesRanges[w].name != PosesRanges[MountainIndex].name;
  }

  /** An angle strictly inside a range still has a positive deviation, e.g. 180 in (160, 200) deviates by 20. */
  lemma InsideRangeDeviates(angle: real, r: Range)
    requires r.low as real < angle < r.high as real
    ensures EdgeDistance(angle, r) > 0.0
    ensures EdgeDistance(180.0, Range(160, 200)) == 20.0
  {
  }

  /** The six angles [180, 180, 95, 95, 180, 180]: arms and legs straight, shoulders near 90 degrees. */
  const StraightArmsAndLegs: seq<real> := [180.0, 180.0, 95.0, 95.0, 180.0, 180.0]

  /** The squared norm of a six-component vector, written out. */
  lemma {:induction false} SquaredNormOfSix(d: seq<real>)
    requires |d| == 6
    ensures SquaredNorm(d) == Square(d[0]) + Square(d[1]) + Square(d[2]) + Square(d[3]) + Square(d[4]) + Square(d[5])
  {
    assert SquaredNorm(d[5..]) == Square(d[5]) by {
      assert d[5..][1..] == [];
    }
    assert SquaredNorm(d[4..]) == Square(d[4]) + SquaredNorm(d[5..]) by {
      assert d[4..][1..] == d[5..];
    }
    assert SquaredNorm(d[3..]) == Square(d[3]) + SquaredNorm(d[4..]) by {
      assert d[3..][1..] == d[4..];
    }
    assert SquaredNorm(d[2..]) == Square(d[2]) + SquaredNorm(d[3..]) by {
      assert d[2..][1..] == d[3..];
    }
    assert SquaredNorm(d[1..]) == Square(d[1]) + SquaredNorm(d[2..]) by {
      assert d[1..][1..] == d[2..];
    }
  }

  /** A single component's squared deviation is a lower bound on the whole distance. */
  lemma ComponentBoundsDistance(angles: seq<real>, ranges: seq<Range>, k: nat)
    requires k < |angles| && k < |ranges|
    ensures Square(EdgeDistance(angles[k], ranges[k])) <= Distance(angles, ranges)
  {
    ComponentBoundedBySquaredNorm(Deviations(angles, ranges), k);
  }

  /** One component deviating by `dev`, with dev * dev > 1350, puts the whole distance above 1350. */
  lemma FarByOneComponent(angles: seq<real>, ranges: seq<Range>, k: nat, dev: real)
    requires k < |angles| && k < |ranges|
    requires EdgeDistance(angles[k], ranges[k]) == dev && 1350.0 < Square(dev)
    ensures 1350.0 < Distance(angles, ranges)
  {
    ComponentBoundsDistance(angles, ranges, k);
  }

  /** Against 'T Pose' every component of StraightArmsAndLegs deviates by 15: a squared distance of 1350. */
  lemma StraightArmsAndLegsFromTPose()
    ensures Deviations(StraightArmsAndLegs, PosesRanges[6].ranges) == [15.0, 15.0, 15.0, 15.0, 15.0, 15.0]
    ensures Distance(StraightArmsAndLegs, PosesRanges[6].ranges) == 1350.0
  {
    var d := Deviations(StraightArmsAndLegs, PosesRanges[6].ranges);
    assert d == [15.0, 15.0, 15.0, 15.0, 15.0, 15.0];
    SquaredNormOfSix(d);
  }

  /**
    'Butterfly Pose', 'Standing Pose' and 'Staff Pose' each have one component
    whose deviation from StraightArmsAndLegs alone squares to more than 1350.
  */
  lemma StraightArmsAndLegsFarFromFirstPoses()
    ensures 1350.0 < Distance(StraightArmsAndLegs, PosesRanges[0].ranges)
    ensures 1350.0 < Distance(StraightArmsAndLegs, PosesRanges[1].ranges)
    ensures 1350.0 < Distance(StraightArmsAndLegs, PosesRanges[2].ranges)
  {
    var v := StraightArmsAndLegs;
    FarByOneComponent(v, PosesRanges[0].ranges, 4, 160.0);
    FarByOneComponent(v, PosesRanges[1].ranges, 2, 65.0);
    FarByOneComponent(v, PosesRanges[2].ranges, 2, 65.0);
  }

  /** The same holds of 'Mountain Pose', 'Squat' and 'Warrior II Pose'. */
  lemma StraightArmsAndLegsFarFromMiddlePoses()
    ensures 1350.0 < Distance(StraightArmsAndLegs, PosesRanges[3].ranges)
    ensures 1350.0 < Distance(StraightArmsAndLegs, PosesRanges[4].ranges)
    ensures 1350.0 < Distance(StraightArmsAndLegs, PosesRanges[5].ranges)
  {
    var v := StraightArmsAndLegs;
    FarByOneComponent(v, PosesRanges[3].ranges, 2, 65.0);
    FarByOneComponent(v, PosesRanges[4].ranges, 4, 100.0);
    FarByOneComponent(v, PosesRanges[5].ranges, 5, 60.0);
  }

  /** 'Tree Pose', the entry after 'T Pose', deviates by 135 on the right knee alone. */
  lemma StraightArmsAndLegsFarFromTreePose()
    ensures 1350.0 < Distance(StraightArmsAndLegs, PosesRanges[7].ranges)
  {
    FarByOneComponent(StraightArmsAndLegs, PosesRanges[7].ranges, 5, 135.0);
  }

  /**
    Worked example: for [180, 180, 95, 95, 180, 180] the matcher returns
    'T Pose' (position 6), with a deviation of 15 on every component.
  */
  lemma StraightArmsAndLegsIsTPose()
    ensures Nearest(PosesRanges, StraightArmsAndLegs) == 6
    ensures PosesRanges[6].name == "T Pose"
    ensures Deviations(StraightArmsAndLegs, PosesRanges[6].ranges) == [15.0, 15.0, 15.0, 15.0, 15.0, 15.0]
  {
    StraightArmsAndLegsFromTPose();
    StraightArmsAndLegsFarFromFirstPoses();
    StraightArmsAndLegsFarFromMiddlePoses();
    StraightArmsAndLegsFarFromTreePose();
    FirstNearestUnique(PosesRanges, StraightArmsAndLegs, Nearest(PosesRanges, StraightArmsAndLegs), 6);
  }
}
