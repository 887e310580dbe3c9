/**
  The joint-angle geometry of `calculateAngle`.

  A landmark is an (x, y, z) triple; the angle at a joint uses only x and y.
  The two-argument arctangent in degrees (`math.degrees(math.atan2(..))`) is
  a library numeric that the model does not compute: it is a parameter known
  by its range, (-180, 180]. The lemmas about scaling and straight joints
  also assume the two geometric properties `ScaleInvariant` and `Opposite`.
*/
module Angles {

  /** One detected body keypoint: image-space x and y, relative depth z. */
  datatype Landmark = Landmark(x: real, y: real, z: real)

  /** The range of `atan2` expressed in degrees. */
  type Degrees = r: real | -180.0 < r <= 180.0 witness 0.0

  /** `atan2(dy, dx)` in degrees, supplied by the caller. */
  type Arctangent = (real, real) -> Degrees

  /**
    The signed difference of the directions of the rays vertex->last and
    vertex->first, before normalisation. Both directions lie in (-180, 180],
    so the difference lies strictly between -360 and 360.
  */
  function RawAngle(atan2: Arctangent, first: Landmark, vertex: Landmark, last: Landmark): (raw: real)
    ensures -360.0 < raw < 360.0
  {
    atan2(last.y - vertex.y, last.x - vertex.x) - atan2(first.y - vertex.y, first.x - vertex.x)
  }

  /**
    Adds 360 once when the raw difference is negative. The result is the one
    representative of `raw` modulo 360 that lies in [0, 360).
  */
  function Normalize(raw: real): (angle: real)
    requires -360.0 < raw < 360.0
    ensures 0.0 <= angle < 360.0
    ensures angle == raw || angle == raw + 360.0
  {
    if raw < 0.0 then raw + 360.0 else raw
  }

  /** The planar angle at `vertex`, in degrees, within [0, 360). */
  function CalculateAngle(atan2: Arctangent, first: Landmark, vertex: Landmark, last: Landmark): (angle: real)
    ensures 0.0 <= angle < 360.0
    ensures var raw := RawAngle(atan2, first, vertex, last);
      angle == raw || angle == raw + 360.0
  {
    Normalize(RawAngle(atan2, first, vertex, last))
  }

  /**
    Any value in [0, 360) that differs from `raw` by a whole number of turns
    is the normalised angle: normalisation picks the canonical representative.
  */
  lemma {:induction false} NormalizeIsCanonical(raw: real, angle: real, turns: int)
    requires -360.0 < raw < 360.0
    requires 0.0 <= angle < 360.0
    requires angle == raw + 360.0 * (turns as real)
    ensures angle == Normalize(raw)
  {
    assert turns == 0 || turns == 1;
  }

  /** A non-negative raw difference is returned unchanged; a negative one gets exactly 360 added. */
  lemma NormalizeCases(raw: real)
    requires -360.0 < raw < 360.0
    ensures raw >= 0.0 ==> Normalize(raw) == raw
    ensures raw < 0.0 ==> Normalize(raw) == raw + 360.0
  {
  }

  /** The depth coordinate never influences the angle. */
  lemma AngleIgnoresDepth(atan2: Arctangent, a: Landmark, b: Landmark, c: Landmark, za: real, zb: real, zc: real)
    ensures CalculateAngle(atan2, a.(z := za), b.(z := zb), c.(z := zc)) == CalculateAngle(atan2, a, b, c)
  {
  }

  /** Moving all three points by the same offset leaves the angle unchanged. */
  lemma AngleTranslationInvariant(atan2: Arctangent, a: Landmark, b: Landmark, c: Landmark, dx: real, dy: real)
    ensures CalculateAngle(atan2, a.(x := a.x + dx, y := a.y + dy), b.(x := b.x + dx, y := b.y + dy),
                          c.(x := c.x + dx, y := c.y + dy))
         == CalculateAngle(atan2, a, b, c)
  {
  }

  /** `k * v`, named so that quantifiers over the arctangent have a trigger. */
  function Times(k: real, v: real): real
  {
    k * v
  }

  /** `-v`, named for the same reason. */
  function Neg(v: real): real
  {
    -v
  }

  /** The arctangent depends only on the direction of (x, y), not on its length. */
  ghost predicate ScaleInvariant(atan2: Arctangent)
  {
    forall k, y, x :: k > 0.0 ==> atan2(Times(k, y), Times(k, x)) == atan2(y, x)
  }

  /** The opposite of a non-zero vector points half a turn away. */
  ghost predicate Opposite(atan2: Arctangent)
  {
    forall y, x :: y != 0.0 || x != 0.0 ==>
      atan2(Neg(y), Neg(x)) - atan2(y, x) == 180.0 || atan2(Neg(y), Neg(x)) - atan2(y, x) == -180.0
  }

  /** A landmark with its image-plane position scaled by `k` about the origin. */
  function Scaled(k: real, p: Landmark): (q: Landmark)
    ensures q.z == p.z
  {
    p.(x := k * p.x, y := k * p.y)
  }

  /**
    Scaling all three points by the same positive factor leaves the angle
    unchanged, for an arctangent that ignores the length of its argument.
  */
  lemma AngleScaleInvariant(atan2: Arctangent, a: Landmark, b: Landmark, c: Landmark, k: real)
    requires ScaleInvariant(atan2)
    requires k > 0.0
    ensures CalculateAngle(atan2, Scaled(k, a), Scaled(k, b), Scaled(k, c)) == CalculateAngle(atan2, a, b, c)
  {
    var a', b', c' := Scaled(k, a), Scaled(k, b), Scaled(k, c);
    assert a'.y - b'.y == Times(k, a.y - b.y) && a'.x - b'.x == Times(k, a.x - b.x);
    assert c'.y - b'.y == Times(k, c.y - b.y) && c'.x - b'.x == Times(k, c.x - b.x);
    assert RawAngle(atan2, a', b', c') == RawAngle(atan2, a, b, c);
  }

  /**
    A straight joint: when `last` lies on the far side of `vertex` from
    `first`, on the same line (last - vertex = -k (first - vertex) with
    k > 0), the angle is exactly 180.
  */
  lemma StraightJointIs180(atan2: Arctangent, a: Landmark, b: Landmark, c: Landmark, k: real)
    requires ScaleInvariant(atan2) && Opposite(atan2)
    requires k > 0.0
    requires a.x != b.x || a.y != b.y
    requires c.x - b.x == -k * (a.x - b.x) && c.y - b.y == -k * (a.y - b.y)
    ensures CalculateAngle(atan2, a, b, c) == 180.0
  {
    var dy, dx := a.y - b.y, a.x - b.x;
    assert c.y - b.y == Times(k, Neg(dy)) && c.x - b.x == Times(k, Neg(dx));
    assert atan2(c.y - b.y, c.x - b.x) == atan2(Neg(dy), Neg(dx));
    assert RawAngle(atan2, a, b, c) == 180.0 || RawAngle(atan2, a, b, c) == -180.0;
  }
}
