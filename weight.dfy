/** The weight of a track: 10 minus penalties for being overplayed, for ranking high among the
    user's top tracks and (in the Master assembly) for belonging to an overplayed artist. */
module Weight {
  import opened Common

  /** Penalty tier for the number of times a track occurs in the "too much" playlist. */
  function TooMuchPenalty(count: nat): nat {
    if count == 0 then 0
    else if count == 1 then 5
    else if count == 2 then 7
    else 9
  }

  /** Penalty tier for a track's 0-based position in the user's top tracks (absent: none). */
  function RankPenalty(pos: Option<nat>): nat {
    match pos
    case None => 0
    case Some(p) =>
      if p < 50 then 5
      else if p < 100 then 4
      else if p < 200 then 3
      else 0
  }

  /** Penalty tier for the occurrence-weighted count of an overplayed artist's candidate tracks. */
  function ArtistPenalty(artistCount: nat): nat {
    if artistCount >= 6 then 3
    else if artistCount >= 3 then 2
    else 0
  }

  /** w clamped to the range [0, 10]. */
  function Clamp(w: real): (r: real)
    ensures 0.0 <= r <= 10.0
    ensures 0.0 <= w <= 10.0 ==> r == w
    ensures w < 0.0 ==> r == 0.0
    ensures w > 10.0 ==> r == 10.0
  {
    var upper := if w < 10.0 then w else 10.0;
    if upper > 0.0 then upper else 0.0
  }

  /** The sum of the penalty tiers that apply to a track, before scaling. */
  function Penalty(count: nat, pos: Option<nat>, escalate: bool, artistCount: nat): nat {
    TooMuchPenalty(count) + RankPenalty(pos) + (if escalate then ArtistPenalty(artistCount) else 0)
  }

  /** Ten minus the penalty scaled by the modifier, optionally clamped to [0, 10]. */
  function Scaled(penalty: nat, modifier: real, clamp: bool): real {
    var raw := 10.0 - (penalty as real) * modifier;
    if clamp then Clamp(raw) else raw
  }

  /** The one weight computation of both paths. Each penalty is scaled by `modifier` on its own
      (exact arithmetic makes the sum of the scaled terms the scaled sum).
      `clamp` selects the Radio behaviour; `escalate` turns the artist penalty on (Master only). */
  function ComputeWeight(count: nat, pos: Option<nat>, modifier: real, clamp: bool,
                         escalate: bool, artistCount: nat): (w: real)
    ensures clamp ==> 0.0 <= w <= 10.0
    ensures modifier == 0.0 ==> w == 10.0
    ensures modifier >= 0.0 ==> w <= 10.0
    ensures modifier >= 0.0 && !escalate ==> w >= 10.0 - 14.0 * modifier
    ensures modifier >= 0.0 ==> w >= 10.0 - 17.0 * modifier
  {
    var penalty := Penalty(count, pos, escalate, artistCount);
    assert penalty <= 17 && (!escalate ==> penalty <= 14);
    Scaled(penalty, modifier, clamp)
  }

  /** The inclusion test of both paths: keep a track when the draw is below `weight / 10`.
      The Radio loop skips when `draw >= weight / 10`, which is the negation of this. */
  predicate Included(draw: real, weight: real)
    ensures 0.0 <= draw && weight <= 0.0 ==> !Included(draw, weight)
    ensures draw < 1.0 && weight >= 10.0 ==> Included(draw, weight)
  {
    draw < weight / 10.0
  }

  /** With a modifier of 1 and no top-track position, counts 0, 1, 2 and 3 or more give 10, 5, 3, 1. */
  lemma TierTable(count: nat, clamp: bool)
    ensures ComputeWeight(count, None, 1.0, clamp, false, 0)
            == if count == 0 then 10.0 else if count == 1 then 5.0 else if count == 2 then 3.0 else 1.0
  {
  }

  /** The rank tiers subtract 5, 4, 3 and nothing, scaled by the modifier. */
  lemma RankTiers(p: nat, modifier: real)
    ensures ComputeWeight(0, Some(p), modifier, false, false, 0)
            == 10.0 - (if p < 50 then 5.0 else if p < 100 then 4.0 else if p < 200 then 3.0 else 0.0) * modifier
  {
  }

  /** The Radio weight is the Master weight without escalation, clamped. */
  lemma RadioIsClampedMaster(count: nat, pos: Option<nat>, modifier: real)
    ensures ComputeWeight(count, pos, modifier, true, false, 0)
            == Clamp(ComputeWeight(count, pos, modifier, false, false, 0))
  {
  }

  /** Playing a track more often, ranking it higher, or a larger artist count, never raises its weight. */
  lemma WeightMonotone(c1: nat, c2: nat, p1: Option<nat>, p2: Option<nat>, modifier: real,
                       clamp: bool, escalate: bool, a1: nat, a2: nat)
    requires modifier >= 0.0
    requires TooMuchPenalty(c1) <= TooMuchPenalty(c2)
    requires RankPenalty(p1) <= RankPenalty(p2)
    requires a1 <= a2
    ensures ComputeWeight(c2, p2, modifier, clamp, escalate, a2) <= ComputeWeight(c1, p1, modifier, clamp, escalate, a1)
  {
    PenaltyMonotone(c1, c2, p1, p2, escalate, a1, a2);
    ScaledMonotone(Penalty(c1, p1, escalate, a1), Penalty(c2, p2, escalate, a2), modifier, clamp);
  }

  lemma ScaledMonotone(x: nat, y: nat, m: real, clamp: bool)
    requires x <= y && m >= 0.0
    ensures Scaled(y, m, clamp) <= Scaled(x, m, clamp)
  {
    ProductMonotone(x as real, y as real, m);
    ClampMonotone(10.0 - (y as real) * m, 10.0 - (x as real) * m);
  }

  lemma ProductMonotone(a: real, b: real, m: real)
    requires a <= b && m >= 0.0
    ensures a * m <= b * m
  {
    var d := b - a;
    assert b * m == a * m + d * m;
  }

  lemma ClampMonotone(u: real, v: real)
    requires u <= v
    ensures Clamp(u) <= Clamp(v)
  {
  }

  lemma PenaltyMonotone(c1: nat, c2: nat, p1: Option<nat>, p2: Option<nat>, escalate: bool, a1: nat, a2: nat)
    requires TooMuchPenalty(c1) <= TooMuchPenalty(c2)
    requires RankPenalty(p1) <= RankPenalty(p2)
    requires a1 <= a2
    ensures Penalty(c1, p1, escalate, a1) <= Penalty(c2, p2, escalate, a2)
  {
  }

  /** The overplay tiers grow with the count. */
  lemma TooMuchPenaltyMonotone(c1: nat, c2: nat)
    requires c1 <= c2
    ensures TooMuchPenalty(c1) <= TooMuchPenalty(c2)
  {
  }

  /** More plays in the "too much" playlist never raise a track's weight, the rest being equal. */
  lemma MorePlaysNeverRaise(c1: nat, c2: nat, pos: Option<nat>, modifier: real, clamp: bool, escalate: bool, a: nat)
    requires c1 <= c2 && modifier >= 0.0
    ensures ComputeWeight(c2, pos, modifier, clamp, escalate, a) <= ComputeWeight(c1, pos, modifier, clamp, escalate, a)
  {
    TooMuchPenaltyMonotone(c1, c2);
    WeightMonotone(c1, c2, pos, pos, modifier, clamp, escalate, a, a);
  }

  /** A track in the "too much" list 3 times and at top position 10, with modifier 1:
      the Master weight is -4, the Radio weight 0, and neither path ever keeps it. */
  lemma OverplayedTopTrack(draw: real)
    requires 0.0 <= draw < 1.0
    ensures ComputeWeight(3, Some(10), 1.0, false, false, 0) == -4.0
    ensures ComputeWeight(3, Some(10), 1.0, true, false, 0) == 0.0
    ensures !Included(draw, ComputeWeight(3, Some(10), 1.0, false, false, 0))
    ensures !Included(draw, ComputeWeight(3, Some(10), 1.0, true, false, 0))
  {
  }

  /** The Radio test is the exact complement of the Master test. */
  lemma RadioSkipIsNotIncluded(draw: real, weight: real)
    ensures (draw >= weight / 10.0) == !Included(draw, weight)
  {
  }
}
