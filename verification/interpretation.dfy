/**
  The interpretation shown under the gauge: an if/elif chain on the score,
  read from the highest threshold down.
 */
module Interpretation {

  datatype Tier = Excellent | Good | Moderate | Low

  /** Tiers ordered from worst (Low) to best (Excellent). */
  function Rank(t: Tier): nat {
    match t
    case Low => 0
    case Moderate => 1
    case Good => 2
    case Excellent => 3
  }

  /**
    The first threshold the score meets decides the tier. Each tier is
    exactly one half-open band of scores.
   */
  function SelectTier(score: real): (t: Tier)
    ensures t == Excellent <==> score >= 80.0
    ensures t == Good <==> 60.0 <= score < 80.0
    ensures t == Moderate <==> 40.0 <= score < 60.0
    ensures t == Low <==> score < 40.0
  {
    if score >= 80.0 then Excellent
    else if score >= 60.0 then Good
    else if score >= 40.0 then Moderate
    else Low
  }

  /** A higher score never gives a lower tier. */
  lemma TierMonotone(s1: real, s2: real)
    requires s1 <= s2
    ensures Rank(SelectTier(s1)) <= Rank(SelectTier(s2))
  {
  }

  /** The tier changes only at 40, 60 and 80, and each threshold belongs to the band above it. */
  lemma TierBoundaries()
    ensures SelectTier(80.0) == Excellent && SelectTier(79.999) == Good
    ensures SelectTier(60.0) == Good && SelectTier(59.999) == Moderate
    ensures SelectTier(40.0) == Moderate && SelectTier(39.999) == Low
    ensures SelectTier(100.0) == Excellent && SelectTier(0.0) == Low
  {
  }
}
