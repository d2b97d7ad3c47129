/** The over-2.5-goals classifier: two goals-per-game rates are summed and the
    sum is put into one of three ordered tiers. */
module Prediction {
  import opened Wrappers

  /** The three likelihood tiers, from most to least likely. */
  datatype Tier = VeryLikely | Likely | Unlikely

  /** What the classifier decides before anything is rendered: the unrounded sum and its tier. */
  datatype Estimate = Estimate(total: real, tier: Tier)

  /** Inclusive lower bounds of the two upper tiers. */
  const VeryLikelyFrom: real := 3.0
  const LikelyFrom: real := 2.5

  /** Position of a tier in the order; a higher rank is a more likely tier. */
  function Rank(t: Tier): nat {
    match t
    case Unlikely => 0
    case Likely => 1
    case VeryLikely => 2
  }

  /** The interval of sums each tier stands for, written as intervals
      closed below and open above. */
  predicate InBand(t: Tier, total: real) {
    match t
    case VeryLikely => VeryLikelyFrom <= total
    case Likely => LikelyFrom <= total < VeryLikelyFrom
    case Unlikely => total < LikelyFrom
  }

  /** estimate_over_25: the tier is chosen by comparing the unrounded sum
      with the two thresholds in turn. */
  function EstimateOver25(homeGpg: real, awayGpg: real): (e: Estimate)
    ensures e.total == homeGpg + awayGpg
    ensures InBand(e.tier, e.total)
  {
    var avg := homeGpg + awayGpg;
    if avg >= VeryLikelyFrom then Estimate(avg, VeryLikely)
    else if avg >= LikelyFrom then Estimate(avg, Likely)
    else Estimate(avg, Unlikely)
  }

  /** Every sum lies in the band of exactly one tier, and that tier is the
      one the classifier reports. */
  lemma ExactlyOneTier(homeGpg: real, awayGpg: real, t: Tier)
    ensures InBand(t, homeGpg + awayGpg) <==> t == EstimateOver25(homeGpg, awayGpg).tier
  {
  }

  /** Raising the summed rate never lowers the tier. */
  lemma TierMonotone(h1: real, a1: real, h2: real, a2: real)
    requires h1 + a1 <= h2 + a2
    ensures Rank(EstimateOver25(h1, a1).tier) <= Rank(EstimateOver25(h2, a2).tier)
  {
  }

  /** Both thresholds belong to the upper tier; the sum is not rounded first. */
  lemma BoundaryCases()
    ensures EstimateOver25(1.25, 1.25) == Estimate(2.5, Likely)
    ensures EstimateOver25(1.5, 1.5) == Estimate(3.0, VeryLikely)
    ensures EstimateOver25(1.0, 1.0) == Estimate(2.0, Unlikely)
    ensures EstimateOver25(1.24, 1.25) == Estimate(2.49, Unlikely)
    ensures EstimateOver25(1.5, 1.49) == Estimate(2.99, Likely)
  {
  }

  /** The words and emoji shown after the rendered number, one label per tier. */
  function TierLabel(t: Tier): (r: string)
    ensures ReadTier(r) == Some(t)
  {
    match t
    case VeryLikely => "\U{1F525} Very Likely"
    case Likely => "\U{2705} Likely"
    case Unlikely => "\U{274C} Unlikely"
  }

  const GoalsWord: string := " goals \U{2014} "

  /** The text estimate_over_25 returns; `render` stands for the one-decimal
      formatting of the sum, which is display only. */
  function Over25Text(e: Estimate, render: real -> string): (r: string)
    ensures |render(e.total)| <= |r| && r[..|render(e.total)|] == render(e.total)
    ensures EndsWith(r, GoalsWord + TierLabel(e.tier))
  {
    render(e.total) + GoalsWord + TierLabel(e.tier)
  }

  /** Reads the tier back from the end of a classifier text. */
  function ReadTier(text: string): Option<Tier> {
    if EndsWith(text, " Very Likely") then Some(VeryLikely)
    else if EndsWith(text, " Unlikely") then Some(Unlikely)
    else if EndsWith(text, " Likely") then Some(Likely)
    else None
  }

  /** Whatever the rendering of the number, the text names the tier the
      classifier chose, so no two tiers are displayed alike. */
  lemma ReadTierOfText(e: Estimate, render: real -> string)
    ensures ReadTier(Over25Text(e, render)) == Some(e.tier)
  {
    var text := Over25Text(e, render);
    var n := |text|;
    match e.tier
    case VeryLikely =>
      assert text[n - 12..] == " Very Likely";
    case Likely =>
      assert text[n - 12] == 's';
      assert text[n - 8] == '\U{2705}';
    case Unlikely =>
      assert text[n - 12] == '\U{2014}';
      assert text[n - 9..] == " Unlikely";
  }
}
