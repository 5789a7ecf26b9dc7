/** Heights that lie at least a period apart. */
module Spacing {
  import opened Decimal

  ghost predicate Spaced(heights: seq<Uint64>, period: Uint64) {
    forall i :: 0 <= i < |heights| - 1 ==> heights[i] + period <= heights[i + 1]
  }

  lemma {:induction false} SpacingAddsUp(heights: seq<Uint64>, period: Uint64)
    requires Spaced(heights, period) && heights != []
    ensures heights[0] + (|heights| - 1) * period <= heights[|heights| - 1]
    decreases |heights|
  {
    if 1 < |heights| {
      var n := |heights| - 1;
      SpacingAddsUp(heights[..n], period);
      assert heights[n - 1] + period <= heights[n];
      assert n * period == (n - 1) * period + period;
    }
  }
}
