/** The overhead lists handed to the medians: only strictly positive overheads count. */
module Overheads {
  import opened Seqs

  predicate IsPositive(x: real) {
    x > 0.0
  }

  /** `[o for o in overheads if o > 0.0]`. */
  function Positives(overheads: seq<real>): (r: seq<real>)
    ensures |r| <= |overheads|
    ensures forall i :: 0 <= i < |r| ==> r[i] > 0.0
  {
    Filter(overheads, IsPositive)
  }

  /**
   * The filter keeps every positive overhead as often as it occurs, drops
   * every other one, and keeps the original order.
   */
  lemma PositivesKeepPositive(overheads: seq<real>)
    ensures forall x :: multiset(Positives(overheads))[x] == if x > 0.0 then multiset(overheads)[x] else 0
    ensures IsSubsequence(Positives(overheads), overheads)
  {
    FilterCounts(overheads, IsPositive);
    FilterIsSubsequence(overheads, IsPositive);
  }
}
