/** Sizes of finite sets. */
module FiniteSets {

  lemma SubsetIsSmaller<T>(a: set<T>, b: set<T>)
    requires a <= b
    ensures |a| <= |b|
  {
    if a != {} {
      var x :| x in a;
      SubsetIsSmaller(a - {x}, b - {x});
    }
  }

  /** Distinct members are no more than the set has. */
  lemma {:induction false} DistinctMembers<T>(ids: seq<T>, all: set<T>)
    requires forall k, l :: 0 <= k < l < |ids| ==> ids[k] != ids[l]
    requires forall k :: 0 <= k < |ids| ==> ids[k] in all
    ensures |ids| <= |all|
  {
    if ids != [] {
      var last := |ids| - 1;
      DistinctMembers(ids[..last], all - {ids[last]});
    }
  }
}
