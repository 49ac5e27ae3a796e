/** Stable sorting by a strict order, as the specification of a library sort. */
module Sorting {

  /** `less` is a strict weak order: incomparable elements stand in for equal keys. */
  ghost predicate StrictOrder<T(!new)>(less: (T, T) -> bool) {
    && (forall a, b :: less(a, b) ==> !less(b, a))
    && (forall a, b, c :: !less(b, a) && !less(c, b) ==> !less(c, a))
  }

  ghost predicate Ascending<T>(less: (T, T) -> bool, xs: seq<T>) {
    forall i, j :: 0 <= i < j < |xs| ==> !less(xs[j], xs[i])
  }

  /** After every element that is not greater. */
  function Insert<T>(less: (T, T) -> bool, xs: seq<T>, x: T): seq<T> {
    if xs == [] || !less(x, xs[|xs| - 1]) then xs + [x]
    else Insert(less, xs[..|xs| - 1], x) + [xs[|xs| - 1]]
  }

  function Sorted<T>(less: (T, T) -> bool, xs: seq<T>): seq<T> {
    if xs == [] then [] else Insert(less, Sorted(less, xs[..|xs| - 1]), xs[|xs| - 1])
  }

  lemma AppendAscending<T>(less: (T, T) -> bool, xs: seq<T>, x: T)
    requires Ascending(less, xs) && forall i :: 0 <= i < |xs| ==> !less(x, xs[i])
    ensures Ascending(less, xs + [x])
  {
  }

  lemma {:induction false} InsertPermutes<T>(less: (T, T) -> bool, xs: seq<T>, x: T)
    ensures multiset(Insert(less, xs, x)) == multiset(xs) + multiset{x}
  {
    if xs != [] {
      assert xs == xs[..|xs| - 1] + [xs[|xs| - 1]];
      InsertPermutes(less, xs[..|xs| - 1], x);
    }
  }

  lemma {:induction false} InsertAscending<T(!new)>(less: (T, T) -> bool, xs: seq<T>, x: T)
    requires StrictOrder(less) && Ascending(less, xs)
    ensures Ascending(less, Insert(less, xs, x))
  {
    if xs == [] || !less(x, xs[|xs| - 1]) {
      AppendAscending(less, xs, x);
    } else {
      var last := |xs| - 1;
      var shorter := Insert(less, xs[..last], x);
      InsertAscending(less, xs[..last], x);
      InsertPermutes(less, xs[..last], x);
      forall i | 0 <= i < |shorter| ensures !less(xs[last], shorter[i]) {
        assert shorter[i] in multiset(shorter);
        if shorter[i] != x {
          assert shorter[i] in xs[..last];
        }
      }
      AppendAscending(less, shorter, xs[last]);
    }
  }

  /** The sorted list is a permutation of the given one. */
  lemma {:induction false} SortedPermutes<T>(less: (T, T) -> bool, xs: seq<T>)
    ensures multiset(Sorted(less, xs)) == multiset(xs) && |Sorted(less, xs)| == |xs|
    ensures forall x :: x in Sorted(less, xs) <==> x in xs
  {
    if xs != [] {
      var last := |xs| - 1;
      assert xs == xs[..last] + [xs[last]];
      SortedPermutes(less, xs[..last]);
      InsertPermutes(less, Sorted(less, xs[..last]), xs[last]);
    }
    assert |Sorted(less, xs)| == |multiset(Sorted(less, xs))| && |xs| == |multiset(xs)|;
    forall x ensures x in Sorted(less, xs) <==> x in xs {
      assert x in Sorted(less, xs) <==> x in multiset(Sorted(less, xs));
    }
  }

  /** And it ascends. */
  lemma {:induction false} SortedAscending<T(!new)>(less: (T, T) -> bool, xs: seq<T>)
    requires StrictOrder(less)
    ensures Ascending(less, Sorted(less, xs))
  {
    if xs != [] {
      SortedAscending(less, xs[..|xs| - 1]);
      InsertAscending(less, Sorted(less, xs[..|xs| - 1]), xs[|xs| - 1]);
    }
  }

  /** The list with `x` put in at place `k`. */
  function Wedge<T>(xs: seq<T>, k: nat, x: T): (r: seq<T>)
    requires k <= |xs|
    ensures |r| == |xs| + 1 && r[k] == x
    ensures forall i :: 0 <= i < k ==> r[i] == xs[i]
    ensures forall i :: k < i < |r| ==> r[i] == xs[i - 1]
  {
    xs[..k] + [x] + xs[k..]
  }

  /** Where an element is inserted. */
  function Slot<T>(less: (T, T) -> bool, xs: seq<T>, x: T): (k: nat)
    ensures k <= |xs|
  {
    if xs == [] || !less(x, xs[|xs| - 1]) then |xs| else Slot(less, xs[..|xs| - 1], x)
  }

  lemma {:induction false} InsertedAtSlot<T>(less: (T, T) -> bool, xs: seq<T>, x: T)
    ensures var k := Slot(less, xs, x);
      Insert(less, xs, x) == Wedge(xs, k, x) && forall i :: k <= i < |xs| ==> less(x, xs[i])
  {
    if xs != [] && less(x, xs[|xs| - 1]) {
      InsertedAtSlot(less, xs[..|xs| - 1], x);
    }
  }

  /** `from` lists where the elements of `sorted` stood in `xs`. */
  ghost predicate Traces<T>(xs: seq<T>, sorted: seq<T>, from: seq<nat>) {
    && |sorted| == |from| == |xs|
    && (forall k :: 0 <= k < |from| ==> from[k] < |xs| && sorted[k] == xs[from[k]])
    && (forall i: nat :: i < |xs| ==> i in from)
  }

  /** No element overtook another but a greater one. */
  ghost predicate Stable<T>(less: (T, T) -> bool, sorted: seq<T>, from: seq<nat>)
    requires |sorted| == |from|
  {
    forall k, l :: 0 <= k < l < |from| ==> from[k] < from[l] || (from[l] < from[k] && less(sorted[k], sorted[l]))
  }

  lemma WedgeTraces<T>(xs: seq<T>, sorted: seq<T>, from: seq<nat>, x: T, k: nat)
    requires Traces(xs, sorted, from) && k <= |xs|
    ensures Traces(xs + [x], Wedge(sorted, k, x), Wedge(from, k, |xs|))
  {
    hide Wedge;
    var ys, more := Wedge(sorted, k, x), Wedge(from, k, |xs|);
    forall i: nat | i < |xs| + 1 ensures i in more {
      if i < |xs| {
        assert i in from;
        var j :| 0 <= j < |from| && from[j] == i;
        assert more[if j < k then j else j + 1] == i;
      } else {
        assert more[k] == i;
      }
    }
  }

  lemma WedgeStable<T>(less: (T, T) -> bool, sorted: seq<T>, from: seq<nat>, x: T, k: nat)
    requires |sorted| == |from| && Stable(less, sorted, from) && k <= |from|
    requires forall i :: 0 <= i < |from| ==> from[i] < |from|
    requires forall i :: k <= i < |from| ==> less(x, sorted[i])
    ensures Stable(less, Wedge(sorted, k, x), Wedge(from, k, |from|))
  {
    hide Wedge;
  }

  /** The sort is stable. */
  lemma {:induction false} SortedIsStable<T>(less: (T, T) -> bool, xs: seq<T>) returns (from: seq<nat>)
    ensures Traces(xs, Sorted(less, xs), from) && Stable(less, Sorted(less, xs), from)
  {
    if xs == [] {
      from := [];
    } else {
      var last := |xs| - 1;
      var before := Sorted(less, xs[..last]);
      var earlier := SortedIsStable(less, xs[..last]);
      var k := Slot(less, before, xs[last]);
      InsertedAtSlot(less, before, xs[last]);
      WedgeTraces(xs[..last], before, earlier, xs[last], k);
      WedgeStable(less, before, earlier, xs[last], k);
      assert xs[..last] + [xs[last]] == xs;
      from := Wedge(earlier, k, last);
      assert Sorted(less, xs) == Wedge(before, k, xs[last]);
    }
  }

  /** Two sequences with the same elements: a pair at two positions of one has a pair at two
      positions of the other. */
  lemma PairMoves<T>(a: seq<T>, b: seq<T>, i: nat, j: nat) returns (k: nat, l: nat)
    requires multiset(a) == multiset(b) && i < j < |a|
    ensures k < |b| && l < |b| && k != l && b[k] == a[i] && b[l] == a[j]
  {
    assert a[i] in multiset(b) && a[j] in multiset(b);
    if a[i] != a[j] {
      k :| 0 <= k < |b| && b[k] == a[i];
      l :| 0 <= l < |b| && b[l] == a[j];
    } else {
      TwiceMeansTwoPlaces(a, i, j);
      k, l := TwoPlaces(b, a[i]);
    }
  }

  lemma TwiceMeansTwoPlaces<T>(a: seq<T>, i: nat, j: nat)
    requires i < j < |a| && a[i] == a[j]
    ensures multiset(a)[a[i]] >= 2
  {
    assert a == a[..j] + [a[j]] + a[j + 1..];
    assert a[..j][i] == a[i];
    assert a[i] in multiset(a[..j]);
  }

  lemma TwoPlaces<T>(b: seq<T>, x: T) returns (k: nat, l: nat)
    requires multiset(b)[x] >= 2
    ensures k < |b| && l < |b| && k != l && b[k] == x && b[l] == x
  {
    assert x in multiset(b);
    k :| 0 <= k < |b| && b[k] == x;
    var rest := b[..k] + b[k + 1..];
    assert b == b[..k] + [b[k]] + b[k + 1..];
    assert multiset(rest)[x] >= 1;
    assert x in multiset(rest);
    var r :| 0 <= r < |rest| && rest[r] == x;
    l := if r < k then r else r + 1;
  }
}
