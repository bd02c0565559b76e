/** The ordering vocabulary shared by every component that sorts: `std::sort` as a
    method whose contract hides how ties are broken, and the fact that a strictly
    ordered list is determined by its elements. */
module Sorting {

  ghost predicate SortedBy<T(!new)>(xs: seq<T>, r: (T, T) -> bool) {
    forall i, j :: 0 <= i < j < |xs| ==> r(xs[i], xs[j])
  }

  ghost predicate TotalPreorder<T(!new)>(r: (T, T) -> bool) {
    && (forall a, b :: r(a, b) || r(b, a))
    && (forall a, b, c :: r(a, b) && r(b, c) ==> r(a, c))
  }

  ghost predicate StrictOrder<T(!new)>(r: (T, T) -> bool) {
    && (forall a :: !r(a, a))
    && (forall a, b, c :: r(a, b) && r(b, c) ==> r(a, c))
  }

  ghost function Elements<T>(xs: seq<T>): set<T> {
    set x | x in xs
  }

  lemma ElementsEmpty<T>(xs: seq<T>)
    ensures Elements(xs) == {} <==> xs == []
  {
    if xs != [] { assert xs[0] in Elements(xs); }
  }

  ghost predicate Distinct<T>(xs: seq<T>) {
    forall i, j :: 0 <= i < j < |xs| ==> xs[i] != xs[j]
  }

  lemma InsertedSorted<T(!new)>(sorted: seq<T>, k: nat, x: T, le: (T, T) -> bool)
    requires SortedBy(sorted, le) && k <= |sorted|
    requires forall i :: 0 <= i < k ==> le(sorted[i], x)
    requires forall i :: k <= i < |sorted| ==> le(x, sorted[i])
    ensures SortedBy(sorted[..k] + [x] + sorted[k..], le)
    ensures multiset(sorted[..k] + [x] + sorted[k..]) == multiset(sorted) + multiset{x}
  {
    assert sorted == sorted[..k] + sorted[k..];
  }

  lemma RestIsAbove<T(!new)>(sorted: seq<T>, k: nat, x: T, le: (T, T) -> bool)
    requires TotalPreorder(le) && SortedBy(sorted, le) && k <= |sorted|
    requires k < |sorted| ==> !le(sorted[k], x)
    ensures forall i :: k <= i < |sorted| ==> le(x, sorted[i])
  {
    forall i | k <= i < |sorted| ensures le(x, sorted[i]) {
      assert le(x, sorted[k]);
      assert i > k ==> le(sorted[k], sorted[i]);
    }
  }

  /** `std::sort`: a sorted permutation. Nothing is promised about ties. */
  method Sort<T(!new)>(xs: seq<T>, le: (T, T) -> bool) returns (sorted: seq<T>)
    requires TotalPreorder(le)
    ensures multiset(sorted) == multiset(xs)
    ensures SortedBy(sorted, le)
  {
    sorted := [];
    for n := 0 to |xs|
      invariant multiset(sorted) == multiset(xs[..n])
      invariant SortedBy(sorted, le)
    {
      var k := 0;
      while k < |sorted| && le(sorted[k], xs[n])
        invariant 0 <= k <= |sorted|
        invariant forall i :: 0 <= i < k ==> le(sorted[i], xs[n])
      {
        k := k + 1;
      }
      assert xs[..n + 1] == xs[..n] + [xs[n]];
      RestIsAbove(sorted, k, xs[n], le);
      InsertedSorted(sorted, k, xs[n], le);
      sorted := sorted[..k] + [xs[n]] + sorted[k..];
    }
    assert xs[..|xs|] == xs;
  }

  /** Two strictly ordered lists with the same elements are the same list. */
  lemma {:induction false} StrictlySortedUnique<T(!new)>(a: seq<T>, b: seq<T>, lt: (T, T) -> bool)
    requires StrictOrder(lt)
    requires SortedBy(a, lt) && SortedBy(b, lt)
    requires Elements(a) == Elements(b)
    ensures a == b
  {
    if a == [] {
      ElementsEmpty(b);
    } else {
      assert a[0] in Elements(b);
      assert b[0] in Elements(a);
      assert a[0] == b[0];
      assert forall x :: x in a[1..] ==> x in Elements(b) && lt(a[0], x);
      assert forall x :: x in b[1..] ==> x in Elements(a) && lt(b[0], x);
      assert Elements(a[1..]) == Elements(b[1..]) by {
        forall x ensures x in a[1..] <==> x in b[1..] {
          assert x in a ==> x in Elements(b);
          assert x in b ==> x in Elements(a);
        }
      }
      StrictlySortedUnique(a[1..], b[1..], lt);
    }
  }

  lemma {:induction false} SameMultisetSameElements<T>(a: seq<T>, b: seq<T>)
    requires multiset(a) == multiset(b)
    ensures |a| == |b|
    ensures forall x :: x in a <==> x in b
    ensures Distinct(a) ==> Distinct(b)
  {
    assert |multiset(a)| == |multiset(b)|;
    assert forall x :: x in a <==> x in multiset(a);
    assert forall x :: x in b <==> x in multiset(b);
    if Distinct(a) {
      forall i, j | 0 <= i < j < |b| ensures b[i] != b[j] {
        DistinctMultiplicity(a, b[i]);
        TwoPlacesCountTwice(b, i, j);
      }
    }
  }

  lemma TwoPlacesCountTwice<T>(b: seq<T>, i: nat, j: nat)
    requires i < j < |b|
    ensures b[i] == b[j] ==> multiset(b)[b[i]] >= 2
  {
    assert b == b[..j] + [b[j]] + b[j + 1..];
    assert b[..j][i] == b[i];
    assert b[i] in multiset(b[..j]);
  }

  lemma {:induction false} DistinctMultiplicity<T>(a: seq<T>, x: T)
    requires Distinct(a)
    ensures multiset(a)[x] <= 1
  {
    if a != [] {
      assert a == [a[0]] + a[1..];
      DistinctMultiplicity(a[1..], x);
      assert a[0] !in a[1..];
    }
  }

  /** A duplicate-free list is as long as its set of elements. */
  lemma {:induction false} DistinctLength<T>(xs: seq<T>)
    requires Distinct(xs)
    ensures |Elements(xs)| == |xs|
  {
    if xs != [] {
      var last := |xs| - 1;
      DistinctLength(xs[..last]);
      assert Elements(xs) == Elements(xs[..last]) + {xs[last]};
      assert xs[last] !in xs[..last];
    }
  }

  /** A list without repetition of exactly these elements is as long as their set. */
  lemma ListsSet<T>(xs: seq<T>, all: set<T>)
    requires Distinct(xs) && forall x :: x in xs <==> x in all
    ensures |xs| == |all|
  {
    DistinctLength(xs);
    assert Elements(xs) == all;
  }

  lemma SplicedIn<T>(xs: seq<T>, pos: nat, x: T)
    requires pos <= |xs|
    ensures Elements(xs[..pos] + [x] + xs[pos..]) == Elements(xs) + {x}
  {
    assert xs == xs[..pos] + xs[pos..];
    assert forall y :: y in xs <==> y in xs[..pos] || y in xs[pos..];
  }

  lemma SplicedOut<T>(xs: seq<T>, pos: nat)
    requires pos < |xs| && Distinct(xs)
    ensures Elements(xs[..pos] + xs[pos + 1..]) == Elements(xs) - {xs[pos]}
  {
    assert xs == xs[..pos] + [xs[pos]] + xs[pos + 1..];
    assert forall y :: y in xs <==> y in xs[..pos] || y == xs[pos] || y in xs[pos + 1..];
    assert forall k :: 0 <= k < pos ==> xs[..pos][k] == xs[k] != xs[pos];
    var rest := xs[pos + 1..];
    assert forall k :: 0 <= k < |rest| ==> rest[k] != xs[pos];
  }

  function Below(n: nat): (numbers: set<nat>)
    ensures forall k: nat :: k in numbers <==> k < n
    ensures |numbers| == n
  {
    if n == 0 then {} else Below(n - 1) + {n - 1}
  }

  lemma {:induction false} SubsetSize<T>(a: set<T>, b: set<T>)
    requires a <= b
    ensures |a| <= |b|
    ensures |a| == |b| ==> a == b
  {
    if a != {} {
      var x :| x in a;
      SubsetSize(a - {x}, b - {x});
      assert a == (a - {x}) + {x} && b == (b - {x}) + {x};
    }
  }

  // ---------------------------------------------------------------------------
  // The records of a map, sorted
  // ---------------------------------------------------------------------------

  /** Every record is stored under its own key, and records with different keys differ in
      rank. */
  ghost predicate RecordsKeyed<K(!new), V(!new)>(all: map<K, V>, key: V -> K, rank: V -> int) {
    && (forall k :: k in all ==> key(all[k]) == k)
    && (forall a, b :: rank(a) == rank(b) ==> key(a) == key(b))
  }

  ghost predicate IsSnapshot<K(!new), V(!new)>(snapshot: seq<V>, all: map<K, V>, key: V -> K) {
    forall v :: v in snapshot <==> key(v) in all && v == all[key(v)]
  }

  /** Every record once, in any order. */
  method Snapshot<K(!new, ==), V(!new)>(all: map<K, V>, ghost key: V -> K, ghost rank: V -> int)
    returns (snapshot: seq<V>)
    requires RecordsKeyed(all, key, rank)
    ensures IsSnapshot(snapshot, all, key) && Distinct(snapshot)
  {
    snapshot := [];
    var remaining := all.Keys;
    while remaining != {}
      invariant remaining <= all.Keys && Distinct(snapshot)
      invariant forall v :: v in snapshot <==> key(v) in all.Keys - remaining && v == all[key(v)]
      decreases remaining
    {
      var k :| k in remaining;
      assert all[k] !in snapshot;
      snapshot := snapshot + [all[k]];
      remaining := remaining - {k};
    }
  }

  predicate RankAtMost<V>(rank: V -> int, a: V, b: V) { rank(a) <= rank(b) }

  /** The records in increasing rank. */
  method SortedRecords<K(!new, ==), V(!new)>(all: map<K, V>, ghost key: V -> K, rank: V -> int) returns (sorted: seq<V>)
    requires RecordsKeyed(all, key, rank)
    ensures IsSnapshot(sorted, all, key)
    ensures forall i, j :: 0 <= i < j < |sorted| ==> rank(sorted[i]) < rank(sorted[j])
  {
    var snapshot := Snapshot(all, key, rank);
    sorted := Sort(snapshot, (a, b) => RankAtMost(rank, a, b));
    SameMultisetSameElements(snapshot, sorted);
    forall i, j | 0 <= i < j < |sorted| ensures rank(sorted[i]) < rank(sorted[j]) {
      assert sorted[i] in snapshot && sorted[j] in snapshot;
      assert RankAtMost(rank, sorted[i], sorted[j]) && sorted[i] != sorted[j];
    }
  }
}
