/**
 * Array.prototype.sort with a comparator `(a, b) => rank(a) - rank(b)`.
 * ECMAScript (since the 2019 edition) requires this sort to be stable, so
 * its result is fixed: ascending by rank, with equal-rank elements in their
 * original order. SortByRank is that result, computed as an insertion sort
 * that takes elements from the back; the lemmas below show it sorted, a
 * permutation, stable, and the only sequence with those properties.
 */
module RankSort {

  /** Inserts `x` after the last element whose rank is not greater than its own. */
  function InsertByRank<T>(s: seq<T>, x: T, rank: T -> int): (r: seq<T>)
  {
    if s == [] || rank(s[|s| - 1]) <= rank(x) then s + [x]
    else InsertByRank(s[..|s| - 1], x, rank) + [s[|s| - 1]]
  }

  /** A stable sort by rank: insertion sort, each element placed after its equals. */
  function SortByRank<T>(s: seq<T>, rank: T -> int): (r: seq<T>)
  {
    if s == [] then []
    else InsertByRank(SortByRank(s[..|s| - 1], rank), s[|s| - 1], rank)
  }

  ghost predicate SortedByRank<T>(s: seq<T>, rank: T -> int)
  {
    forall i, j :: 0 <= i < j < |s| ==> rank(s[i]) <= rank(s[j])
  }

  /** The elements of `s` of rank `v`, in order. */
  function OfRank<T>(s: seq<T>, rank: T -> int, v: int): (r: seq<T>)
  {
    if s == [] then []
    else OfRank(s[..|s| - 1], rank, v) + (if rank(s[|s| - 1]) == v then [s[|s| - 1]] else [])
  }

  lemma {:induction false} OfRankAppend<T>(a: seq<T>, b: seq<T>, rank: T -> int, v: int)
    ensures OfRank(a + b, rank, v) == OfRank(a, rank, v) + OfRank(b, rank, v)
  {
    if b != [] {
      assert (a + b)[..|a + b| - 1] == a + b[..|b| - 1];
      OfRankAppend(a, b[..|b| - 1], rank, v);
    } else {
      assert a + b == a;
    }
  }

  lemma {:induction false} OfRankNone<T>(s: seq<T>, rank: T -> int, v: int)
    requires forall i :: 0 <= i < |s| ==> rank(s[i]) != v
    ensures OfRank(s, rank, v) == []
  {
    if s != [] {
      OfRankNone(s[..|s| - 1], rank, v);
    }
  }

  lemma {:induction false} InsertByRankPermutes<T>(s: seq<T>, x: T, rank: T -> int)
    ensures multiset(InsertByRank(s, x, rank)) == multiset(s) + multiset{x}
  {
    if !(s == [] || rank(s[|s| - 1]) <= rank(x)) {
      var init, last := s[..|s| - 1], s[|s| - 1];
      assert s == init + [last];
      InsertByRankPermutes(init, x, rank);
    }
  }

  lemma {:induction false} InsertByRankSorted<T>(s: seq<T>, x: T, rank: T -> int)
    requires SortedByRank(s, rank)
    ensures SortedByRank(InsertByRank(s, x, rank), rank)
  {
    if !(s == [] || rank(s[|s| - 1]) <= rank(x)) {
      var init, last := s[..|s| - 1], s[|s| - 1];
      InsertByRankSorted(init, x, rank);
      InsertByRankPermutes(init, x, rank);
      var r' := InsertByRank(init, x, rank);
      forall k | 0 <= k < |r'| ensures rank(r'[k]) <= rank(last) {
        assert r'[k] in multiset(r');
        if r'[k] != x {
          assert r'[k] in multiset(init);
          var j :| 0 <= j < |init| && init[j] == r'[k];
          assert s[j] == init[j];
        }
      }
    }
  }

  lemma {:induction false} InsertByRankStable<T>(s: seq<T>, x: T, rank: T -> int, v: int)
    requires SortedByRank(s, rank)
    ensures OfRank(InsertByRank(s, x, rank), rank, v) == OfRank(s, rank, v) + (if rank(x) == v then [x] else [])
  {
    var r := InsertByRank(s, x, rank);
    if s == [] || rank(s[|s| - 1]) <= rank(x) {
      assert r[..|r| - 1] == s;
    } else {
      var init, last := s[..|s| - 1], s[|s| - 1];
      InsertByRankStable(init, x, rank, v);
      var r' := InsertByRank(init, x, rank);
      assert r[..|r| - 1] == r';
      if rank(x) == v {
        // every element after the insertion point outranks x
        assert rank(last) != v;
      }
    }
  }

  lemma {:induction false} SortByRankFacts<T>(s: seq<T>, rank: T -> int)
    ensures multiset(SortByRank(s, rank)) == multiset(s)
    ensures SortedByRank(SortByRank(s, rank), rank)
    ensures forall v :: OfRank(SortByRank(s, rank), rank, v) == OfRank(s, rank, v)
  {
    if s != [] {
      var init, last := s[..|s| - 1], s[|s| - 1];
      assert s == init + [last];
      SortByRankFacts(init, rank);
      InsertByRankPermutes(SortByRank(init, rank), last, rank);
      InsertByRankSorted(SortByRank(init, rank), last, rank);
      forall v ensures OfRank(SortByRank(s, rank), rank, v) == OfRank(s, rank, v) {
        InsertByRankStable(SortByRank(init, rank), last, rank, v);
        assert s[..|s| - 1] == init;
      }
    }
  }

  lemma {:induction false} OfRankMembers<T>(s: seq<T>, rank: T -> int, v: int)
    ensures forall x :: x in OfRank(s, rank, v) ==> x in s && rank(x) == v
  {
    if s != [] {
      OfRankMembers(s[..|s| - 1], rank, v);
      assert forall x :: x in s[..|s| - 1] ==> x in s;
    }
  }

  /** In a rank-ordered sequence the last element has the greatest rank present. */
  lemma LastHasGreatestRank<T>(a: seq<T>, rank: T -> int, v: int)
    requires SortedByRank(a, rank) && a != []
    requires OfRank(a, rank, v) != []
    ensures v <= rank(a[|a| - 1])
  {
  }

  /** `a` and `b` hold the same elements of each rank, in the same order. */
  ghost predicate SameRankClasses<T>(a: seq<T>, b: seq<T>, rank: T -> int)
  {
    forall v :: OfRank(a, rank, v) == OfRank(b, rank, v)
  }

  lemma LastRankClassIsNonEmpty<T>(a: seq<T>, rank: T -> int)
    ensures a != [] ==> OfRank(a, rank, rank(a[|a| - 1])) != []
  {
  }

  lemma DropCommonLast<T>(a: seq<T>, b: seq<T>, l: T, rank: T -> int)
    requires SameRankClasses(a + [l], b + [l], rank)
    ensures SameRankClasses(a, b, rank)
  {
    assert (a + [l])[..|a|] == a;
    assert (b + [l])[..|b|] == b;
    forall v ensures OfRank(a, rank, v) == OfRank(b, rank, v) {
      var x, y := OfRank(a, rank, v), OfRank(b, rank, v);
      assert OfRank(a + [l], rank, v) == OfRank(b + [l], rank, v);
      assert OfRank(a + [l], rank, v) == x + (if rank(l) == v then [l] else []);
      assert OfRank(b + [l], rank, v) == y + (if rank(l) == v then [l] else []);
      if rank(l) == v {
        assert x + [l] == y + [l];
        assert |x| == |y|;
        assert x == (x + [l])[..|x|];
        assert y == (y + [l])[..|y|];
      } else {
        assert x + [] == x && y + [] == y;
      }
    }
  }

  /**
   * Two rank-ordered sequences with the same elements of each rank, in the
   * same order, are equal: a stable sort has exactly one possible result.
   */
  lemma {:induction false} StableOrderIsUnique<T>(a: seq<T>, b: seq<T>, rank: T -> int)
    requires SortedByRank(a, rank) && SortedByRank(b, rank)
    requires SameRankClasses(a, b, rank)
    ensures a == b
  {
    if a == [] || b == [] {
      LastRankClassIsNonEmpty(a, rank);
      LastRankClassIsNonEmpty(b, rank);
    } else {
      var ia, la := a[..|a| - 1], a[|a| - 1];
      var ib, lb := b[..|b| - 1], b[|b| - 1];
      assert a == ia + [la] && b == ib + [lb];
      assert OfRank(a, rank, rank(la)) != [];
      LastHasGreatestRank(b, rank, rank(la));
      assert OfRank(b, rank, rank(lb)) != [];
      LastHasGreatestRank(a, rank, rank(lb));
      var c := OfRank(a, rank, rank(la));
      assert c[|c| - 1] == la;
      assert la == lb;
      DropCommonLast(ia, ib, la, rank);
      assert SortedByRank(ia, rank) && SortedByRank(ib, rank);
      StableOrderIsUnique(ia, ib, rank);
    }
  }

  /** Any stable rank-ordering of `s` is SortByRank(s). */
  lemma SortByRankIsTheStableSort<T>(s: seq<T>, t: seq<T>, rank: T -> int)
    requires SortedByRank(t, rank)
    requires SameRankClasses(t, s, rank)
    ensures t == SortByRank(s, rank)
  {
    SortByRankFacts(s, rank);
    StableOrderIsUnique(t, SortByRank(s, rank), rank);
  }

  lemma SortByRankLength<T>(s: seq<T>, rank: T -> int)
    ensures |SortByRank(s, rank)| == |s|
  {
    SortByRankFacts(s, rank);
    assert |multiset(SortByRank(s, rank))| == |multiset(s)|;
  }

  /** Sorting a sequence that is already in rank order leaves it as it is. */
  lemma {:induction false} SortByRankSortedIsIdentity<T>(s: seq<T>, rank: T -> int)
    requires SortedByRank(s, rank)
    ensures SortByRank(s, rank) == s
  {
    if s != [] {
      var init := s[..|s| - 1];
      assert SortedByRank(init, rank);
      SortByRankSortedIsIdentity(init, rank);
      assert s == init + [s[|s| - 1]];
    }
  }

  /** Sorting, appending one element and sorting again equals appending and sorting once. */
  lemma SortByRankResortAppend<T>(s: seq<T>, x: T, rank: T -> int)
    ensures SortByRank(SortByRank(s, rank) + [x], rank) == SortByRank(s + [x], rank)
  {
    var sorted := SortByRank(s, rank);
    SortByRankFacts(s, rank);
    SortByRankSortedIsIdentity(sorted, rank);
    assert (sorted + [x])[..|sorted + [x]| - 1] == sorted;
    assert (s + [x])[..|s + [x]| - 1] == s;
  }
}
