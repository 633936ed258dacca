/** The sequence operations the playlist ordering is built from: a stable
    insertion sort driven by a comparator (as `Array.prototype.sort` is
    required to be stable), `filter` and `reverse`.

    A comparator `cmp(a, b) < 0` is given here as the relation
    `before(a, b)`: "a goes first". An element is placed in front of an
    earlier one only when it strictly goes first, which is what makes the
    sort stable. */
module StableSort {

  /** `before` never holds both ways. A comparator that returns `x - y`
      (or anything antisymmetric) has this property. */
  ghost predicate Asymmetric<T(!new)>(before: (T, T) -> bool)
  {
    forall a, b :: before(a, b) ==> !before(b, a)
  }

  /** No element goes strictly before its left neighbour. */
  ghost predicate AdjacentOrdered<T>(s: seq<T>, before: (T, T) -> bool)
  {
    forall i :: 0 <= i < |s| - 1 ==> !before(s[i + 1], s[i])
  }

  /** Non-decreasing by a numeric key, between every two positions. */
  ghost predicate SortedByKey<T>(s: seq<T>, key: T -> real)
  {
    forall i, j :: 0 <= i < j < |s| ==> key(s[i]) <= key(s[j])
  }

  /** Places `x` in front of the first element it strictly goes before. */
  function Insert<T>(x: T, s: seq<T>, before: (T, T) -> bool): (r: seq<T>)
    ensures multiset(r) == multiset(s) + multiset{x}
    ensures |r| == |s| + 1
    ensures r[0] == x || (|s| > 0 && r[0] == s[0])
  {
    if |s| == 0 then [x]
    else if before(x, s[0]) then [x] + s
    else
      assert s == [s[0]] + s[1..];
      [s[0]] + Insert(x, s[1..], before)
  }

  /** Insertion sort: each element, in input order, is inserted into the
      sorted prefix. */
  function InsertionSort<T>(s: seq<T>, before: (T, T) -> bool): (r: seq<T>)
    ensures multiset(r) == multiset(s)
    ensures |r| == |s|
  {
    if |s| == 0 then []
    else
      assert s == s[..|s| - 1] + [s[|s| - 1]];
      Insert(s[|s| - 1], InsertionSort(s[..|s| - 1], before), before)
  }

  lemma {:induction false} InsertKeepsOrder<T(!new)>(x: T, s: seq<T>, before: (T, T) -> bool)
    requires Asymmetric(before)
    requires AdjacentOrdered(s, before)
    ensures AdjacentOrdered(Insert(x, s, before), before)
  {
    if |s| > 0 && !before(x, s[0]) {
      var tail := Insert(x, s[1..], before);
      InsertKeepsOrder(x, s[1..], before);
      var r := [s[0]] + tail;
      forall i | 0 <= i < |r| - 1
        ensures !before(r[i + 1], r[i])
      {
        if i > 0 {
          assert r[i + 1] == tail[i] && r[i] == tail[i - 1];
        } else if tail[0] != x {
          assert tail[0] == s[1];
        }
      }
    }
  }

  /** The sort leaves every neighbouring pair in comparator order; no
      transitivity of the comparator is needed for this. */
  lemma {:induction false} SortIsAdjacentOrdered<T(!new)>(s: seq<T>, before: (T, T) -> bool)
    requires Asymmetric(before)
    ensures AdjacentOrdered(InsertionSort(s, before), before)
  {
    if |s| > 0 {
      SortIsAdjacentOrdered(s[..|s| - 1], before);
      InsertKeepsOrder(s[|s| - 1], InsertionSort(s[..|s| - 1], before), before);
    }
  }

  /** Neighbour-wise order by a key extends to every pair of positions. */
  lemma {:induction false} ChainedKeysAreSorted<T>(s: seq<T>, key: T -> real)
    requires forall i :: 0 <= i < |s| - 1 ==> key(s[i]) <= key(s[i + 1])
    ensures SortedByKey(s, key)
  {
    if |s| > 1 {
      ChainedKeysAreSorted(s[1..], key);
      forall i, j | 0 <= i < j < |s|
        ensures key(s[i]) <= key(s[j])
      {
        if i > 0 {
          assert s[i] == s[1..][i - 1] && s[j] == s[1..][j - 1];
        } else if j > 1 {
          assert s[1] == s[1..][0] && s[j] == s[1..][j - 1];
        }
      }
    }
  }

  /** `s.filter(x => keep(x) == want)`. */
  function Filter<T>(s: seq<T>, keep: T -> bool, want: bool): (r: seq<T>)
    ensures |r| <= |s|
    ensures forall i :: 0 <= i < |r| ==> keep(r[i]) == want
    ensures forall x :: x in r ==> x in s
  {
    if |s| == 0 then []
    else
      var rest := Filter(s[..|s| - 1], keep, want);
      if keep(s[|s| - 1]) == want then rest + [s[|s| - 1]] else rest
  }

  /** The kept and the rejected elements together are the input, counted with multiplicity. */
  lemma {:induction false} FilterSplits<T>(s: seq<T>, keep: T -> bool)
    ensures multiset(Filter(s, keep, true)) + multiset(Filter(s, keep, false)) == multiset(s)
  {
    if |s| > 0 {
      var init, x := s[..|s| - 1], s[|s| - 1];
      FilterSplits(init, keep);
      assert s == init + [x];
      assert multiset(s) == multiset(init) + multiset{x};
      if keep(x) {
        assert Filter(s, keep, true) == Filter(init, keep, true) + [x];
        assert Filter(s, keep, false) == Filter(init, keep, false);
      } else {
        assert Filter(s, keep, true) == Filter(init, keep, true);
        assert Filter(s, keep, false) == Filter(init, keep, false) + [x];
      }
    }
  }

  /** `[...s].reverse()`. */
  function Reverse<T>(s: seq<T>): (r: seq<T>)
    ensures |r| == |s|
    ensures forall i :: 0 <= i < |s| ==> r[i] == s[|s| - 1 - i]
  {
    seq(|s|, i requires 0 <= i < |s| => s[|s| - 1 - i])
  }

  /** Reversing rearranges: the multiset of elements is unchanged. */
  lemma {:induction false} ReverseIsPermutation<T>(s: seq<T>)
    ensures multiset(Reverse(s)) == multiset(s)
  {
    if |s| > 0 {
      var init := s[..|s| - 1];
      ReverseIsPermutation(init);
      assert Reverse(s) == [s[|s| - 1]] + Reverse(init);
      assert s == init + [s[|s| - 1]];
    }
  }

  /** Every element of a sorted sequence was in the input. */
  lemma SortKeepsMembers<T>(s: seq<T>, before: (T, T) -> bool)
    ensures forall i :: 0 <= i < |InsertionSort(s, before)| ==> InsertionSort(s, before)[i] in s
  {
    var r := InsertionSort(s, before);
    forall i | 0 <= i < |r|
      ensures r[i] in s
    {
      assert r[i] in multiset(r);
    }
  }

  /** Members of a filter's result are exactly the accepted input elements. */
  lemma FilterMembers<T>(s: seq<T>, keep: T -> bool, want: bool, x: T)
    requires x in Filter(s, keep, want)
    ensures keep(x) == want
  {
    var f := Filter(s, keep, want);
    var i :| 0 <= i < |f| && f[i] == x;
  }

  /** The playlist shape: a block of kept elements, reversed, then a block
      of rejected ones. */
  lemma ReversedBlocksLayout<T>(a: seq<T>, b: seq<T>, keep: T -> bool)
    requires forall i :: 0 <= i < |a| ==> keep(a[i])
    requires forall i :: 0 <= i < |b| ==> !keep(b[i])
    ensures forall i :: 0 <= i < |a| ==> keep((Reverse(a) + b)[i])
    ensures forall i :: |a| <= i < |a| + |b| ==> !keep((Reverse(a) + b)[i])
    ensures (Reverse(a) + b)[|a|..] == b
  {
    var r := Reverse(a) + b;
    forall i | 0 <= i < |a|
      ensures keep(r[i])
    {
      assert r[i] == a[|a| - 1 - i];
    }
    forall i | |a| <= i < |r|
      ensures !keep(r[i])
    {
      assert r[i] == b[i - |a|];
    }
    assert r[|a|..] == b;
  }

  /** Sorting what a filter kept leaves only elements the filter accepts. */
  lemma SortedFilterAgrees<T>(s: seq<T>, keep: T -> bool, want: bool, before: (T, T) -> bool, a: seq<T>)
    requires a == InsertionSort(Filter(s, keep, want), before)
    ensures forall i :: 0 <= i < |a| ==> keep(a[i]) == want
  {
    var f := Filter(s, keep, want);
    SortKeepsMembers(f, before);
    forall i | 0 <= i < |a|
      ensures keep(a[i]) == want
    {
      assert a[i] in f;
      FilterMembers(s, keep, want, a[i]);
    }
  }

  /** A block sorted ascending by a key, reversed and put in front, runs
      descending by that key. */
  lemma ReversedPrefixDescends<T>(a: seq<T>, b: seq<T>, key: T -> real)
    requires SortedByKey(a, key)
    ensures forall i, j :: 0 <= i < j < |a| ==> key((Reverse(a) + b)[j]) <= key((Reverse(a) + b)[i])
  {
    var r := Reverse(a) + b;
    forall i, j | 0 <= i < j < |a|
      ensures key(r[j]) <= key(r[i])
    {
      assert r[i] == a[|a| - 1 - i] && r[j] == a[|a| - 1 - j];
    }
  }

  /** Reversing an adjacent-ordered sequence turns every neighbour pair around. */
  lemma ReverseTurnsPairs<T>(a: seq<T>, before: (T, T) -> bool)
    requires AdjacentOrdered(a, before)
    ensures var r := Reverse(a);
            forall i :: 0 <= i < |r| - 1 ==> !before(r[i], r[i + 1])
  {
    var r := Reverse(a);
    forall i | 0 <= i < |r| - 1
      ensures !before(r[i], r[i + 1])
    {
      assert r[i] == a[|a| - 1 - i] && r[i + 1] == a[|a| - 2 - i];
    }
  }
}
