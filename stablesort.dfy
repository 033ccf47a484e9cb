/** The stable sort of `Array.prototype.sort` (stable since ECMAScript 2019) used
    with a comparator that subtracts the first element's count from the second's: elements end up in
    non-increasing order of their count, and elements of equal count keep their
    relative input order. Modelled as an insertion sort. */
module StableSort {
  import opened Grouping

  predicate NonIncreasing<T>(s: seq<T>, count: T -> int) {
    forall i, j :: 0 <= i < j < |s| ==> count(s[i]) >= count(s[j])
  }

  /** Places `x` after every element of `t` whose count is at least `count(x)`. */
  function Insert<T>(t: seq<T>, x: T, count: T -> int): (r: seq<T>)
    ensures |r| == |t| + 1
    ensures multiset(r) == multiset(t) + multiset{x}
  {
    if t == [] || count(t[|t| - 1]) >= count(x) then t + [x]
    else
      var r := Insert(t[..|t| - 1], x, count) + [t[|t| - 1]];
      assert t == t[..|t| - 1] + [t[|t| - 1]];
      r
  }

  /** The elements of `s`, ordered by that comparator. */
  function SortByCountDesc<T>(s: seq<T>, count: T -> int): (r: seq<T>)
    ensures |r| == |s|
    ensures multiset(r) == multiset(s)
  {
    if s == [] then []
    else
      var r := Insert(SortByCountDesc(s[..|s| - 1], count), s[|s| - 1], count);
      assert s == s[..|s| - 1] + [s[|s| - 1]];
      r
  }

  lemma {:induction false} InsertBounds<T>(t: seq<T>, x: T, count: T -> int, m: int)
    requires forall i :: 0 <= i < |t| ==> count(t[i]) >= m
    requires count(x) >= m
    ensures forall i :: 0 <= i < |Insert(t, x, count)| ==> count(Insert(t, x, count)[i]) >= m
  {
    if t == [] || count(t[|t| - 1]) >= count(x) {
    } else {
      InsertBounds(t[..|t| - 1], x, count, m);
    }
  }

  lemma {:induction false} InsertSorted<T>(t: seq<T>, x: T, count: T -> int)
    requires NonIncreasing(t, count)
    ensures NonIncreasing(Insert(t, x, count), count)
  {
    if t == [] || count(t[|t| - 1]) >= count(x) {
    } else {
      var p, last := t[..|t| - 1], t[|t| - 1];
      InsertSorted(p, x, count);
      InsertBounds(p, x, count, count(last));
      var q := Insert(p, x, count);
      assert Insert(t, x, count) == q + [last];
    }
  }

  /** The result is in non-increasing count order. */
  lemma {:induction false} SortedByCount<T>(s: seq<T>, count: T -> int)
    ensures NonIncreasing(SortByCountDesc(s, count), count)
  {
    if s != [] {
      SortedByCount(s[..|s| - 1], count);
      InsertSorted(SortByCountDesc(s[..|s| - 1], count), s[|s| - 1], count);
    }
  }

  lemma {:induction false} InsertStable<T>(t: seq<T>, x: T, count: T -> int, k: int)
    ensures Having(Insert(t, x, count), count, k) == Having(t, count, k) + (if count(x) == k then [x] else [])
  {
    if t == [] || count(t[|t| - 1]) >= count(x) {
      HavingSnoc(t, count, x, k);
    } else {
      var p, last := t[..|t| - 1], t[|t| - 1];
      var q := Insert(p, x, count);
      assert Insert(t, x, count) == q + [last];
      LastSplit(t);
      InsertStable(p, x, count, k);
      HavingSnoc(q, count, last, k);
      HavingSnoc(p, count, last, k);
      var hp := Having(p, count, k);
      if count(x) == k {
        assert count(last) != k;
        assert Having(q + [last], count, k) == hp + [x];
        assert Having(t, count, k) == hp;
      } else {
        assert Having(q, count, k) == hp;
      }
    }
  }

  /** Stability: for every count value, the elements with that count appear in
      the result exactly as, and in the order, they appear in the input. */
  lemma {:induction false} SortStable<T>(s: seq<T>, count: T -> int, k: int)
    ensures Having(SortByCountDesc(s, count), count, k) == Having(s, count, k)
  {
    if s != [] {
      var p, x := s[..|s| - 1], s[|s| - 1];
      var sp := SortByCountDesc(p, count);
      assert SortByCountDesc(s, count) == Insert(sp, x, count);
      LastSplit(s);
      SortStable(p, count, k);
      InsertStable(sp, x, count, k);
      HavingSnoc(p, count, x, k);
    }
  }

  /** The counts of all elements added up. */
  function CountSum<T>(s: seq<T>, count: T -> int): int {
    if s == [] then 0 else CountSum(s[..|s| - 1], count) + count(s[|s| - 1])
  }

  lemma {:induction false} CountSumSnoc<T>(s: seq<T>, x: T, count: T -> int)
    ensures CountSum(s + [x], count) == CountSum(s, count) + count(x)
  {
    assert (s + [x])[..|s|] == s;
  }

  lemma {:induction false} CountSumInsert<T>(t: seq<T>, x: T, count: T -> int)
    ensures CountSum(Insert(t, x, count), count) == CountSum(t, count) + count(x)
  {
    if t == [] || count(t[|t| - 1]) >= count(x) {
      CountSumSnoc(t, x, count);
    } else {
      var p, y := t[..|t| - 1], t[|t| - 1];
      CountSumInsert(p, x, count);
      CountSumSnoc(Insert(p, x, count), y, count);
    }
  }

  /** Sorting neither adds nor loses any count. */
  lemma {:induction false} CountSumSorted<T>(s: seq<T>, count: T -> int)
    ensures CountSum(SortByCountDesc(s, count), count) == CountSum(s, count)
  {
    if s != [] {
      var p, x := s[..|s| - 1], s[|s| - 1];
      CountSumSorted(p, count);
      CountSumInsert(SortByCountDesc(p, count), x, count);
    }
  }
}
