/**
 Stable sorting by a strict weak order: the reference that the in-place and library sorts are held to.
 The result is sorted, a permutation, and keeps elements that tie in the order they came.
 */
module StableSort {

  ghost predicate WeakOrder<T(!new)>(before: (T, T) -> bool) {
    && (forall a :: !before(a, a))
    && (forall a, b, c :: before(a, b) && before(b, c) ==> before(a, c))
    && (forall a, b, c :: !before(a, b) && !before(b, c) ==> !before(a, c))
  }

  predicate SortedBy<T>(s: seq<T>, before: (T, T) -> bool) {
    forall i, j | 0 <= i < j < |s| :: !before(s[j], s[i])
  }

  function Filter<T>(s: seq<T>, p: T -> bool): seq<T> {
    if s == [] then []
    else if p(s[|s| - 1]) then Filter(s[..|s| - 1], p) + [s[|s| - 1]]
    else Filter(s[..|s| - 1], p)
  }

  /** The elements of `s` that tie with `x`, in order. */
  function Ties<T>(s: seq<T>, x: T, before: (T, T) -> bool): seq<T> {
    Filter(s, y => !before(x, y) && !before(y, x))
  }

  /** `x` goes after everything it does not come before. */
  function InsertStable<T>(s: seq<T>, x: T, before: (T, T) -> bool): seq<T> {
    if s != [] && before(x, s[|s| - 1])
    then InsertStable(s[..|s| - 1], x, before) + [s[|s| - 1]]
    else s + [x]
  }

  function Sort<T>(s: seq<T>, before: (T, T) -> bool): seq<T> {
    if s == [] then [] else InsertStable(Sort(s[..|s| - 1], before), s[|s| - 1], before)
  }

  lemma {:induction false} InsertBag<T>(s: seq<T>, x: T, before: (T, T) -> bool)
    ensures multiset(InsertStable(s, x, before)) == multiset(s) + multiset{x}
  {
    if s != [] && before(x, s[|s| - 1]) {
      InsertBag(s[..|s| - 1], x, before);
      assert s == s[..|s| - 1] + [s[|s| - 1]];
    }
  }

  lemma {:induction false} AppendSorted<T>(s: seq<T>, y: T, before: (T, T) -> bool)
    requires SortedBy(s, before) && forall x | x in s :: !before(y, x)
    ensures SortedBy(s + [y], before)
  {
    forall i, j | 0 <= i < j < |s| + 1 ensures !before((s + [y])[j], (s + [y])[i]) {
      assert s != [] ==> s[i] in s;
    }
  }

  lemma {:induction false} InsertSorted<T(!new)>(s: seq<T>, x: T, before: (T, T) -> bool)
    requires WeakOrder(before) && SortedBy(s, before)
    ensures SortedBy(InsertStable(s, x, before), before)
  {
    if s == [] {
      return;
    }
    var front, last := s[..|s| - 1], s[|s| - 1];
    if before(x, last) {
      InsertSorted(front, x, before);
      InsertBag(front, x, before);
      forall y | y in InsertStable(front, x, before) ensures !before(last, y) {
        assert y in multiset(front) + multiset{x};
      }
      AppendSorted(InsertStable(front, x, before), last, before);
    } else {
      forall y | y in s ensures !before(x, y) {
        assert !before(last, y);
      }
      AppendSorted(s, x, before);
    }
  }

  /** The sort is a sorted permutation. */
  lemma {:induction false} SortSorts<T(!new)>(s: seq<T>, before: (T, T) -> bool)
    requires WeakOrder(before)
    ensures SortedBy(Sort(s, before), before) && multiset(Sort(s, before)) == multiset(s)
  {
    if s != [] {
      SortSorts(s[..|s| - 1], before);
      InsertSorted(Sort(s[..|s| - 1], before), s[|s| - 1], before);
      InsertBag(Sort(s[..|s| - 1], before), s[|s| - 1], before);
      assert s == s[..|s| - 1] + [s[|s| - 1]];
    }
  }

  lemma {:induction false} FilterAppend<T>(s: seq<T>, x: T, p: T -> bool)
    ensures Filter(s + [x], p) == if p(x) then Filter(s, p) + [x] else Filter(s, p)
  {
    assert (s + [x])[..|s + [x]| - 1] == s;
  }

  lemma {:induction false} InsertKeepsTies<T(!new)>(s: seq<T>, x: T, before: (T, T) -> bool, z: T)
    requires WeakOrder(before)
    ensures Ties(InsertStable(s, x, before), z, before) == Ties(s + [x], z, before)
  {
    var p := y => !before(z, y) && !before(y, z);
    FilterAppend(s, x, p);
    if s != [] && before(x, s[|s| - 1]) {
      var front := s[..|s| - 1];
      InsertKeepsTies(front, x, before, z);
      FilterAppend(InsertStable(front, x, before), s[|s| - 1], p);
      FilterAppend(front, x, p);
    }
  }

  /** Elements that tie keep the order they came in. */
  lemma {:induction false} SortKeepsTies<T(!new)>(s: seq<T>, before: (T, T) -> bool, z: T)
    requires WeakOrder(before)
    ensures Ties(Sort(s, before), z, before) == Ties(s, z, before)
  {
    if s != [] {
      var front, x := s[..|s| - 1], s[|s| - 1];
      var p := y => !before(z, y) && !before(y, z);
      SortKeepsTies(front, before, z);
      InsertKeepsTies(Sort(front, before), x, before, z);
      FilterAppend(Sort(front, before), x, p);
      FilterAppend(front, x, p);
      assert front + [x] == s;
    }
  }

  /** Sorting what is sorted changes nothing. */
  lemma {:induction false} SortedIsFixed<T>(s: seq<T>, before: (T, T) -> bool)
    requires SortedBy(s, before)
    ensures Sort(s, before) == s
  {
    if s != [] {
      var front := s[..|s| - 1];
      SortedIsFixed(front, before);
      assert front != [] ==> !before(s[|s| - 1], front[|front| - 1]);
      assert front + [s[|s| - 1]] == s;
    }
  }
}
