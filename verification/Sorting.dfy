/** Stable insertion sort by a numeric key: what the library sorts of the source compute. */
module Sorting {

  ghost predicate SortedBy<T(!new)>(key: T -> nat, s: seq<T>) {
    forall i, j :: 0 <= i < j < |s| ==> key(s[i]) <= key(s[j])
  }

  /** After the elements with the same key: the order of equal keys is kept. */
  function Insert<T>(key: T -> nat, s: seq<T>, x: T): (r: seq<T>)
    ensures |r| == |s| + 1
    decreases |s|
  {
    if s == [] || key(s[|s| - 1]) <= key(x) then s + [x] else Insert(key, s[..|s| - 1], x) + [s[|s| - 1]]
  }

  function Sort<T>(key: T -> nat, s: seq<T>): (r: seq<T>)
    ensures |r| == |s|
    decreases |s|
  {
    if s == [] then [] else Insert(key, Sort(key, s[..|s| - 1]), s[|s| - 1])
  }

  lemma AppendSorted<T(!new)>(key: T -> nat, s: seq<T>, x: T)
    requires SortedBy(key, s) && (s != [] ==> key(s[|s| - 1]) <= key(x))
    ensures SortedBy(key, s + [x])
  {
  }

  lemma {:induction false} InsertSorts<T(!new)>(key: T -> nat, s: seq<T>, x: T)
    requires SortedBy(key, s)
    ensures SortedBy(key, Insert(key, s, x))
    ensures Insert(key, s, x)[|s|] == if s == [] || key(s[|s| - 1]) <= key(x) then x else s[|s| - 1]
    decreases |s|
  {
    if s == [] || key(s[|s| - 1]) <= key(x) {
      AppendSorted(key, s, x);
    } else {
      InsertSorts(key, s[..|s| - 1], x);
      AppendSorted(key, Insert(key, s[..|s| - 1], x), s[|s| - 1]);
    }
  }

  lemma {:induction false} InsertKeeps<T>(key: T -> nat, s: seq<T>, x: T)
    ensures multiset(Insert(key, s, x)) == multiset(s) + multiset{x}
    decreases |s|
  {
    if s != [] && key(s[|s| - 1]) > key(x) {
      InsertKeeps(key, s[..|s| - 1], x);
      assert s == s[..|s| - 1] + [s[|s| - 1]];
    }
  }

  lemma EmptyIsSorted<T(!new)>(key: T -> nat)
    ensures SortedBy(key, [])
  {
  }

  lemma {:induction false} SortSorts<T(!new)>(key: T -> nat, s: seq<T>)
    ensures SortedBy(key, Sort(key, s)) && multiset(Sort(key, s)) == multiset(s)
    decreases |s|
  {
    hide Insert, SortedBy;
    if s == [] {
      EmptyIsSorted(key);
    } else {
      var n := |s| - 1;
      SortSorts(key, s[..n]);
      InsertSorts(key, Sort(key, s[..n]), s[n]);
      InsertKeeps(key, Sort(key, s[..n]), s[n]);
      assert s == s[..n] + [s[n]];
    }
  }
}
