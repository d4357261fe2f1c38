/**
 * What the core needs of `List<T>.Sort(comparer)` and `List<T>.Reverse()`.
 * The comparer is an abstract total preorder; the sort is proved to return a
 * sorted permutation of its input and nothing is claimed about the order of
 * elements that compare equal (the library sort is not stable).
 */
module Sorting {

  /** `le` is total and transitive: a comparer that never contradicts itself. */
  ghost predicate TotalPreorder<T(!new)>(le: (T, T) -> bool) {
    && (forall a, b :: le(a, b) || le(b, a))
    && (forall a, b, c :: le(a, b) && le(b, c) ==> le(a, c))
  }

  ghost predicate SortedBy<T>(s: seq<T>, le: (T, T) -> bool) {
    forall i, j :: 0 <= i < j < |s| ==> le(s[i], s[j])
  }

  ghost predicate SortedDescendingBy<T>(s: seq<T>, le: (T, T) -> bool) {
    forall i, j :: 0 <= i < j < |s| ==> le(s[j], s[i])
  }

  /** Inserts `x` into a sorted sequence, before the first element it does not exceed. */
  function Insert<T(!new)>(x: T, s: seq<T>, le: (T, T) -> bool): (r: seq<T>)
    requires TotalPreorder(le) && SortedBy(s, le)
    ensures multiset(r) == multiset(s) + multiset{x}
    ensures |r| == |s| + 1 && (r[0] == x || (s != [] && r[0] == s[0]))
    ensures SortedBy(r, le)
  {
    if s == [] then [x]
    else if le(x, s[0]) then [x] + s
    else
      var tail := Insert(x, s[1..], le);
      assert le(s[0], tail[0]) by {
        if tail[0] != x { assert tail[0] == s[1]; }
      }
      var r := [s[0]] + tail;
      assert SortedBy(r, le) by {
        forall i, j | 0 <= i < j < |r| ensures le(r[i], r[j]) {
          if i == 0 && j > 1 {
            assert le(tail[0], tail[j - 1]);
          }
        }
      }
      assert [s[0]] + s[1..] == s;
      r
  }

  /** The model of `List<T>.Sort(comparer)`: an insertion sort. */
  function SortBy<T(!new)>(s: seq<T>, le: (T, T) -> bool): (r: seq<T>)
    requires TotalPreorder(le)
    ensures multiset(r) == multiset(s)
    ensures SortedBy(r, le)
  {
    if s == [] then []
    else
      assert [s[0]] + s[1..] == s;
      Insert(s[0], SortBy(s[1..], le), le)
  }

  /** The model of `List<T>.Reverse()`. */
  function Reversed<T>(s: seq<T>): (r: seq<T>)
    ensures |r| == |s|
    ensures forall k :: 0 <= k < |s| ==> r[k] == s[|s| - 1 - k]
  {
    if s == [] then [] else Reversed(s[1..]) + [s[0]]
  }

  lemma {:induction false} ReversedPermutes<T>(s: seq<T>)
    ensures multiset(Reversed(s)) == multiset(s)
  {
    if s != [] {
      ReversedPermutes(s[1..]);
      assert s == [s[0]] + s[1..];
    }
  }

  /** Reversing an ascending sequence gives a descending one. */
  lemma ReversedSortedIsDescending<T>(s: seq<T>, le: (T, T) -> bool)
    requires SortedBy(s, le)
    ensures SortedDescendingBy(Reversed(s), le)
  {
    var r := Reversed(s);
    forall i, j | 0 <= i < j < |r| ensures le(r[j], r[i]) {
      assert r[i] == s[|s| - 1 - i] && r[j] == s[|s| - 1 - j];
    }
  }

  /** Sorted in the display order `ascending` selects. */
  ghost predicate DisplaySorted<T>(s: seq<T>, le: (T, T) -> bool, ascending: bool) {
    if ascending then SortedBy(s, le) else SortedDescendingBy(s, le)
  }
}
