/**
 * A stable insertion sort by a ranking relation, standing for the
 * `ORDER BY … DESC` clauses of the back end and the `Array.prototype.sort`
 * calls of the front end.
 */
module Sorting {

  /** `before(a, b)`: `a` may be placed before `b`. */
  ghost predicate Total<T(!new)>(before: (T, T) -> bool) {
    forall a, b :: before(a, b) || before(b, a)
  }

  ghost predicate Transitive<T(!new)>(before: (T, T) -> bool) {
    forall a, b, c :: before(a, b) && before(b, c) ==> before(a, c)
  }

  predicate Sorted<T>(s: seq<T>, before: (T, T) -> bool) {
    forall i, j :: 0 <= i < j < |s| ==> before(s[i], s[j])
  }

  /**
   * In a sorted sequence, an element with a copy beyond the first `n`
   * positions may be placed after each of those `n`.
   */
  lemma {:induction false} OmittedComesAfter<T>(t: seq<T>, n: int, x: T, k: int, before: (T, T) -> bool)
    requires Sorted(t, before) && 0 <= k < n <= |t|
    requires multiset(t[..n])[x] < multiset(t)[x]
    ensures before(t[k], x)
  {
    assert t == t[..n] + t[n..];
    assert multiset(t) == multiset(t[..n]) + multiset(t[n..]);
    assert x in t[n..];
    var i :| 0 <= i < |t[n..]| && t[n..][i] == x;
    assert t[n + i] == x;
  }

  /** Places `x` after every element that may precede it. */
  function Insert<T>(x: T, s: seq<T>, before: (T, T) -> bool): (r: seq<T>)
    ensures |r| == |s| + 1
    ensures multiset(r) == multiset(s) + multiset{x}
  {
    if s == [] then [x]
    else if before(s[0], x) then
      assert s == [s[0]] + s[1..]; [s[0]] + Insert(x, s[1..], before)
    else [x] + s
  }

  /** `s` rearranged so that consecutive elements respect `before`. */
  function SortBy<T>(s: seq<T>, before: (T, T) -> bool): (r: seq<T>)
    ensures |r| == |s|
    ensures multiset(r) == multiset(s)
  {
    if s == [] then []
    else
      assert s == s[..|s| - 1] + [s[|s| - 1]];
      Insert(s[|s| - 1], SortBy(s[..|s| - 1], before), before)
  }

  lemma {:induction false} InsertSorted<T(!new)>(x: T, s: seq<T>, before: (T, T) -> bool)
    requires Total(before) && Transitive(before)
    requires Sorted(s, before)
    ensures Sorted(Insert(x, s, before), before)
  {
    if s != [] && before(s[0], x) {
      InsertSorted(x, s[1..], before);
      var r := Insert(x, s, before);
      var t := Insert(x, s[1..], before);
      assert r == [s[0]] + t;
      forall j | 0 < j < |r|
        ensures before(r[0], r[j])
      {
        assert r[j] in multiset(t);
        assert r[j] in multiset(s[1..]) || r[j] == x;
        if r[j] != x {
          var k :| 0 <= k < |s[1..]| && s[1..][k] == r[j];
          assert before(s[0], s[k + 1]);
        }
      }
    }
  }

  /** Sorting yields a sequence ordered by `before` that is a permutation of the input. */
  lemma {:induction false} SortBySorted<T(!new)>(s: seq<T>, before: (T, T) -> bool)
    requires Total(before) && Transitive(before)
    ensures Sorted(SortBy(s, before), before)
    ensures multiset(SortBy(s, before)) == multiset(s)
  {
    if s != [] {
      SortBySorted(s[..|s| - 1], before);
      InsertSorted(s[|s| - 1], SortBy(s[..|s| - 1], before), before);
    }
  }
}
