/** Order-preserving selection over sequences (JavaScript `filter`, SQL `WHERE`). */
module Seqs {
  import opened Wrappers

  /** `r` can be obtained from `s` by deleting elements, keeping the order of the rest. */
  predicate IsSubsequence<T(==)>(r: seq<T>, s: seq<T>)
    decreases |s|
  {
    if r == [] then true
    else if s == [] then false
    else if r[0] == s[0] then IsSubsequence(r[1..], s[1..])
    else IsSubsequence(r, s[1..])
  }

  /** The elements of `s` satisfying `f`, in their original order. */
  function Filter<T(!new)>(s: seq<T>, f: T -> bool): (r: seq<T>)
    ensures |r| <= |s|
    ensures forall x :: x in r <==> x in s && f(x)
    ensures forall k :: 0 <= k < |r| ==> f(r[k])
  {
    if s == [] then []
    else (if f(s[0]) then [s[0]] else []) + Filter(s[1..], f)
  }

  lemma {:induction false} FilterIsSubsequence<T(!new)>(s: seq<T>, f: T -> bool)
    ensures IsSubsequence(Filter(s, f), s)
  {
    if s != [] {
      FilterIsSubsequence(s[1..], f);
      var r := Filter(s[1..], f);
      var whole := Filter(s, f);
      if f(s[0]) {
        assert whole == [s[0]] + r;
        assert whole[0] == s[0] && whole[1..] == r;
      } else {
        assert whole == r;
        if r != [] {
          assert f(r[0]);
          assert r[0] != s[0];
        }
      }
    }
  }

  /** Filtering keeps every copy of an element that passes and no copy of one that fails. */
  lemma {:induction false} FilterMultiset<T(!new)>(s: seq<T>, f: T -> bool)
    ensures forall x :: multiset(Filter(s, f))[x] == if f(x) then multiset(s)[x] else 0
  {
    if s != [] {
      FilterMultiset(s[1..], f);
      assert s == [s[0]] + s[1..];
    }
  }

  /** Filtering distributes over concatenation. */
  lemma {:induction false} FilterAppend<T(!new)>(a: seq<T>, b: seq<T>, f: T -> bool)
    ensures Filter(a + b, f) == Filter(a, f) + Filter(b, f)
  {
    if a == [] {
      assert a + b == b;
    } else {
      assert (a + b)[1..] == a[1..] + b;
      FilterAppend(a[1..], b, f);
    }
  }

  /** Filtering keeps every element when all satisfy the test. */
  lemma {:induction false} FilterAll<T(!new)>(s: seq<T>, f: T -> bool)
    requires forall k :: 0 <= k < |s| ==> f(s[k])
    ensures Filter(s, f) == s
  {
    if s != [] {
      FilterAll(s[1..], f);
    }
  }

  /** Two tests that agree on every element select the same elements. */
  lemma {:induction false} FilterCongruent<T(!new)>(s: seq<T>, f: T -> bool, g: T -> bool)
    requires forall k :: 0 <= k < |s| ==> f(s[k]) == g(s[k])
    ensures Filter(s, f) == Filter(s, g)
  {
    if s != [] {
      FilterCongruent(s[1..], f, g);
    }
  }

  /** The sequence in reverse order. */
  function Reverse<T>(s: seq<T>): (r: seq<T>)
    ensures |r| == |s|
    ensures forall k :: 0 <= k < |s| ==> r[k] == s[|s| - 1 - k]
  {
    if s == [] then [] else Reverse(s[1..]) + [s[0]]
  }

  /** Reversing keeps exactly the same elements. */
  lemma {:induction false} ReverseSameElements<T>(s: seq<T>)
    ensures forall x :: x in Reverse(s) <==> x in s
  {
    var r := Reverse(s);
    forall x | x in s
      ensures x in r
    {
      var k :| 0 <= k < |s| && s[k] == x;
      assert r[|s| - 1 - k] == x;
    }
  }

  /** The last `n` elements of `s`, or all of them when there are fewer (PHP `array_slice($s, -n)`). */
  function LastN<T>(s: seq<T>, n: nat): (r: seq<T>)
    ensures |r| == if |s| < n then |s| else n
    ensures forall k :: 0 <= k < |r| ==> r[k] == s[|s| - |r| + k]
  {
    if |s| <= n then s else s[|s| - n..]
  }

  /** `before` holds between every earlier and later element of `s`. */
  predicate Ordered<T>(s: seq<T>, before: (T, T) -> bool) {
    forall i, j :: 0 <= i < j < |s| ==> before(s[i], s[j])
  }

  /** Filtering keeps any pairwise order of the input. */
  lemma {:induction false} FilterOrdered<T(!new)>(s: seq<T>, f: T -> bool, before: (T, T) -> bool)
    requires Ordered(s, before)
    ensures Ordered(Filter(s, f), before)
  {
    if s != [] {
      FilterOrdered(s[1..], f, before);
      var rest := Filter(s[1..], f);
      forall j | 0 <= j < |rest|
        ensures before(s[0], rest[j])
      {
        assert rest[j] in s[1..];
      }
    }
  }

  /** The index of the first element satisfying `f` (JavaScript `findIndex`, with None for -1). */
  function FirstMatch<T>(s: seq<T>, f: T -> bool): (r: Option<nat>)
    ensures r.Some? ==> r.value < |s| && f(s[r.value]) && forall j :: 0 <= j < r.value ==> !f(s[j])
    ensures r.None? <==> forall j :: 0 <= j < |s| ==> !f(s[j])
  {
    if s == [] then None
    else if f(s[0]) then Some(0)
    else
      var rest := FirstMatch(s[1..], f);
      assert forall j :: 1 <= j < |s| ==> s[j] == s[1..][j - 1];
      if rest.Some? then Some(rest.value + 1) else None
  }

  /** An element satisfying `f` with none before it is the first match. */
  lemma {:induction false} FirstMatchAt<T>(s: seq<T>, f: T -> bool, i: nat)
    requires i < |s| && f(s[i])
    requires forall j :: 0 <= j < i ==> !f(s[j])
    ensures FirstMatch(s, f) == Some(i)
  {
  }
}
