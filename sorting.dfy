/**
 * Python's `sorted` on lists whose elements are totally preordered by `<=`,
 * modelled as insertion sort, and the duplicate removal that `set(...)` adds
 * before a `sorted(set(...))`.
 */
module Sorting {

  /** `le` is total and transitive: the `<=` that Python's sort relies on. */
  ghost predicate IsTotalPreorder<T(!new)>(le: (T, T) -> bool)
  {
    && (forall a, b :: le(a, b) || le(b, a))
    && (forall a, b, c :: le(a, b) && le(b, c) ==> le(a, c))
  }

  ghost predicate SortedBy<T>(s: seq<T>, le: (T, T) -> bool)
  {
    forall i, j :: 0 <= i < j < |s| ==> le(s[i], s[j])
  }

  /** No element occurs twice. */
  ghost predicate Distinct<T>(s: seq<T>)
  {
    forall i, j :: 0 <= i < j < |s| ==> s[i] != s[j]
  }

  /** Every element of `t` is at least `h`. */
  lemma BoundAfterInsert<T(!new)>(h: T, x: T, s: seq<T>, t: seq<T>, le: (T, T) -> bool)
    requires forall k :: 0 <= k < |s| ==> le(h, s[k])
    requires le(h, x)
    requires multiset(t) == multiset(s) + multiset{x}
    ensures forall k :: 0 <= k < |t| ==> le(h, t[k])
  {
    forall k | 0 <= k < |t|
      ensures le(h, t[k])
    {
      assert t[k] in multiset(t);
      if t[k] != x {
        assert t[k] in multiset(s);
        var m :| 0 <= m < |s| && s[m] == t[k];
      }
    }
  }

  function InsertBy<T(==,!new)>(x: T, s: seq<T>, le: (T, T) -> bool): (r: seq<T>)
    requires IsTotalPreorder(le) && SortedBy(s, le)
    ensures SortedBy(r, le)
    ensures multiset(r) == multiset(s) + multiset{x}
  {
    if s == [] then [x]
    else if le(x, s[0]) then
      assert s == [s[0]] + s[1..];
      [x] + s
    else
      assert le(s[0], x);
      assert s == [s[0]] + s[1..];
      var t := InsertBy(x, s[1..], le);
      BoundAfterInsert(s[0], x, s[1..], t, le);
      [s[0]] + t
  }

  /** Python's `sorted(s)`: an ordered permutation of `s`. */
  function SortBy<T(==,!new)>(s: seq<T>, le: (T, T) -> bool): (r: seq<T>)
    requires IsTotalPreorder(le)
    ensures SortedBy(r, le)
    ensures multiset(r) == multiset(s)
    ensures |r| == |s|
  {
    if s == [] then []
    else
      assert s == [s[0]] + s[1..];
      InsertBy(s[0], SortBy(s[1..], le), le)
  }

  /** The first element of a sorted non-empty list is its least element. */
  lemma {:induction false} SortedHeadIsLeast<T(!new)>(s: seq<T>, le: (T, T) -> bool)
    requires IsTotalPreorder(le) && s != []
    ensures SortBy(s, le)[0] in s
    ensures forall y :: y in s ==> le(SortBy(s, le)[0], y)
  {
    var r := SortBy(s, le);
    assert r[0] in multiset(r);
    forall y | y in s
      ensures le(r[0], y)
    {
      assert y in multiset(r);
      var j :| 0 <= j < |r| && r[j] == y;
      if j == 0 {
        assert le(y, y) || le(y, y);
      }
    }
  }

  /** The duplicate-free list of the elements of `s`, first occurrences kept in order. */
  function Dedup<T(==,!new)>(s: seq<T>): (r: seq<T>)
    ensures Distinct(r)
    ensures forall x :: x in r <==> x in s
    decreases |s|
  {
    if s == [] then []
    else
      var d := Dedup(s[..|s| - 1]);
      assert s == s[..|s| - 1] + [s[|s| - 1]];
      if s[|s| - 1] in d then d else d + [s[|s| - 1]]
  }

  lemma {:induction false} DistinctCount<T>(s: seq<T>, x: T)
    requires Distinct(s)
    ensures multiset(s)[x] <= 1
    decreases |s|
  {
    if s != [] {
      assert s == [s[0]] + s[1..];
      DistinctCount(s[1..], x);
      if x == s[0] {
        assert x !in s[1..];
      }
    }
  }

  lemma RepeatedCount<T>(s: seq<T>, i: nat, j: nat)
    requires i < j < |s| && s[i] == s[j]
    ensures multiset(s)[s[i]] >= 2
  {
    assert s == s[..j] + s[j..];
    assert s[i] in s[..j];
    assert s[j..][0] == s[j];
  }

  /** A permutation of a duplicate-free list is duplicate-free. */
  lemma DistinctPermutation<T>(a: seq<T>, b: seq<T>)
    requires Distinct(a) && multiset(a) == multiset(b)
    ensures Distinct(b)
  {
    forall i, j | 0 <= i < j < |b|
      ensures b[i] != b[j]
    {
      if b[i] == b[j] {
        RepeatedCount(b, i, j);
        DistinctCount(a, b[i]);
      }
    }
  }
}
