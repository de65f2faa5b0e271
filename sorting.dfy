/** `xs.sort((a, b) => key(b) - key(a))` on a copy: a stable sort into
    non-increasing key order, written as insertion sort. */
module Sorting {

  ghost predicate SortedDesc<T>(s: seq<T>, key: T -> int) {
    forall i, j :: 0 <= i < j < |s| ==> key(s[i]) >= key(s[j])
  }

  /** Puts `x` in front of the first element whose key is not larger, so an
      element already ahead of equal-keyed ones stays ahead. */
  function Insert<T>(x: T, s: seq<T>, key: T -> int): (r: seq<T>)
    requires SortedDesc(s, key)
    ensures SortedDesc(r, key)
    ensures multiset(r) == multiset(s) + multiset{x}
    ensures |r| == |s| + 1
    ensures r[0] == x || (s != [] && r[0] == s[0])
  {
    if s == [] || key(x) >= key(s[0]) then [x] + s
    else
      var rest := Insert(x, s[1..], key);
      assert s == [s[0]] + s[1..];
      assert key(s[0]) >= key(rest[0]);
      [s[0]] + rest
  }

  function SortDesc<T>(s: seq<T>, key: T -> int): (r: seq<T>)
    ensures SortedDesc(r, key)
    ensures multiset(r) == multiset(s)
    ensures |r| == |s|
  {
    if s == [] then []
    else
      assert s == [s[0]] + s[1..];
      Insert(s[0], SortDesc(s[1..], key), key)
  }

  /** The sum of the keys. */
  ghost function SumKeys<T>(s: seq<T>, key: T -> int): int {
    if s == [] then 0 else key(s[0]) + SumKeys(s[1..], key)
  }

  lemma {:induction false} InsertSum<T>(x: T, s: seq<T>, key: T -> int)
    requires SortedDesc(s, key)
    ensures SumKeys(Insert(x, s, key), key) == key(x) + SumKeys(s, key)
  {
    if s != [] && key(x) < key(s[0]) {
      InsertSum(x, s[1..], key);
    }
  }

  /** Sorting reorders, so the total is unchanged. */
  lemma {:induction false} SortSum<T>(s: seq<T>, key: T -> int)
    ensures SumKeys(SortDesc(s, key), key) == SumKeys(s, key)
  {
    if s != [] {
      SortSum(s[1..], key);
      InsertSum(s[0], SortDesc(s[1..], key), key);
    }
  }

  /** No two elements share a value of `f`. */
  ghost predicate DistinctBy<T, U>(s: seq<T>, f: T -> U) {
    forall i, j :: 0 <= i < j < |s| ==> f(s[i]) != f(s[j])
  }

  /** Cutting a sequence keeps it sorted. */
  lemma SortedPrefix<T>(s: seq<T>, key: T -> int, n: nat)
    requires n <= |s| && SortedDesc(s, key)
    ensures SortedDesc(s[..n], key)
  {
    forall i, j | 0 <= i < j < n
      ensures key(s[..n][i]) >= key(s[..n][j])
    {
      assert s[..n][i] == s[i] && s[..n][j] == s[j];
    }
  }

  /** Cutting a sequence keeps its elements apart. */
  lemma DistinctPrefix<T, U>(s: seq<T>, f: T -> U, n: nat)
    requires n <= |s| && DistinctBy(s, f)
    ensures DistinctBy(s[..n], f)
  {
    forall i, j | 0 <= i < j < n
      ensures f(s[..n][i]) != f(s[..n][j])
    {
      assert s[..n][i] == s[i] && s[..n][j] == s[j];
    }
  }

  lemma {:induction false} InsertDistinct<T, U>(x: T, s: seq<T>, key: T -> int, f: T -> U)
    requires SortedDesc(s, key) && DistinctBy(s, f)
    requires forall i :: 0 <= i < |s| ==> f(s[i]) != f(x)
    ensures DistinctBy(Insert(x, s, key), f)
  {
    if s != [] && key(x) < key(s[0]) {
      InsertDistinct(x, s[1..], key, f);
      var r := Insert(x, s[1..], key);
      forall i | 0 <= i < |r|
        ensures f(r[i]) != f(s[0])
      {
        assert r[i] in multiset(s[1..]) + multiset{x};
        if r[i] in multiset(s[1..]) {
          var k :| 0 <= k < |s[1..]| && s[1..][k] == r[i];
          assert s[k + 1] == r[i];
        }
      }
      assert Insert(x, s, key) == [s[0]] + r;
    }
  }

  /** Sorting keeps a collection whose elements differ in `f` that way. */
  lemma {:induction false} SortDistinct<T, U>(s: seq<T>, key: T -> int, f: T -> U)
    requires DistinctBy(s, f)
    ensures DistinctBy(SortDesc(s, key), f)
  {
    if s != [] {
      SortDistinct(s[1..], key, f);
      var t := SortDesc(s[1..], key);
      forall i | 0 <= i < |t|
        ensures f(t[i]) != f(s[0])
      {
        assert t[i] in multiset(s[1..]);
        var k :| 0 <= k < |s[1..]| && s[1..][k] == t[i];
        assert s[k + 1] == t[i];
      }
      InsertDistinct(s[0], t, key, f);
    }
  }
}
