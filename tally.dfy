/** Counting occurrences the way the dashboard charts do it:
    `xs.reduce((acc, x) => { acc[x] = (acc[x] || 0) + 1; return acc }, {})`
    followed by `Object.entries(acc)`. The record is an association list whose
    keys appear in the order they were first seen. */
module Tally {

  /** Number of occurrences of `k` in `ks`. */
  ghost function Occurrences<K>(ks: seq<K>, k: K): nat {
    if ks == [] then 0
    else Occurrences(ks[..|ks| - 1], k) + (if ks[|ks| - 1] == k then 1 else 0)
  }

  ghost predicate DistinctKeys<K>(c: seq<(K, nat)>) {
    forall i, j :: 0 <= i < j < |c| ==> c[i].0 != c[j].0
  }

  /** Position of key `k` in `c`, or `|c|` when absent. */
  function Find<K(==)>(c: seq<(K, nat)>, k: K): (i: nat)
    ensures i <= |c|
    ensures i < |c| ==> c[i].0 == k
    ensures forall j :: 0 <= j < i ==> c[j].0 != k
  {
    if c == [] then 0
    else if c[0].0 == k then 0
    else 1 + Find(c[1..], k)
  }

  /** `acc[k] || 0` */
  function Lookup<K(==)>(c: seq<(K, nat)>, k: K): nat {
    var i := Find(c, k);
    if i < |c| then c[i].1 else 0
  }

  /** `acc[k] = (acc[k] || 0) + 1` */
  function Bump<K(==)>(c: seq<(K, nat)>, k: K): seq<(K, nat)> {
    var i := Find(c, k);
    if i < |c| then c[i := (k, c[i].1 + 1)] else c + [(k, 1)]
  }

  /** The record after the whole reduce. */
  function Tallied<K(==)>(ks: seq<K>): seq<(K, nat)> {
    if ks == [] then [] else Bump(Tallied(ks[..|ks| - 1]), ks[|ks| - 1])
  }

  function Total<K>(c: seq<(K, nat)>): nat {
    if c == [] then 0 else c[0].1 + Total(c[1..])
  }

  /** The reduce as the loop it is: the record is updated in place once per element. */
  method CountAll<K(==)>(ks: seq<K>) returns (acc: seq<(K, nat)>)
    ensures acc == Tallied(ks)
  {
    acc := [];
    var i := 0;
    while i < |ks|
      invariant 0 <= i <= |ks|
      invariant acc == Tallied(ks[..i])
    {
      assert ks[..i + 1][..i] == ks[..i];
      var j := Find(acc, ks[i]);
      if j < |acc| {
        acc := acc[j := (ks[i], acc[j].1 + 1)];
      } else {
        acc := acc + [(ks[i], 1)];
      }
      i := i + 1;
    }
    assert ks[..|ks|] == ks;
  }

  ghost predicate HasKey<K>(c: seq<(K, nat)>, x: K) {
    exists i :: 0 <= i < |c| && c[i].0 == x
  }

  lemma BumpKeeps<K>(c: seq<(K, nat)>, k: K)
    requires DistinctKeys(c)
    ensures DistinctKeys(Bump(c, k))
  {
  }

  lemma BumpHasKey<K>(c: seq<(K, nat)>, k: K, x: K)
    ensures HasKey(Bump(c, k), x) <==> x == k || HasKey(c, x)
  {
    var d := Bump(c, k);
    var i := Find(c, k);
    if HasKey(c, x) {
      var j :| 0 <= j < |c| && c[j].0 == x;
      assert d[j].0 == x;
    }
    if x == k {
      assert d[if i < |c| then i else |c|].0 == x;
    }
    if HasKey(d, x) {
      var j :| 0 <= j < |d| && d[j].0 == x;
      if j < |c| && x != k { assert c[j].0 == x; }
    }
  }

  /** Every key of the record occurs exactly once. */
  lemma {:induction false} TallyDistinct<K>(ks: seq<K>)
    ensures DistinctKeys(Tallied(ks))
  {
    if ks != [] {
      TallyDistinct(ks[..|ks| - 1]);
      BumpKeeps(Tallied(ks[..|ks| - 1]), ks[|ks| - 1]);
    }
  }

  /** The keys of the record are exactly the values that occur in the input. */
  lemma {:induction false} TallyKeys<K>(ks: seq<K>, x: K)
    ensures HasKey(Tallied(ks), x) <==> x in ks
  {
    if ks != [] {
      var init := ks[..|ks| - 1];
      TallyKeys(init, x);
      BumpHasKey(Tallied(init), ks[|ks| - 1], x);
      assert ks == init + [ks[|ks| - 1]];
      assert x in ks <==> x in init || x == ks[|ks| - 1];
    }
  }

  lemma FindDistinct<K>(c: seq<(K, nat)>, i: nat)
    requires DistinctKeys(c) && i < |c|
    ensures Find(c, c[i].0) == i
  {
  }

  lemma BumpLookup<K>(c: seq<(K, nat)>, k: K, x: K)
    requires DistinctKeys(c)
    ensures Lookup(Bump(c, k), x) == Lookup(c, x) + (if k == x then 1 else 0)
  {
    var i := Find(c, k);
    var d := Bump(c, k);
    BumpKeeps(c, k);
    var jx := Find(c, x);
    BumpHasKey(c, k, x);
    if i < |c| {
      if k == x {
        FindDistinct(d, i);
      } else if jx < |c| {
        FindDistinct(d, jx);
      } else {
        assert forall j :: 0 <= j < |d| ==> d[j].0 != x;
        assert Find(d, x) == |d|;
      }
    } else {
      if k == x {
        FindDistinct(d, |c|);
      } else if jx < |c| {
        FindDistinct(d, jx);
      } else {
        assert forall j :: 0 <= j < |d| ==> d[j].0 != x;
        assert Find(d, x) == |d|;
      }
    }
  }

  /** Each key's count is its number of occurrences (absent keys read 0). */
  lemma {:induction false} TallyCounts<K>(ks: seq<K>, x: K)
    ensures Lookup(Tallied(ks), x) == Occurrences(ks, x)
  {
    if ks != [] {
      var init := ks[..|ks| - 1];
      TallyCounts(init, x);
      TallyDistinct(init);
      BumpLookup(Tallied(init), ks[|ks| - 1], x);
    }
  }

  /** The count stored at each position is that key's number of occurrences. */
  lemma TallyEntry<K>(ks: seq<K>, i: nat)
    requires i < |Tallied(ks)|
    ensures Tallied(ks)[i].1 == Occurrences(ks, Tallied(ks)[i].0)
    ensures Tallied(ks)[i].1 >= 1
  {
    TallyDistinct(ks);
    FindDistinct(Tallied(ks), i);
    TallyCounts(ks, Tallied(ks)[i].0);
    TallyKeys(ks, Tallied(ks)[i].0);
    assert HasKey(Tallied(ks), Tallied(ks)[i].0);
    OccursPositive(ks, Tallied(ks)[i].0);
  }

  lemma {:induction false} OccursPositive<K>(ks: seq<K>, x: K)
    requires x in ks
    ensures Occurrences(ks, x) >= 1
  {
    var init := ks[..|ks| - 1];
    if ks[|ks| - 1] != x {
      assert ks == init + [ks[|ks| - 1]];
      OccursPositive(init, x);
    }
  }

  lemma {:induction false} TotalAppend<K>(c: seq<(K, nat)>, e: (K, nat))
    ensures Total(c + [e]) == Total(c) + e.1
  {
    if c != [] {
      assert (c + [e])[1..] == c[1..] + [e];
      TotalAppend(c[1..], e);
    }
  }

  lemma {:induction false} TotalUpdate<K>(c: seq<(K, nat)>, i: nat, e: (K, nat))
    requires i < |c|
    ensures Total(c[i := e]) == Total(c) - c[i].1 + e.1
  {
    if i > 0 {
      assert c[i := e][1..] == c[1..][i - 1 := e];
      TotalUpdate(c[1..], i - 1, e);
    }
  }

  /** The counts add up to the number of inputs. */
  lemma {:induction false} TallyTotal<K>(ks: seq<K>)
    ensures Total(Tallied(ks)) == |ks|
  {
    if ks != [] {
      var init := ks[..|ks| - 1];
      TallyTotal(init);
      var c := Tallied(init);
      var i := Find(c, ks[|ks| - 1]);
      if i < |c| {
        TotalUpdate(c, i, (ks[|ks| - 1], c[i].1 + 1));
      } else {
        TotalAppend(c, (ks[|ks| - 1], 1));
      }
    }
  }
}
