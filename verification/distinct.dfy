/** Removing later duplicates from a sequence, where two elements are
    duplicates when a key function maps them to the same value. Two
    formulations appear in the sources: filtering by "my index is the first
    index with my key" (`findIndex`), and scanning while remembering the keys
    already seen (`$.inArray` on the list built so far). */
module Distinct {

  /** `s.findIndex(v => key(v) == k)`: the first index whose element has
      key `k`, or -1 when there is none. */
  function FindIndex<T, K(==)>(s: seq<T>, key: T -> K, k: K): (i: int)
    ensures -1 <= i < |s|
    ensures i >= 0 ==> key(s[i]) == k && forall j :: 0 <= j < i ==> key(s[j]) != k
    ensures i == -1 ==> forall j :: 0 <= j < |s| ==> key(s[j]) != k
  {
    if s == [] then -1
    else if key(s[0]) == k then 0
    else
      var i := FindIndex(s[1..], key, k);
      if i == -1 then -1 else i + 1
  }

  /** The set of keys occurring in `s`. */
  function KeysOf<T, K>(s: seq<T>, key: T -> K): set<K> {
    set i | 0 <= i < |s| :: key(s[i])
  }

  predicate DistinctKeys<T, K(==)>(s: seq<T>, key: T -> K) {
    forall i, j :: 0 <= i < j < |s| ==> key(s[i]) != key(s[j])
  }

  /** `r` is `s` with some elements left out, order kept. */
  predicate IsSubsequence<T(==)>(r: seq<T>, s: seq<T>)
    decreases |s|
  {
    if r == [] then true
    else if s == [] then false
    else (r[0] == s[0] && IsSubsequence(r[1..], s[1..])) || IsSubsequence(r, s[1..])
  }

  /** `s.filter((v, i, self) => self.findIndex(w => key(w) == key(v)) === i)`,
      from position `from` onward. */
  function FilterFirstFrom<T, K(==)>(s: seq<T>, key: T -> K, from: nat): (r: seq<T>)
    requires from <= |s|
    ensures multiset(r) <= multiset(s[from..])
    decreases |s| - from
  {
    if from == |s| then []
    else
      assert s[from..] == [s[from]] + s[from + 1..];
      (if FindIndex(s, key, key(s[from])) == from then [s[from]] else [])
      + FilterFirstFrom(s, key, from + 1)
  }

  function FilterFirst<T, K(==)>(s: seq<T>, key: T -> K): (r: seq<T>)
    ensures multiset(r) <= multiset(s)
  {
    assert s[0..] == s;
    FilterFirstFrom(s, key, 0)
  }

  /** The scanning formulation: an element is kept when its key is not in
      `seen`, and its key is then added to `seen`. */
  function KeepFirstSeen<T, K(==)>(t: seq<T>, key: T -> K, seen: set<K>): seq<T>
    decreases |t|
  {
    if t == [] then []
    else if key(t[0]) in seen then KeepFirstSeen(t[1..], key, seen)
    else [t[0]] + KeepFirstSeen(t[1..], key, seen + {key(t[0])})
  }

  /** The scan keeps one element per key not already seen, and nothing with
      a key already seen. */
  lemma {:induction false} ScanKeys<T, K>(t: seq<T>, key: T -> K, seen: set<K>)
    ensures DistinctKeys(KeepFirstSeen(t, key, seen), key)
    ensures forall i :: 0 <= i < |KeepFirstSeen(t, key, seen)| ==> key(KeepFirstSeen(t, key, seen)[i]) !in seen
    ensures KeysOf(KeepFirstSeen(t, key, seen), key) == KeysOf(t, key) - seen
    decreases |t|
  {
    if t != [] {
      KeysOfCons(t, key);
      if key(t[0]) in seen {
        ScanKeys(t[1..], key, seen);
      } else {
        var rest := KeepFirstSeen(t[1..], key, seen + {key(t[0])});
        var r := [t[0]] + rest;
        ScanKeys(t[1..], key, seen + {key(t[0])});
        KeysOfCons(r, key);
        assert r[1..] == rest;
        forall i, j | 0 <= i < j < |r|
          ensures key(r[i]) != key(r[j])
        {
          if i > 0 {
            assert key(r[i]) == key(rest[i - 1]);
          }
          assert key(r[j]) == key(rest[j - 1]);
        }
        assert KeepFirstSeen(t, key, seen) == r;
      }
    }
  }

  /** Every element the scan keeps is the first element of `t` with its key,
      and the kept elements appear in `t` in the same order. */
  lemma {:induction false} ScanKeepsFirst<T, K>(t: seq<T>, key: T -> K, seen: set<K>)
    ensures forall i :: 0 <= i < |KeepFirstSeen(t, key, seen)| ==>
      var r := KeepFirstSeen(t, key, seen);
      FindIndex(t, key, key(r[i])) >= 0 && r[i] == t[FindIndex(t, key, key(r[i]))]
    ensures IsSubsequence(KeepFirstSeen(t, key, seen), t)
    decreases |t|
  {
    if t != [] {
      var r := KeepFirstSeen(t, key, seen);
      if key(t[0]) in seen {
        ScanKeepsFirst(t[1..], key, seen);
        ScanKeys(t[1..], key, seen);
        forall i | 0 <= i < |r|
          ensures FindIndex(t, key, key(r[i])) == FindIndex(t[1..], key, key(r[i])) + 1
        {
          assert key(r[i]) != key(t[0]);
        }
        SubsequenceOfTail(r, t);
      } else {
        var rest := KeepFirstSeen(t[1..], key, seen + {key(t[0])});
        ScanKeepsFirst(t[1..], key, seen + {key(t[0])});
        ScanKeys(t[1..], key, seen + {key(t[0])});
        assert r == [t[0]] + rest;
        assert r[1..] == rest;
        forall i | 1 <= i < |r|
          ensures FindIndex(t, key, key(r[i])) == FindIndex(t[1..], key, key(r[i])) + 1
        {
          assert r[i] == rest[i - 1];
          assert key(r[i]) != key(t[0]);
        }
      }
    }
  }

  lemma KeysOfCons<T, K>(t: seq<T>, key: T -> K)
    requires t != []
    ensures KeysOf(t, key) == {key(t[0])} + KeysOf(t[1..], key)
  {
    forall k | k in KeysOf(t, key)
      ensures k in {key(t[0])} + KeysOf(t[1..], key)
    {
      var i :| 0 <= i < |t| && key(t[i]) == k;
      if i > 0 {
        assert key(t[1..][i - 1]) == k;
      }
    }
    forall k | k in KeysOf(t[1..], key)
      ensures k in KeysOf(t, key)
    {
      var i :| 0 <= i < |t[1..]| && key(t[1..][i]) == k;
      assert key(t[i + 1]) == k;
    }
  }

  lemma {:induction false} SubsequenceOfTail<T>(r: seq<T>, t: seq<T>)
    requires t != [] && IsSubsequence(r, t[1..])
    ensures IsSubsequence(r, t)
  {
  }

  lemma KeysOfPrefix<T, K>(s: seq<T>, key: T -> K, n: nat)
    requires n < |s|
    ensures KeysOf(s[..n + 1], key) == KeysOf(s[..n], key) + {key(s[n])}
  {
    assert s[..n + 1][n] == s[n];
    forall k | k in KeysOf(s[..n + 1], key)
      ensures k in KeysOf(s[..n], key) + {key(s[n])}
    {
      var i :| 0 <= i < n + 1 && key(s[..n + 1][i]) == k;
      if i < n {
        assert key(s[..n][i]) == k;
      }
    }
    forall k | k in KeysOf(s[..n], key)
      ensures k in KeysOf(s[..n + 1], key)
    {
      var i :| 0 <= i < n && key(s[..n][i]) == k;
      assert key(s[..n + 1][i]) == k;
    }
  }

  /** From any position, the `findIndex` filter and the scan agree, with the
      scan having seen the keys of the prefix already passed. */
  lemma {:induction false} FilterFirstFromIsScan<T, K>(s: seq<T>, key: T -> K, from: nat)
    requires from <= |s|
    ensures FilterFirstFrom(s, key, from) == KeepFirstSeen(s[from..], key, KeysOf(s[..from], key))
    decreases |s| - from
  {
    if from < |s| {
      var seen := KeysOf(s[..from], key);
      var k := key(s[from]);
      var t := s[from..];
      assert t[0] == s[from];
      assert t[1..] == s[from + 1..];
      KeysOfPrefix(s, key, from);
      FilterFirstFromIsScan(s, key, from + 1);
      var i := FindIndex(s, key, k);
      if k in seen {
        var j :| 0 <= j < from && key(s[..from][j]) == k;
        assert key(s[j]) == k;
        assert i != from;
        assert seen + {k} == seen;
      } else {
        assert forall j :: 0 <= j < from ==> key(s[j]) != k by {
          forall j | 0 <= j < from
            ensures key(s[j]) != k
          {
            assert key(s[..from][j]) == key(s[j]);
          }
        }
        assert i == from;
      }
    }
  }

  /** The `findIndex` filter computes the same sequence as the scan. */
  lemma FilterFirstIsScan<T, K>(s: seq<T>, key: T -> K)
    ensures FilterFirst(s, key) == KeepFirstSeen(s, key, {})
  {
    FilterFirstFromIsScan(s, key, 0);
    assert s[0..] == s;
    assert KeysOf(s[..0], key) == {};
  }

  /** The `findIndex` filter keeps, in order, exactly one element per key,
      namely the first element with that key. */
  lemma FilterFirstKeepsFirstOccurrences<T, K>(s: seq<T>, key: T -> K)
    ensures IsSubsequence(FilterFirst(s, key), s)
    ensures DistinctKeys(FilterFirst(s, key), key)
    ensures KeysOf(FilterFirst(s, key), key) == KeysOf(s, key)
    ensures forall i :: 0 <= i < |FilterFirst(s, key)| ==>
      var r := FilterFirst(s, key);
      FindIndex(s, key, key(r[i])) >= 0 && r[i] == s[FindIndex(s, key, key(r[i]))]
  {
    FilterFirstIsScan(s, key);
    ScanKeys(s, key, {});
    ScanKeepsFirst(s, key, {});
  }

  /** A sequence without duplicate keys passes the scan unchanged. */
  lemma {:induction false} ScanKeepsDistinct<T, K>(t: seq<T>, key: T -> K, seen: set<K>)
    requires DistinctKeys(t, key)
    requires forall i :: 0 <= i < |t| ==> key(t[i]) !in seen
    ensures KeepFirstSeen(t, key, seen) == t
    decreases |t|
  {
    if t != [] {
      assert forall i :: 0 <= i < |t[1..]| ==> key(t[1..][i]) !in seen + {key(t[0])} by {
        forall i | 0 <= i < |t[1..]|
          ensures key(t[1..][i]) !in seen + {key(t[0])}
        {
          assert t[1..][i] == t[i + 1];
        }
      }
      ScanKeepsDistinct(t[1..], key, seen + {key(t[0])});
    }
  }

  /** Filtering twice is filtering once. */
  lemma FilterFirstIdempotent<T, K>(s: seq<T>, key: T -> K)
    ensures FilterFirst(FilterFirst(s, key), key) == FilterFirst(s, key)
  {
    var r := FilterFirst(s, key);
    FilterFirstKeepsFirstOccurrences(s, key);
    FilterFirstIsScan(r, key);
    ScanKeepsDistinct(r, key, {});
  }
}
