/** Counting, and a few facts about collections that several proofs share. */
module Counting {

  function Count<T>(s: seq<T>, p: T -> bool): nat {
    if s == [] then 0 else Count(s[..|s| - 1], p) + (if p(s[|s| - 1]) then 1 else 0)
  }

  lemma CountNext<T>(s: seq<T>, n: nat, p: T -> bool)
    requires n < |s|
    ensures Count(s[..n + 1], p) == Count(s[..n], p) + (if p(s[n]) then 1 else 0)
  {
    assert s[..n + 1][..n] == s[..n];
  }

  lemma SizeOfInsert<K, V>(m: map<K, V>, k: K, v: V)
    ensures |m[k := v]| == |m| + (if k in m then 0 else 1)
  {
    assert m[k := v].Keys == m.Keys + {k};
  }

  lemma SizeOfRemove<K, V>(m: map<K, V>, k: K)
    ensures |m - {k}| == |m| - (if k in m then 1 else 0)
  {
    assert (m - {k}).Keys == m.Keys - {k};
  }

  lemma Unsnoc<T>(s: seq<T>)
    requires s != []
    ensures s == s[..|s| - 1] + [s[|s| - 1]]
  {}
}
