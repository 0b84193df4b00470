/** The three stores of query results: the list a handler's context accumulates (durable/context.go),
    the map of an in-memory instance and the merged list that the Temporal workflow carries. All three
    give the last value written under a name. */
module Queries {
  import opened Wrappers

  datatype QueryEntry<V> = QueryEntry(queryName: string, result: V)

  /** Replaces the first entry of that name, or appends. */
  function Upsert<V>(list: seq<QueryEntry<V>>, e: QueryEntry<V>): seq<QueryEntry<V>> {
    if list == [] then [e]
    else if list[0].queryName == e.queryName then [e] + list[1..]
    else [list[0]] + Upsert(list[1..], e)
  }

  function Merge<V>(existing: seq<QueryEntry<V>>, entries: seq<QueryEntry<V>>): seq<QueryEntry<V>>
    decreases |entries|
  {
    if entries == [] then existing else Merge(Upsert(existing, entries[0]), entries[1..])
  }

  /** The in-memory store: later entries overwrite. */
  function WriteAll<V>(m: map<string, V>, entries: seq<QueryEntry<V>>): map<string, V>
    decreases |entries|
  {
    if entries == [] then m else WriteAll(m[entries[0].queryName := entries[0].result], entries[1..])
  }

  function Lookup<V>(list: seq<QueryEntry<V>>, name: string): Option<V> {
    if list == [] then None
    else if list[0].queryName == name then Some(list[0].result)
    else Lookup(list[1..], name)
  }

  /** The reference: what the last write under a name wrote. */
  function LastWrite<V>(writes: seq<QueryEntry<V>>, name: string): Option<V> {
    if writes == [] then None
    else if writes[|writes| - 1].queryName == name then Some(writes[|writes| - 1].result)
    else LastWrite(writes[..|writes| - 1], name)
  }

  function Find<V>(m: map<string, V>, name: string): Option<V> {
    if name in m then Some(m[name]) else None
  }

  function Names<V>(list: seq<QueryEntry<V>>): (names: seq<string>)
    ensures |names| == |list| && forall i :: 0 <= i < |list| ==> names[i] == list[i].queryName
  {
    seq(|list|, i requires 0 <= i < |list| => list[i].queryName)
  }

  ghost predicate Unique<V>(list: seq<QueryEntry<V>>) {
    forall i, j :: 0 <= i < j < |list| ==> list[i].queryName != list[j].queryName
  }

  /** Each name once, where it appears first. */
  function FirstAppearances(names: seq<string>): seq<string> {
    if names == [] then []
    else
      var before, last := FirstAppearances(names[..|names| - 1]), names[|names| - 1];
      if last in before then before else before + [last]
  }

  // ----- Writing one entry -----

  lemma {:induction false} UpsertLookup<V>(list: seq<QueryEntry<V>>, e: QueryEntry<V>, n: string)
    ensures Lookup(Upsert(list, e), n) == if n == e.queryName then Some(e.result) else Lookup(list, n)
  {
    if list != [] {
      UpsertLookup(list[1..], e, n);
      assert Upsert(list, e)[1..] == if list[0].queryName == e.queryName then list[1..] else Upsert(list[1..], e);
    }
  }

  lemma {:induction false} UpsertNames<V>(list: seq<QueryEntry<V>>, e: QueryEntry<V>)
    ensures Names(Upsert(list, e)) == if e.queryName in Names(list) then Names(list) else Names(list) + [e.queryName]
  {
    if list != [] {
      var h, tail := list[0].queryName, list[1..];
      NamesCons(list[0], tail);
      assert list == [list[0]] + tail;
      if h == e.queryName {
        NamesCons(e, tail);
        assert Names(list)[0] == e.queryName;
      } else {
        UpsertNames(tail, e);
        NamesCons(list[0], Upsert(tail, e));
        ConsUnlessIn(h, Names(tail), e.queryName);
      }
    } else {
      NamesCons(e, []);
    }
  }

  lemma ConsUnlessIn(h: string, tail: seq<string>, n: string)
    requires h != n
    ensures [h] + (if n in tail then tail else tail + [n]) == (if n in [h] + tail then [h] + tail else [h] + tail + [n])
  {
    ConsMember(h, tail, n);
    assert [h] + (tail + [n]) == [h] + tail + [n];
  }

  lemma NamesCons<V>(e: QueryEntry<V>, tail: seq<QueryEntry<V>>)
    ensures Names([e] + tail) == [e.queryName] + Names(tail)
  {}

  lemma ConsMember(h: string, tail: seq<string>, n: string)
    ensures n in [h] + tail <==> n == h || n in tail
  {}

  lemma UpsertUnique<V>(list: seq<QueryEntry<V>>, e: QueryEntry<V>)
    requires Unique(list)
    ensures Unique(Upsert(list, e))
  {
    UpsertNames(list, e);
    var up := Upsert(list, e);
    forall i, j | 0 <= i < j < |up| ensures up[i].queryName != up[j].queryName {
      assert Names(up)[i] == up[i].queryName && Names(up)[j] == up[j].queryName;
      if j < |list| {
        assert Names(list)[i] == list[i].queryName && Names(list)[j] == list[j].queryName;
      } else {
        assert Names(list)[i] in Names(list);
      }
    }
  }

  lemma {:induction false} MergeSnoc<V>(a: seq<QueryEntry<V>>, b: seq<QueryEntry<V>>, c: seq<QueryEntry<V>>)
    ensures Merge(a, b + c) == Merge(Merge(a, b), c)
    decreases |b|
  {
    if b == [] {
      assert b + c == c;
    } else {
      assert (b + c)[1..] == b[1..] + c;
      MergeSnoc(Upsert(a, b[0]), b[1..], c);
    }
  }

  lemma {:induction false} WriteAllConcat<V>(m: map<string, V>, b: seq<QueryEntry<V>>, c: seq<QueryEntry<V>>)
    ensures WriteAll(m, b + c) == WriteAll(WriteAll(m, b), c)
    decreases |b|
  {
    if b == [] {
      assert b + c == c;
    } else {
      assert (b + c)[1..] == b[1..] + c;
      WriteAllConcat(m[b[0].queryName := b[0].result], b[1..], c);
    }
  }

  // ----- Reading back -----

  /** Merging keeps names unique and in first-appearance order, and a lookup finds the last write. */
  lemma {:induction false} MergeReads<V>(a: seq<QueryEntry<V>>, b: seq<QueryEntry<V>>)
    requires Unique(a)
    ensures Unique(Merge(a, b))
    ensures forall n :: Lookup(Merge(a, b), n) == if LastWrite(b, n).Some? then LastWrite(b, n) else Lookup(a, n)
  {
    if b != [] {
      var init, last := b[..|b| - 1], b[|b| - 1];
      assert b == init + [last];
      MergeReads(a, init);
      MergeSnoc(a, init, [last]);
      assert Merge(Merge(a, init), [last]) == Upsert(Merge(a, init), last);
      UpsertUnique(Merge(a, init), last);
      forall n
        ensures Lookup(Upsert(Merge(a, init), last), n)
          == if n == last.queryName then Some(last.result) else Lookup(Merge(a, init), n)
      {
        UpsertLookup(Merge(a, init), last, n);
      }
    }
  }

  lemma {:induction false} MergeOrder<V>(b: seq<QueryEntry<V>>)
    ensures Unique(Merge([], b)) && Names(Merge([], b)) == FirstAppearances(Names(b))
  {
    if b != [] {
      var init, last := b[..|b| - 1], b[|b| - 1];
      assert b == init + [last];
      MergeOrder(init);
      MergeSnoc([], init, [last]);
      assert Merge(Merge([], init), [last]) == Upsert(Merge([], init), last);
      UpsertUnique(Merge([], init), last);
      UpsertNames(Merge([], init), last);
      assert Names(b)[..|b| - 1] == Names(init);
    }
  }

  lemma {:induction false} WriteAllReads<V>(m: map<string, V>, b: seq<QueryEntry<V>>)
    ensures forall n :: Find(WriteAll(m, b), n) == if LastWrite(b, n).Some? then LastWrite(b, n) else Find(m, n)
  {
    if b != [] {
      var init, last := b[..|b| - 1], b[|b| - 1];
      assert b == init + [last];
      WriteAllReads(m, init);
      WriteAllConcat(m, init, [last]);
      assert WriteAll(WriteAll(m, init), [last]) == WriteAll(m, init)[last.queryName := last.result];
    }
  }

  lemma {:induction false} LookupIsLastWrite<V>(list: seq<QueryEntry<V>>)
    requires Unique(list)
    ensures forall n :: Lookup(list, n) == LastWrite(list, n)
  {
    MergeReads<V>([], list);
    MergeOfUnique([], list);
    assert [] + list == list;
  }

  /** Merging entries with new names appends them. */
  lemma {:induction false} MergeOfUnique<V>(a: seq<QueryEntry<V>>, b: seq<QueryEntry<V>>)
    requires Unique(a + b)
    ensures Merge(a, b) == a + b
    decreases |b|
  {
    if b == [] {
      assert a + b == a;
    } else {
      forall i | 0 <= i < |a| ensures a[i].queryName != b[0].queryName {
        assert (a + b)[i] == a[i] && (a + b)[|a|] == b[0];
      }
      UpsertNew(a, b[0]);
      assert (a + [b[0]]) + b[1..] == a + b;
      MergeOfUnique(a + [b[0]], b[1..]);
    }
  }

  lemma {:induction false} UpsertNew<V>(a: seq<QueryEntry<V>>, e: QueryEntry<V>)
    requires forall i :: 0 <= i < |a| ==> a[i].queryName != e.queryName
    ensures Upsert(a, e) == a + [e]
  {
    if a != [] {
      UpsertNew(a[1..], e);
      assert [a[0]] + (a[1..] + [e]) == a + [e];
    }
  }

  // ----- Filtering the writes of one handler through its context loses nothing -----

  lemma {:induction false} UpsertTwice<V>(a: seq<QueryEntry<V>>, e: QueryEntry<V>, f: QueryEntry<V>)
    requires e.queryName == f.queryName
    ensures Upsert(Upsert(a, e), f) == Upsert(a, f)
  {
    if a != [] {
      UpsertTwice(a[1..], e, f);
      assert Upsert(a, e)[1..] == if a[0].queryName == e.queryName then a[1..] else Upsert(a[1..], e);
    }
  }

  lemma {:induction false} UpsertCommute<V>(a: seq<QueryEntry<V>>, e: QueryEntry<V>, f: QueryEntry<V>)
    requires e.queryName != f.queryName && e.queryName in Names(a)
    ensures Upsert(Upsert(a, e), f) == Upsert(Upsert(a, f), e)
  {
    var tail := a[1..];
    assert a == [a[0]] + tail;
    if a[0].queryName == e.queryName {
      assert Upsert(a, e)[1..] == tail;
      assert Upsert(a, f)[1..] == Upsert(tail, f);
    } else {
      var i :| 0 <= i < |a| && Names(a)[i] == e.queryName;
      assert Names(tail)[i - 1] == e.queryName;
      UpsertCommute(tail, e, f);
      assert Upsert(a, e)[1..] == Upsert(tail, e);
      if a[0].queryName == f.queryName {
        assert Upsert(a, f)[1..] == tail;
      } else {
        assert Upsert(a, f)[1..] == Upsert(tail, f);
      }
    }
  }

  lemma {:induction false} MergeThenUpsert<V>(a: seq<QueryEntry<V>>, b: seq<QueryEntry<V>>, e: QueryEntry<V>)
    requires e.queryName in Names(a) && e.queryName !in Names(b)
    ensures Merge(Upsert(a, e), b) == Upsert(Merge(a, b), e)
    decreases |b|
  {
    if b != [] {
      assert Names(b)[0] == b[0].queryName;
      UpsertCommute(a, e, b[0]);
      UpsertKeepsNames(a, b[0], e.queryName);
      forall i | 0 <= i < |b| - 1 ensures Names(b[1..])[i] == Names(b)[i + 1] {}
      MergeThenUpsert(Upsert(a, b[0]), b[1..], e);
    }
  }

  lemma UpsertKeepsNames<V>(a: seq<QueryEntry<V>>, e: QueryEntry<V>, n: string)
    ensures n in Names(Upsert(a, e)) <==> n in Names(a) || n == e.queryName
  {
    UpsertNames(a, e);
  }

  lemma {:induction false} MergeOfUpsert<V>(a: seq<QueryEntry<V>>, b: seq<QueryEntry<V>>, e: QueryEntry<V>)
    requires Unique(b)
    ensures Merge(a, Upsert(b, e)) == Upsert(Merge(a, b), e)
    decreases |b|
  {
    if b != [] {
      var tail := b[1..];
      assert Unique(tail);
      if b[0].queryName == e.queryName {
        assert Upsert(b, e)[1..] == tail;
        UpsertKeepsNames(a, b[0], e.queryName);
        UpsertTwice(a, b[0], e);
        forall i | 0 <= i < |tail| ensures Names(tail)[i] != e.queryName {
          assert b[i + 1] == tail[i];
        }
        MergeThenUpsert(Upsert(a, b[0]), tail, e);
      } else {
        assert Upsert(b, e)[1..] == Upsert(tail, e);
        MergeOfUpsert(Upsert(a, b[0]), tail, e);
      }
    }
  }

  /** A handler's writes, filtered through its context's list, merge as if they were merged one by one. */
  lemma {:induction false} MergeOfContext<V>(a: seq<QueryEntry<V>>, writes: seq<QueryEntry<V>>)
    ensures Merge(a, Merge([], writes)) == Merge(a, writes)
  {
    if writes != [] {
      var init, last := writes[..|writes| - 1], writes[|writes| - 1];
      assert writes == init + [last];
      MergeOfContext(a, init);
      MergeSnoc([], init, [last]);
      MergeSnoc(a, init, [last]);
      MergeOrder(init);
      MergeOfUpsert(a, Merge([], init), last);
      assert Merge(Merge([], init), [last]) == Upsert(Merge([], init), last);
      assert Merge(Merge(a, init), [last]) == Upsert(Merge(a, init), last);
    }
  }

  // ----- Whole runs -----

  /** All writes of a sequence of handler runs, in order. */
  function Flatten<V>(runs: seq<seq<QueryEntry<V>>>): seq<QueryEntry<V>> {
    if runs == [] then [] else Flatten(runs[..|runs| - 1]) + runs[|runs| - 1]
  }

  /** The in-memory map after those runs: each run's context list is applied to the map. */
  function MapAfter<V>(runs: seq<seq<QueryEntry<V>>>): map<string, V> {
    if runs == [] then map[] else WriteAll(MapAfter(runs[..|runs| - 1]), Merge([], runs[|runs| - 1]))
  }

  /** The workflow's list after those runs: each run's context list is merged into it. */
  function ListAfter<V>(runs: seq<seq<QueryEntry<V>>>): seq<QueryEntry<V>> {
    if runs == [] then [] else Merge(ListAfter(runs[..|runs| - 1]), Merge([], runs[|runs| - 1]))
  }

  /** For any sequence of handler runs and any writes in them, the in-memory map and the Temporal list
      both give the last write under every name, and the list holds each written name once, in the
      order of first appearance. */
  lemma {:induction false} StoresAgree<V>(runs: seq<seq<QueryEntry<V>>>)
    ensures forall n :: Find(MapAfter(runs), n) == LastWrite(Flatten(runs), n)
    ensures forall n :: Lookup(ListAfter(runs), n) == LastWrite(Flatten(runs), n)
    ensures ListAfter(runs) == Merge([], Flatten(runs))
    ensures Unique(ListAfter(runs)) && Names(ListAfter(runs)) == FirstAppearances(Names(Flatten(runs)))
  {
    StoresAreFolds(runs);
    MergeOrder(Flatten(runs));
    MergeReads([], Flatten(runs));
    WriteAllReads<V>(map[], Flatten(runs));
    WriteAllOfContext<V>(map[], Flatten(runs));
  }

  lemma {:induction false} StoresAreFolds<V>(runs: seq<seq<QueryEntry<V>>>)
    ensures ListAfter(runs) == Merge([], Flatten(runs)) && MapAfter(runs) == WriteAll(map[], Flatten(runs))
  {
    if runs != [] {
      var init, last := runs[..|runs| - 1], runs[|runs| - 1];
      StoresAreFolds(init);
      MergeOfContext(ListAfter(init), last);
      MergeSnoc([], Flatten(init), last);
      WriteAllOfContext(MapAfter(init), last);
      WriteAllConcat(map[], Flatten(init), last);
    }
  }

  lemma WriteAllOfContext<V>(m: map<string, V>, writes: seq<QueryEntry<V>>)
    ensures WriteAll(m, Merge([], writes)) == WriteAll(m, writes)
  {
    var list := Merge([], writes);
    MergeOrder(writes);
    MergeReads([], writes);
    LookupIsLastWrite(list);
    WriteAllReads(m, list);
    WriteAllReads(m, writes);
    var a, b := WriteAll(m, list), WriteAll(m, writes);
    forall n ensures Find(a, n) == Find(b, n) {
      assert Lookup(list, n) == LastWrite(list, n);
    }
    SameFinds(a, b);
  }

  lemma SameFinds<V>(a: map<string, V>, b: map<string, V>)
    requires forall n :: Find(a, n) == Find(b, n)
    ensures a == b
  {
    forall n ensures n in a <==> n in b {
      assert Find(a, n) == Find(b, n);
    }
    forall n | n in a ensures a[n] == b[n] {
      assert Find(a, n) == Find(b, n);
    }
  }

  // ----- The loops -----

  /** mergeQueryResults: the nested loop over new entries and the list built so far. */
  method MergeQueryResults<V>(existing: seq<QueryEntry<V>>, newEntries: seq<QueryEntry<V>>)
    returns (result: seq<QueryEntry<V>>)
    ensures result == Merge(existing, newEntries)
  {
    result := existing;
    for k := 0 to |newEntries|
      invariant Merge(result, newEntries[k..]) == Merge(existing, newEntries)
    {
      var nqr := newEntries[k];
      var found, i := false, 0;
      ghost var before := result;
      while i < |result| && !found
        invariant 0 <= i <= |result|
        invariant !found ==> result == before && Upsert(before, nqr) == before[..i] + Upsert(before[i..], nqr)
        invariant found ==> result == Upsert(before, nqr)
        decreases |result| - i, !found
      {
        assert before[i..] == [before[i]] + before[i + 1..];
        if result[i].queryName == nqr.queryName {
          assert Upsert(before[i..], nqr) == [nqr] + before[i + 1..];
          result := result[i := nqr];
          found := true;
        } else {
          assert before[..i] + ([before[i]] + Upsert(before[i + 1..], nqr))
            == before[..i + 1] + Upsert(before[i + 1..], nqr);
          i := i + 1;
        }
      }
      if !found {
        assert before[i..] == [] && before[..i] == before;
        result := result + [nqr];
      }
      assert newEntries[k..][1..] == newEntries[k + 1..];
    }
  }

  /** The loop of applyContextEffects that copies a context's entries into the instance's map. */
  method ApplyQueryResults<V>(m: map<string, V>, entries: seq<QueryEntry<V>>) returns (m': map<string, V>)
    ensures m' == WriteAll(m, entries)
  {
    m' := m;
    for k := 0 to |entries|
      invariant WriteAll(m', entries[k..]) == WriteAll(m, entries)
    {
      assert entries[k..][1..] == entries[k + 1..];
      m' := m'[entries[k].queryName := entries[k].result];
    }
  }
}
