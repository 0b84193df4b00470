/** Routines and the children they start: what a child sends to its parent is never dropped, and where the
    messages under a key came from. */
module Families {
  import opened Counting
  import opened Wrappers
  import opened Durable
  import opened Mailbox
  import opened InMemory
  import opened History
  import opened Routing
  import opened Reachable

  // ----- Children and parents -----

  /** The parent of a routine exists, and nothing that the routine sent to it was dropped. */
  ghost predicate Reaches<V>(insts: map<string, Inst<V>>, c: string)
    requires c in insts
  {
    insts[c].parent.Routine? ==> insts[c].parent.id in insts && Dropped(insts[c].drops, insts[c].parent.id) == []
  }

  ghost predicate Lineage<V>(insts: map<string, Inst<V>>) {
    forall c :: c in insts ==> Reaches(insts, c)
  }

  /** Parents and drops are as before, or the instance is new. */
  lemma LineageStays<V>(a: map<string, Inst<V>>, b: map<string, Inst<V>>)
    requires Lineage(a) && a.Keys <= b.Keys
    requires forall c :: c in a ==> b[c].parent == a[c].parent && b[c].drops == a[c].drops
    requires forall c :: c in b && c !in a ==> b[c].drops == [] && (b[c].parent.Routine? ==> b[c].parent.id in a)
    ensures Lineage(b)
  {
    forall c | c in b ensures Reaches(b, c) {
      if c in a {
        assert Reaches(a, c);
      }
    }
  }

  lemma LineageStep<V>(reg: Recovery, s: System<V>, l: Label<V>)
    requires Lineage(s.insts) && Step(reg, s, l).Some?
    ensures Lineage(Step(reg, s, l).value.insts)
  {
    var after := Step(reg, s, l).value.insts;
    match l
    case Apply(id) => LineageApply(s.insts, id);
    case Act(id, action) =>
      ActViews(reg, s.now, s.insts[id], action);
      LineageStays(s.insts, after);
    case Tick(_) =>
    case Go(_, _, _, _) => LineageStays(s.insts, after);
    case Send(_, _, _) => LineageStays(s.insts, after);
    case Call(_, _, _, _) => LineageStays(s.insts, after);
  }

  lemma LineageApply<V>(insts: map<string, Inst<V>>, id: string)
    requires Lineage(insts) && id in insts && Busy(insts[id]) && ApplyOne(insts, id).Some?
    ensures Lineage(ApplyOne(insts, id).value)
  {
    var i, after := insts[id], ApplyOne(insts, id).value;
    if i.phase.starts == [] && i.phase.sends[0].routineID !in insts {
      assert after == insts[id := after[id]] && after[id].parent == i.parent;
      forall c | c in after ensures Reaches(after, c) {
        assert Reaches(insts, c);
        if c == id && i.parent.Routine? {
          DroppedSnoc(i.drops, Drop(|i.runs| - 1, i.phase.sends[0]), i.parent.id);
        }
      }
    } else {
      LineageStays(insts, after);
    }
  }

  lemma {:induction false} LineageKept<V>(reg: Recovery, s: System<V>, labels: seq<Label<V>>)
    requires Lineage(s.insts) && Exec(reg, s, labels).Some?
    ensures Lineage(Exec(reg, s, labels).value.insts)
  {
    if labels != [] {
      var init := labels[..|labels| - 1];
      LineageKept(reg, s, init);
      LineageStep(reg, Exec(reg, s, init).value, labels[|labels| - 1]);
    }
  }

  /** In every reachable state, all that a routine's runs asked to send to its parent has arrived there, in
      order, or is about to. */
  lemma ChildReachesParent<V>(reg: Recovery, now: int, labels: seq<Label<V>>, s: System<V>, c: string, p: string)
    requires Reached(reg, now, labels, s) && c in s.insts && s.insts[c].parent == Routine(p)
    ensures p in s.insts
    ensures Requests(reg, s.insts[c].runs, p) == Arrived(s.insts, c, p) + To(PendingOf(s.insts, c), p)
  {
    SendsRouted(reg, now, labels, s, c, p);
    LineageKept(reg, EmptySystem(now), labels);
    assert Reaches(s.insts, c);
    assert [] + Arrived(s.insts, c, p) == Arrived(s.insts, c, p);
  }

  // ----- Messages by origin -----

  /** The messages under `key` that came from these routines, one routine after the other. */
  function Gathered<V>(sent: seq<SendMsg<V>>, origins: seq<Origin>, key: string, ids: seq<string>): seq<V> {
    if ids == [] then []
    else
      var n := |ids| - 1;
      Gathered(sent, origins, key, ids[..n]) + Msgs(From(sent, origins, Routine(ids[n])), key)
  }

  ghost predicate DistinctIDs(ids: seq<string>) {
    forall x, y :: 0 <= x < y < |ids| ==> ids[x] != ids[y]
  }

  lemma MsgsFromSnoc<V>(sent: seq<SendMsg<V>>, origins: seq<Origin>, m: SendMsg<V>, o: Origin, key: string, id: string)
    requires |sent| == |origins|
    ensures Msgs(From(sent + [m], origins + [o], Routine(id)), key)
      == Msgs(From(sent, origins, Routine(id)), key) + (if m.key == key && o == Routine(id) then [m.msg] else [])
  {
    FromSnoc(sent, origins, m, o, Routine(id));
    if o == Routine(id) {
      MsgsSnoc(From(sent, origins, o), m, key);
    } else {
      var f := From(sent, origins, Routine(id));
      assert f + [] == f && Msgs(f, key) + [] == Msgs(f, key);
    }
  }

  lemma Regroup<T>(a: seq<T>, a': seq<T>, b: seq<T>, more: seq<T>, x: multiset<T>)
    requires multiset(a') == multiset(a) + x
    ensures multiset(a' + (b + more)) == multiset(a + b) + (x + multiset(more))
  {}

  /** What one more message adds. */
  function Share<V>(m: SendMsg<V>, o: Origin, key: string, ids: seq<string>): seq<V> {
    if m.key == key && o.Routine? && o.id in ids then [m.msg] else []
  }

  lemma ShareSnoc<V>(m: SendMsg<V>, o: Origin, key: string, ids: seq<string>)
    requires DistinctIDs(ids) && ids != []
    ensures var n := |ids| - 1;
      Share(m, o, key, ids)
        == Share(m, o, key, ids[..n]) + (if m.key == key && o == Routine(ids[n]) then [m.msg] else [])
  {
    var n := |ids| - 1;
    assert ids == ids[..n] + [ids[n]];
    assert ids[n] !in ids[..n];
  }

  lemma {:induction false} GatheredSnoc<V>(sent: seq<SendMsg<V>>, origins: seq<Origin>, m: SendMsg<V>, o: Origin,
                                           key: string, ids: seq<string>)
    requires |sent| == |origins| && DistinctIDs(ids)
    ensures multiset(Gathered(sent + [m], origins + [o], key, ids))
      == multiset(Gathered(sent, origins, key, ids)) + multiset(Share(m, o, key, ids))
  {
    if ids != [] {
      var n := |ids| - 1;
      GatheredSnoc(sent, origins, m, o, key, ids[..n]);
      GatheredSnocLast(sent, origins, m, o, key, ids);
    }
  }

  lemma GatheredSnocLast<V>(sent: seq<SendMsg<V>>, origins: seq<Origin>, m: SendMsg<V>, o: Origin, key: string,
                            ids: seq<string>)
    requires |sent| == |origins| && DistinctIDs(ids) && ids != []
    requires var init := ids[..|ids| - 1];
      multiset(Gathered(sent + [m], origins + [o], key, init))
        == multiset(Gathered(sent, origins, key, init)) + multiset(Share(m, o, key, init))
    ensures multiset(Gathered(sent + [m], origins + [o], key, ids))
      == multiset(Gathered(sent, origins, key, ids)) + multiset(Share(m, o, key, ids))
  {
    var n := |ids| - 1;
    var init, last := ids[..n], ids[n];
    var more := if m.key == key && o == Routine(last) then [m.msg] else [];
    MsgsFromSnoc(sent, origins, m, o, key, last);
    ShareSnoc(m, o, key, ids);
    Regroup(Gathered(sent, origins, key, init), Gathered(sent + [m], origins + [o], key, init),
            Msgs(From(sent, origins, Routine(last)), key), more, multiset(Share(m, o, key, init)));
    assert multiset(Share(m, o, key, init) + more) == multiset(Share(m, o, key, init)) + multiset(more);
  }

  /** If all messages under a key came from these routines, then they are together what each of them sent. */
  lemma {:induction false} GatheredIsAll<V>(sent: seq<SendMsg<V>>, origins: seq<Origin>, key: string, ids: seq<string>)
    requires |sent| == |origins| && DistinctIDs(ids)
    requires forall k :: 0 <= k < |sent| && sent[k].key == key ==> origins[k].Routine? && origins[k].id in ids
    ensures multiset(Msgs(sent, key)) == multiset(Gathered(sent, origins, key, ids))
  {
    if sent == [] {
      GatheredNothing<V>(key, ids);
    } else {
      var n := |sent| - 1;
      var a, b := sent[..n], origins[..n];
      GatheredIsAll(a, b, key, ids);
      Unsnoc(sent);
      Unsnoc(origins);
      GatheredSnoc(a, b, sent[n], origins[n], key, ids);
      MsgsSnoc(a, sent[n], key);
    }
  }

  lemma {:induction false} GatheredNothing<V>(key: string, ids: seq<string>)
    ensures Gathered<V>([], [], key, ids) == []
  {
    if ids != [] {
      GatheredNothing<V>(key, ids[..|ids| - 1]);
    }
  }

  /** If all messages under some keys came from one routine, they are those of that routine's messages. */
  lemma {:induction false} OneSource<V>(sent: seq<SendMsg<V>>, origins: seq<Origin>, o: Origin, keys: set<string>)
    requires |sent| == |origins|
    requires forall k :: 0 <= k < |sent| && sent[k].key in keys ==> origins[k] == o
    ensures Only(From(sent, origins, o), keys) == Only(sent, keys)
  {
    if sent != [] {
      var n := |sent| - 1;
      var a, b := sent[..n], origins[..n];
      OneSource(a, b, o, keys);
      Unsnoc(sent);
      Unsnoc(origins);
      OnlySnoc(a, sent[n], keys);
      FromSnoc(a, b, sent[n], origins[n], o);
      if origins[n] == o {
        OnlySnoc(From(a, b, o), sent[n], keys);
      } else {
        assert From(a, b, o) + [] == From(a, b, o) && Only(a, keys) + [] == Only(a, keys);
      }
    }
  }

  lemma {:induction false} OnlyThese<V>(s: seq<SendMsg<V>>, keys: set<string>)
    requires forall k :: 0 <= k < |s| ==> s[k].key in keys
    ensures Only(s, keys) == s
  {
    if s != [] {
      OnlyThese(s[1..], keys);
    }
  }

  lemma {:induction false} FromHas<V>(sent: seq<SendMsg<V>>, origins: seq<Origin>, o: Origin, k: nat)
    requires |sent| == |origins| && k < |sent| && origins[k] == o
    ensures sent[k] in From(sent, origins, o)
  {
    var n := |sent| - 1;
    var a, b := sent[..n], origins[..n];
    Unsnoc(sent);
    Unsnoc(origins);
    FromSnoc(a, b, sent[n], origins[n], o);
    if k < n {
      FromHas(a, b, o, k);
    }
  }

  /** Where the pth message under a key stands among all messages. */
  function Position<V>(sent: seq<SendMsg<V>>, key: string, p: nat): (k: nat)
    requires p < |Msgs(sent, key)|
    ensures k < |sent| && sent[k] == SendMsg(key, Msgs(sent, key)[p])
  {
    if sent[0].key != key then 1 + Position(sent[1..], key, p)
    else if p == 0 then 0
    else 1 + Position(sent[1..], key, p - 1)
  }

  lemma {:induction false} PositionsRise<V>(sent: seq<SendMsg<V>>, key: string, p: nat, q: nat)
    requires p < q < |Msgs(sent, key)|
    ensures Position(sent, key, p) < Position(sent, key, q)
    decreases |sent|
  {
    if sent[0].key != key {
      PositionsRise(sent[1..], key, p, q);
    } else if p > 0 {
      PositionsRise(sent[1..], key, p - 1, q - 1);
    }
  }

  lemma DeliveriesGrow<V>(runs: seq<Run<V>>, j: nat, key: string)
    requires j < |runs| && runs[j].firing.BySend? && runs[j].msg.Some? && runs[j].key == key
    ensures Msgs(Deliveries(runs[..j + 1]), key) == Msgs(Deliveries(runs[..j]), key) + [runs[j].msg.value]
  {
    assert runs[..j + 1][..j] == runs[..j];
    MsgsSnoc(Deliveries(runs[..j]), SendMsg(key, runs[j].msg.value), key);
  }

  lemma {:induction false} DeliveriesPrefix<V>(runs: seq<Run<V>>, n: nat, key: string)
    requires n <= |runs|
    ensures Msgs(Deliveries(runs[..n]), key) <= Msgs(Deliveries(runs), key)
    decreases |runs|
  {
    if n < |runs| {
      var init, r := runs[..|runs| - 1], runs[|runs| - 1];
      DeliveriesPrefix(init, n, key);
      assert init[..n] == runs[..n];
      MsgsConcat(Deliveries(init), Delivered(r.firing, r.key, r.msg), key);
    } else {
      assert runs[..n] == runs;
    }
  }

  /** How many messages under its key were handled before run j. */
  function Rank<V>(runs: seq<Run<V>>, j: nat): nat
    requires j < |runs|
  {
    |Msgs(Deliveries(runs[..j]), runs[j].key)|
  }

  lemma RankFits<V>(runs: seq<Run<V>>, j: nat)
    requires j < |runs| && runs[j].firing.BySend? && runs[j].msg.Some?
    ensures Rank(runs, j) < |Msgs(Deliveries(runs), runs[j].key)|
    ensures Msgs(Deliveries(runs), runs[j].key)[Rank(runs, j)] == runs[j].msg.value
  {
    DeliveriesGrow(runs, j, runs[j].key);
    DeliveriesPrefix(runs, j + 1, runs[j].key);
  }

  lemma RanksRise<V>(runs: seq<Run<V>>, x: nat, y: nat)
    requires x < y < |runs| && runs[x].firing.BySend? && runs[x].msg.Some? && runs[x].key == runs[y].key
    ensures Rank(runs, x) < Rank(runs, y)
  {
    DeliveriesGrow(runs, x, runs[x].key);
    assert runs[..y][..x + 1] == runs[..x + 1];
    DeliveriesPrefix(runs[..y], x + 1, runs[x].key);
  }

  lemma SentPaired<V>(reg: Recovery, now: int, labels: seq<Label<V>>, s: System<V>, id: string)
    requires Reached(reg, now, labels, s) && id in s.insts
    ensures |s.insts[id].box.origins| == |s.insts[id].box.sent|
  {
    ReachedKeeps(reg, now, labels, s);
    PairedIfLocal(reg, s.insts);
  }

  lemma HandledFirst<V>(reg: Recovery, now: int, labels: seq<Label<V>>, s: System<V>, id: string, key: string)
    requires Reached(reg, now, labels, s) && id in s.insts
    ensures Msgs(Deliveries(s.insts[id].runs), key) <= Msgs(s.insts[id].box.sent, key)
  {
    MailConserved(reg, now, labels, s, id, key);
    MsgsConcat(Deliveries(s.insts[id].runs), InHand(s.insts[id].phase), key);
  }

  /** A message handed to a handler was enqueued under that handler's key. */
  lemma HandledWasSent<V>(reg: Recovery, now: int, labels: seq<Label<V>>, s: System<V>, id: string, j: nat)
    returns (k: nat)
    requires Reached(reg, now, labels, s) && id in s.insts && j < |s.insts[id].runs|
    requires s.insts[id].runs[j].firing.BySend? && s.insts[id].runs[j].msg.Some?
    ensures k < |s.insts[id].box.sent| && |s.insts[id].box.origins| == |s.insts[id].box.sent|
    ensures s.insts[id].box.sent[k] == SendMsg(s.insts[id].runs[j].key, s.insts[id].runs[j].msg.value)
  {
    var runs, sent := s.insts[id].runs, s.insts[id].box.sent;
    HandledFirst(reg, now, labels, s, id, runs[j].key);
    RankFits(runs, j);
    SentPaired(reg, now, labels, s, id);
    k := Position(sent, runs[j].key, Rank(runs, j));
  }

  /** Two messages handled one after the other under one key were enqueued one after the other. */
  lemma HandledInTurn<V>(reg: Recovery, now: int, labels: seq<Label<V>>, s: System<V>, id: string, x: nat, y: nat)
    returns (kx: nat, ky: nat)
    requires Reached(reg, now, labels, s) && id in s.insts && x < y < |s.insts[id].runs|
    requires s.insts[id].runs[x].firing.BySend? && s.insts[id].runs[x].msg.Some?
    requires s.insts[id].runs[y].firing.BySend? && s.insts[id].runs[y].msg.Some?
    requires s.insts[id].runs[x].key == s.insts[id].runs[y].key
    ensures kx < ky < |s.insts[id].box.sent|
    ensures s.insts[id].box.sent[kx] == SendMsg(s.insts[id].runs[x].key, s.insts[id].runs[x].msg.value)
    ensures s.insts[id].box.sent[ky] == SendMsg(s.insts[id].runs[y].key, s.insts[id].runs[y].msg.value)
  {
    var runs, sent := s.insts[id].runs, s.insts[id].box.sent;
    var key := runs[x].key;
    HandledFirst(reg, now, labels, s, id, key);
    RankFits(runs, x);
    RankFits(runs, y);
    RanksRise(runs, x, y);
    kx, ky := Position(sent, key, Rank(runs, x)), Position(sent, key, Rank(runs, y));
    PositionsRise(sent, key, Rank(runs, x), Rank(runs, y));
  }

  lemma {:induction false} FromTwice<V>(sent: seq<SendMsg<V>>, origins: seq<Origin>, o: Origin, x: nat, y: nat)
    requires |sent| == |origins| && x < y < |sent| && origins[x] == o == origins[y]
    ensures |From(sent, origins, o)| >= 2
  {
    var n := |sent| - 1;
    var a, b := sent[..n], origins[..n];
    Unsnoc(sent);
    Unsnoc(origins);
    FromSnoc(a, b, sent[n], origins[n], o);
    if y < n {
      FromTwice(a, b, o, x, y);
    } else {
      FromHas(a, b, o, x);
    }
  }

  /** The start entry that made a child. */
  lemma StartedBy<V>(reg: Recovery, now: int, labels: seq<Label<V>>, s: System<V>, c: string, p: string)
    returns (j: nat, k: nat)
    requires Reached(reg, now, labels, s) && c in s.insts && s.insts[c].parent == Routine(p)
    ensures p in s.insts && j < |s.insts[p].runs| && k < |EffectsOf(reg, s.insts[p].runs[j]).starts|
    ensures var e := EffectsOf(reg, s.insts[p].runs[j]).starts[k];
      e.routineID == c && StartKey(e) == s.insts[c].key && e.input == s.insts[c].input
  {
    ReachedKeeps(reg, now, labels, s);
    j, k := StartingEntry(reg, s.insts, c, p);
  }

  lemma StartingEntry<V>(reg: Recovery, insts: map<string, Inst<V>>, c: string, p: string) returns (j: nat, k: nat)
    requires c in insts && insts[c].parent == Routine(p) && Parented(reg, insts, c)
    ensures p in insts && j < |insts[p].runs| && k < |EffectsOf(reg, insts[p].runs[j]).starts|
    ensures var e := EffectsOf(reg, insts[p].runs[j]).starts[k];
      e.routineID == c && StartKey(e) == insts[c].key && e.input == insts[c].input
  {
    j, k :| 0 <= j < |RunsOf(insts, p)| && 0 <= k < |EffectsOf(reg, RunsOf(insts, p)[j]).starts|
      && var e := EffectsOf(reg, RunsOf(insts, p)[j]).starts[k];
         e.routineID == c && StartKey(e) == insts[c].key && e.input == insts[c].input;
  }

  // ----- Runs in two parts -----

  /** What a routine asks to send to one that was there before it arrives, in order, or is about to. */
  lemma LaterReachesEarlier<V>(reg: Recovery, now: int, before: seq<Label<V>>, s0: System<V>, after: seq<Label<V>>,
                               s: System<V>, src: string, dst: string)
    requires Reached(reg, now, before, s0) && dst in s0.insts && src !in s0.insts && Exec(reg, s0, after) == Some(s)
    ensures Reached(reg, now, before + after, s) && dst in s.insts
    ensures Requests(reg, RunsOf(s.insts, src), dst) == Arrived(s.insts, src, dst) + To(PendingOf(s.insts, src), dst)
  {
    ExecConcat(reg, EmptySystem(now), before, after);
    ReachedKeeps(reg, now, before, s0);
    ExecKeeps(reg, s0, after);
    DropsStop(reg, s0, after, src, dst);
    SendsRouted(reg, now, before + after, s, src, dst);
    assert Dropped(DropsOf(s0.insts, src), dst) == [];
    assert [] + Arrived(s.insts, src, dst) == Arrived(s.insts, src, dst);
  }
}
