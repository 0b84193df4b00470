/** The main theorems about every run of the in-memory runtime: any sequence of actions of goroutines,
    clients and the clock, with any handler outcomes. */
module Reachable {
  import opened Wrappers
  import opened Queries
  import opened Durable
  import opened Mailbox
  import opened InMemory
  import opened History
  import opened Routing

  // ----- Every action keeps the invariants -----

  lemma ActKeeps<V>(reg: Recovery, now: int, i: Inst<V>, a: Action<V>)
    requires InstInv(reg, i) && Acted(reg, now, i, a).Some?
    ensures InstInv(reg, Acted(reg, now, i, a).value)
  {
    match a
    case Handle(primary, recovery) => HandleKeeps(reg, i, primary, recovery);
    case Settle => SettleKeeps(reg, i, now);
    case WaitOn =>
      WaitStepKeeps(i.box, i.phase.wait, now);
      AfterWaitKeeps(reg, i, now, WaitStep(i.box, i.phase.wait, now));
    case Choose(choice) =>
      BlockStepKeeps(i.box, i.phase.wait, now, choice);
      AfterWaitKeeps(reg, i, now, BlockStep(i.box, i.phase.wait, now, choice));
  }

  lemma LocalUpdate<V>(reg: Recovery, insts: map<string, Inst<V>>, id: string, i': Inst<V>)
    requires Local(reg, insts) && InstInv(reg, i')
    ensures Local(reg, insts[id := i'])
  {}

  lemma LocalStep<V>(reg: Recovery, s: System<V>, l: Label<V>)
    requires Local(reg, s.insts) && Step(reg, s, l).Some?
    ensures Local(reg, Step(reg, s, l).value.insts)
  {
    match l
    case Tick(_) =>
    case Go(id, kind, resultKind, input) =>
      LocalStart(reg, s.insts, Client, StartEntry(id, kind, resultKind, input));
    case Send(id, key, msg) => LocalDeliver(reg, s.insts, id, Client, SendMsg(key, msg));
    case Call(id, callName, handlerKey, req) =>
      LocalOffer(reg, s.insts, id, CallReq(|s.calls|, callName, handlerKey, req));
    case Apply(id) => LocalApply(reg, s.insts, id);
    case Act(id, action) => LocalAct(reg, s.insts, id, s.now, action);
  }

  lemma LocalOffer<V>(reg: Recovery, insts: map<string, Inst<V>>, id: string, req: CallReq<V>)
    requires Local(reg, insts) && id in insts
    ensures Local(reg, insts[id := insts[id].(box := Offer(insts[id].box, req))])
  {
    OfferInstKeeps(reg, insts[id], req);
    LocalUpdate(reg, insts, id, insts[id].(box := Offer(insts[id].box, req)));
  }

  lemma LocalAct<V>(reg: Recovery, insts: map<string, Inst<V>>, id: string, now: int, a: Action<V>)
    requires Local(reg, insts) && id in insts && Acted(reg, now, insts[id], a).Some?
    ensures Local(reg, insts[id := Acted(reg, now, insts[id], a).value])
  {
    ActKeeps(reg, now, insts[id], a);
    LocalUpdate(reg, insts, id, Acted(reg, now, insts[id], a).value);
  }

  lemma LocalStart<V>(reg: Recovery, insts: map<string, Inst<V>>, parent: Origin, e: StartEntry<V>)
    requires Local(reg, insts)
    ensures Local(reg, Start(insts, parent, e))
  {
    NewInstKeeps(reg, StartKey(e), e.input, parent);
    LocalUpdate(reg, insts, e.routineID, NewInst(StartKey(e), e.input, parent));
  }

  lemma LocalDeliver<V>(reg: Recovery, insts: map<string, Inst<V>>, to: string, origin: Origin, m: SendMsg<V>)
    requires Local(reg, insts) && to in insts
    ensures Local(reg, Deliver(insts, to, origin, m))
  {
    EnqueueInstKeeps(reg, insts[to], origin, m);
    LocalUpdate(reg, insts, to, insts[to].(box := Enqueue(insts[to].box, origin, m)));
  }

  lemma LocalApply<V>(reg: Recovery, insts: map<string, Inst<V>>, id: string)
    requires Local(reg, insts) && id in insts && Busy(insts[id]) && ApplyOne(insts, id).Some?
    ensures Local(reg, ApplyOne(insts, id).value)
  {
    var i := insts[id];
    if i.phase.starts != [] {
      var popped := i.(phase := i.phase.(starts := i.phase.starts[1..]));
      PopKeeps(reg, i, popped);
      LocalUpdate(reg, insts, id, popped);
      LocalStart(reg, insts[id := popped], Routine(id), i.phase.starts[0]);
    } else {
      var e := i.phase.sends[0];
      var popped := i.(phase := i.phase.(sends := i.phase.sends[1..]));
      if e.routineID in insts {
        PopKeeps(reg, i, popped);
        LocalUpdate(reg, insts, id, popped);
        LocalDeliver(reg, insts[id := popped], e.routineID, Routine(id), SendMsg(EntryKey(e), e.msg));
      } else {
        var dropped := popped.(drops := i.drops + [Drop(|i.runs| - 1, e)]);
        PopKeeps(reg, i, dropped);
        LocalUpdate(reg, insts, id, dropped);
      }
    }
  }

  lemma PairedIfLocal<V>(reg: Recovery, insts: map<string, Inst<V>>)
    requires Local(reg, insts)
    ensures Paired(insts)
  {
    forall id | id in insts ensures |insts[id].box.sent| == |insts[id].box.origins| {
      assert InstInv(reg, insts[id]);
    }
  }

  lemma RouteStep<V>(reg: Recovery, s: System<V>, l: Label<V>)
    requires Paired(s.insts) && Routed(reg, s.insts) && Step(reg, s, l).Some?
    ensures Routed(reg, Step(reg, s, l).value.insts)
  {
    match l
    case Tick(_) =>
    case Go(id, kind, resultKind, input) => StartRoutes(reg, s.insts, Client, StartEntry(id, kind, resultKind, input));
    case Send(id, key, msg) => ClientSendRoutes(reg, s.insts, id, SendMsg(key, msg));
    case Call(id, callName, handlerKey, req) =>
      var box := Offer(s.insts[id].box, CallReq(|s.calls|, callName, handlerKey, req));
      SameRoutes(reg, s.insts, id, s.insts[id].(box := box));
    case Apply(id) => ApplyRoutes(reg, s.insts, id);
    case Act(id, action) => ActRoutes(reg, s.insts, id, s.now, action);
  }

  lemma ApplyRoutes<V>(reg: Recovery, insts: map<string, Inst<V>>, id: string)
    requires Paired(insts) && Routed(reg, insts) && id in insts && Busy(insts[id]) && ApplyOne(insts, id).Some?
    ensures Routed(reg, ApplyOne(insts, id).value)
  {
    var i := insts[id];
    if i.phase.starts != [] {
      var popped := i.(phase := i.phase.(starts := i.phase.starts[1..]));
      SameRoutes(reg, insts, id, popped);
      StartRoutes(reg, insts[id := popped], Routine(id), i.phase.starts[0]);
    } else if i.phase.sends[0].routineID in insts {
      SendRoutes(reg, insts, id);
    } else {
      DropRoutes(reg, insts, id);
    }
  }

  lemma StartStep<V>(reg: Recovery, s: System<V>, l: Label<V>)
    requires Local(reg, s.insts) && Started(reg, s.insts) && Step(reg, s, l).Some?
    ensures Started(reg, Step(reg, s, l).value.insts) && Grows(s.insts, Step(reg, s, l).value.insts)
  {
    var after := Step(reg, s, l).value.insts;
    match l
    case Tick(_) => assert after == s.insts;
    case Go(id, kind, resultKind, input) =>
      assert after == Start(s.insts, Client, StartEntry(id, kind, resultKind, input));
      GoStarts(reg, s.insts, StartEntry(id, kind, resultKind, input));
    case Send(id, key, msg) =>
      var b := Enqueue(s.insts[id].box, Client, SendMsg(key, msg));
      assert after == s.insts[id := s.insts[id].(box := b)];
      BoxStarts(reg, s.insts, id, b);
    case Call(id, callName, handlerKey, req) =>
      var b := Offer(s.insts[id].box, CallReq(|s.calls|, callName, handlerKey, req));
      assert after == s.insts[id := s.insts[id].(box := b)];
      BoxStarts(reg, s.insts, id, b);
    case Apply(id) =>
      assert after == ApplyOne(s.insts, id).value;
      LocalFits(reg, s.insts, id);
      ApplyNextStarts(reg, s.insts, id);
    case Act(id, action) =>
      assert after == s.insts[id := Acted(reg, s.now, s.insts[id], action).value];
      ActStarts(reg, s.insts, id, s.now, action);
  }

  lemma GoStarts<V>(reg: Recovery, insts: map<string, Inst<V>>, e: StartEntry<V>)
    requires Started(reg, insts)
    ensures Started(reg, Start(insts, Client, e)) && Grows(insts, Start(insts, Client, e))
  {
    AddedOrSame(reg, insts, Start(insts, Client, e));
  }

  lemma LocalFits<V>(reg: Recovery, insts: map<string, Inst<V>>, id: string)
    requires Local(reg, insts) && id in insts
    ensures PhaseFits(reg, insts[id])
  {
    assert InstInv(reg, insts[id]);
  }

  lemma ApplyNextStarts<V>(reg: Recovery, insts: map<string, Inst<V>>, id: string)
    requires Started(reg, insts) && id in insts && Busy(insts[id]) && PhaseFits(reg, insts[id])
    requires ApplyOne(insts, id).Some?
    ensures Started(reg, ApplyOne(insts, id).value) && Grows(insts, ApplyOne(insts, id).value)
  {
    if insts[id].phase.starts != [] {
      StartNextStarts(reg, insts, id);
    } else {
      SendNextStarts(reg, insts, id);
    }
  }

  lemma BoxStarts<V>(reg: Recovery, insts: map<string, Inst<V>>, id: string, b: Box<V>)
    requires Started(reg, insts) && id in insts
    ensures var after := insts[id := insts[id].(box := b)]; Started(reg, after) && Grows(insts, after)
  {
    AddedOrSame(reg, insts, insts[id := insts[id].(box := b)]);
  }

  /** Runs, drops and effects in progress are as before; new instances come from clients. */
  lemma AddedOrSame<V>(reg: Recovery, a: map<string, Inst<V>>, b: map<string, Inst<V>>)
    requires Started(reg, a) && Grows(a, b)
    requires forall id :: id in a ==>
      && b[id].runs == a[id].runs && b[id].drops == a[id].drops
      && (a[id].phase.Applying? && a[id].phase.starts != [] ==> b[id].phase == a[id].phase)
    requires forall id :: id in b && id !in a ==> b[id].runs == [] && b[id].drops == [] && b[id].parent == Client
    ensures Started(reg, b)
  {
    forall id | id in b ensures StartsApplied(reg, b, b[id]) && DropsFit(reg, b[id]) && Parented(reg, b, id) {
      if id in a {
        GrowingKeepsParents(reg, a, b, id);
        SameStarts(reg, a, b, a[id], b[id]);
      }
    }
  }

  lemma CallStep<V>(reg: Recovery, s: System<V>, l: Label<V>)
    requires CallsOwned(s) && Step(reg, s, l).Some?
    ensures CallsOwned(Step(reg, s, l).value)
  {
    match l
    case Tick(_) =>
    case Go(id, kind, resultKind, input) => StartCalls(s, Client, StartEntry(id, kind, resultKind, input));
    case Send(id, key, msg) => DeliverCalls(s, id, Client, SendMsg(key, msg));
    case Call(id, callName, handlerKey, req) => MadeCallOwned(s, id, callName, handlerKey, req);
    case Apply(id) => ApplyCalls(s, id);
    case Act(id, action) =>
      ActCalls(reg, s.now, s.insts[id], action);
      UpdateCalls(s, id, Acted(reg, s.now, s.insts[id], action).value);
  }

  /** Every action of every goroutine, client and the clock keeps the invariants and only adds to histories. */
  lemma StepKeeps<V>(reg: Recovery, s: System<V>, l: Label<V>)
    requires SysInv(reg, s) && Step(reg, s, l).Some?
    ensures SysInv(reg, Step(reg, s, l).value) && Grows(s.insts, Step(reg, s, l).value.insts)
  {
    LocalStep(reg, s, l);
    PairedIfLocal(reg, s.insts);
    RouteStep(reg, s, l);
    StartStep(reg, s, l);
    CallStep(reg, s, l);
  }

  lemma GrowsTransitive<V>(a: map<string, Inst<V>>, b: map<string, Inst<V>>, c: map<string, Inst<V>>)
    requires Grows(a, b) && Grows(b, c)
    ensures Grows(a, c)
  {}

  lemma {:induction false} ExecKeeps<V>(reg: Recovery, s: System<V>, labels: seq<Label<V>>)
    requires SysInv(reg, s) && Exec(reg, s, labels).Some?
    ensures SysInv(reg, Exec(reg, s, labels).value) && Grows(s.insts, Exec(reg, s, labels).value.insts)
  {
    if labels != [] {
      var init, last := labels[..|labels| - 1], labels[|labels| - 1];
      ExecKeeps(reg, s, init);
      StepKeeps(reg, Exec(reg, s, init).value, last);
      GrowsTransitive(s.insts, Exec(reg, s, init).value.insts, Exec(reg, s, labels).value.insts);
    }
  }

  lemma {:induction false} ExecConcat<V>(reg: Recovery, s: System<V>, a: seq<Label<V>>, b: seq<Label<V>>)
    requires Exec(reg, s, a).Some?
    ensures Exec(reg, s, a + b) == Exec(reg, Exec(reg, s, a).value, b)
  {
    if b == [] {
      assert a + b == a;
    } else {
      var n := |b| - 1;
      ExecConcat(reg, s, a, b[..n]);
      assert (a + b)[..|a + b| - 1] == a + b[..n];
    }
  }

  /** Everything that some run from the empty system reaches. */
  ghost predicate Reached<V>(reg: Recovery, now: int, labels: seq<Label<V>>, s: System<V>) {
    Exec(reg, EmptySystem(now), labels) == Some(s)
  }

  lemma ReachedKeeps<V>(reg: Recovery, now: int, labels: seq<Label<V>>, s: System<V>)
    requires Reached(reg, now, labels, s)
    ensures SysInv(reg, s)
  {
    var empty: System<V> := EmptySystem(now);
    forall src, dst ensures Balanced(reg, empty.insts, src, dst) {}
    ExecKeeps(reg, empty, labels);
  }

  // ----- Mail -----

  /** Conservation and per-key order: in every reachable state, the messages enqueued for an instance
      under a key are those handed to its handlers, then those buffered, then those still on the
      channel, in that order. */
  lemma MailConserved<V>(reg: Recovery, now: int, labels: seq<Label<V>>, s: System<V>, id: string, key: string)
    requires Reached(reg, now, labels, s) && id in s.insts
    ensures var i := s.insts[id];
      Msgs(i.box.sent, key)
        == Msgs(Deliveries(i.runs) + InHand(i.phase), key) + Buf(i.box, key) + Msgs(i.box.sendCh, key)
  {
    ReachedKeeps(reg, now, labels, s);
    assert InstInv(reg, s.insts[id]);
  }

  /** Order across keys: if no wait of the instance left one of these keys unawaited, then their
      messages are handled in the order in which they were enqueued, whatever their keys. */
  lemma MailOrdered<V>(reg: Recovery, now: int, labels: seq<Label<V>>, s: System<V>, id: string, keys: set<string>)
    requires Reached(reg, now, labels, s) && id in s.insts
    requires forall j, key :: 0 <= j < |s.insts[id].runs| && key in keys ==> !Unawaited(reg, s.insts[id].runs[j], key)
    ensures var i := s.insts[id];
      Only(i.box.sent, keys) == Only(Deliveries(i.runs) + InHand(i.phase), keys) + Only(i.box.sendCh, keys)
  {
    ReachedKeeps(reg, now, labels, s);
    assert InstInv(reg, s.insts[id]);
    assert StraysExplained(reg, s.insts[id]);
    assert keys !! s.insts[id].box.strays;
  }

  /** A channel holds 1024 messages: a client's send goes through exactly if the target is there and holds fewer; a
      routine's effects stop exactly at a send to a target that holds as many. */
  lemma SendsNeedRoom<V>(reg: Recovery, s: System<V>, id: string, key: string, msg: V)
    ensures Step(reg, s, Send(id, key, msg)).Some? <==> id in s.insts && |s.insts[id].box.sendCh| < 1024
    ensures id in s.insts && Busy(s.insts[id]) ==>
      (Step(reg, s, Apply(id)).None?
       <==> (var p := s.insts[id].phase;
             && p.starts == [] && p.sends[0].routineID in s.insts
             && |s.insts[p.sends[0].routineID].box.sendCh| >= 1024))
  {}

  /** What clients do: a start makes a routine that is about to run the handler of its kinds on its input, unless the
      id is taken; a send goes to the end of the channel; a call waits behind the callers before it, with a number
      that no call has had. Nothing else of any instance changes. */
  lemma ClientsReach<V>(reg: Recovery, s: System<V>, id: string, kind: string, resultKind: string, input: V,
                        key: string, callName: string, msg: V)
    ensures Step(reg, s, Go(id, kind, resultKind, input)).Some?
    ensures var after := Step(reg, s, Go(id, kind, resultKind, input)).value.insts;
      if id in s.insts then after == s.insts
      else
        && after == s.insts[id := after[id]] && after[id].queries == map[] && after[id].runs == []
        && after[id].phase == Handling(ByStart, "handler:" + kind + ":" + resultKind, input, None)
    ensures Step(reg, s, Send(id, key, msg)).Some? ==>
      var i, after := s.insts[id], Step(reg, s, Send(id, key, msg)).value.insts;
      && after == s.insts[id := after[id]] && after[id] == i.(box := after[id].box)
      && after[id].box.sendCh == i.box.sendCh + [SendMsg(key, msg)]
      && after[id].box.callers == i.box.callers && after[id].box.buffered == i.box.buffered
    ensures Step(reg, s, Call(id, callName, key, msg)).Some? <==> id in s.insts
    ensures id in s.insts ==>
      var i, s' := s.insts[id], Step(reg, s, Call(id, callName, key, msg)).value;
      && s'.insts == s.insts[id := s'.insts[id]] && s'.insts[id] == i.(box := s'.insts[id].box)
      && s'.insts[id].box.callers == i.box.callers + [CallReq(|s.calls|, callName, key, msg)]
      && s'.insts[id].box.sendCh == i.box.sendCh && s'.insts[id].box.buffered == i.box.buffered
      && |s'.calls| == |s.calls| + 1
  {}

  // ----- Handler runs -----

  /** Every handler runs because the routine started or because a case of the previous continuation
      fired, with that case's key and input; a message accompanies exactly sends and calls; a routine
      ends as its last run says. */
  lemma RunsLegal<V>(reg: Recovery, now: int, labels: seq<Label<V>>, s: System<V>, id: string)
    requires Reached(reg, now, labels, s) && id in s.insts
    ensures Legal(reg, s.insts[id].key, s.insts[id].input, s.insts[id].runs)
    ensures PhaseFits(reg, s.insts[id])
  {
    ReachedKeeps(reg, now, labels, s);
    assert InstInv(reg, s.insts[id]);
  }

  /** A timer never fires before its duration has passed since the wait began, whatever sends and calls
      came in between. */
  lemma TimersNotEarly<V>(reg: Recovery, now: int, labels: seq<Label<V>>, s: System<V>, id: string, j: nat)
    requires Reached(reg, now, labels, s) && id in s.insts && 0 < j < |s.insts[id].runs|
    requires s.insts[id].runs[j].firing.ByTimer?
    ensures var f, prev := s.insts[id].runs[j].firing, UsedIn(reg, s.insts[id].runs[j - 1]);
      && prev.Returned? && !prev.output.done && f.idx < |prev.output.cases|
      && prev.output.cases[f.idx].timer.Some?
      && f.at >= f.entered + prev.output.cases[f.idx].timer.value
  {
    RunsLegal(reg, now, labels, s, id);
    var runs := s.insts[id].runs;
    var r := runs[j];
    assert Enters(reg, s.insts[id].key, s.insts[id].input, runs[..j], r.firing, r.key, r.input, r.msg);
    assert runs[..j][j - 1] == runs[j - 1];
  }

  // ----- Effects -----

  /** The query map holds the last writes of the invocations whose output was used: a failed primary
      handler, or a failed run, contributes nothing. */
  lemma QueriesAreLastWrites<V>(reg: Recovery, now: int, labels: seq<Label<V>>, s: System<V>, id: string, name: string)
    requires Reached(reg, now, labels, s) && id in s.insts
    ensures Find(s.insts[id].queries, name) == LastWrite(Flatten(WritesOf(reg, s.insts[id].runs)), name)
  {
    ReachedKeeps(reg, now, labels, s);
    assert InstInv(reg, s.insts[id]);
    QueriesAreWrites(reg, s.insts[id].runs);
    WriteAllReads<V>(map[], Flatten(WritesOf(reg, s.insts[id].runs)));
  }

  function WritesOf<V>(reg: Recovery, runs: seq<Run<V>>): (w: seq<seq<QueryEntry<V>>>)
    ensures |w| == |runs|
  {
    if runs == [] then []
    else WritesOf(reg, runs[..|runs| - 1]) + [EffectsOf(reg, runs[|runs| - 1]).queries]
  }

  lemma {:induction false} QueriesAreWrites<V>(reg: Recovery, runs: seq<Run<V>>)
    ensures QueriesAfter(reg, runs) == WriteAll(map[], Flatten(WritesOf(reg, runs)))
  {
    if runs != [] {
      var init := runs[..|runs| - 1];
      QueriesAreWrites(reg, init);
      var w := WritesOf(reg, runs);
      assert w[..|w| - 1] == WritesOf(reg, init);
      WriteAllConcat(map[], Flatten(WritesOf(reg, init)), w[|w| - 1]);
    }
  }

  /** Every message that the runs of `src` asked to send to `dst` has been enqueued there, in order and
      once, or is about to be sent, or was dropped before; only the sends of the run whose effects are
      being applied are about to be sent. */
  lemma SendsRouted<V>(reg: Recovery, now: int, labels: seq<Label<V>>, s: System<V>, src: string, dst: string)
    requires Reached(reg, now, labels, s)
    ensures Requests(reg, RunsOf(s.insts, src), dst)
         == Dropped(DropsOf(s.insts, src), dst) + Arrived(s.insts, src, dst) + To(PendingOf(s.insts, src), dst)
  {
    ReachedKeeps(reg, now, labels, s);
    assert Balanced(reg, s.insts, src, dst);
  }

  /** A send to a routine that the same handler started is never dropped, whatever the order in which the
      handler buffered the two. */
  lemma StartsPrecedeSends<V>(reg: Recovery, now: int, labels: seq<Label<V>>, s: System<V>, id: string, d: nat)
    requires Reached(reg, now, labels, s) && id in s.insts && d < |s.insts[id].drops|
    ensures var drop := s.insts[id].drops[d];
      && 0 <= drop.run < |s.insts[id].runs|
      && forall k :: 0 <= k < |EffectsOf(reg, s.insts[id].runs[drop.run]).starts| ==>
           EffectsOf(reg, s.insts[id].runs[drop.run]).starts[k].routineID != drop.entry.routineID
  {
    ReachedKeeps(reg, now, labels, s);
    assert DropsFit(reg, s.insts[id]);
  }

  /** A send is dropped only while its target does not exist. */
  lemma DropStep<V>(reg: Recovery, s: System<V>, l: Label<V>, src: string, dst: string)
    requires Step(reg, s, l).Some? && dst in s.insts
    ensures Dropped(DropsOf(Step(reg, s, l).value.insts, src), dst) == Dropped(DropsOf(s.insts, src), dst)
  {
    match l
    case Act(id, action) => ActViews(reg, s.now, s.insts[id], action);
    case Apply(id) => DropApply(s.insts, id, src, dst);
    case Tick(_) =>
    case Go(_, _, _, _) =>
    case Send(_, _, _) =>
    case Call(_, _, _, _) =>
  }

  lemma DropApply<V>(insts: map<string, Inst<V>>, id: string, src: string, dst: string)
    requires id in insts && Busy(insts[id]) && ApplyOne(insts, id).Some? && dst in insts
    ensures Dropped(DropsOf(ApplyOne(insts, id).value, src), dst) == Dropped(DropsOf(insts, src), dst)
  {
    var i := insts[id];
    if i.phase.starts != [] {
      ApplyStart(insts, id);
    } else {
      ApplySend(insts, id);
      if i.phase.sends[0].routineID !in insts {
        DroppedSnoc(i.drops, Drop(|i.runs| - 1, i.phase.sends[0]), dst);
      }
    }
  }

  lemma {:induction false} DropsStop<V>(reg: Recovery, s: System<V>, labels: seq<Label<V>>, src: string, dst: string)
    requires SysInv(reg, s) && Exec(reg, s, labels).Some? && dst in s.insts
    ensures Dropped(DropsOf(Exec(reg, s, labels).value.insts, src), dst) == Dropped(DropsOf(s.insts, src), dst)
  {
    if labels != [] {
      var init, last := labels[..|labels| - 1], labels[|labels| - 1];
      DropsStop(reg, s, init, src, dst);
      ExecKeeps(reg, s, init);
      DropStep(reg, Exec(reg, s, init).value, last, src, dst);
    }
  }

  // ----- Calls -----

  /** Exactly one reply per call taken: no call gets two replies, from whichever instances; a call that
      an instance took has its reply, unless it is the one that the instance is working on, and an
      instance that waits or has finished is working on none. */
  lemma OneReplyPerCall<V>(reg: Recovery, now: int, labels: seq<Label<V>>, s: System<V>)
    requires Reached(reg, now, labels, s)
    ensures forall id, k, id', k' ::
      (&& id in s.insts && id' in s.insts
       && 0 <= k < |s.insts[id].box.replied| && 0 <= k' < |s.insts[id'].box.replied|
       && s.insts[id].box.replied[k].call == s.insts[id'].box.replied[k'].call)
      ==> id == id' && k == k'
    ensures forall id, call :: id in s.insts ==>
      (call in s.insts[id].box.taken
       <==> call in Calls(s.insts[id].box.replied) || call in Outstanding(s.insts[id].phase))
    ensures forall id, call :: id in s.insts && call in Outstanding(s.insts[id].phase) ==>
      call !in Calls(s.insts[id].box.replied)
    ensures forall id :: id in s.insts && (s.insts[id].phase.Waiting? || s.insts[id].phase.Finished?) ==>
      Outstanding(s.insts[id].phase) == []
  {
    ReachedKeeps(reg, now, labels, s);
    forall id, k, id', k' | id in s.insts && id' in s.insts && 0 <= k < |s.insts[id].box.replied|
        && 0 <= k' < |s.insts[id'].box.replied| && s.insts[id].box.replied[k].call == s.insts[id'].box.replied[k'].call
      ensures id == id' && k == k'
    {
      RepliedIsOwn(reg, s, id, k);
      RepliedIsOwn(reg, s, id', k');
      assert AllCalls(s.insts[id].box)[k] == s.insts[id].box.replied[k].call;
      assert AllCalls(s.insts[id'].box)[k'] == s.insts[id'].box.replied[k'].call;
      assert OwnCalls(s, id);
    }
    forall id, call | id in s.insts
      ensures call in s.insts[id].box.taken <==>
        call in Calls(s.insts[id].box.replied) || call in Outstanding(s.insts[id].phase)
      ensures call in Outstanding(s.insts[id].phase) ==> call !in Calls(s.insts[id].box.replied)
    {
      var b := s.insts[id].box;
      assert InstInv(reg, s.insts[id]) && OwnCalls(s, id);
      if call in Outstanding(s.insts[id].phase) {
        assert AllCalls(b)[|b.replied|] == call;
        forall k | 0 <= k < |b.replied| ensures Calls(b.replied)[k] != call {
          assert AllCalls(b)[k] == Calls(b.replied)[k];
        }
      }
    }
  }

  lemma RepliedIsOwn<V>(reg: Recovery, s: System<V>, id: string, k: nat)
    requires SysInv(reg, s) && id in s.insts && k < |s.insts[id].box.replied|
    ensures var b := s.insts[id].box;
      && k < |AllCalls(b)| && AllCalls(b)[k] == b.replied[k].call
      && b.replied[k].call < |s.calls| && s.calls[b.replied[k].call] == id
  {
    var b := s.insts[id].box;
    assert InstInv(reg, s.insts[id]) && OwnCalls(s, id);
    assert b.taken[k] == Calls(b.replied)[k];
    assert AllCalls(b)[k] == b.taken[k];
  }

  /** The reply to a call that started a handler is what that handler run produced, and it is there as
      soon as the run's effects are applied: before the next wait and before the routine finishes. */
  lemma ReplyIsTheRuns<V>(reg: Recovery, now: int, labels: seq<Label<V>>, s: System<V>, id: string, j: nat)
    requires Reached(reg, now, labels, s) && id in s.insts && j < |s.insts[id].runs|
    requires s.insts[id].runs[j].firing.ByCall?
    requires j < |s.insts[id].runs| - 1 || !s.insts[id].phase.Applying?
    ensures Reply(s.insts[id].runs[j].firing.call, ResponseOf(reg, s.insts[id].runs[j])) in s.insts[id].box.replied
  {
    ReachedKeeps(reg, now, labels, s);
    assert InstInv(reg, s.insts[id]);
    assert j < Settled(s.insts[id]);
  }
}
