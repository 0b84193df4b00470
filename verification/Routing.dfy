/** What every run of the in-memory runtime keeps between instances: every send that a run asked for is
    enqueued at its target in order, still to be applied, or dropped because the target did not exist;
    children exist before the sends of the handler that started them; call numbers never clash. */
module Routing {
  import opened Wrappers
  import opened Durable
  import opened Mailbox
  import opened InMemory
  import opened History

  // ----- Reading the system -----

  function RunsOf<V>(insts: map<string, Inst<V>>, id: string): seq<Run<V>> {
    if id in insts then insts[id].runs else []
  }

  function DropsOf<V>(insts: map<string, Inst<V>>, id: string): seq<Drop<V>> {
    if id in insts then insts[id].drops else []
  }

  function Pending<V>(i: Inst<V>): seq<SendEntry<V>> {
    if i.phase.Applying? then i.phase.sends else []
  }

  function PendingOf<V>(insts: map<string, Inst<V>>, id: string): seq<SendEntry<V>> {
    if id in insts then Pending(insts[id]) else []
  }

  /** The messages among these entries that go to `dst`. */
  function To<V>(entries: seq<SendEntry<V>>, dst: string): seq<SendMsg<V>> {
    if entries == [] then []
    else (if entries[0].routineID == dst then [SendMsg(EntryKey(entries[0]), entries[0].msg)] else [])
         + To(entries[1..], dst)
  }

  function Dropped<V>(drops: seq<Drop<V>>, dst: string): seq<SendMsg<V>> {
    if drops == [] then []
    else
      var e := drops[|drops| - 1].entry;
      Dropped(drops[..|drops| - 1], dst) + (if e.routineID == dst then [SendMsg(EntryKey(e), e.msg)] else [])
  }

  /** All messages to `dst` that the runs asked for, in order. */
  function Requests<V>(reg: Recovery, runs: seq<Run<V>>, dst: string): seq<SendMsg<V>> {
    if runs == [] then []
    else Requests(reg, runs[..|runs| - 1], dst) + To(EffectsOf(reg, runs[|runs| - 1]).sends, dst)
  }

  /** The messages that came from one origin. */
  function From<V>(sent: seq<SendMsg<V>>, origins: seq<Origin>, o: Origin): seq<SendMsg<V>> {
    if sent == [] || origins == [] then []
    else
      var n, k := |sent| - 1, |origins| - 1;
      From(sent[..n], origins[..k], o) + (if origins[k] == o then [sent[n]] else [])
  }

  function Arrived<V>(insts: map<string, Inst<V>>, src: string, dst: string): seq<SendMsg<V>> {
    if dst in insts then From(insts[dst].box.sent, insts[dst].box.origins, Routine(src)) else []
  }

  // ----- The invariants -----

  ghost predicate Local<V>(reg: Recovery, insts: map<string, Inst<V>>) {
    forall id :: id in insts ==> InstInv(reg, insts[id])
  }

  ghost predicate Balanced<V>(reg: Recovery, insts: map<string, Inst<V>>, src: string, dst: string) {
    Requests(reg, RunsOf(insts, src), dst)
      == Dropped(DropsOf(insts, src), dst) + Arrived(insts, src, dst) + To(PendingOf(insts, src), dst)
  }

  ghost predicate Routed<V>(reg: Recovery, insts: map<string, Inst<V>>) {
    forall src, dst :: Balanced(reg, insts, src, dst)
  }

  /** A start entry asked for by a run of `i` has been applied, or is about to be. */
  ghost predicate StartsApplied<V>(reg: Recovery, insts: map<string, Inst<V>>, i: Inst<V>) {
    forall j, k :: 0 <= j < |i.runs| && 0 <= k < |EffectsOf(reg, i.runs[j]).starts| ==>
      var e := EffectsOf(reg, i.runs[j]).starts[k];
      || e.routineID in insts
      || (i.phase.Applying? && j == |i.runs| - 1 && k >= |EffectsOf(reg, i.runs[j]).starts| - |i.phase.starts|)
  }

  /** A dropped send was asked for by the run it names, and went to nobody that run started. */
  ghost predicate DropsFit<V>(reg: Recovery, i: Inst<V>) {
    forall d :: 0 <= d < |i.drops| ==>
      && 0 <= i.drops[d].run < |i.runs|
      && forall k :: 0 <= k < |EffectsOf(reg, i.runs[i.drops[d].run]).starts| ==>
           EffectsOf(reg, i.runs[i.drops[d].run]).starts[k].routineID != i.drops[d].entry.routineID
  }

  /** An instance with a parent was started by one of the parent's runs, with that entry's key and input. */
  ghost predicate Parented<V>(reg: Recovery, insts: map<string, Inst<V>>, id: string)
    requires id in insts
  {
    match insts[id].parent
    case Client => true
    case Routine(p) =>
      exists j, k :: 0 <= j < |RunsOf(insts, p)| && 0 <= k < |EffectsOf(reg, RunsOf(insts, p)[j]).starts|
        && var e := EffectsOf(reg, RunsOf(insts, p)[j]).starts[k];
           e.routineID == id && StartKey(e) == insts[id].key && e.input == insts[id].input
  }

  ghost predicate Started<V>(reg: Recovery, insts: map<string, Inst<V>>) {
    forall id :: id in insts ==>
      && StartsApplied(reg, insts, insts[id]) && DropsFit(reg, insts[id]) && Parented(reg, insts, id)
  }

  function CallerIds<V>(callers: seq<CallReq<V>>): (ids: seq<nat>)
    ensures |ids| == |callers| && forall i :: 0 <= i < |callers| ==> ids[i] == callers[i].call
  {
    seq(|callers|, i requires 0 <= i < |callers| => callers[i].call)
  }

  function AllCalls<V>(b: Box<V>): seq<nat> {
    b.taken + CallerIds(b.callers)
  }

  ghost predicate Distinct(s: seq<nat>) {
    forall i, j :: 0 <= i < j < |s| ==> s[i] != s[j]
  }

  /** The calls of an instance are distinct and were all made to it. */
  ghost predicate OwnCalls<V>(s: System<V>, id: string)
    requires id in s.insts
  {
    && Distinct(AllCalls(s.insts[id].box))
    && forall k :: 0 <= k < |AllCalls(s.insts[id].box)| ==>
         var c := AllCalls(s.insts[id].box)[k];
         c < |s.calls| && s.calls[c] == id
  }

  ghost predicate CallsOwned<V>(s: System<V>) {
    forall id :: id in s.insts ==> OwnCalls(s, id)
  }

  ghost predicate SysInv<V>(reg: Recovery, s: System<V>) {
    Local(reg, s.insts) && Routed(reg, s.insts) && Started(reg, s.insts) && CallsOwned(s)
  }

  /** Instances stay, start data never changes and histories only grow. */
  ghost predicate Grows<V>(a: map<string, Inst<V>>, b: map<string, Inst<V>>) {
    forall id :: id in a ==>
      && id in b
      && b[id].key == a[id].key && b[id].input == a[id].input && b[id].parent == a[id].parent
      && a[id].runs <= b[id].runs && a[id].drops <= b[id].drops
  }

  // ----- Routing through one step -----

  /** Replacing an instance by one with the same routing data changes no balance. */
  lemma SameRoutes<V>(reg: Recovery, insts: map<string, Inst<V>>, id: string, i': Inst<V>)
    requires Routed(reg, insts) && id in insts
    requires i'.runs == insts[id].runs && i'.drops == insts[id].drops && Pending(i') == Pending(insts[id])
    requires i'.box.sent == insts[id].box.sent && i'.box.origins == insts[id].box.origins
    ensures Routed(reg, insts[id := i'])
  {
    var after := insts[id := i'];
    forall src, dst ensures Balanced(reg, after, src, dst) {
      assert Balanced(reg, insts, src, dst);
      assert RunsOf(after, src) == RunsOf(insts, src) && DropsOf(after, src) == DropsOf(insts, src);
      assert PendingOf(after, src) == PendingOf(insts, src) && Arrived(after, src, dst) == Arrived(insts, src, dst);
    }
  }

  lemma StartRoutes<V>(reg: Recovery, insts: map<string, Inst<V>>, parent: Origin, e: StartEntry<V>)
    requires Routed(reg, insts)
    ensures Routed(reg, Start(insts, parent, e))
  {
    var after := Start(insts, parent, e);
    forall src, dst ensures Balanced(reg, after, src, dst) {
      assert Balanced(reg, insts, src, dst);
      assert RunsOf(after, src) == RunsOf(insts, src) && DropsOf(after, src) == DropsOf(insts, src);
      assert PendingOf(after, src) == PendingOf(insts, src) && Arrived(after, src, dst) == Arrived(insts, src, dst);
    }
  }

  lemma FromSnoc<V>(sent: seq<SendMsg<V>>, origins: seq<Origin>, m: SendMsg<V>, origin: Origin, o: Origin)
    requires |sent| == |origins|
    ensures From(sent + [m], origins + [origin], o) == From(sent, origins, o) + (if origin == o then [m] else [])
  {
    assert (sent + [m])[..|sent|] == sent && (origins + [origin])[..|origins|] == origins;
  }

  ghost predicate Paired<V>(insts: map<string, Inst<V>>) {
    forall id :: id in insts ==> |insts[id].box.sent| == |insts[id].box.origins|
  }

  /** What a delivery changes, and what it does not. */
  lemma DeliverViews<V>(insts: map<string, Inst<V>>, to: string, origin: Origin, m: SendMsg<V>, src: string,
                        dst: string)
    requires Paired(insts) && to in insts
    ensures var after := Deliver(insts, to, origin, m);
      && RunsOf(after, src) == RunsOf(insts, src) && DropsOf(after, src) == DropsOf(insts, src)
      && PendingOf(after, src) == PendingOf(insts, src)
      && Arrived(after, src, dst)
           == Arrived(insts, src, dst) + (if dst == to && origin == Routine(src) then [m] else [])
  {
    FromSnoc(insts[to].box.sent, insts[to].box.origins, m, origin, Routine(src));
  }

  lemma ClientSendRoutes<V>(reg: Recovery, insts: map<string, Inst<V>>, to: string, m: SendMsg<V>)
    requires Routed(reg, insts) && Paired(insts) && to in insts
    ensures Routed(reg, Deliver(insts, to, Client, m))
  {
    forall src, dst ensures Balanced(reg, Deliver(insts, to, Client, m), src, dst) {
      assert Balanced(reg, insts, src, dst);
      DeliverViews(insts, to, Client, m, src, dst);
    }
  }

  /** What replacing an instance by one with the same mail received changes, and what it does not. */
  lemma UpdateViews<V>(insts: map<string, Inst<V>>, id: string, i': Inst<V>, src: string, dst: string)
    requires id in insts && i'.box.sent == insts[id].box.sent && i'.box.origins == insts[id].box.origins
    ensures var after := insts[id := i'];
      && Arrived(after, src, dst) == Arrived(insts, src, dst)
      && RunsOf(after, src) == (if src == id then i'.runs else RunsOf(insts, src))
      && DropsOf(after, src) == (if src == id then i'.drops else DropsOf(insts, src))
      && PendingOf(after, src) == (if src == id then Pending(i') else PendingOf(insts, src))
  {}

  /** A new run adds its requests, all of them pending. */
  lemma RunRoutes<V>(reg: Recovery, insts: map<string, Inst<V>>, id: string, i': Inst<V>, r: Run<V>)
    requires Routed(reg, insts) && id in insts && Pending(insts[id]) == []
    requires i'.runs == insts[id].runs + [r] && i'.drops == insts[id].drops && Pending(i') == EffectsOf(reg, r).sends
    requires i'.box.sent == insts[id].box.sent && i'.box.origins == insts[id].box.origins
    ensures Routed(reg, insts[id := i'])
  {
    var after := insts[id := i'];
    forall src, dst ensures Balanced(reg, after, src, dst) {
      assert Balanced(reg, insts, src, dst);
      UpdateViews(insts, id, i', src, dst);
      if src == id {
        RequestsSnoc(reg, insts[id].runs, r, dst);
        var d, a := Dropped(i'.drops, dst), Arrived(insts, src, dst);
        assert To(PendingOf(insts, id), dst) == [] && d + a + [] == d + a;
      }
    }
  }

  lemma RequestsSnoc<V>(reg: Recovery, runs: seq<Run<V>>, r: Run<V>, dst: string)
    ensures Requests(reg, runs + [r], dst) == Requests(reg, runs, dst) + To(EffectsOf(reg, r).sends, dst)
  {
    assert (runs + [r])[..|runs|] == runs;
  }

  lemma RequestsOfFew<V>(reg: Recovery, runs: seq<Run<V>>, dst: string)
    requires |runs| <= 2
    ensures |runs| == 0 ==> Requests(reg, runs, dst) == []
    ensures |runs| == 1 ==> Requests(reg, runs, dst) == To(EffectsOf(reg, runs[0]).sends, dst)
    ensures |runs| == 2 ==>
      Requests(reg, runs, dst) == To(EffectsOf(reg, runs[0]).sends, dst) + To(EffectsOf(reg, runs[1]).sends, dst)
  {
    if |runs| == 2 {
      RequestsOfFew(reg, runs[..1], dst);
    }
  }

  /** A goroutine's own action adds the requests of the run it makes, if it makes one. */
  lemma ActRoutes<V>(reg: Recovery, insts: map<string, Inst<V>>, id: string, now: int, a: Action<V>)
    requires Routed(reg, insts) && id in insts && Acted(reg, now, insts[id], a).Some?
    ensures Routed(reg, insts[id := Acted(reg, now, insts[id], a).value])
  {
    var i, i' := insts[id], Acted(reg, now, insts[id], a).value;
    ActViews(reg, now, i, a);
    if a.Handle? {
      RunRoutes(reg, insts, id, i', MadeRun(i, a));
    } else {
      SameRoutes(reg, insts, id, i');
    }
  }

  function MadeRun<V>(i: Inst<V>, a: Action<V>): Run<V>
    requires i.phase.Handling? && a.Handle?
  {
    var p := i.phase;
    Run(p.firing, p.key, p.input, p.msg, a.primary, a.recovery)
  }

  /** What a step of the wait loop does to the data that other instances depend on. */
  ghost predicate Receives<V>(b: Box<V>, b': Box<V>) {
    && b'.sent == b.sent && b'.origins == b.origins
    && (|| (b'.taken == b.taken && b'.callers == b.callers)
        || (b.callers != [] && b'.taken == b.taken + [b.callers[0].call] && b'.callers == b.callers[1..]))
  }

  lemma WaitReceives<V>(b: Box<V>, w: Wait<V>, now: int)
    requires w.pc != Block
    ensures Receives(b, WaitStep(b, w, now).0)
  {}

  lemma BlockReceives<V>(b: Box<V>, w: Wait<V>, now: int, choice: Choice)
    requires Ready(b, w, now, choice)
    ensures Receives(b, BlockStep(b, w, now, choice).0)
  {}

  lemma AfterWaitReceives<V>(i: Inst<V>, step: (Box<V>, Progress<V>))
    requires i.phase.Waiting? && Receives(i.box, step.0)
    ensures var i' := AfterWait(i, step);
      && Receives(i.box, i'.box) && !i'.phase.Applying?
      && i'.key == i.key && i'.input == i.input && i'.parent == i.parent && i'.drops == i.drops && i'.runs == i.runs
  {}

  /** What a goroutine's own action does to the data that other instances depend on. */
  lemma ActViews<V>(reg: Recovery, now: int, i: Inst<V>, a: Action<V>)
    requires Acted(reg, now, i, a).Some?
    ensures var i' := Acted(reg, now, i, a).value;
      && i'.key == i.key && i'.input == i.input && i'.parent == i.parent && i'.drops == i.drops
      && i'.box.sent == i.box.sent && i'.box.origins == i.box.origins
      && Pending(i) == [] && (i.phase.Applying? ==> i.phase.starts == [])
      && (!a.Handle? ==> i'.runs == i.runs && Pending(i') == [])
      && (a.Handle? ==>
            && i.phase.Handling? && i'.runs == i.runs + [MadeRun(i, a)]
            && Pending(i') == EffectsOf(reg, MadeRun(i, a)).sends
            && (if i'.phase.Applying? then i'.phase.starts == EffectsOf(reg, MadeRun(i, a)).starts
                else EffectsOf(reg, MadeRun(i, a)).starts == []))
  {
    match a
    case Handle(_, _) =>
    case Settle =>
    case WaitOn =>
      WaitReceives(i.box, i.phase.wait, now);
      AfterWaitReceives(i, WaitStep(i.box, i.phase.wait, now));
    case Choose(choice) =>
      BlockReceives(i.box, i.phase.wait, now, choice);
      AfterWaitReceives(i, BlockStep(i.box, i.phase.wait, now, choice));
  }

  /** A pending element moves to the arrived ones, or to the dropped ones if nothing has arrived. */
  lemma Moved<T>(all: seq<T>, dropped: seq<T>, arrived: seq<T>, pending: seq<T>, x: seq<T>, rest: seq<T>)
    requires all == dropped + arrived + pending && pending == x + rest
    ensures all == dropped + (arrived + x) + rest
    ensures arrived == [] || x == [] ==> all == (dropped + x) + arrived + rest
  {}

  lemma PopTo<V>(sends: seq<SendEntry<V>>, dst: string)
    requires sends != []
    ensures To(sends, dst)
      == (if sends[0].routineID == dst then [SendMsg(EntryKey(sends[0]), sends[0].msg)] else []) + To(sends[1..], dst)
  {}

  lemma DropRoutes<V>(reg: Recovery, insts: map<string, Inst<V>>, id: string)
    requires Routed(reg, insts) && id in insts && insts[id].phase.Applying?
    requires insts[id].phase.starts == [] && insts[id].phase.sends != []
    requires insts[id].phase.sends[0].routineID !in insts
    ensures Routed(reg, ApplyOne(insts, id).value)
  {
    var i, e := insts[id], insts[id].phase.sends[0];
    var tail, d := i.phase.sends[1..], Drop(|i.runs| - 1, e);
    var i' := i.(phase := i.phase.(sends := tail), drops := i.drops + [d]);
    var after := insts[id := i'];
    forall src, dst ensures Balanced(reg, after, src, dst) {
      assert Balanced(reg, insts, src, dst);
      UpdateViews(insts, id, i', src, dst);
      if src == id {
        DroppedSnoc(i.drops, d, dst);
        PopTo(i.phase.sends, dst);
        var x := if e.routineID == dst then [SendMsg(EntryKey(e), e.msg)] else [];
        Moved(Requests(reg, i.runs, dst), Dropped(i.drops, dst), Arrived(insts, src, dst), To(i.phase.sends, dst), x,
              To(tail, dst));
      }
    }
  }

  lemma DroppedSnoc<V>(drops: seq<Drop<V>>, d: Drop<V>, dst: string)
    ensures Dropped(drops + [d], dst)
      == Dropped(drops, dst) + (if d.entry.routineID == dst then [SendMsg(EntryKey(d.entry), d.entry.msg)] else [])
  {
    assert (drops + [d])[..|drops|] == drops;
  }

  /** The instance that sends, after its first pending send is popped. */
  function SendPopped<V>(i: Inst<V>): Inst<V>
    requires i.phase.Applying? && i.phase.sends != []
  {
    i.(phase := i.phase.(sends := i.phase.sends[1..]))
  }

  lemma SendRoutes<V>(reg: Recovery, insts: map<string, Inst<V>>, id: string)
    requires Routed(reg, insts) && Paired(insts) && id in insts && insts[id].phase.Applying?
    requires insts[id].phase.starts == [] && insts[id].phase.sends != []
    requires insts[id].phase.sends[0].routineID in insts && ApplyOne(insts, id).Some?
    ensures Routed(reg, ApplyOne(insts, id).value)
  {
    var e := insts[id].phase.sends[0];
    var after := Deliver(insts[id := SendPopped(insts[id])], e.routineID, Routine(id), SendMsg(EntryKey(e), e.msg));
    assert ApplyOne(insts, id) == Some(after);
    forall src, dst ensures Balanced(reg, after, src, dst) {
      assert Balanced(reg, insts, src, dst);
      SendBalances(reg, insts, id, src, dst);
    }
  }

  lemma SendBalances<V>(reg: Recovery, insts: map<string, Inst<V>>, id: string, src: string, dst: string)
    requires Balanced(reg, insts, src, dst) && Paired(insts) && id in insts && insts[id].phase.Applying?
    requires insts[id].phase.sends != [] && insts[id].phase.sends[0].routineID in insts
    ensures var e := insts[id].phase.sends[0];
      var popped := insts[id := SendPopped(insts[id])];
      Balanced(reg, Deliver(popped, e.routineID, Routine(id), SendMsg(EntryKey(e), e.msg)), src, dst)
  {
    var e := insts[id].phase.sends[0];
    var m := SendMsg(EntryKey(e), e.msg);
    var popped := insts[id := SendPopped(insts[id])];
    PopViews(insts, id, src, dst);
    DeliverViews(popped, e.routineID, Routine(id), m, src, dst);
    MoreArrived(reg, insts, Deliver(popped, e.routineID, Routine(id), m), src, dst,
                if dst == e.routineID && Routine(id) == Routine(src) then [m] else []);
  }

  /** What popping the first pending send changes, and what it does not. */
  lemma PopViews<V>(insts: map<string, Inst<V>>, id: string, src: string, dst: string)
    requires id in insts && insts[id].phase.Applying? && insts[id].phase.sends != []
    ensures var popped, e := insts[id := SendPopped(insts[id])], insts[id].phase.sends[0];
      && RunsOf(popped, src) == RunsOf(insts, src) && DropsOf(popped, src) == DropsOf(insts, src)
      && Arrived(popped, src, dst) == Arrived(insts, src, dst)
      && To(PendingOf(insts, src), dst)
         == (if dst == e.routineID && Routine(id) == Routine(src) then [SendMsg(EntryKey(e), e.msg)] else [])
            + To(PendingOf(popped, src), dst)
  {
    UpdateViews(insts, id, SendPopped(insts[id]), src, dst);
    PopTo(insts[id].phase.sends, dst);
  }

  lemma MoreArrived<V>(reg: Recovery, a: map<string, Inst<V>>, b: map<string, Inst<V>>, src: string, dst: string,
                       x: seq<SendMsg<V>>)
    requires Balanced(reg, a, src, dst)
    requires RunsOf(b, src) == RunsOf(a, src) && DropsOf(b, src) == DropsOf(a, src)
    requires Arrived(b, src, dst) == Arrived(a, src, dst) + x
    requires To(PendingOf(a, src), dst) == x + To(PendingOf(b, src), dst)
    ensures Balanced(reg, b, src, dst)
  {
    Moved(Requests(reg, RunsOf(a, src), dst), Dropped(DropsOf(a, src), dst), Arrived(a, src, dst),
          To(PendingOf(a, src), dst), x, To(PendingOf(b, src), dst));
  }

  // ----- Starts through one step -----

  /** Growing keeps what was started started, as long as each instance's own start data fits. */
  lemma GrowingKeepsParents<V>(reg: Recovery, a: map<string, Inst<V>>, b: map<string, Inst<V>>, id: string)
    requires Grows(a, b) && id in a && Parented(reg, a, id)
    ensures Parented(reg, b, id)
  {
    if a[id].parent.Routine? {
      var p := a[id].parent.id;
      var j, k :| 0 <= j < |RunsOf(a, p)| && 0 <= k < |EffectsOf(reg, RunsOf(a, p)[j]).starts|
        && var e := EffectsOf(reg, RunsOf(a, p)[j]).starts[k];
           e.routineID == id && StartKey(e) == a[id].key && e.input == a[id].input;
      assert RunsOf(b, p)[j] == RunsOf(a, p)[j];
    }
  }

  /** An instance whose runs, drops and pending starts are as before. */
  lemma SameStarts<V>(reg: Recovery, a: map<string, Inst<V>>, b: map<string, Inst<V>>, i: Inst<V>, i': Inst<V>)
    requires Grows(a, b) && StartsApplied(reg, a, i) && DropsFit(reg, i)
    requires i'.runs == i.runs && i'.drops == i.drops
    requires i.phase.Applying? && i.phase.starts != [] ==> i'.phase.Applying? && i'.phase.starts == i.phase.starts
    ensures StartsApplied(reg, b, i') && DropsFit(reg, i')
  {}

  /** One instance changes, to one whose start data fits, and others may be added. */
  lemma OthersStarted<V>(reg: Recovery, a: map<string, Inst<V>>, b: map<string, Inst<V>>, id: string)
    requires Started(reg, a) && Grows(a, b) && id in a
    requires StartsApplied(reg, b, b[id]) && DropsFit(reg, b[id])
    requires forall other :: other in b && other != id && other in a ==>
      b[other].runs == a[other].runs && b[other].drops == a[other].drops && b[other].phase == a[other].phase
    requires forall other :: other in b && other !in a ==>
      b[other].runs == [] && b[other].drops == [] && Parented(reg, b, other)
    ensures Started(reg, b)
  {
    forall other | other in b
      ensures StartsApplied(reg, b, b[other]) && DropsFit(reg, b[other]) && Parented(reg, b, other)
    {
      if other in a {
        GrowingKeepsParents(reg, a, b, other);
        if other != id {
          SameStarts(reg, a, b, a[other], b[other]);
        }
      }
    }
  }

  lemma ActStarts<V>(reg: Recovery, insts: map<string, Inst<V>>, id: string, now: int, a: Action<V>)
    requires Started(reg, insts) && id in insts && Acted(reg, now, insts[id], a).Some?
    ensures var after := insts[id := Acted(reg, now, insts[id], a).value]; Started(reg, after) && Grows(insts, after)
  {
    var i, i' := insts[id], Acted(reg, now, insts[id], a).value;
    var after := insts[id := i'];
    ActViews(reg, now, i, a);
    if a.Handle? {
      RunStarts(reg, insts, after, i, i', MadeRun(i, a));
    } else {
      SameStarts(reg, insts, after, i, i');
    }
    OthersStarted(reg, insts, after, id);
  }

  /** A new run's start entries are all about to be applied. */
  lemma RunStarts<V>(reg: Recovery, a: map<string, Inst<V>>, b: map<string, Inst<V>>, i: Inst<V>, i': Inst<V>,
                     r: Run<V>)
    requires StartsApplied(reg, a, i) && DropsFit(reg, i) && Grows(a, b)
    requires i.phase.Applying? ==> i.phase.starts == []
    requires i'.runs == i.runs + [r] && i'.drops == i.drops
    requires if i'.phase.Applying? then i'.phase.starts == EffectsOf(reg, r).starts else EffectsOf(reg, r).starts == []
    ensures StartsApplied(reg, b, i') && DropsFit(reg, i')
  {
    var n := |i.runs|;
    assert i'.runs[..n] == i.runs;
    forall j, k | 0 <= j < |i'.runs| && 0 <= k < |EffectsOf(reg, i'.runs[j]).starts|
      ensures var e := EffectsOf(reg, i'.runs[j]).starts[k];
        || e.routineID in b
        || (i'.phase.Applying? && j == |i'.runs| - 1 && k >= |EffectsOf(reg, i'.runs[j]).starts| - |i'.phase.starts|)
    {
      if j < n {
        assert i'.runs[j] == i.runs[j];
      }
    }
    forall d | 0 <= d < |i'.drops|
      ensures 0 <= i'.drops[d].run < |i'.runs| && i'.runs[i'.drops[d].run] == i.runs[i.drops[d].run]
    {}
  }

  lemma StartNextStarts<V>(reg: Recovery, insts: map<string, Inst<V>>, id: string)
    requires Started(reg, insts) && id in insts && PhaseFits(reg, insts[id]) && insts[id].phase.Applying?
    requires insts[id].phase.starts != []
    ensures Started(reg, ApplyOne(insts, id).value) && Grows(insts, ApplyOne(insts, id).value)
  {
    ApplyStart(insts, id);
    StartedOne(reg, insts, ApplyOne(insts, id).value, id, insts[id].phase.starts[0]);
  }

  lemma StartedOne<V>(reg: Recovery, a: map<string, Inst<V>>, b: map<string, Inst<V>>, id: string, e: StartEntry<V>)
    requires Started(reg, a) && Grows(a, b) && id in a && PhaseFits(reg, a[id])
    requires a[id].phase.Applying? && a[id].phase.starts != [] && e == a[id].phase.starts[0]
    requires b[id] == a[id].(phase := a[id].phase.(starts := a[id].phase.starts[1..]))
    requires e.routineID in b
    requires e.routineID !in a ==> b[e.routineID] == NewInst(StartKey(e), e.input, Routine(id))
    requires forall other :: other in b && other != id && other in a ==> b[other] == a[other]
    requires forall other :: other in b && other !in a ==> other == e.routineID
    ensures Started(reg, b)
  {
    assert StartsApplied(reg, a, a[id]) && DropsFit(reg, a[id]);
    StartsPopped(reg, a, b, a[id], b[id], e);
    assert DropsFit(reg, b[id]);
    if e.routineID !in a {
      PoppedPhaseFits(reg, a[id]);
      ChildParented(reg, b, id, b[id], e);
    }
    OthersStarted(reg, a, b, id);
  }

  lemma ApplyStart<V>(insts: map<string, Inst<V>>, id: string)
    requires id in insts && insts[id].phase.Applying? && insts[id].phase.starts != []
    ensures var i, e, after := insts[id], insts[id].phase.starts[0], ApplyOne(insts, id).value;
      && ApplyOne(insts, id).Some?
      && Grows(insts, after)
      && after[id] == i.(phase := i.phase.(starts := i.phase.starts[1..]))
      && e.routineID in after
      && (e.routineID !in insts ==> after[e.routineID] == NewInst(StartKey(e), e.input, Routine(id)))
      && (forall other :: other in after && other != id && other in insts ==> after[other] == insts[other])
      && (forall other :: other in after && other !in insts ==> other == e.routineID)
  {}

  lemma PoppedPhaseFits<V>(reg: Recovery, i: Inst<V>)
    requires PhaseFits(reg, i) && i.phase.Applying? && i.phase.starts != []
    ensures PhaseFits(reg, i.(phase := i.phase.(starts := i.phase.starts[1..])))
    ensures |i.phase.starts[1..]| < |EffectsOf(reg, i.runs[|i.runs| - 1]).starts|
    ensures var starts := EffectsOf(reg, i.runs[|i.runs| - 1]).starts;
      starts[|starts| - |i.phase.starts[1..]| - 1] == i.phase.starts[0]
  {}

  lemma ChildParented<V>(reg: Recovery, after: map<string, Inst<V>>, id: string, i': Inst<V>, e: StartEntry<V>)
    requires id in after && after[id] == i' && PhaseFits(reg, i') && i'.phase.Applying?
    requires |i'.phase.starts| < |EffectsOf(reg, i'.runs[|i'.runs| - 1]).starts|
    requires var starts := EffectsOf(reg, i'.runs[|i'.runs| - 1]).starts; starts[|starts| - |i'.phase.starts| - 1] == e
    requires e.routineID in after && after[e.routineID] == NewInst(StartKey(e), e.input, Routine(id))
    ensures Parented(reg, after, e.routineID)
  {
    var n := |i'.runs| - 1;
    var at := |EffectsOf(reg, i'.runs[n]).starts| - |i'.phase.starts| - 1;
    assert RunsOf(after, id) == i'.runs;
    assert 0 <= n < |RunsOf(after, id)| && 0 <= at < |EffectsOf(reg, RunsOf(after, id)[n]).starts|;
  }

  lemma StartsPopped<V>(reg: Recovery, a: map<string, Inst<V>>, b: map<string, Inst<V>>, i: Inst<V>, i': Inst<V>,
                        e: StartEntry<V>)
    requires StartsApplied(reg, a, i) && Grows(a, b) && PhaseFits(reg, i) && i.phase.Applying? && i.phase.starts != []
    requires e == i.phase.starts[0] && e.routineID in b
    requires i' == i.(phase := i.phase.(starts := i.phase.starts[1..]))
    ensures StartsApplied(reg, b, i')
  {
    var n := |i.runs| - 1;
    var starts := EffectsOf(reg, i.runs[n]).starts;
    var at := |starts| - |i.phase.starts|;
    assert starts[at] == e;
    forall j, k | 0 <= j < |i'.runs| && 0 <= k < |EffectsOf(reg, i'.runs[j]).starts|
      ensures var f := EffectsOf(reg, i'.runs[j]).starts[k];
        || f.routineID in b
        || (i'.phase.Applying? && j == |i'.runs| - 1 && k >= |EffectsOf(reg, i'.runs[j]).starts| - |i'.phase.starts|)
    {
      var f := EffectsOf(reg, i.runs[j]).starts[k];
      if f.routineID !in a {
        assert j == n && k >= at;
        if k == at {
          assert f == e;
        }
      }
    }
  }

  lemma SendNextStarts<V>(reg: Recovery, insts: map<string, Inst<V>>, id: string)
    requires Started(reg, insts) && id in insts && PhaseFits(reg, insts[id]) && insts[id].phase.Applying?
    requires insts[id].phase.starts == [] && insts[id].phase.sends != [] && ApplyOne(insts, id).Some?
    ensures Started(reg, ApplyOne(insts, id).value) && Grows(insts, ApplyOne(insts, id).value)
  {
    var i, e := insts[id], insts[id].phase.sends[0];
    var after := ApplyOne(insts, id).value;
    ApplySend(insts, id);
    assert StartsApplied(reg, insts, i) && DropsFit(reg, i);
    if e.routineID !in insts {
      DropFits(reg, insts, i, after[id], e);
    }
    SameStarts(reg, insts, after, i, after[id].(drops := i.drops));
    OthersStarted(reg, insts, after, id);
  }

  ghost predicate SendApplied<V>(insts: map<string, Inst<V>>, id: string, after: map<string, Inst<V>>)
    requires id in insts && insts[id].phase.Applying? && SendsNext(insts[id])
  {
    var i, e := insts[id], insts[id].phase.sends[0];
    && Grows(insts, after) && after.Keys == insts.Keys
    && after[id].runs == i.runs
    && after[id].phase == i.phase.(sends := i.phase.sends[1..])
    && after[id].drops == (if e.routineID in insts then i.drops else i.drops + [Drop(|i.runs| - 1, e)])
    && (forall other :: other in after && other != id ==>
         after[other].runs == insts[other].runs && after[other].drops == insts[other].drops
         && after[other].phase == insts[other].phase)
  }

  lemma ApplySend<V>(insts: map<string, Inst<V>>, id: string)
    requires id in insts && insts[id].phase.Applying? && SendsNext(insts[id]) && ApplyOne(insts, id).Some?
    ensures SendApplied(insts, id, ApplyOne(insts, id).value)
  {
    var i, e := insts[id], insts[id].phase.sends[0];
    if e.routineID in insts {
      ApplyDelivers(insts, id);
    } else {
      assert ApplyOne(insts, id).value == insts[id := SendPopped(i).(drops := i.drops + [Drop(|i.runs| - 1, e)])];
    }
  }

  lemma ApplyDelivers<V>(insts: map<string, Inst<V>>, id: string)
    requires id in insts && insts[id].phase.Applying? && SendsNext(insts[id]) && ApplyOne(insts, id).Some?
    requires insts[id].phase.sends[0].routineID in insts
    ensures SendApplied(insts, id, ApplyOne(insts, id).value)
  {
    var i, e := insts[id], insts[id].phase.sends[0];
    var popped := insts[id := SendPopped(i)];
    assert ApplyOne(insts, id).value == Deliver(popped, e.routineID, Routine(id), SendMsg(EntryKey(e), e.msg));
  }

  ghost predicate SendsNext<V>(i: Inst<V>)
    requires i.phase.Applying?
  {
    i.phase.starts == [] && i.phase.sends != []
  }

  /** With its starts applied, a run's drop names nobody that the run started. */
  lemma DropFits<V>(reg: Recovery, insts: map<string, Inst<V>>, i: Inst<V>, i': Inst<V>, e: SendEntry<V>)
    requires StartsApplied(reg, insts, i) && DropsFit(reg, i)
    requires PhaseFits(reg, i) && i.phase.Applying? && i.phase.starts == [] && e.routineID !in insts
    requires i'.runs == i.runs && i'.drops == i.drops + [Drop(|i.runs| - 1, e)]
    ensures DropsFit(reg, i')
  {
    var n := |i.runs| - 1;
    forall k | 0 <= k < |EffectsOf(reg, i.runs[n]).starts|
      ensures EffectsOf(reg, i.runs[n]).starts[k].routineID != e.routineID
    {
      assert EffectsOf(reg, i.runs[n]).starts[k].routineID in insts;
    }
    forall d | 0 <= d < |i'.drops|
      ensures 0 <= i'.drops[d].run < |i'.runs|
      ensures forall k :: 0 <= k < |EffectsOf(reg, i'.runs[i'.drops[d].run]).starts| ==>
        EffectsOf(reg, i'.runs[i'.drops[d].run]).starts[k].routineID != i'.drops[d].entry.routineID
    {
      if d < |i.drops| {
        assert i'.drops[d] == i.drops[d];
      }
    }
  }

  // ----- Calls through one step -----

  /** A goroutine's own action leaves the calls made to it alone, or takes the first caller. */
  lemma ActCalls<V>(reg: Recovery, now: int, i: Inst<V>, a: Action<V>)
    requires Acted(reg, now, i, a).Some?
    ensures AllCalls(Acted(reg, now, i, a).value.box) == AllCalls(i.box)
  {
    ActTakesFirst(reg, now, i, a);
    TakingFirstMoves(i.box, Acted(reg, now, i, a).value.box);
  }

  lemma TakingFirstMoves<V>(b: Box<V>, b': Box<V>)
    requires || (b'.taken == b.taken && b'.callers == b.callers)
             || (b.callers != [] && b'.taken == b.taken + [b.callers[0].call] && b'.callers == b.callers[1..])
    ensures AllCalls(b') == AllCalls(b)
  {
    if b'.taken != b.taken {
      CallerIdsCons(b.callers);
      Associate(b.taken, [b.callers[0].call], CallerIds(b'.callers));
    }
  }

  lemma CallerIdsCons<V>(callers: seq<CallReq<V>>)
    requires callers != []
    ensures CallerIds(callers) == [callers[0].call] + CallerIds(callers[1..])
  {}

  lemma ActTakesFirst<V>(reg: Recovery, now: int, i: Inst<V>, a: Action<V>)
    requires Acted(reg, now, i, a).Some?
    ensures Receives(i.box, Acted(reg, now, i, a).value.box)
  {
    match a
    case Handle(_, _) =>
    case Settle =>
    case WaitOn =>
      WaitReceives(i.box, i.phase.wait, now);
      AfterWaitReceives(i, WaitStep(i.box, i.phase.wait, now));
    case Choose(choice) =>
      BlockReceives(i.box, i.phase.wait, now, choice);
      AfterWaitReceives(i, BlockStep(i.box, i.phase.wait, now, choice));
  }

  lemma CallsStay<V>(s: System<V>, insts: map<string, Inst<V>>)
    requires CallsOwned(s)
    requires forall id :: id in insts ==>
      AllCalls(insts[id].box) == if id in s.insts then AllCalls(s.insts[id].box) else []
    ensures CallsOwned(s.(insts := insts))
  {
    forall id | id in insts ensures OwnCalls(s.(insts := insts), id) {
      if id in s.insts {
        assert OwnCalls(s, id);
      }
    }
  }

  lemma UpdateCalls<V>(s: System<V>, id: string, i': Inst<V>)
    requires CallsOwned(s) && id in s.insts && AllCalls(i'.box) == AllCalls(s.insts[id].box)
    ensures CallsOwned(s.(insts := s.insts[id := i']))
  {
    CallsStay(s, s.insts[id := i']);
  }

  lemma StartCalls<V>(s: System<V>, parent: Origin, e: StartEntry<V>)
    requires CallsOwned(s)
    ensures CallsOwned(s.(insts := Start(s.insts, parent, e)))
  {
    CallsStay(s, Start(s.insts, parent, e));
  }

  lemma DeliverCalls<V>(s: System<V>, to: string, origin: Origin, m: SendMsg<V>)
    requires CallsOwned(s) && to in s.insts
    ensures CallsOwned(s.(insts := Deliver(s.insts, to, origin, m)))
  {
    UpdateCalls(s, to, s.insts[to].(box := Enqueue(s.insts[to].box, origin, m)));
  }

  lemma ApplyCalls<V>(s: System<V>, id: string)
    requires CallsOwned(s) && id in s.insts && Busy(s.insts[id]) && ApplyOne(s.insts, id).Some?
    ensures CallsOwned(s.(insts := ApplyOne(s.insts, id).value))
  {
    var i := s.insts[id];
    if i.phase.starts != [] {
      var popped := i.(phase := i.phase.(starts := i.phase.starts[1..]));
      UpdateCalls(s, id, popped);
      StartCalls(s.(insts := s.insts[id := popped]), Routine(id), i.phase.starts[0]);
    } else {
      var e := i.phase.sends[0];
      var popped := i.(phase := i.phase.(sends := i.phase.sends[1..]));
      if e.routineID in s.insts {
        UpdateCalls(s, id, popped);
        DeliverCalls(s.(insts := s.insts[id := popped]), e.routineID, Routine(id), SendMsg(EntryKey(e), e.msg));
      } else {
        UpdateCalls(s, id, popped.(drops := i.drops + [Drop(|i.runs| - 1, e)]));
      }
    }
  }

  lemma MadeCallOwned<V>(s: System<V>, id: string, callName: string, handlerKey: string, req: V)
    requires CallsOwned(s) && id in s.insts
    ensures CallsOwned(MadeCall(s, id, callName, handlerKey, req))
  {
    var s' := MadeCall(s, id, callName, handlerKey, req);
    var n := |s.calls|;
    var b, b' := s.insts[id].box, s'.insts[id].box;
    assert CallerIds(b'.callers) == CallerIds(b.callers) + [n];
    assert AllCalls(b') == AllCalls(b) + [n];
    assert OwnCalls(s, id);
    forall k | 0 <= k < |AllCalls(b')| ensures AllCalls(b')[k] < |s'.calls| && s'.calls[AllCalls(b')[k]] == id {
      if k < |AllCalls(b)| {
        assert AllCalls(b')[k] == AllCalls(b)[k];
      }
    }
    forall x, y | 0 <= x < y < |AllCalls(b')| ensures AllCalls(b')[x] != AllCalls(b')[y] {
      assert AllCalls(b')[x] == AllCalls(b)[x];
      if y < |AllCalls(b)| {
        assert AllCalls(b')[y] == AllCalls(b)[y];
      }
    }
    forall other | other in s'.insts && other != id ensures OwnCalls(s', other) {
      assert OwnCalls(s, other);
    }
  }
}
