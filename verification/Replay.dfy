/** From a workflow to the in-memory runtime: a workflow run in which each pick is the one that the in-memory runtime's
    searches make is what an instance there can do, step by step from the empty system. */
module Replay {
  import Keys
  import opened Counting
  import opened Wrappers
  import opened Queries
  import opened Durable
  import opened Mailbox
  import opened InMemory
  import opened History
  import opened Routing
  import opened Reachable
  import opened Driving
  import opened Choices
  import opened Temporal
  import opened WorkflowRuns
  import opened Agreement

  // ----- Picks that the runtime makes -----

  /** The case is the first that matches, or the nearest timer; and nothing that is due at once goes before it. */
  predicate RuntimePick<V>(cases: seq<Case<V>>, p: Pick<V>) {
    match p
    case PickTimer(i) => FirstDue(cases, i)
    case PickSend(i, _) =>
      i < |cases| && cases[i].sendName != "" && SendCase(cases, cases[i].handlerKey) == Some(i) && NoneDue(cases)
    case PickDefault(i) => DefaultCase(cases) == Some(i) && NoneDue(cases)
    case PickCall => false
  }

  ghost predicate RuntimePicks<V>(reg: Recovery, w: Wf<V>, turns: seq<Turn<V>>) {
    turns == []
    || (var init, t := turns[..|turns| - 1], turns[|turns| - 1];
        var r := RunWorkflow(reg, w, init);
        && RuntimePicks(reg, w, init)
        && (r.Next? && AtSelector(reg, r.wf, t).Some? ==> RuntimePick(Entered(reg, r.wf, t), t.pick)))
  }

  // ----- Sends -----

  /** How many messages a log sends to one routine. */
  function SentTo<V>(log: seq<Event<V>>, dst: string): nat {
    if log == [] then 0
    else
      var e := log[|log| - 1];
      SentTo(log[..|log| - 1], dst) + (if e.Signalled? && e.send.routineID == dst then 1 else 0)
  }

  lemma {:induction false} SentConcat<V>(a: seq<Event<V>>, b: seq<Event<V>>, dst: string)
    ensures SentTo(a + b, dst) == SentTo(a, dst) + SentTo(b, dst)
  {
    if b == [] {
      assert a + b == a;
    } else {
      var n := |b| - 1;
      assert (a + b)[..|a + b| - 1] == a + b[..n];
      SentConcat(a, b[..n], dst);
    }
  }

  lemma {:induction false} NoSends<V>(events: seq<Event<V>>, dst: string)
    requires forall i :: 0 <= i < |events| ==> !events[i].Signalled?
    ensures SentTo(events, dst) == 0
  {
    if events != [] {
      NoSends(events[..|events| - 1], dst);
    }
  }

  function Signals<V>(sends: seq<SendEntry<V>>): (events: seq<Event<V>>)
    ensures |events| == |sends| && forall i :: 0 <= i < |sends| ==> events[i] == Signalled(sends[i])
  {
    seq(|sends|, i requires 0 <= i < |sends| => Signalled(sends[i]))
  }

  lemma {:induction false} SentInOrder<V>(sends: seq<SendEntry<V>>, dst: string)
    ensures SentTo(Signals(sends), dst) == |To(sends, dst)|
  {
    if sends != [] {
      SentInOrder(sends[1..], dst);
      assert Signals(sends) == [Signalled(sends[0])] + Signals(sends[1..]);
      SentConcat([Signalled(sends[0])], Signals(sends[1..]), dst);
      assert [Signalled(sends[0])][..0] == [];
    }
  }

  /** What one run adds. */
  lemma RunSends<V>(reg: Recovery, r: Run<V>, dst: string)
    ensures SentTo(RunEvents(reg, r), dst) == |To(EffectsOf(reg, r).sends, dst)|
  {
    var ran := Invocations(reg, r.key, r.input, r.msg, r.primary);
    var eff := EffectsOf(reg, r);
    var starts := seq(|eff.starts|, i requires 0 <= i < |eff.starts| => Event<V>.ChildStarted(eff.starts[i]));
    SentConcat(ran, EffectEvents(eff), dst);
    NoSends(ran, dst);
    assert EffectEvents(eff) == starts + Signals(eff.sends);
    SentConcat(starts, Signals(eff.sends), dst);
    NoSends(starts, dst);
    SentInOrder(eff.sends, dst);
  }

  // ----- Applying a run's effects -----

  function Load<V>(insts: map<string, Inst<V>>, dst: string): nat {
    if dst in insts then |insts[dst].box.sendCh| else 0
  }

  /** What is on the others' channels and what is still to be sent stays within `bound`. */
  ghost predicate Fits<V>(insts: map<string, Inst<V>>, id: string, sends: seq<SendEntry<V>>, bound: string -> nat) {
    forall dst :: dst != id ==> Load(insts, dst) + |To(sends, dst)| <= bound(dst) && bound(dst) <= CAPACITY
  }

  ghost predicate NotTo<V>(sends: seq<SendEntry<V>>, id: string) {
    forall k :: 0 <= k < |sends| ==> sends[k].routineID != id
  }

  lemma DriveStart<V>(reg: Recovery, now: int, labels: seq<Label<V>>, s: System<V>, id: string, bound: string -> nat)
    returns (labels': seq<Label<V>>, s': System<V>)
    requires Reached(reg, now, labels, s) && id in s.insts && s.insts[id].phase.Applying?
    requires s.insts[id].phase.starts != [] && Fits(s.insts, id, s.insts[id].phase.sends, bound)
    ensures Reached(reg, now, labels', s') && s'.now == s.now && id in s'.insts
    ensures var i := s.insts[id]; s'.insts[id] == i.(phase := i.phase.(starts := i.phase.starts[1..]))
    ensures Fits(s'.insts, id, s.insts[id].phase.sends, bound)
  {
    ApplyStart(s.insts, id);
    labels' := labels + [Apply(id)];
    s' := Extend(reg, now, labels, s, Apply(id));
    forall dst | dst != id ensures Load(s'.insts, dst) == Load(s.insts, dst) {
    }
  }

  /** The next send goes to another routine: it is dropped, or it finds room. */
  lemma SendApplies<V>(insts: map<string, Inst<V>>, id: string, bound: string -> nat)
    requires id in insts && insts[id].phase.Applying? && insts[id].phase.starts == [] && insts[id].phase.sends != []
    requires NotTo(insts[id].phase.sends, id) && Fits(insts, id, insts[id].phase.sends, bound)
    ensures ApplyOne(insts, id).Some?
    ensures var after, i, e := ApplyOne(insts, id).value, insts[id], insts[id].phase.sends[0];
      && id in after
      && after[id] == i.(phase := i.phase.(sends := i.phase.sends[1..]), drops := after[id].drops)
      && (forall dst :: dst != id ==>
            Load(after, dst) <= Load(insts, dst) + (if dst == e.routineID then 1 else 0))
  {
    var e := insts[id].phase.sends[0];
    assert |To(insts[id].phase.sends, e.routineID)| >= 1;
  }

  lemma DriveSendEntry<V>(reg: Recovery, now: int, labels: seq<Label<V>>, s: System<V>, id: string,
                          bound: string -> nat) returns (labels': seq<Label<V>>, s': System<V>)
    requires Reached(reg, now, labels, s) && id in s.insts && s.insts[id].phase.Applying?
    requires s.insts[id].phase.starts == [] && s.insts[id].phase.sends != []
    requires NotTo(s.insts[id].phase.sends, id) && Fits(s.insts, id, s.insts[id].phase.sends, bound)
    ensures Reached(reg, now, labels', s') && s'.now == s.now && id in s'.insts
    ensures var i := s.insts[id];
      s'.insts[id] == i.(phase := i.phase.(sends := i.phase.sends[1..]), drops := s'.insts[id].drops)
    ensures Fits(s'.insts, id, s.insts[id].phase.sends[1..], bound)
  {
    SendApplies(s.insts, id, bound);
    labels' := labels + [Apply(id)];
    s' := Extend(reg, now, labels, s, Apply(id));
  }

  /** All effects of a run. */
  lemma {:induction false} DriveEffects<V>(reg: Recovery, now: int, labels: seq<Label<V>>, s: System<V>, id: string,
                                           bound: string -> nat) returns (labels': seq<Label<V>>, s': System<V>)
    requires Reached(reg, now, labels, s) && id in s.insts && s.insts[id].phase.Applying?
    requires NotTo(s.insts[id].phase.sends, id) && Fits(s.insts, id, s.insts[id].phase.sends, bound)
    ensures Reached(reg, now, labels', s') && s'.now == s.now && id in s'.insts
    ensures var i := s.insts[id];
      s'.insts[id] == i.(phase := i.phase.(starts := [], sends := []), drops := s'.insts[id].drops)
    ensures Fits(s'.insts, id, [], bound)
    decreases |s.insts[id].phase.starts| + |s.insts[id].phase.sends|
  {
    var p := s.insts[id].phase;
    if p.starts != [] {
      var labels1, s1 := DriveStart(reg, now, labels, s, id, bound);
      labels', s' := DriveEffects(reg, now, labels1, s1, id, bound);
    } else if p.sends != [] {
      var labels1, s1 := DriveSendEntry(reg, now, labels, s, id, bound);
      labels', s' := DriveEffects(reg, now, labels1, s1, id, bound);
    } else {
      labels', s' := labels, s;
    }
  }

  // ----- Through a wait -----

  lemma FirstExpiredIs(timers: seq<Timer>, at: int, a: nat)
    requires a < |timers| && Rising(timers) && timers[a].deadline <= at
    requires forall c :: 0 <= c < |timers| && timers[c].idx < timers[a].idx ==> at < timers[c].deadline
    ensures FirstExpired(timers, at) == Some(a)
  {}

  /** At this moment the timer is found due. */
  lemma DueIsFound<V>(cases: seq<Case<V>>, entered: int, i: nat, at: int) returns (a: nat)
    requires FirstDue(cases, i)
    requires at == entered + if cases[i].timer.value > 0 then cases[i].timer.value else 0
    ensures FirstExpired(Deadlines(cases, entered), at) == Some(a)
    ensures a < |Deadlines(cases, entered)| && Deadlines(cases, entered)[a].idx == i
  {
    var timers, t := Deadlines(cases, entered), Timer(i, entered + cases[i].timer.value);
    assert t in timers;
    a :| 0 <= a < |timers| && timers[a] == t;
    forall c | 0 <= c < |timers| && timers[c].idx < i ensures at < timers[c].deadline {
      assert cases[timers[c].idx].timer == Some(timers[c].deadline - entered);
    }
    DeadlinesInOrder(cases, entered);
    FirstExpiredIs(timers, at, a);
  }

  lemma NothingDue<V>(cases: seq<Case<V>>, now: int)
    requires NoneDue(cases)
    ensures FirstExpired(Deadlines(cases, now), now).None?
  {
    var timers := Deadlines(cases, now);
    forall a | 0 <= a < |timers| ensures now < timers[a].deadline {
      assert cases[timers[a].idx].timer == Some(timers[a].deadline - now);
    }
  }

  function PickedIndex<V>(p: Pick<V>): nat {
    match p
    case PickTimer(i) => i
    case PickSend(i, _) => i
    case PickDefault(i) => i
    case PickCall => 0
  }

  function PickedMessage<V>(p: Pick<V>): Option<V> {
    match p
    case PickSend(_, m) => Some(m)
    case _ => None
  }

  /** What a firing among these cases was picked as. */
  ghost predicate FiredFor<V>(cases: seq<Case<V>>, p: Pick<V>, f: Firing) {
    if IsContinue(cases) then f == ByDefault(0)
    else
      match p
      case PickTimer(i) => f.ByTimer? && f.idx == i
      case PickSend(i, _) => f == BySend(i)
      case PickDefault(i) => f == ByDefault(i)
      case PickCall => false
  }

  /** The instance takes up the handler of case k, with everything else as before and no mail. */
  ghost predicate TakesUp<V>(i: Inst<V>, c: Case<V>, msg: Option<V>, i': Inst<V>) {
    && i'.phase.Handling? && !i'.phase.firing.ByCall?
    && i'.phase.key == c.handlerKey && i'.phase.input == c.input && i'.phase.msg == msg
    && i' == i.(phase := i'.phase, box := i'.box) && NoMail(i'.box)
  }

  lemma TakesUpLater<V>(i: Inst<V>, later: Inst<V>, c: Case<V>, msg: Option<V>, i': Inst<V>)
    requires later == i.(phase := later.phase, box := later.box) && TakesUp(later, c, msg, i')
    ensures TakesUp(i, c, msg, i')
  {}

  ghost predicate WaitsOn<V>(s: System<V>, id: string, cases: seq<Case<V>>) {
    && id in s.insts && s.insts[id].phase == Phase<V>.Waiting(EnterWait(cases, s.now)) && NoMail(s.insts[id].box)
  }

  lemma Overwrites<K, T>(m: map<K, T>, m': map<K, T>, k: K, v: T)
    requires k in m && k in m' && m' == m[k := m'[k]]
    ensures m'[k := v] == m[k := v]
  {}

  /** The check of the timers finds this one. */
  lemma TimerTaken<V>(reg: Recovery, now: int, i: Inst<V>, cases: seq<Case<V>>, a: nat)
    requires i.phase.Waiting? && i.phase.wait.pc == CheckTimers && i.phase.wait.cases == cases && NoMail(i.box)
    requires FirstExpired(i.phase.wait.timers, now) == Some(a) && i.phase.wait.timers[a].idx < |cases|
    ensures Acted(reg, now, i, WaitOn).Some?
    ensures TakesUp(i, cases[i.phase.wait.timers[a].idx], None, Acted(reg, now, i, WaitOn).value)
    ensures var f := Acted(reg, now, i, WaitOn).value.phase.firing; f.ByTimer? && f.idx == i.phase.wait.timers[a].idx
  {}

  lemma DriveTimer<V>(reg: Recovery, now: int, labels: seq<Label<V>>, s: System<V>, id: string, cases: seq<Case<V>>,
                      i: nat) returns (labels': seq<Label<V>>, s': System<V>)
    requires Reached(reg, now, labels, s) && WaitsOn(s, id, cases) && FirstDue(cases, i)
    ensures Reached(reg, now, labels', s') && id in s'.insts && s'.insts == s.insts[id := s'.insts[id]]
    ensures TakesUp(s.insts[id], cases[i], None, s'.insts[id])
    ensures s'.insts[id].phase.firing.ByTimer? && s'.insts[id].phase.firing.idx == i
  {
    var d := if cases[i].timer.value > 0 then cases[i].timer.value else 0;
    var labels1, s1 := DriveTick(reg, now, labels, s, d);
    assert BufferedCase(s1.insts[id].box, cases).None?;
    var labels2, s2 := DriveOn(reg, now, labels1, s1, id);
    var a := DueIsFound(cases, s.now, i, s2.now);
    TimerTaken(reg, s2.now, s2.insts[id], cases, a);
    labels', s' := Drive(reg, now, labels2, s2, id, WaitOn);
    TakesUpLater(s.insts[id], s2.insts[id], cases[i], None, s'.insts[id]);
    Overwrites(s.insts, s2.insts, id, s'.insts[id]);
  }

  /** The check of the channel finds this message. */
  lemma MessageTaken<V>(reg: Recovery, now: int, i: Inst<V>, cases: seq<Case<V>>, k: nat, m: V)
    requires i.phase.Waiting? && i.phase.wait.pc == TrySend && i.phase.wait.cases == cases
    requires k < |cases| && SendCase(cases, cases[k].handlerKey) == Some(k)
    requires i.box.sendCh == [SendMsg(cases[k].handlerKey, m)] && NoMail(i.box.(sendCh := []))
    ensures Acted(reg, now, i, WaitOn).Some? && TakesUp(i, cases[k], Some(m), Acted(reg, now, i, WaitOn).value)
    ensures Acted(reg, now, i, WaitOn).value.phase.firing == BySend(k)
  {
    var b' := WaitStep(i.box, i.phase.wait, now).0;
    assert b'.sendCh == [] && b'.buffered == i.box.buffered && b'.callers == i.box.callers;
    assert forall key :: Buf(b', key) == Buf(i.box.(sendCh := []), key);
  }

  lemma DriveMessage<V>(reg: Recovery, now: int, labels: seq<Label<V>>, s: System<V>, id: string, cases: seq<Case<V>>,
                        i: nat, m: V) returns (labels': seq<Label<V>>, s': System<V>)
    requires Reached(reg, now, labels, s) && WaitsOn(s, id, cases) && NoneDue(cases)
    requires i < |cases| && SendCase(cases, cases[i].handlerKey) == Some(i)
    ensures Reached(reg, now, labels', s') && id in s'.insts && s'.insts == s.insts[id := s'.insts[id]]
    ensures TakesUp(s.insts[id], cases[i], Some(m), s'.insts[id]) && s'.insts[id].phase.firing == BySend(i)
  {
    NothingDue(cases, s.now);
    var labels1, s1 := DriveToTrySend(reg, now, labels, s, id);
    var labels2, s2 := DriveSend(reg, now, labels1, s1, id, SendMsg(cases[i].handlerKey, m));
    MailArrived(s1.insts[id].box, SendMsg(cases[i].handlerKey, m));
    MessageTaken(reg, s2.now, s2.insts[id], cases, i, m);
    labels', s' := Drive(reg, now, labels2, s2, id, WaitOn);
    Overwrites(s.insts, s2.insts, id, s'.insts[id]);
  }

  lemma MailArrived<V>(b: Box<V>, m: SendMsg<V>)
    requires NoMail(b)
    ensures Enqueue(b, Client, m).sendCh == [m] && NoMail(Enqueue(b, Client, m).(sendCh := []))
  {
    assert forall key :: Buf(Enqueue(b, Client, m).(sendCh := []), key) == Buf(b, key);
  }

  lemma DriveDefault<V>(reg: Recovery, now: int, labels: seq<Label<V>>, s: System<V>, id: string, cases: seq<Case<V>>,
                        i: nat) returns (labels': seq<Label<V>>, s': System<V>)
    requires Reached(reg, now, labels, s) && WaitsOn(s, id, cases) && NoneDue(cases) && DefaultCase(cases) == Some(i)
    ensures Reached(reg, now, labels', s') && id in s'.insts && s'.insts == s.insts[id := s'.insts[id]]
    ensures TakesUp(s.insts[id], cases[i], None, s'.insts[id]) && s'.insts[id].phase.firing == ByDefault(i)
  {
    NothingDue(cases, s.now);
    var labels1, s1 := DriveToTrySend(reg, now, labels, s, id);
    var labels2, s2 := DriveOn(reg, now, labels1, s1, id);
    labels', s' := Drive(reg, now, labels2, s2, id, WaitOn);
  }

  /** A wait ends with the case picked. */
  lemma DriveWait<V>(reg: Recovery, now: int, labels: seq<Label<V>>, s: System<V>, id: string, cases: seq<Case<V>>,
                     p: Pick<V>) returns (labels': seq<Label<V>>, s': System<V>)
    requires Reached(reg, now, labels, s) && WaitsOn(s, id, cases) && RuntimePick(cases, p) && !IsContinue(cases)
    ensures Reached(reg, now, labels', s') && id in s'.insts && s'.insts == s.insts[id := s'.insts[id]]
    ensures TakesUp(s.insts[id], cases[PickedIndex(p)], PickedMessage(p), s'.insts[id])
    ensures FiredFor(cases, p, s'.insts[id].phase.firing)
  {
    match p
    case PickTimer(i) => labels', s' := DriveTimer(reg, now, labels, s, id, cases, i);
    case PickSend(i, m) => labels', s' := DriveMessage(reg, now, labels, s, id, cases, i, m);
    case PickDefault(i) => labels', s' := DriveDefault(reg, now, labels, s, id, cases, i);
  }

  // ----- A turn -----

  /** The instance is at the head of its loop, as the workflow is at its own. Nothing has come for it, and others'
      channels hold no more than it has sent. */
  ghost predicate InStep<V>(reg: Recovery, s: System<V>, id: string, w: Wf<V>) {
    && id in s.insts && s.insts[id].phase.Handling? && !s.insts[id].phase.firing.ByCall?
    && s.insts[id].phase.key == w.key && s.insts[id].phase.input == w.input && s.insts[id].phase.msg == w.message
    && NoMail(s.insts[id].box) && CallFree(s.insts[id].runs)
    && Matches(reg, w, s.insts[id].runs, w.key, w.input, w.message)
    && forall dst :: dst != id ==> Load(s.insts, dst) <= SentTo(w.log, dst)
  }

  /** The run that an instance at a handler makes. */
  function NextRun<V>(i: Inst<V>, t: Turn<V>): Run<V>
    requires i.phase.Handling?
  {
    Run(i.phase.firing, i.phase.key, i.phase.input, i.phase.msg, t.primary, t.recovery)
  }

  function CasesOf<V>(reg: Recovery, r: Run<V>): seq<Case<V>> {
    match UsedIn(reg, r)
    case Failed(_, _) => []
    case Returned(out, _) => out.cases
  }

  /** What an output is good for: to go on in a wait, or with its one case. */
  ghost predicate GoesOn<V>(out: RunOutput<V>, p: Pick<V>) {
    !out.done && out.cases != [] && (IsContinue(out.cases) || RuntimePick(out.cases, p))
  }

  function NextCase<V>(cases: seq<Case<V>>, p: Pick<V>): nat {
    if IsContinue(cases) then 0 else PickedIndex(p)
  }

  function NextMessage<V>(cases: seq<Case<V>>, p: Pick<V>): Option<V> {
    if IsContinue(cases) then None else PickedMessage(p)
  }

  /** The handler returns, and its effects are applied. */
  lemma DriveHandler<V>(reg: Recovery, now: int, labels: seq<Label<V>>, s: System<V>, id: string, t: Turn<V>,
                        bound: string -> nat) returns (labels': seq<Label<V>>, s': System<V>)
    requires Reached(reg, now, labels, s) && id in s.insts && s.insts[id].phase.Handling?
    requires var r := NextRun(s.insts[id], t);
      && UsedIn(reg, r).Returned?
      && NotTo(EffectsOf(reg, r).sends, id) && Fits(s.insts, id, EffectsOf(reg, r).sends, bound)
    ensures Reached(reg, now, labels', s') && s'.now == s.now && id in s'.insts && Fits(s'.insts, id, [], bound)
    ensures var i, i', r := s.insts[id], s'.insts[id], NextRun(s.insts[id], t);
      && i'.phase == Applying([], [], UsedIn(reg, r).output, i.phase.firing)
      && i'.runs == i.runs + [r] && i'.box == i.box
  {
    var labels1, s1 := Drive(reg, now, labels, s, id, Handle(t.primary, t.recovery));
    forall dst | dst != id ensures Load(s1.insts, dst) == Load(s.insts, dst) {
    }
    labels', s' := DriveEffects(reg, now, labels1, s1, id, bound);
  }

  /** And the next case is taken up. */
  lemma DriveOut<V>(reg: Recovery, now: int, labels: seq<Label<V>>, s: System<V>, id: string, out: RunOutput<V>,
                    p: Pick<V>) returns (labels': seq<Label<V>>, s': System<V>)
    requires Reached(reg, now, labels, s) && id in s.insts && NoMail(s.insts[id].box) && GoesOn(out, p)
    requires s.insts[id].phase.Applying? && !s.insts[id].phase.firing.ByCall?
    requires s.insts[id].phase.starts == [] && s.insts[id].phase.sends == [] && s.insts[id].phase.output == out
    ensures Reached(reg, now, labels', s') && id in s'.insts && s'.insts == s.insts[id := s'.insts[id]]
    ensures NextCase(out.cases, p) < |out.cases|
    ensures TakesUp(s.insts[id], out.cases[NextCase(out.cases, p)], NextMessage(out.cases, p), s'.insts[id])
    ensures FiredFor(out.cases, p, s'.insts[id].phase.firing)
  {
    labels', s' := Drive(reg, now, labels, s, id, Settle);
    if !IsContinue(out.cases) {
      var s1 := s';
      labels', s' := DriveWait(reg, now, labels', s', id, out.cases, p);
      Overwrites(s.insts, s1.insts, id, s'.insts[id]);
    }
  }

  /** A plain turn of the workflow that goes on, as the run that the instance makes next. */
  lemma PlainGoes<V>(reg: Recovery, w: Wf<V>, runs: seq<Run<V>>, r: Run<V>, t: Turn<V>)
    requires Matches(reg, w, runs, r.key, r.input, r.msg) && t.primary == r.primary && t.recovery == r.recovery
    requires Plain(t) && Iterate(reg, w, t).Next?
    requires AtSelector(reg, w, t).Some? ==> RuntimePick(Entered(reg, w, t), t.pick)
    ensures UsedIn(reg, r).Returned? && GoesOn(UsedIn(reg, r).output, t.pick)
    ensures var out, w' := UsedIn(reg, r).output, Iterate(reg, w, t).wf;
      var k := NextCase(out.cases, t.pick);
      && k < |out.cases| && w'.key == out.cases[k].handlerKey && w'.input == out.cases[k].input
      && w'.message == NextMessage(out.cases, t.pick)
  {
    if UsedIn(reg, r).Failed? {
      FailsAlike(reg, w, runs, r, t);
    } else {
      var w1 := MakesRun(reg, w, runs, r, t);
      EntersCases(reg, w, r, t);
      PickGoes(reg, w1, UsedIn(reg, r).output, UsedIn(reg, r).effects, t);
    }
  }

  lemma EntersCases<V>(reg: Recovery, w: Wf<V>, r: Run<V>, t: Turn<V>)
    requires w.key == r.key && w.callOutput.None? && t.before == []
    requires t.primary == r.primary && t.recovery == r.recovery && UsedIn(reg, r).Returned?
    ensures var out := UsedIn(reg, r).output;
      !out.done && out.cases != [] && !IsContinue(out.cases) ==>
        AtSelector(reg, w, t).Some? && Entered(reg, w, t) == out.cases
  {
    assert AcceptAll(w, t.before) == Some(w);
  }

  lemma PickGoes<V>(reg: Recovery, w: Wf<V>, out: RunOutput<V>, eff: Effects<V>, t: Turn<V>)
    requires w.message.None? && Plain(t) && Interpret(reg, w, ToActivity(out, eff), t).Next?
    ensures !out.done && out.cases != []
    ensures IsContinue(out.cases) || RuntimePick(out.cases, t.pick) ==>
      var w', k := Interpret(reg, w, ToActivity(out, eff), t).wf, NextCase(out.cases, t.pick);
      && k < |out.cases| && w'.key == out.cases[k].handlerKey && w'.input == out.cases[k].input
      && w'.message == NextMessage(out.cases, t.pick)
  {}

  /** A run's sends, on the workflow's log. */
  lemma LogGrows<V>(reg: Recovery, w: Wf<V>, w': Wf<V>, runs: seq<Run<V>>, r: Run<V>, dst: string)
    requires w.log == LogOf(reg, runs) && w'.log == LogOf(reg, runs + [r])
    ensures SentTo(w'.log, dst) == SentTo(w.log, dst) + |To(EffectsOf(reg, r).sends, dst)|
  {
    HistorySnoc(reg, runs, r);
    SentConcat(w.log, RunEvents(reg, r), dst);
    RunSends(reg, r, dst);
  }

  lemma {:induction false} NoneTo<V>(sends: seq<SendEntry<V>>, id: string)
    requires To(sends, id) == []
    ensures NotTo(sends, id)
  {
    if sends != [] {
      NoneTo(sends[1..], id);
      assert sends == [sends[0]] + sends[1..];
    }
  }

  /** What the workflow has sent by now fits on the channels, and none of it went to the routine itself. */
  ghost predicate Modest<V>(w: Wf<V>, id: string) {
    SentTo(w.log, id) == 0 && forall dst :: SentTo(w.log, dst) <= CAPACITY
  }

  lemma RunFits<V>(reg: Recovery, s: System<V>, id: string, w: Wf<V>, w': Wf<V>, r: Run<V>)
    returns (bound: string -> nat)
    requires InStep(reg, s, id, w) && Modest(w', id) && w'.log == LogOf(reg, s.insts[id].runs + [r])
    ensures NotTo(EffectsOf(reg, r).sends, id) && Fits(s.insts, id, EffectsOf(reg, r).sends, bound)
    ensures forall dst :: bound(dst) == SentTo(w'.log, dst)
  {
    bound := dst => SentTo(w'.log, dst);
    LogGrows(reg, w, w', s.insts[id].runs, r, id);
    NoneTo(EffectsOf(reg, r).sends, id);
    forall dst | dst != id
      ensures Load(s.insts, dst) + |To(EffectsOf(reg, r).sends, dst)| <= bound(dst) && bound(dst) <= CAPACITY
    {
      LogGrows(reg, w, w', s.insts[id].runs, r, dst);
    }
  }

  /** One turn of the workflow, made by the instance. */
  lemma ReplayTurn<V>(reg: Recovery, now: int, labels: seq<Label<V>>, s: System<V>, id: string, w: Wf<V>, t: Turn<V>)
    returns (labels': seq<Label<V>>, s': System<V>)
    requires Reached(reg, now, labels, s) && InStep(reg, s, id, w) && Plain(t)
    requires Iterate(reg, w, t).Next? && Modest(Iterate(reg, w, t).wf, id)
    requires AtSelector(reg, w, t).Some? ==> RuntimePick(Entered(reg, w, t), t.pick)
    ensures Reached(reg, now, labels', s') && InStep(reg, s', id, Iterate(reg, w, t).wf)
    ensures s'.insts[id].runs == s.insts[id].runs + [NextRun(s.insts[id], t)]
    ensures FiredFor(CasesOf(reg, NextRun(s.insts[id], t)), t.pick, s'.insts[id].phase.firing)
  {
    var i, w' := s.insts[id], Iterate(reg, w, t).wf;
    var r := NextRun(i, t);
    PlainGoes(reg, w, i.runs, r, t);
    var r', f' := PlainStep(reg, w, i.runs, i.phase.firing, t);
    assert r' == r;
    var bound := RunFits(reg, s, id, w, w', r);
    var out := UsedIn(reg, r).output;
    var labels1, s1 := DriveHandler(reg, now, labels, s, id, t, bound);
    labels', s' := DriveOut(reg, now, labels1, s1, id, out, t.pick);
    StaysInStep(reg, s.insts, s1.insts, s'.insts, id, w', r, bound);
  }

  lemma StaysInStep<V>(reg: Recovery, a: map<string, Inst<V>>, b: map<string, Inst<V>>, c: map<string, Inst<V>>,
                       id: string, w: Wf<V>, r: Run<V>, bound: string -> nat)
    requires id in a && id in b && id in c && Fits(b, id, [], bound) && c == b[id := c[id]]
    requires forall dst :: bound(dst) == SentTo(w.log, dst)
    requires CallFree(a[id].runs) && !r.firing.ByCall? && c[id].runs == a[id].runs + [r]
    ensures CallFree(c[id].runs)
    ensures forall dst :: dst != id ==> Load(c, dst) <= SentTo(w.log, dst)
  {
    forall j {:trigger c[id].runs[j]} | 0 <= j < |c[id].runs|
      ensures !c[id].runs[j].firing.ByCall?
    {
      if j < |a[id].runs| {
        assert c[id].runs[j] == a[id].runs[j];
      }
    }
    forall dst | dst != id ensures Load(c, dst) <= SentTo(w.log, dst) {
      assert Load(c, dst) == Load(b, dst);
      assert To<V>([], dst) == [];
    }
  }

  // ----- Whole runs -----

  /** A turn only adds to the log. */
  lemma ModestBefore<V>(reg: Recovery, w: Wf<V>, t: Turn<V>, id: string)
    requires Plain(t) && (Iterate(reg, w, t).Next? || Iterate(reg, w, t).Ended?) && Modest(Iterate(reg, w, t).wf, id)
    ensures Modest(w, id)
  {
    var w' := Iterate(reg, w, t).wf;
    PlainLog(reg, w, t);
    assert w'.log == w.log + w'.log[|w.log|..];
    forall dst ensures SentTo(w.log, dst) <= SentTo(w'.log, dst) {
      SentConcat(w.log, w'.log[|w.log|..], dst);
    }
  }

  lemma PlainLog<V>(reg: Recovery, w: Wf<V>, t: Turn<V>)
    requires Plain(t) && (Iterate(reg, w, t).Next? || Iterate(reg, w, t).Ended?)
    ensures w.log <= Iterate(reg, w, t).wf.log
  {
    assert AcceptAll(w, t.before) == Some(w);
    var (w1, produced, e) := Produce(reg, w, t);
    if produced.Some? {
      var w2 := ApplyOutput(w1, produced.value);
      assert w1.log <= w2.log;
      PlainInterpret(reg, w2, produced.value, t);
    }
  }

  lemma PlainInterpret<V>(reg: Recovery, w: Wf<V>, out: ActivityOutput<V>, t: Turn<V>)
    requires Plain(t) && (Interpret(reg, w, out, t).Next? || Interpret(reg, w, out, t).Ended?)
    ensures Interpret(reg, w, out, t).wf.log == w.log
  {}

  /** The workflow of a routine, from its start. */
  function Started<V>(kind: string, resultKind: string, input: V): Wf<V> {
    Fresh(Keys.HandlerKey(kind, resultKind), input)
  }

  /** Backend agreement, from the workflow's side. Take any workflow run without calls and cuts in which each pick is
      the one that the in-memory runtime's searches make, and in which no routine is sent more than a channel holds
      and the routine sends nothing to itself. There is a run of the in-memory runtime, from the empty system, in
      which an instance handles the same outcomes after the same firings, has done the same and shows the same, and
      is about to run the same handler on the same data. */
  lemma {:induction false} WorkflowIsInMemory<V>(reg: Recovery, now: int, id: string, kind: string,
                                                 resultKind: string, input: V, turns: seq<Turn<V>>)
    returns (labels: seq<Label<V>>, s: System<V>)
    requires forall j :: 0 <= j < |turns| ==> Plain(turns[j])
    requires RunWorkflow(reg, Started(kind, resultKind, input), turns).Next?
    requires RuntimePicks(reg, Started(kind, resultKind, input), turns)
    requires Modest(RunWorkflow(reg, Started(kind, resultKind, input), turns).wf, id)
    ensures Reached(reg, now, labels, s)
    ensures InStep(reg, s, id, RunWorkflow(reg, Started(kind, resultKind, input), turns).wf)
    ensures MadeBy(reg, s.insts[id].runs, s.insts[id].phase.firing, turns)
  {
    if turns == [] {
      labels, s := DriveGo(reg, now, id, kind, resultKind, input);
      assert LogOf<V>(reg, []) == [];
    } else {
      var n, w0 := |turns| - 1, Started(kind, resultKind, input);
      var w := RunWorkflow(reg, w0, turns[..n]).wf;
      NotCut(reg, w, turns[n]);
      ModestBefore(reg, w, turns[n], id);
      var labels1, s1 := WorkflowIsInMemory(reg, now, id, kind, resultKind, input, turns[..n]);
      labels, s := ReplayTurn(reg, now, labels1, s1, id, w, turns[n]);
      var r := NextRun(s1.insts[id], turns[n]);
      MadeSnoc(reg, s1.insts[id].runs, turns[..n], turns[n], r, s.insts[id].phase.firing);
      Unsnoc(turns);
    }
  }

  /** These runs, with `f` firing next, are those of the turns: their handlers returned the same and the same cases
      fired. */
  ghost predicate MadeBy<V>(reg: Recovery, runs: seq<Run<V>>, f: Firing, turns: seq<Turn<V>>) {
    && |runs| == |turns|
    && if runs == [] then f == ByStart
       else
         var n := |runs| - 1;
         && runs[n].primary == turns[n].primary && runs[n].recovery == turns[n].recovery
         && FiredFor(CasesOf(reg, runs[n]), turns[n].pick, f)
         && MadeBy(reg, runs[..n], runs[n].firing, turns[..n])
  }

  lemma MadeSnoc<V>(reg: Recovery, runs: seq<Run<V>>, turns: seq<Turn<V>>, t: Turn<V>, r: Run<V>, f: Firing)
    requires MadeBy(reg, runs, r.firing, turns) && r.primary == t.primary && r.recovery == t.recovery
    requires FiredFor(CasesOf(reg, r), t.pick, f)
    ensures MadeBy(reg, runs + [r], f, turns + [t])
  {
    assert (runs + [r])[..|runs|] == runs && (turns + [t])[..|turns|] == turns;
  }

  /** The same with a last run, after which nothing fires. */
  ghost predicate EndsMade<V>(reg: Recovery, runs: seq<Run<V>>, turns: seq<Turn<V>>, t: Turn<V>) {
    && |runs| == |turns| + 1
    && var last := runs[|turns|];
       && last.primary == t.primary && last.recovery == t.recovery
       && MadeBy(reg, runs[..|turns|], last.firing, turns)
  }

  /** And where such a workflow ends, by its handler's result or error, the instance can end alike. */
  lemma WorkflowEndsInMemory<V>(reg: Recovery, now: int, id: string, kind: string, resultKind: string, input: V,
                                turns: seq<Turn<V>>, t: Turn<V>) returns (labels: seq<Label<V>>, s: System<V>)
    requires (forall j :: 0 <= j < |turns| ==> Plain(turns[j])) && Plain(t)
    requires RunWorkflow(reg, Started(kind, resultKind, input), turns).Next?
    requires RuntimePicks(reg, Started(kind, resultKind, input), turns)
    requires var w := RunWorkflow(reg, Started(kind, resultKind, input), turns).wf;
      && (Produce(reg, w, t).1.Some? ==> Produce(reg, w, t).1.value.done)
      && Iterate(reg, w, t).Ended? && Modest(Iterate(reg, w, t).wf, id)
    ensures Reached(reg, now, labels, s) && id in s.insts && s.insts[id].phase.Finished?
    ensures var r, i := Iterate(reg, RunWorkflow(reg, Started(kind, resultKind, input), turns).wf, t), s.insts[id];
      && r.result == ResultOf(i.phase.outcome) && EndsMade(reg, i.runs, turns, t)
      && r.wf.log == LogOf(reg, i.runs) && r.wf.installed == QueriesAfter(reg, i.runs)
  {
    var w := RunWorkflow(reg, Started(kind, resultKind, input), turns).wf;
    ModestBefore(reg, w, t, id);
    var labels1, s1 := WorkflowIsInMemory(reg, now, id, kind, resultKind, input, turns);
    labels, s := ReplayEnd(reg, now, labels1, s1, id, w, t);
    assert (s1.insts[id].runs + [NextRun(s1.insts[id], t)])[..|turns|] == s1.insts[id].runs;
  }

  /** The workflow's end, as the run that ends the routine. */
  lemma PlainEnds<V>(reg: Recovery, w: Wf<V>, runs: seq<Run<V>>, r: Run<V>, t: Turn<V>, outcome: RoutineResult<V>)
    requires Matches(reg, w, runs, r.key, r.input, r.msg) && t.primary == r.primary && t.recovery == r.recovery
    requires t.before == [] && Ending(reg, r) == Some(outcome)
    ensures var ran := Iterate(reg, w, t);
      && ran.Ended? && ran.result == ResultOf(outcome)
      && ran.wf.log == LogOf(reg, runs + [r]) && ran.wf.installed == QueriesAfter(reg, runs + [r])
  {
    if UsedIn(reg, r).Failed? {
      FailsAlike(reg, w, runs, r, t);
    } else {
      var w' := MakesRun(reg, w, runs, r, t);
    }
  }

  lemma ReplayEnd<V>(reg: Recovery, now: int, labels: seq<Label<V>>, s: System<V>, id: string, w: Wf<V>, t: Turn<V>)
    returns (labels': seq<Label<V>>, s': System<V>)
    requires Reached(reg, now, labels, s) && InStep(reg, s, id, w) && Plain(t)
    requires Produce(reg, w, t).1.Some? ==> Produce(reg, w, t).1.value.done
    requires Iterate(reg, w, t).Ended? && Modest(Iterate(reg, w, t).wf, id)
    ensures Reached(reg, now, labels', s') && id in s'.insts && s'.insts[id].phase.Finished?
    ensures s'.insts[id].runs == s.insts[id].runs + [NextRun(s.insts[id], t)]
    ensures var r, i := Iterate(reg, w, t), s'.insts[id];
      && r.result == ResultOf(i.phase.outcome)
      && r.wf.log == LogOf(reg, i.runs) && r.wf.installed == QueriesAfter(reg, i.runs)
  {
    var i, w' := s.insts[id], Iterate(reg, w, t).wf;
    var r := NextRun(i, t);
    var outcome := Ending(reg, r).value;
    PlainEnds(reg, w, i.runs, r, t, outcome);
    if UsedIn(reg, r).Failed? {
      labels', s' := Drive(reg, now, labels, s, id, Handle(t.primary, t.recovery));
    } else {
      var bound := RunFits(reg, s, id, w, w', r);
      var labels1, s1 := DriveHandler(reg, now, labels, s, id, t, bound);
      labels', s' := Drive(reg, now, labels1, s1, id, Settle);
    }
  }
}
