/** Among cases of one kind, which one the in-memory runtime runs: the first that matches, and of the timers the
    nearest, in every reachable state. */
module Choices {
  import opened Counting
  import opened Keys
  import opened Wrappers
  import opened Durable
  import opened Mailbox
  import opened InMemory
  import opened History
  import opened Routing
  import opened Reachable
  import opened Clock
  import opened Priorities

  /** No timer is due as soon as the wait begins. */
  predicate NoneDue<V>(cases: seq<Case<V>>) {
    forall i :: 0 <= i < |cases| && cases[i].timer.Some? ==> cases[i].timer.value > 0
  }

  /** Some moment finds this timer due and no timer before it in the list. */
  predicate FirstDue<V>(cases: seq<Case<V>>, i: nat) {
    && i < |cases| && cases[i].timer.Some?
    && forall j :: 0 <= j < i && cases[j].timer.Some? ==>
         cases[j].timer.value > cases[i].timer.value && cases[j].timer.value > 0
  }

  /** The case that fired is the one that the runtime's searches find. */
  ghost predicate Found<V>(cases: seq<Case<V>>, f: Firing) {
    match f
    case ByStart => false
    case ByTimer(i, _, _) => FirstDue(cases, i)
    case BySend(i) => i < |cases| && SendCase(cases, cases[i].handlerKey) == Some(i)
    case ByCall(i, _) => i < |cases| && CallCase(cases, cases[i].callName) == Some(i)
    case ByDefault(i) => DefaultCase(cases) == Some(i) && (IsContinue(cases) || NoneDue(cases))
  }

  ghost predicate FoundAfter<V>(reg: Recovery, r: Run<V>, f: Firing) {
    UsedIn(reg, r).Returned? && Found(UsedIn(reg, r).output.cases, f)
  }

  // ----- In a wait -----

  ghost predicate Rising(timers: seq<Timer>) {
    forall a, b :: 0 <= a < b < |timers| ==> timers[a].idx < timers[b].idx
  }

  lemma RisingSnoc(timers: seq<Timer>, t: Timer)
    requires Rising(timers) && forall a :: 0 <= a < |timers| ==> timers[a].idx < t.idx
    ensures Rising(timers + [t])
  {}

  lemma {:induction false} DeadlinesInOrder<V>(cases: seq<Case<V>>, now: int)
    ensures Rising(Deadlines(cases, now))
  {
    if cases != [] {
      var n := |cases| - 1;
      DeadlinesInOrder(cases[..n], now);
      var before := Deadlines(cases[..n], now);
      if cases[n].timer.Some? {
        assert forall a :: 0 <= a < |before| ==> before[a].idx < |cases[..n]|;
        RisingSnoc(before, Timer(n, now + cases[n].timer.value));
      }
    }
  }

  /** The timers before one in case order come before it in the list. */
  lemma EarlierListed<V>(cases: seq<Case<V>>, now: int, a: nat, i: nat) returns (b: nat)
    requires a < |Deadlines(cases, now)| && i < Deadlines(cases, now)[a].idx && cases[i].timer.Some?
    ensures b < a && Deadlines(cases, now)[b] == Timer(i, now + cases[i].timer.value)
  {
    DeadlinesInOrder(cases, now);
    var timers := Deadlines(cases, now);
    assert Timer(i, now + cases[i].timer.value) in timers;
    b :| 0 <= b < |timers| && timers[b] == Timer(i, now + cases[i].timer.value);
  }

  /** A timer that fires at the check of the timers. */
  lemma ExpiredIsFirst<V>(w: Wait<V>, now: int, a: nat)
    requires w.timers == Deadlines(w.cases, w.entered) && w.entered <= now && FirstExpired(w.timers, now) == Some(a)
    ensures FirstDue(w.cases, w.timers[a].idx)
  {
    var i := w.timers[a].idx;
    forall j | 0 <= j < i && w.cases[j].timer.Some?
      ensures w.cases[j].timer.value > w.cases[i].timer.value && w.cases[j].timer.value > 0
    {
      var b := EarlierListed(w.cases, w.entered, a, j);
      assert now < w.timers[b].deadline;
    }
  }

  /** A timer that fires after the check of the timers found none due. */
  lemma NearestIsFirst<V>(w: Wait<V>, a: nat)
    requires w.timers == Deadlines(w.cases, w.entered) && Nearest(w.timers) == Some(a)
    requires w.timers[a].deadline > w.entered
    ensures FirstDue(w.cases, w.timers[a].idx)
  {
    var i := w.timers[a].idx;
    forall j | 0 <= j < i && w.cases[j].timer.Some?
      ensures w.cases[j].timer.value > w.cases[i].timer.value && w.cases[j].timer.value > 0
    {
      var b := EarlierListed(w.cases, w.entered, a, j);
      assert w.timers[a].deadline < w.timers[b].deadline;
    }
  }

  /** The wait began in the past, and beyond the check of the timers none was due when it began. */
  ghost predicate Waited<V>(w: Wait<V>, now: int) {
    && w.timers == Deadlines(w.cases, w.entered) && w.entered <= now
    && (AfterCheck(w.pc) ==> forall a :: 0 <= a < |w.timers| ==> w.timers[a].deadline > w.entered)
  }

  lemma LaterNoneDue<V>(w: Wait<V>, now: int)
    requires Waited(w, now) && AfterCheck(w.pc)
    ensures NoneDue(w.cases)
  {
    forall i | 0 <= i < |w.cases| && w.cases[i].timer.Some?
      ensures w.cases[i].timer.value > 0
    {
      var t := Timer(i, w.entered + w.cases[i].timer.value);
      assert t in w.timers;
      var a :| 0 <= a < |w.timers| && w.timers[a] == t;
    }
  }

  /** What a step of the wait leads to. */
  ghost predicate Chosen<V>(w: Wait<V>, now: int, p: Progress<V>) {
    match p
    case Pass(pc) => Waited(w.(pc := pc), now)
    case Fire(f, _) => Found(w.cases, f)
  }

  lemma TakeSendFinds<V>(b: Box<V>, w: Wait<V>, now: int, otherwise: Pc)
    requires b.sendCh != [] && Waited(w.(pc := otherwise), now)
    ensures Chosen(w, now, TakeSend(b, w.cases, otherwise).1)
  {}

  lemma TakeCallFinds<V>(b: Box<V>, w: Wait<V>, now: int, otherwise: Pc)
    requires b.callers != [] && Waited(w.(pc := otherwise), now)
    ensures Chosen(w, now, TakeCall(b, w.cases, otherwise).1)
  {}

  lemma BufferedIsFirst<V>(b: Box<V>, cases: seq<Case<V>>, i: nat)
    requires BufferedCase(b, cases) == Some(i)
    ensures i < |cases| && SendCase(cases, cases[i].handlerKey) == Some(i)
  {
    var key := cases[i].handlerKey;
    assert Awaits(cases[i], key);
    var k := SendCase(cases, key).value;
    assert k <= i && Awaits(cases[k], key);
    assert Buf(b, cases[k].handlerKey) != [];
  }

  lemma ScanFinds<V>(b: Box<V>, w: Wait<V>, now: int)
    requires Waited(w, now) && w.pc == Scan
    ensures Chosen(w, now, WaitStep(b, w, now).1)
  {
    var found := BufferedCase(b, w.cases);
    if found.Some? {
      BufferedIsFirst(b, w.cases, found.value);
    }
  }

  lemma CheckFinds<V>(b: Box<V>, w: Wait<V>, now: int)
    requires Waited(w, now) && w.pc == CheckTimers
    ensures Chosen(w, now, WaitStep(b, w, now).1)
  {
    if FirstExpired(w.timers, now).Some? {
      ExpiredIsFirst(w, now, FirstExpired(w.timers, now).value);
    }
  }

  lemma FallbackFinds<V>(b: Box<V>, w: Wait<V>, now: int)
    requires Waited(w, now) && w.pc == Fallback
    ensures Chosen(w, now, WaitStep(b, w, now).1)
  {
    var found, n := DefaultCase(w.cases), Nearest(w.timers);
    if found.Some? {
      LaterNoneDue(w, now);
      assert WaitStep(b, w, now).1 == Fire(ByDefault(found.value), None);
    } else if n.Some? && w.timers[n.value].deadline <= now {
      NearestIsFirst(w, n.value);
      assert WaitStep(b, w, now).1 == TimerFires(w, n.value, now);
    } else {
      assert WaitStep(b, w, now).1 == Pass(Block);
    }
  }

  lemma WaitFinds<V>(b: Box<V>, w: Wait<V>, now: int)
    requires Waited(w, now) && w.pc != Block
    ensures Chosen(w, now, WaitStep(b, w, now).1)
  {
    match w.pc
    case Scan => ScanFinds(b, w, now);
    case CheckTimers => CheckFinds(b, w, now);
    case TryCall => if HasCall(w.cases) && b.callers != [] { TakeCallFinds(b, w, now, TrySend); }
    case TrySend => if b.sendCh != [] { TakeSendFinds(b, w, now, Fallback); }
    case Fallback => FallbackFinds(b, w, now);
  }

  lemma BlockFinds<V>(b: Box<V>, w: Wait<V>, now: int, choice: Choice)
    requires Waited(w, now) && w.pc == Block && Ready(b, w, now, choice)
    ensures Chosen(w, now, BlockStep(b, w, now, choice).1)
  {
    match choice
    case ChooseSend => TakeSendFinds(b, w, now, Scan);
    case ChooseCall => TakeCallFinds(b, w, now, Scan);
    case ChooseTimer => NearestIsFirst(w, Nearest(w.timers).value);
  }

  // ----- In every reachable state -----

  ghost predicate AllFound<V>(reg: Recovery, runs: seq<Run<V>>) {
    forall j :: 0 < j < |runs| ==> FoundAfter(reg, runs[j - 1], runs[j].firing)
  }

  /** What has fired and what is about to be handled was found, and a wait in progress is on the way to it. */
  ghost predicate AtFound<V>(reg: Recovery, i: Inst<V>, now: int) {
    && AllFound(reg, i.runs)
    && match i.phase
       case Handling(f, _, _, _) => i.runs == [] || FoundAfter(reg, i.runs[|i.runs| - 1], f)
       case Waiting(w) => Waited(w, now)
       case _ => true
  }

  lemma ActFinds<V>(reg: Recovery, now: int, i: Inst<V>, a: Action<V>)
    requires AtFound(reg, i, now) && InstInv(reg, i) && Acted(reg, now, i, a).Some?
    ensures AtFound(reg, Acted(reg, now, i, a).value, now)
  {
    match a
    case Handle(_, _) => HandleFinds(reg, now, i, a);
    case Settle => SettleFinds(reg, now, i);
    case WaitOn =>
      WaitFinds(i.box, i.phase.wait, now);
      AfterWaitFinds(reg, now, i, WaitStep(i.box, i.phase.wait, now));
    case Choose(choice) =>
      BlockFinds(i.box, i.phase.wait, now, choice);
      AfterWaitFinds(reg, now, i, BlockStep(i.box, i.phase.wait, now, choice));
  }

  lemma HandleFinds<V>(reg: Recovery, now: int, i: Inst<V>, a: Action<V>)
    requires AtFound(reg, i, now) && a.Handle? && Acted(reg, now, i, a).Some?
    ensures AtFound(reg, Acted(reg, now, i, a).value, now)
  {
    var i' := Acted(reg, now, i, a).value;
    var r := Run(i.phase.firing, i.phase.key, i.phase.input, i.phase.msg, a.primary, a.recovery);
    assert i'.runs == i.runs + [r] && !i'.phase.Handling? && !i'.phase.Waiting?;
    forall j | 0 < j < |i'.runs|
      ensures FoundAfter(reg, i'.runs[j - 1], i'.runs[j].firing)
    {
      assert i'.runs[j - 1] == i.runs[j - 1];
    }
  }

  lemma SettleFinds<V>(reg: Recovery, now: int, i: Inst<V>)
    requires AtFound(reg, i, now) && InstInv(reg, i) && Acted(reg, now, i, Settle).Some?
    ensures AtFound(reg, Acted(reg, now, i, Settle).value, now)
  {
    assert PhaseFits(reg, i);
    var cases := i.phase.output.cases;
    if IsContinue(cases) {
      assert DefaultCase(cases) == Some(0);
    }
  }

  lemma AfterWaitFinds<V>(reg: Recovery, now: int, i: Inst<V>, step: (Box<V>, Progress<V>))
    requires i.phase.Waiting? && AtFound(reg, i, now) && PhaseFits(reg, i) && Chosen(i.phase.wait, now, step.1)
    ensures AtFound(reg, AfterWait(i, step), now)
  {}

  lemma StepFinds<V>(reg: Recovery, s: System<V>, l: Label<V>, id: string)
    requires SysInv(reg, s) && Step(reg, s, l).Some? && id in s.insts && AtFound(reg, s.insts[id], s.now)
    ensures id in Step(reg, s, l).value.insts
    ensures AtFound(reg, Step(reg, s, l).value.insts[id], Step(reg, s, l).value.now)
  {
    if l.Act? && l.id == id {
      OwnInv(reg, s, id);
      ActFinds(reg, s.now, s.insts[id], l.action);
    } else {
      Spared(reg, s, l, id);
      ClockOnly(reg, s, l);
      SameFound(reg, s.insts[id], Step(reg, s, l).value.insts[id], s.now, Step(reg, s, l).value.now);
    }
  }

  lemma OwnInv<V>(reg: Recovery, s: System<V>, id: string)
    requires SysInv(reg, s) && id in s.insts
    ensures InstInv(reg, s.insts[id])
  {}

  lemma ClockOnly<V>(reg: Recovery, s: System<V>, l: Label<V>)
    requires Step(reg, s, l).Some?
    ensures s.now <= Step(reg, s, l).value.now
  {}

  lemma SameFound<V>(reg: Recovery, i: Inst<V>, i': Inst<V>, now: int, now': int)
    requires AtFound(reg, i, now) && now <= now' && i'.runs == i.runs
    requires i'.phase == i.phase || (i.phase.Applying? && i'.phase.Applying?)
    ensures AtFound(reg, i', now')
  {}

  /** In every reachable state, each handler run but the first was run for the case that the runtime's searches find
      among those of the run before: of the sends under one key, of the calls of one kind and of the immediate cases
      the first; of the timers the nearest, and the first of those; and Default only if no timer was due from the
      start. The same goes for the run that comes next. */
  lemma {:induction false} FiringsAreFound<V>(reg: Recovery, now: int, labels: seq<Label<V>>, s: System<V>, id: string)
    requires Reached(reg, now, labels, s) && id in s.insts
    ensures AtFound(reg, s.insts[id], s.now)
  {
    if labels != [] {
      var init, last := labels[..|labels| - 1], labels[|labels| - 1];
      var before := Exec(reg, EmptySystem(now), init).value;
      ReachedKeeps(reg, now, init, before);
      if id in before.insts {
        FiringsAreFound(reg, now, init, before, id);
        StepFinds(reg, before, last, id);
      } else {
        Appears(reg, before, last, id);
      }
    }
  }

  /** A new instance is about to run its first handler. */
  lemma Appears<V>(reg: Recovery, s: System<V>, l: Label<V>, id: string)
    requires Step(reg, s, l).Some? && id !in s.insts && id in Step(reg, s, l).value.insts
    ensures var i := Step(reg, s, l).value.insts[id]; i.runs == [] && i.phase.Handling?
  {
    if !(l.Act? && l.id == id) {
      Spared(reg, s, l, id);
    }
  }

  // ----- What the constructors wait for -----

  /** A timer case is due from its duration on, and runs the handler of its input and result kinds on its input. */
  lemma AfterWaits<V>(d: int, kind: string, resultKind: string, input: V, entered: int, now: int)
    ensures var cases := [After(d, kind, resultKind, input)];
      && (TimerDue(EnterWait(cases, entered), now) <==> now >= entered + d)
      && (forall key :: SendCase(cases, key).None?) && (forall name :: CallCase(cases, name).None?)
      && DefaultCase(cases).None? && !IsContinue(cases)
      && cases[0].handlerKey == HandlerKey(kind, resultKind) && cases[0].input == input
  {
    var cases := [After(d, kind, resultKind, input)];
    var timers := Deadlines(cases, entered);
    assert cases[..0] == [] && timers == Deadlines<V>([], entered) + [Timer(0, entered + d)];
    assert timers[0].deadline == entered + d;
  }

  /** A send case takes the messages under the key of its kinds, and nothing else. */
  lemma ReceiveSendWaits<V>(kind: string, msgKind: string, resultKind: string, input: V, entered: int, now: int)
    requires msgKind != ""
    ensures var cases := [ReceiveSend(kind, msgKind, resultKind, input)];
      && (forall key :: SendCase(cases, key).Some? <==> key == SendKey(kind, msgKind, resultKind))
      && !TimerDue(EnterWait(cases, entered), now) && (forall name :: CallCase(cases, name).None?)
      && DefaultCase(cases).None? && !IsContinue(cases)
      && cases[0].handlerKey == SendKey(kind, msgKind, resultKind) && cases[0].input == input
  {
    var cases := [ReceiveSend(kind, msgKind, resultKind, input)];
    assert cases[..0] == [] && Deadlines(cases, entered) == Deadlines<V>([], entered);
    forall key ensures SendCase(cases, key).Some? <==> key == SendKey(kind, msgKind, resultKind) {
      assert Awaits(cases[0], key) <==> key == SendKey(kind, msgKind, resultKind);
    }
  }

  /** A call case takes the calls of its request kind, and nothing else. */
  lemma ReceiveCallWaits<V>(kind: string, reqKind: string, respKind: string, resultKind: string, input: V, entered: int,
                            now: int)
    requires reqKind != ""
    ensures var cases := [ReceiveCall(kind, reqKind, respKind, resultKind, input)];
      && (forall name :: CallCase(cases, name).Some? <==> name == reqKind)
      && !TimerDue(EnterWait(cases, entered), now) && (forall key :: SendCase(cases, key).None?)
      && DefaultCase(cases).None? && !IsContinue(cases)
      && cases[0].handlerKey == CallKey(kind, reqKind, respKind, resultKind) && cases[0].input == input
  {
    var cases := [ReceiveCall(kind, reqKind, respKind, resultKind, input)];
    assert cases[..0] == [] && Deadlines(cases, entered) == Deadlines<V>([], entered);
    forall name ensures CallCase(cases, name).Some? <==> name == reqKind {
      assert cases[0].callName != "";
    }
  }

  /** An immediate case alone is not waited for; among others it is what happens when nothing is ready. */
  lemma ImmediateWaits<V>(kind: string, resultKind: string, input: V, others: seq<Case<V>>)
    requires forall i :: 0 <= i < |others| ==> !others[i].immediate
    ensures var cases := others + [Immediate(kind, resultKind, input)];
      && (IsContinue(cases) <==> others == []) && DefaultCase(cases) == Some(|others|)
      && cases[|others|].handlerKey == HandlerKey(kind, resultKind) && cases[|others|].input == input
  {
    var cases := others + [Immediate(kind, resultKind, input)];
    assert cases[|others|].immediate;
    assert forall i :: 0 <= i < |others| ==> cases[i] == others[i];
    var k := DefaultCase(cases).value;
    assert k <= |others|;
  }
}
