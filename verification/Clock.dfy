/** Timers and the clock of the in-memory runtime: a timer that fires has really waited, measured on the clock
    between two states of one run. */
module Clock {
  import opened Wrappers
  import opened Durable
  import opened Mailbox
  import opened InMemory
  import opened History
  import opened Routing
  import opened Reachable
  import opened Families

  /** The first run of `id` that can only be fired by a wait entered after this state: an instance that handles
      or waits has that run behind it already. */
  function FirstLater<V>(insts: map<string, Inst<V>>, id: string): nat {
    if id !in insts then 0
    else |insts[id].runs| + (if insts[id].phase.Handling? || insts[id].phase.Waiting? then 1 else 0)
  }

  /** No timer has fired in the future. */
  ghost predicate Past<V>(i: Inst<V>, now: int) {
    && (forall j {:trigger i.runs[j]} :: 0 <= j < |i.runs| && i.runs[j].firing.ByTimer? ==> i.runs[j].firing.at <= now)
    && (i.phase.Handling? && i.phase.firing.ByTimer? ==> i.phase.firing.at <= now)
  }

  /** From run `m` on, the waits were entered at `since` or later. */
  ghost predicate EnteredSince<V>(i: Inst<V>, m: nat, since: int) {
    && (forall j {:trigger i.runs[j]} :: m <= j < |i.runs| && i.runs[j].firing.ByTimer? ==>
         i.runs[j].firing.entered >= since)
    && (i.phase.Handling? && i.phase.firing.ByTimer? && |i.runs| >= m ==> i.phase.firing.entered >= since)
    && (i.phase.Waiting? && |i.runs| >= m ==> i.phase.wait.entered >= since)
  }

  /** A step of the wait loop stays in the wait, or notes when the wait began and what the clock shows. */
  lemma WaitNotes<V>(i: Inst<V>, now: int, step: (Box<V>, Progress<V>))
    requires i.phase.Waiting?
    requires step.1.Fire? && step.1.firing.ByTimer? ==>
      step.1.firing.entered == i.phase.wait.entered && step.1.firing.at == now
    ensures var i' := AfterWait(i, step);
      && i'.runs == i.runs && !i'.phase.Applying?
      && (i'.phase.Waiting? ==> i'.phase.wait.entered == i.phase.wait.entered)
      && (i'.phase.Handling? && i'.phase.firing.ByTimer? ==>
            i'.phase.firing.entered == i.phase.wait.entered && i'.phase.firing.at == now)
  {}

  lemma WaitStepNotes<V>(b: Box<V>, w: Wait<V>, now: int)
    requires w.pc != Block
    ensures var p := WaitStep(b, w, now).1;
      p.Fire? && p.firing.ByTimer? ==> p.firing.entered == w.entered && p.firing.at == now
  {}

  lemma ActTimes<V>(reg: Recovery, now: int, i: Inst<V>, a: Action<V>, m: nat, since: int)
    requires Past(i, now) && EnteredSince(i, m, since) && since <= now && Acted(reg, now, i, a).Some?
    ensures Past(Acted(reg, now, i, a).value, now) && EnteredSince(Acted(reg, now, i, a).value, m, since)
  {
    match a
    case Handle(_, _) => HandleTimes(reg, now, i, a, m, since);
    case Settle =>
    case WaitOn =>
      WaitStepNotes(i.box, i.phase.wait, now);
      WaitNotes(i, now, WaitStep(i.box, i.phase.wait, now));
    case Choose(choice) => WaitNotes(i, now, BlockStep(i.box, i.phase.wait, now, choice));
  }

  lemma HandleTimes<V>(reg: Recovery, now: int, i: Inst<V>, a: Action<V>, m: nat, since: int)
    requires Past(i, now) && EnteredSince(i, m, since) && a.Handle? && Acted(reg, now, i, a).Some?
    ensures Past(Acted(reg, now, i, a).value, now) && EnteredSince(Acted(reg, now, i, a).value, m, since)
  {
    var i' := Acted(reg, now, i, a).value;
    var r := Run(i.phase.firing, i.phase.key, i.phase.input, i.phase.msg, a.primary, a.recovery);
    assert i'.runs == i.runs + [r] && !i'.phase.Handling? && !i'.phase.Waiting?;
    forall j {:trigger i'.runs[j]} | 0 <= j < |i'.runs| && i'.runs[j].firing.ByTimer?
      ensures i'.runs[j].firing.at <= now && (m <= j ==> i'.runs[j].firing.entered >= since)
    {
      if j < |i.runs| {
        assert i'.runs[j] == i.runs[j];
      }
    }
  }

  ghost predicate Times<V>(s: System<V>, id: string, m: nat, since: int) {
    id in s.insts ==> Past(s.insts[id], s.now) && EnteredSince(s.insts[id], m, since)
  }

  lemma SameTimes<V>(i: Inst<V>, i': Inst<V>, now: int, now': int, m: nat, since: int)
    requires Past(i, now) && EnteredSince(i, m, since) && now <= now' && i'.runs == i.runs
    requires i'.phase == i.phase || (i.phase.Applying? && i'.phase.Applying?)
    ensures Past(i', now') && EnteredSince(i', m, since)
  {}

  /** What an action that is not the instance's own, or only applies its effects, does to it. */
  lemma Spared<V>(reg: Recovery, s: System<V>, l: Label<V>, id: string)
    requires Step(reg, s, l).Some? && !(l.Act? && l.id == id)
    ensures var s' := Step(reg, s, l).value;
      if id in s.insts then
        && id in s'.insts && s'.insts[id].runs == s.insts[id].runs
        && (s'.insts[id].phase == s.insts[id].phase || (s.insts[id].phase.Applying? && s'.insts[id].phase.Applying?))
      else
        id in s'.insts ==>
          s'.insts[id].runs == [] && s'.insts[id].phase.Handling? && s'.insts[id].phase.firing == ByStart
  {
    match l
    case Apply(other) =>
      if s.insts[other].phase.starts != [] {
        ApplyStart(s.insts, other);
      } else {
        ApplySend(s.insts, other);
      }
    case Tick(_) =>
    case Go(_, _, _, _) =>
    case Send(_, _, _) =>
    case Call(_, _, _, _) =>
    case Act(_, _) =>
  }

  lemma StepTimes<V>(reg: Recovery, s: System<V>, l: Label<V>, id: string, m: nat, since: int)
    requires Times(s, id, m, since) && since <= s.now && Step(reg, s, l).Some?
    ensures Times(Step(reg, s, l).value, id, m, since) && s.now <= Step(reg, s, l).value.now
  {
    var s' := Step(reg, s, l).value;
    if l.Act? && l.id == id {
      ActTimes(reg, s.now, s.insts[id], l.action, m, since);
    } else {
      Spared(reg, s, l, id);
      if id in s.insts {
        SameTimes(s.insts[id], s'.insts[id], s.now, s'.now, m, since);
      }
    }
  }

  lemma {:induction false} ExecTimes<V>(reg: Recovery, s: System<V>, labels: seq<Label<V>>, id: string, m: nat,
                                        since: int)
    requires Times(s, id, m, since) && since <= s.now && Exec(reg, s, labels).Some?
    ensures Times(Exec(reg, s, labels).value, id, m, since) && s.now <= Exec(reg, s, labels).value.now
  {
    if labels != [] {
      var init := labels[..|labels| - 1];
      ExecTimes(reg, s, init, id, m, since);
      StepTimes(reg, Exec(reg, s, init).value, labels[|labels| - 1], id, m, since);
    }
  }

  /** In every reachable state, whatever a timer fired lies in the past. */
  lemma ReachedPast<V>(reg: Recovery, now: int, labels: seq<Label<V>>, s: System<V>, id: string)
    requires Reached(reg, now, labels, s) && id in s.insts
    ensures Past(s.insts[id], s.now)
  {
    ExecTimes(reg, EmptySystem(now), labels, id, 0, now);
  }

  /** From a reached state on, the waits entered later were entered later on the clock. */
  lemma LaterTimes<V>(reg: Recovery, now: int, before: seq<Label<V>>, s0: System<V>, after: seq<Label<V>>,
                      s: System<V>, id: string)
    requires Reached(reg, now, before, s0) && Exec(reg, s0, after) == Some(s) && id in s.insts
    ensures Past(s.insts[id], s.now) && EnteredSince(s.insts[id], FirstLater(s0.insts, id), s0.now)
  {
    if id in s0.insts {
      ReachedPast(reg, now, before, s0, id);
    }
    ExecTimes(reg, s0, after, id, FirstLater(s0.insts, id), s0.now);
  }

  /** A timer case really waits. Take any reached state in which the instance has yet to enter the wait, and any
      later one in which the wait's timer has fired: the clock has advanced by the timer's duration at least,
      whatever sends and calls came in between. */
  lemma TimersTakeTime<V>(reg: Recovery, now: int, before: seq<Label<V>>, s0: System<V>, after: seq<Label<V>>,
                          s: System<V>, id: string, j: nat)
    requires Reached(reg, now, before, s0) && Exec(reg, s0, after) == Some(s) && id in s.insts
    requires FirstLater(s0.insts, id) <= j < |s.insts[id].runs| && 0 < j && s.insts[id].runs[j].firing.ByTimer?
    ensures var f, prev := s.insts[id].runs[j].firing, UsedIn(reg, s.insts[id].runs[j - 1]);
      && prev.Returned? && !prev.output.done && f.idx < |prev.output.cases| && prev.output.cases[f.idx].timer.Some?
      && s.now >= s0.now + prev.output.cases[f.idx].timer.value
  {
    ExecConcat(reg, EmptySystem(now), before, after);
    LaterTimes(reg, now, before, s0, after, s, id);
    TimersNotEarly(reg, now, before + after, s, id, j);
  }
}
