/** The two backends run a routine alike as long as no call fails: for the same handler outcomes and the same choices
    of the case that fires and its message, they make the same invocations, start and send the same in the same
    order, answer the same calls with the same, show the same query results and end alike. */
module Agreement {
  import opened Counting
  import opened Wrappers
  import opened Queries
  import opened Durable
  import opened Mailbox
  import opened InMemory
  import opened History
  import opened Routing
  import opened Reachable
  import opened Temporal
  import opened WorkflowRuns
  import opened CallInputs

  // ----- What a history shows -----

  function RunEvents<V>(reg: Recovery, r: Run<V>): seq<Event<V>> {
    Invocations(reg, r.key, r.input, r.msg, r.primary) + EffectEvents(EffectsOf(reg, r))
  }

  function LogOf<V>(reg: Recovery, runs: seq<Run<V>>): seq<Event<V>> {
    if runs == [] then [] else LogOf(reg, runs[..|runs| - 1]) + RunEvents(reg, runs[|runs| - 1])
  }

  /** No call has been handled. */
  ghost predicate CallFree<V>(runs: seq<Run<V>>) {
    forall j {:trigger runs[j]} :: 0 <= j < |runs| ==> !runs[j].firing.ByCall?
  }

  function ResultOf<V>(outcome: RoutineResult<V>): WfResult<V> {
    match outcome
    case Success(result) => Completed(result)
    case Failure(e) => FailedWith(e)
  }

  // ----- From a history to turns -----

  function PickOf<V>(firing: Firing, msg: Option<V>): Pick<V> {
    match firing
    case ByTimer(i, _, _) => PickTimer(i)
    case BySend(i) => if msg.Some? then PickSend(i, msg.value) else PickDefault(i)
    case ByDefault(i) => PickDefault(i)
    case ByCall(i, _) => PickCall
    case ByStart => PickCall
  }

  /** The update that a run for a call answers. */
  function ArrivalsOf<V>(r: Run<V>): seq<Arrival<V>> {
    if r.firing.ByCall? && r.msg.Some? then [Arrival(r.firing.call, r.key, r.msg.value, true)] else []
  }

  /** The turn in which the output of run `r` is used and the case that fires for `next` is picked. */
  function TurnOf<V>(r: Run<V>, next: Run<V>): Turn<V> {
    Turn([], r.primary, r.recovery, ArrivalsOf(next), PickOf(next.firing, next.msg), next.primary, next.recovery, [],
         false, [])
  }

  function TurnsOf<V>(runs: seq<Run<V>>, next: Run<V>): (turns: seq<Turn<V>>)
    ensures |turns| == |runs|
  {
    if runs == [] then []
    else TurnsOf(runs[..|runs| - 1], runs[|runs| - 1]) + [TurnOf(runs[|runs| - 1], next)]
  }

  /** A run for a call that succeeds, on the input that the last case with its key carries. */
  ghost predicate CallFits<V>(reg: Recovery, r: Run<V>, next: Run<V>) {
    next.firing.ByCall? ==>
      && UsedIn(reg, next).Returned?
      && UsedIn(reg, r).Returned? && LastInput(UsedIn(reg, r).output.cases, next.key) == Some(next.input)
  }

  /** All calls handled fit, and the one to come. */
  ghost predicate CallsFit<V>(reg: Recovery, runs: seq<Run<V>>, next: Run<V>) {
    && (forall j :: 0 < j < |runs| ==> CallFits(reg, runs[j - 1], runs[j]))
    && (runs != [] ==> CallFits(reg, runs[|runs| - 1], next))
  }

  lemma CallsFitInit<V>(reg: Recovery, runs: seq<Run<V>>, next: Run<V>)
    requires CallsFit(reg, runs, next) && runs != []
    ensures CallsFit(reg, runs[..|runs| - 1], runs[|runs| - 1])
  {
    var init := runs[..|runs| - 1];
    assert forall j :: 0 <= j < |init| ==> init[j] == runs[j];
  }

  /** The answers that the runs for calls give. */
  function AnswersOf<V>(reg: Recovery, runs: seq<Run<V>>): seq<Answer<V>> {
    if runs == [] then []
    else AnswersOf(reg, runs[..|runs| - 1]) + AnswerOf(reg, runs[|runs| - 1])
  }

  function AnswerOf<V>(reg: Recovery, r: Run<V>): seq<Answer<V>> {
    match r.firing
    case ByCall(_, call) =>
      (match UsedIn(reg, r)
       case Failed(e, _) => [Answer(call, Response<V>.Error(e))]
       case Returned(out, _) => [Answer(call, Value(out.callResponse))])
    case _ => []
  }

  /** The workflow at the head of its loop is about to do what the instance is about to handle, and both
      have shown the same. */
  ghost predicate Matches<V>(reg: Recovery, w: Wf<V>, runs: seq<Run<V>>, k: string, i: V, m: Option<V>) {
    && w.key == k && w.input == i && w.message == m
    && w.callOutput.None? && w.pending == [] && w.notes == 0
    && w.log == LogOf(reg, runs)
    && w.installed == QueriesAfter(reg, runs)
  }

  lemma HistorySnoc<V>(reg: Recovery, runs: seq<Run<V>>, r: Run<V>)
    ensures LogOf(reg, runs + [r])
      == LogOf(reg, runs) + (Invocations(reg, r.key, r.input, r.msg, r.primary) + EffectEvents(EffectsOf(reg, r)))
    ensures QueriesAfter(reg, runs + [r]) == WriteAll(QueriesAfter(reg, runs), EffectsOf(reg, r).queries)
  {
    assert (runs + [r])[..|runs|] == runs;
  }

  /** The workflow when run `r` fails: it ends. */
  lemma FailsAlike<V>(reg: Recovery, w: Wf<V>, runs: seq<Run<V>>, r: Run<V>, t: Turn<V>)
    requires Matches(reg, w, runs, r.key, r.input, r.msg) && t.primary == r.primary && t.recovery == r.recovery
    requires t.before == [] && UsedIn(reg, r).Failed?
    ensures var ran := Iterate(reg, w, t);
      && ran.Ended? && ran.result == FailedWith(UsedIn(reg, r).error)
      && ran.wf.log == LogOf(reg, runs + [r]) && ran.wf.installed == QueriesAfter(reg, runs + [r])
  {
    HistorySnoc(reg, runs, r);
    assert EffectEvents(NoEffects<V>()) == [];
    assert WriteAll(w.installed, []) == w.installed;
  }

  /** The workflow after making run `r` and applying its output. */
  lemma MakesRun<V>(reg: Recovery, w: Wf<V>, runs: seq<Run<V>>, r: Run<V>, t: Turn<V>) returns (w': Wf<V>)
    requires Matches(reg, w, runs, r.key, r.input, r.msg) && t.primary == r.primary && t.recovery == r.recovery
    requires t.before == [] && UsedIn(reg, r).Returned?
    ensures var out, eff := UsedIn(reg, r).output, UsedIn(reg, r).effects;
      && Iterate(reg, w, t) == Interpret(reg, w', ToActivity(out, eff), t)
      && Matches(reg, w', runs + [r], r.key, r.input, None) && w'.answers == w.answers
  {
    HistorySnoc(reg, runs, r);
    var (w1, produced, e) := Produce(reg, w, t);
    w' := ApplyOutput(w1, produced.value);
    Associate(LogOf(reg, runs), Invocations(reg, r.key, r.input, r.msg, r.primary), EffectEvents(EffectsOf(reg, r)));
  }

  /** The workflow has done and shown what these runs did, and has nothing in hand. */
  ghost predicate Shown<V>(reg: Recovery, w: Wf<V>, runs: seq<Run<V>>) {
    && w.message.None? && w.callOutput.None? && w.pending == [] && w.notes == 0
    && w.log == LogOf(reg, runs) && w.installed == QueriesAfter(reg, runs) && w.answers == AnswersOf(reg, runs)
  }

  /** The workflow at the head of its loop is about to use the output of `next`: it is yet to run the handler, or,
      for a call, has run it and answered. */
  ghost predicate Head<V>(reg: Recovery, w: Wf<V>, runs: seq<Run<V>>, next: Run<V>) {
    if next.firing.ByCall? then
      && UsedIn(reg, next).Returned?
      && w.callOutput == Some(ToActivity(UsedIn(reg, next).output, EffectsOf(reg, next)))
      && w.message.None? && w.pending == [] && w.notes == 0
      && w.log == LogOf(reg, runs) + Invocations(reg, next.key, next.input, next.msg, next.primary)
      && w.installed == QueriesAfter(reg, runs)
      && w.answers == AnswersOf(reg, runs) + AnswerOf(reg, next)
    else Matches(reg, w, runs, next.key, next.input, next.msg) && w.answers == AnswersOf(reg, runs)
  }

  lemma AnswersSnoc<V>(reg: Recovery, runs: seq<Run<V>>, r: Run<V>)
    ensures AnswersOf(reg, runs + [r]) == AnswersOf(reg, runs) + AnswerOf(reg, r)
  {
    assert (runs + [r])[..|runs|] == runs;
  }

  /** The workflow after using the output of `r`. */
  lemma UsesOutput<V>(reg: Recovery, w: Wf<V>, runs: seq<Run<V>>, r: Run<V>, t: Turn<V>) returns (w': Wf<V>)
    requires Head(reg, w, runs, r) && t.primary == r.primary && t.recovery == r.recovery
    requires t.before == [] && UsedIn(reg, r).Returned?
    ensures Iterate(reg, w, t) == Interpret(reg, w', ToActivity(UsedIn(reg, r).output, UsedIn(reg, r).effects), t)
    ensures Shown(reg, w', runs + [r])
  {
    AnswersSnoc(reg, runs, r);
    if r.firing.ByCall? {
      w' := UsesCallOutput(reg, w, runs, r, t);
    } else {
      w' := MakesRun(reg, w, runs, r, t);
    }
  }

  lemma UsesCallOutput<V>(reg: Recovery, w: Wf<V>, runs: seq<Run<V>>, r: Run<V>, t: Turn<V>) returns (w': Wf<V>)
    requires Head(reg, w, runs, r) && r.firing.ByCall? && t.before == []
    requires AnswersOf(reg, runs + [r]) == AnswersOf(reg, runs) + AnswerOf(reg, r)
    ensures Iterate(reg, w, t) == Interpret(reg, w', ToActivity(UsedIn(reg, r).output, UsedIn(reg, r).effects), t)
    ensures Shown(reg, w', runs + [r])
  {
    HistorySnoc(reg, runs, r);
    w' := ApplyOutput(w.(callOutput := None), w.callOutput.value);
    Associate(LogOf(reg, runs), Invocations(reg, r.key, r.input, r.msg, r.primary), EffectEvents(EffectsOf(reg, r)));
  }

  /** One step of the lockstep: a run that suspends, and the case that fires after it. */
  lemma StepsAgree<V>(reg: Recovery, w: Wf<V>, runs: seq<Run<V>>, r: Run<V>, next: Run<V>)
    requires Head(reg, w, runs, r) && CallFits(reg, r, next)
    requires Follows(reg, r, next.firing, next.key, next.input, next.msg)
    ensures var t := TurnOf(r, next);
      Iterate(reg, w, t).Next? && Head(reg, Iterate(reg, w, t).wf, runs + [r], next)
  {
    var t := TurnOf(r, next);
    var w' := UsesOutput(reg, w, runs, r, t);
    var out, eff := UsedIn(reg, r).output, UsedIn(reg, r).effects;
    if next.firing.ByCall? {
      var v := w'.(registered := Register(w'.registered, out.cases));
      CallAgrees(reg, v, out.cases, t, next);
      assert out.cases != [] && !IsContinue(out.cases);
      assert Interpret(reg, w', ToActivity(out, eff), t) == RunSelector(reg, v, out.cases, t);
    } else {
      PickAgrees(reg, w', out, eff, t, next.firing, next.key, next.input, next.msg);
    }
  }

  /** The selector picks the case that fired. */
  lemma PickAgrees<V>(reg: Recovery, w: Wf<V>, out: RunOutput<V>, eff: Effects<V>, t: Turn<V>, f: Firing, k: string,
                      i: V, m: Option<V>)
    requires w.callOutput.None? && w.message == None && t.during == [] && !t.cut && t.pick == PickOf(f, m)
    requires !out.done && Justified(out.cases, f, m) && !f.ByCall? && (IsContinue(out.cases) ==> f == ByDefault(0))
    requires out.cases[CaseIndex(f).value].handlerKey == k && out.cases[CaseIndex(f).value].input == i
    ensures var ran := Interpret(reg, w, ToActivity(out, eff), t);
      ran.Next? && ran.wf == w.(key := k, input := i, message := m, registered := ran.wf.registered)
  {}

  /** The update comes, the selector picks it and its handler runs. */
  lemma CallAgrees<V>(reg: Recovery, v: Wf<V>, cases: seq<Case<V>>, t: Turn<V>, next: Run<V>)
    requires v.callOutput.None? && v.message.None? && v.pending == [] && v.notes == 0
    requires next.firing.ByCall? && next.msg.Some? && UsedIn(reg, next).Returned? && HasCallCase(cases)
    requires LastInput(cases, next.key) == Some(next.input) && exists m :: v.registered == Register(m, cases)
    requires t.during == ArrivalsOf(next) && t.pick == PickCall && t.after == []
    requires t.callPrimary == next.primary && t.callRecovery == next.recovery
    ensures var ran := RunSelector(reg, v, cases, t);
      && ran.Next?
      && ran.wf == v.(log := v.log + Invocations(reg, next.key, next.input, next.msg, next.primary),
                      arrivals := ran.wf.arrivals, answers := v.answers + AnswerOf(reg, next),
                      callOutput := Some(ToActivity(UsedIn(reg, next).output, EffectsOf(reg, next))))
  {
    var m :| v.registered == Register(m, cases);
    RegisterReads(m, cases, next.key);
    var a := t.during[0];
    assert t.during[1..] == [] && AcceptAll(v, t.during) == Some(Accept(v, a));
    var pc := PendingCall(next.firing.call, next.key, next.msg.value, next.input);
    assert Accept(v, a).pending == [pc] && [pc][1..] == [];
  }

  // ----- Histories and workflow runs -----

  /** The start of a workflow execution. */
  function Fresh<V>(key: string, input: V): Wf<V> {
    Begin(WorkflowInput(key, input, []), [], [], [])
  }

  /** Any legal history in which no call fails is what the workflow does on the same outcomes and choices, up to the
      handler that comes next. */
  lemma {:induction false} HistoryIsWorkflowRun<V>(reg: Recovery, key: string, input: V, runs: seq<Run<V>>,
                                                   next: Run<V>)
    requires Legal(reg, key, input, runs)
    requires Enters(reg, key, input, runs, next.firing, next.key, next.input, next.msg) && CallsFit(reg, runs, next)
    ensures var r := RunWorkflow(reg, Fresh(key, input), TurnsOf(runs, next));
      r.Next? && Head(reg, r.wf, runs, next)
  {
    if runs != [] {
      var n := |runs| - 1;
      var init, last := runs[..n], runs[n];
      LegalPrefix(reg, key, input, runs);
      CallsFitInit(reg, runs, next);
      HistoryIsWorkflowRun(reg, key, input, init, last);
      var turns := TurnsOf(init, last);
      var w := RunWorkflow(reg, Fresh(key, input), turns).wf;
      RunSnoc(reg, Fresh(key, input), turns, TurnOf(last, next));
      StepsAgree(reg, w, init, last, next);
      Unsnoc(runs);
    }
  }

  lemma RunSnoc<V>(reg: Recovery, w: Wf<V>, turns: seq<Turn<V>>, t: Turn<V>)
    requires RunWorkflow(reg, w, turns).Next?
    ensures RunWorkflow(reg, w, turns + [t])
      == match Iterate(reg, RunWorkflow(reg, w, turns).wf, t)
         case Cut(cut) => Next(Resume(cut))
         case r => r
  {
    assert (turns + [t])[..|turns|] == turns;
  }

  lemma EndAgrees<V>(reg: Recovery, w: Wf<V>, runs: seq<Run<V>>, r: Run<V>, t: Turn<V>, outcome: RoutineResult<V>)
    requires Head(reg, w, runs, r) && t.primary == r.primary && t.recovery == r.recovery
    requires t.before == [] && Ending(reg, r) == Some(outcome)
    ensures var ran := Iterate(reg, w, t);
      && ran.Ended? && ran.result == ResultOf(outcome) && ran.wf.log == LogOf(reg, runs + [r])
      && ran.wf.installed == QueriesAfter(reg, runs + [r]) && ran.wf.answers == AnswersOf(reg, runs + [r])
  {
    if UsedIn(reg, r).Failed? {
      FailsAlike(reg, w, runs, r, t);
      AnswersSnoc(reg, runs, r);
    } else {
      var w' := UsesOutput(reg, w, runs, r, t);
    }
  }

  lemma LegalPrefix<V>(reg: Recovery, key: string, input: V, runs: seq<Run<V>>)
    requires Legal(reg, key, input, runs) && runs != []
    ensures var init, last := runs[..|runs| - 1], runs[|runs| - 1];
      && Legal(reg, key, input, init)
      && Enters(reg, key, input, init, last.firing, last.key, last.input, last.msg)
  {
    var init := runs[..|runs| - 1];
    forall j {:trigger init[j]} | 0 <= j < |init|
      ensures Enters(reg, key, input, init[..j], init[j].firing, init[j].key, init[j].input, init[j].msg)
    {
      assert init[j] == runs[j] && init[..j] == runs[..j];
    }
  }

  /** The outcome with which a run ends its routine, if it does. */
  function Ending<V>(reg: Recovery, r: Run<V>): Option<RoutineResult<V>> {
    match UsedIn(reg, r)
    case Failed(e, _) => Some(Failure(e))
    case Returned(out, _) => if out.done then Some(Success(out.result)) else None
  }

  /** The same for a history that has ended: the workflow ends with the same result or failure. */
  lemma EndsAgree<V>(reg: Recovery, key: string, input: V, runs: seq<Run<V>>, outcome: RoutineResult<V>)
    requires Legal(reg, key, input, runs) && runs != []
    requires Ending(reg, runs[|runs| - 1]) == Some(outcome) && CallsFit(reg, runs[..|runs| - 1], runs[|runs| - 1])
    ensures var r := RunWorkflow(reg, Fresh(key, input), TurnsOf(runs, AnyRun(key, input)));
      && r.Ended? && r.result == ResultOf(outcome) && r.wf.log == LogOf(reg, runs)
      && r.wf.installed == QueriesAfter(reg, runs) && r.wf.answers == AnswersOf(reg, runs)
  {
    var n := |runs| - 1;
    var init, last := runs[..n], runs[n];
    LegalPrefix(reg, key, input, runs);
    HistoryIsWorkflowRun(reg, key, input, init, last);
    var turns, t := TurnsOf(init, last), TurnOf(last, AnyRun(key, input));
    var w := RunWorkflow(reg, Fresh(key, input), turns).wf;
    RunSnoc(reg, Fresh(key, input), turns, t);
    Unsnoc(runs);
    EndAgrees(reg, w, init, last, t, outcome);
  }

  /** A run that has not been made, for a turn that picks nothing or not yet. */
  function AnyRun<V>(key: string, input: V): Run<V> {
    ToCome(ByStart, key, input, None)
  }

  /** What an instance is about to handle, whatever will be returned. */
  function ToCome<V>(firing: Firing, key: string, input: V, msg: Option<V>): Run<V> {
    Run(firing, key, input, msg, Failed("", NoEffects()), Failed("", NoEffects()))
  }

  function Coming<V>(p: Phase<V>): Run<V>
    requires p.Handling?
  {
    ToCome(p.firing, p.key, p.input, p.msg)
  }

  /** Backend agreement, from the in-memory side: in every reachable state of the in-memory runtime, an
      instance whose calls have all succeeded and that is about to handle something has done what the workflow does
      on the same handler outcomes and choices, and both are about to run the same handler on the same data. */
  lemma InMemoryIsTemporal<V>(reg: Recovery, now: int, labels: seq<Label<V>>, s: System<V>, id: string)
    requires Reached(reg, now, labels, s) && id in s.insts && s.insts[id].phase.Handling?
    requires !s.insts[id].phase.firing.ByCall? && CallsFit(reg, s.insts[id].runs, Coming(s.insts[id].phase))
    ensures var i := s.insts[id];
      var r := RunWorkflow(reg, Fresh(i.key, i.input), TurnsOf(i.runs, Coming(i.phase)));
      && r.Next? && r.wf.key == i.phase.key && r.wf.input == i.phase.input && r.wf.message == i.phase.msg
      && r.wf.log == LogOf(reg, i.runs) && r.wf.installed == i.queries && r.wf.answers == AnswersOf(reg, i.runs)
  {
    ReachedKeeps(reg, now, labels, s);
    var i := s.insts[id];
    assert InstInv(reg, i);
    HistoryIsWorkflowRun(reg, i.key, i.input, i.runs, Coming(i.phase));
  }

  /** And one that has finished ended as the workflow does. */
  lemma InMemoryEndsAsTemporal<V>(reg: Recovery, now: int, labels: seq<Label<V>>, s: System<V>, id: string)
    requires Reached(reg, now, labels, s) && id in s.insts && s.insts[id].phase.Finished?
    requires var runs := s.insts[id].runs; runs != [] ==> CallsFit(reg, runs[..|runs| - 1], runs[|runs| - 1])
    ensures var i := s.insts[id];
      var r := RunWorkflow(reg, Fresh(i.key, i.input), TurnsOf(i.runs, AnyRun(i.key, i.input)));
      && r.Ended? && r.result == ResultOf(i.phase.outcome) && r.wf.log == LogOf(reg, i.runs)
      && r.wf.installed == i.queries && r.wf.answers == AnswersOf(reg, i.runs)
  {
    ReachedKeeps(reg, now, labels, s);
    var i := s.insts[id];
    assert InstInv(reg, i);
    EndsAgree(reg, i.key, i.input, i.runs, i.phase.outcome);
  }

  // ----- The other direction -----

  /** A turn in which no update is accepted, no call is picked and nothing is cut. */
  ghost predicate Plain<V>(t: Turn<V>) {
    t.before == [] && t.during == [] && !t.pick.PickCall? && !t.cut
  }

  /** The firing that a pick is, among these cases. A timer is taken to fire as early as it may. */
  function FiringOf<V>(cases: seq<Case<V>>, p: Pick<V>): Firing {
    if IsContinue(cases) then ByDefault(0)
    else
      match p
      case PickTimer(i) => ByTimer(i, 0, if i < |cases| && cases[i].timer.Some? then cases[i].timer.value else 0)
      case PickSend(i, _) => BySend(i)
      case PickDefault(i) => ByDefault(i)
      case PickCall => ByStart
  }

  /** What one plain turn does is a run that may follow, and a case that may fire after it. */
  lemma PlainStep<V>(reg: Recovery, w: Wf<V>, runs: seq<Run<V>>, f: Firing, t: Turn<V>) returns (r: Run<V>, f': Firing)
    requires Matches(reg, w, runs, w.key, w.input, w.message) && Plain(t) && Iterate(reg, w, t).Next?
    ensures r == Run(f, w.key, w.input, w.message, t.primary, t.recovery) && !f'.ByCall?
    ensures var w' := Iterate(reg, w, t).wf;
      && Matches(reg, w', runs + [r], w'.key, w'.input, w'.message)
      && Follows(reg, r, f', w'.key, w'.input, w'.message)
  {
    r := Run(f, w.key, w.input, w.message, t.primary, t.recovery);
    if UsedIn(reg, r).Failed? {
      FailsAlike(reg, w, runs, r, t);
      f' := ByStart;
    } else {
      var w' := MakesRun(reg, w, runs, r, t);
      f' := FiringOf(UsedIn(reg, r).output.cases, t.pick);
    }
  }

  /** A workflow that goes through plain turns has done what a legal history does on the same handler outcomes, each
      handler following from a case of the one before, and is where that history goes on. Which of these histories the
      in-memory runtime makes depends on its choice among cases of one kind. */
  lemma {:induction false} WorkflowRunIsHistory<V>(reg: Recovery, key: string, input: V, turns: seq<Turn<V>>)
    returns (runs: seq<Run<V>>, f: Firing)
    requires forall j :: 0 <= j < |turns| ==> Plain(turns[j])
    requires RunWorkflow(reg, Fresh(key, input), turns).Next?
    ensures |runs| == |turns| && CallFree(runs) && !f.ByCall?
    ensures forall j :: 0 <= j < |runs| ==> runs[j].primary == turns[j].primary && runs[j].recovery == turns[j].recovery
    ensures var w := RunWorkflow(reg, Fresh(key, input), turns).wf;
      && Legal(reg, key, input, runs) && Enters(reg, key, input, runs, f, w.key, w.input, w.message)
      && Matches(reg, w, runs, w.key, w.input, w.message)
  {
    if turns == [] {
      runs, f := [], ByStart;
    } else {
      var n := |turns| - 1;
      var init, f0 := WorkflowRunIsHistory(reg, key, input, turns[..n]);
      var w := RunWorkflow(reg, Fresh(key, input), turns[..n]).wf;
      NotCut(reg, w, turns[n]);
      RunSnoc(reg, Fresh(key, input), turns[..n], turns[n]);
      Unsnoc(turns);
      var r, f' := PlainStep(reg, w, init, f0, turns[n]);
      LegalSnoc(reg, key, input, init, r);
      runs, f := init + [r], f';
      LastOfSnoc(init, r);
    }
  }

  lemma LastOfSnoc<T>(s: seq<T>, x: T)
    ensures |s + [x]| == |s| + 1 && (s + [x])[|s|] == x && forall j :: 0 <= j < |s| ==> (s + [x])[j] == s[j]
  {}

  lemma NotCut<V>(reg: Recovery, w: Wf<V>, t: Turn<V>)
    requires Plain(t)
    ensures !Iterate(reg, w, t).Cut?
  {}

  // ----- Where they part -----

  /** An output that is not done and has no cases ends the workflow with an error, whoever produced it and whatever
      is queued. */
  lemma EmptyCasesEndWorkflow<V>(reg: Recovery, w: Wf<V>, t: Turn<V>)
    requires AcceptAll(w, t.before).Some?
    requires var out := Produce(reg, w, t).1;
      out.Some? && !out.value.done && (out.value.continuation.None? || out.value.continuation == Some([]))
    ensures Iterate(reg, w, t).Ended? && Iterate(reg, w, t).result == FailedWith(NoCases(w.key))
  {
    AcceptSpares(w, t.before);
  }

  ghost predicate WaitsOnNothing<V>(i: Inst<V>) {
    i.phase.Waiting? && i.phase.wait.cases == []
  }

  lemma EmptyWaitStays<V>(reg: Recovery, now: int, i: Inst<V>, a: Action<V>)
    requires InstInv(reg, i) && WaitsOnNothing(i) && Acted(reg, now, i, a).Some?
    ensures WaitsOnNothing(Acted(reg, now, i, a).value) && Acted(reg, now, i, a).value.runs == i.runs
  {
    assert i.phase.wait.timers == [];
  }

  /** What goes on elsewhere leaves a waiting instance's phase and runs alone. */
  lemma OthersSpareWaiting<V>(reg: Recovery, s: System<V>, l: Label<V>, id: string)
    requires Step(reg, s, l).Some? && id in s.insts && s.insts[id].phase.Waiting? && !(l.Act? && l.id == id)
    ensures var s' := Step(reg, s, l).value;
      id in s'.insts && s'.insts[id].phase == s.insts[id].phase && s'.insts[id].runs == s.insts[id].runs
  {
    match l
    case Apply(other) =>
      if s.insts[other].phase.starts != [] {
        ApplyStart(s.insts, other);
      } else {
        ApplySend(s.insts, other);
      }
    case Tick(_) =>
    case Go(_, _, _, _) =>
    case Send(_, _, _) =>
    case Call(_, _, _, _) =>
    case Act(_, _) =>
  }

  lemma EmptyWaitStep<V>(reg: Recovery, s: System<V>, l: Label<V>, id: string)
    requires SysInv(reg, s) && Step(reg, s, l).Some? && id in s.insts && WaitsOnNothing(s.insts[id])
    ensures var s' := Step(reg, s, l).value;
      id in s'.insts && WaitsOnNothing(s'.insts[id]) && s'.insts[id].runs == s.insts[id].runs
  {
    if l.Act? && l.id == id {
      EmptyWaitStay(reg, s, l.action, id);
    } else {
      OthersSpareWaiting(reg, s, l, id);
    }
  }

  lemma EmptyWaitStay<V>(reg: Recovery, s: System<V>, a: Action<V>, id: string)
    requires SysInv(reg, s) && id in s.insts && WaitsOnNothing(s.insts[id]) && Acted(reg, s.now, s.insts[id], a).Some?
    ensures var i' := Acted(reg, s.now, s.insts[id], a).value; WaitsOnNothing(i') && i'.runs == s.insts[id].runs
  {
    assert InstInv(reg, s.insts[id]);
    EmptyWaitStays(reg, s.now, s.insts[id], a);
  }

  /** In memory the same output makes the instance wait for ever: whatever else happens, it handles nothing
      more and does not finish. */
  lemma {:induction false} EmptyCasesWaitForEver<V>(reg: Recovery, s: System<V>, labels: seq<Label<V>>, id: string)
    requires SysInv(reg, s) && Exec(reg, s, labels).Some? && id in s.insts && WaitsOnNothing(s.insts[id])
    ensures var s' := Exec(reg, s, labels).value;
      id in s'.insts && WaitsOnNothing(s'.insts[id]) && s'.insts[id].runs == s.insts[id].runs
  {
    if labels != [] {
      var init, last := labels[..|labels| - 1], labels[|labels| - 1];
      EmptyCasesWaitForEver(reg, s, init, id);
      ExecKeeps(reg, s, init);
      EmptyWaitStep(reg, Exec(reg, s, init).value, last, id);
    }
  }
}
