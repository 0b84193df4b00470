/** RoutineWorkflow and the RunHandler activity as they are written: variables reassigned by a loop and by
    callbacks, lists filled by loops (backend/temporal/workflow.go, activities.go). */
module WorkflowObject {
  import opened Wrappers
  import opened Queries
  import opened Durable
  import opened Temporal
  import opened WorkflowRuns
  import opened ContinueAsNew
  import opened Outputs

  /** activities.go: the lists of an activity's output are filled from the context's lists one entry at a
      time. None: the handler failed, and so does the activity. */
  method RunHandler<V>(outcome: Outcome<V>) returns (r: Option<ActivityOutput<V>>)
    ensures r == if outcome.Failed? then None else Some(ToActivity(outcome.output, outcome.effects))
  {
    if outcome.Failed? { return None; }
    var runOut, eff := outcome.output, outcome.effects;
    var result, continuation := None, None;
    if runOut.done {
      result := runOut.result;
    } else {
      var cases: seq<Case<V>> := [];
      for i := 0 to |runOut.cases|
        invariant cases == runOut.cases[..i]
      {
        cases := cases + [runOut.cases[i]];
      }
      assert cases == runOut.cases;
      continuation := Some(cases);
    }
    var queries: seq<QueryEntry<V>>, starts: seq<StartEntry<V>>, sends: seq<SendEntry<V>> := [], [], [];
    for i := 0 to |eff.queries|
      invariant queries == eff.queries[..i]
    {
      queries := queries + [eff.queries[i]];
    }
    for i := 0 to |eff.starts|
      invariant starts == eff.starts[..i]
    {
      starts := starts + [eff.starts[i]];
    }
    for i := 0 to |eff.sends|
      invariant sends == eff.sends[..i]
    {
      sends := sends + [eff.sends[i]];
    }
    assert Effects(queries, starts, sends) == eff;
    r := Some(ActivityOutput(runOut.done, result, continuation, Effects(queries, starts, sends), runOut.callResponse));
  }

  class Workflow<V> {
    const reg: Recovery
    var handlerKey: string
    var handlerInput: V
    var message: Option<V>
    var callHandlerOutput: Option<ActivityOutput<V>>
    var pendingCalls: seq<PendingCall<V>>
    var notes: nat
    var allQueryResults: seq<QueryEntry<V>>
    var queryHandlers: map<string, V>
    var updateHandlers: map<string, V>
    ghost var log: seq<Event<V>>
    ghost var arrivals: seq<nat>
    var answers: seq<Answer<V>>

    ghost function Vars(): Wf<V>
      reads this
    {
      Wf(handlerKey, handlerInput, message, callHandlerOutput, pendingCalls, notes, allQueryResults,
         queryHandlers, updateHandlers, log, arrivals, answers)
    }

    /** The first statements: the query handlers are installed from the results passed in. */
    constructor (reg: Recovery, input: WorkflowInput<V>)
      ensures this.reg == reg && Vars() == Begin(input, [], [], [])
    {
      this.reg := reg;
      handlerKey, handlerInput, message, callHandlerOutput := input.key, input.input, None, None;
      pendingCalls, notes, allQueryResults, updateHandlers := [], 0, input.queries, map[];
      queryHandlers, log, arrivals, answers := map[], [], [], [];
      new;
      queryHandlers := ApplyQueryResults(map[], input.queries);
    }

    /** continue-as-new: the same statements again, with what is passed on. */
    method Restart()
      modifies this
      ensures Vars() == Resume(old(Vars()))
    {
      message, callHandlerOutput, pendingCalls, notes, updateHandlers := None, None, [], 0, map[];
      queryHandlers := ApplyQueryResults(map[], allQueryResults);
    }

    /** The update handler: queues the call and sends a notification, which may be dropped. */
    method AcceptUpdates(updates: seq<Arrival<V>>) returns (ok: bool)
      modifies this`pendingCalls, this`notes, this`arrivals
      ensures ok <==> AcceptAll(old(Vars()), updates).Some?
      ensures ok ==> Vars() == AcceptAll(old(Vars()), updates).value
    {
      for i := 0 to |updates|
        invariant AcceptAll(Vars(), updates[i..]) == AcceptAll(old(Vars()), updates)
      {
        var a := updates[i];
        assert updates[i..][0] == a && updates[i..][1..] == updates[i + 1..];
        if a.key !in updateHandlers { return false; }
        pendingCalls := pendingCalls + [PendingCall(a.call, a.key, a.req, updateHandlers[a.key])];
        notes := notes + (if a.notified then 1 else 0);
        arrivals := arrivals + [a.call];
      }
      assert updates[|updates|..] == [];
      return true;
    }

    /** The handler's activity, and the recovery handler's if it fails and one is registered. */
    method Execute(key: string, input: V, msg: Option<V>, primary: Outcome<V>, recovery: Outcome<V>)
      returns (r: Option<ActivityOutput<V>>, error: string)
      modifies this`log
      ensures log == old(log) + Invocations(reg, key, input, msg, primary)
      ensures match Used(reg, key, primary, recovery)
        case Failed(e, _) => r.None? && error == e
        case Returned(out, eff) => r == Some(ToActivity(out, eff)) && error == ""
    {
      log := log + [Activity(ActivityInput(key, input, msg, ""))];
      var first := if key in reg then primary else Failed("no handler registered for key: " + key, NoEffects());
      r := RunHandler(first);
      error := "";
      if r.None? {
        var teKey := if key in reg && reg[key] != "" && reg[key] in reg then reg[key] else "";
        error := first.error;
        if teKey != "" {
          log := log + [Activity(ActivityInput(teKey, input, msg, first.error))];
          r := RunHandler(recovery);
          error := if recovery.Failed? then recovery.error else "";
        }
      }
    }

    /** Steps 2 to 4. */
    method ApplyActivityOutput(out: ActivityOutput<V>)
      modifies this`allQueryResults, this`queryHandlers, this`log
      ensures Vars() == ApplyOutput(old(Vars()), out)
      ensures old(log) <= log && MadeLast(log, |old(log)|, out.effects)
    {
      queryHandlers := ApplyQueryResults(queryHandlers, out.effects.queries);
      allQueryResults := MergeQueryResults(allQueryResults, out.effects.queries);
      ghost var events: seq<Event<V>> := [];
      for i := 0 to |out.effects.starts|
        invariant events == EffectEvents(out.effects)[..i]
        invariant log == old(log) + events && Vars() == ApplyOutput(old(Vars()), out).(log := log)
      {
        log := log + [ChildStarted(out.effects.starts[i])];
        events := events + [ChildStarted(out.effects.starts[i])];
      }
      for i := 0 to |out.effects.sends|
        invariant events == EffectEvents(out.effects)[..|out.effects.starts| + i]
        invariant log == old(log) + events && Vars() == ApplyOutput(old(Vars()), out).(log := log)
      {
        log := log + [Signalled(out.effects.sends[i])];
        events := events + [Signalled(out.effects.sends[i])];
      }
      assert events == EffectEvents(out.effects);
      EffectsMade(old(Vars()), out);
    }

    /** An update handler for every call case. */
    method RegisterUpdates(cases: seq<Case<V>>)
      modifies this`updateHandlers
      ensures updateHandlers == Register(old(updateHandlers), cases)
    {
      for i := 0 to |cases|
        invariant Register(updateHandlers, cases[i..]) == Register(old(updateHandlers), cases)
      {
        assert cases[i..][0] == cases[i] && cases[i..][1..] == cases[i + 1..];
        if cases[i].callName != "" {
          updateHandlers := updateHandlers[cases[i].handlerKey := cases[i].input];
        }
      }
      assert cases[|cases|..] == [];
    }

    method HasCalls(cases: seq<Case<V>>) returns (r: bool)
      ensures r <==> HasCallCase(cases)
    {
      for i := 0 to |cases|
        invariant forall j :: 0 <= j < i ==> cases[j].callName == ""
      {
        if cases[i].callName != "" { return true; }
      }
      return false;
    }

    /** The selector's callback for a call notification. False: the turn is impossible. */
    method OnCall(cases: seq<Case<V>>, t: Turn<V>) returns (ok: bool)
      requires notes > 0 && pendingCalls != []
      modifies this
      ensures ok <==> HandleCall(reg, old(Vars()), cases, t).Some?
      ensures ok ==> Vars() == HandleCall(reg, old(Vars()), cases, t).value
    {
      var pc := pendingCalls[0];
      notes, pendingCalls := notes - 1, pendingCalls[1..];
      var r, e := Execute(pc.key, pc.input, Some(pc.req), t.callPrimary, t.callRecovery);
      ghost var w := old(Vars());
      ghost var taken := w.(notes := w.notes - 1, pending := w.pending[1..],
                            log := w.log + Invocations(reg, pc.key, pc.input, Some(pc.req), t.callPrimary));
      assert Vars() == taken;
      ok := AcceptUpdates(t.after);
      if ok {
        RespondTo(pc, cases, r, e);
      }
    }

    /** The caller's response, and the output for the next iteration. */
    method RespondTo(pc: PendingCall<V>, cases: seq<Case<V>>, r: Option<ActivityOutput<V>>, e: string)
      modifies this`answers, this`callHandlerOutput
      ensures Vars() == old(Vars()).(
        answers := old(answers) + [Answer(pc.call, if r.None? then Error(e) else Value(r.value.callResponse))],
        callOutput := if r.None? then Some(SameWait(cases)) else r)
    {
      if r.None? {
        answers := answers + [Answer(pc.call, Error(e))];
        callHandlerOutput := Some(SameWait(cases));
      } else {
        answers := answers + [Answer(pc.call, Value(r.value.callResponse))];
        callHandlerOutput := r;
      }
    }

    /** The calls left before a cut. False: the turn is impossible. */
    method DrainCalls(steps: seq<(Outcome<V>, seq<Arrival<V>>)>) returns (ok: bool)
      modifies this
      ensures ok <==> Drain(old(Vars()), steps).Some?
      ensures ok ==> Vars() == Drain(old(Vars()), steps).value
    {
      var i := 0;
      while pendingCalls != []
        invariant 0 <= i <= |steps|
        invariant Drain(Vars(), steps[i..]) == Drain(old(Vars()), steps)
        decreases |steps| - i
      {
        if i == |steps| { return false; }
        assert steps[i..][0] == steps[i] && steps[i..][1..] == steps[i + 1..];
        ok := DrainOne(steps[i]);
        if !ok { return; }
        i := i + 1;
      }
      ok := i == |steps|;
    }

    method DrainOne(step: (Outcome<V>, seq<Arrival<V>>)) returns (ok: bool)
      requires pendingCalls != []
      modifies this
      ensures var pc, w := old(pendingCalls)[0], old(Vars());
        var taken := w.(pending := w.pending[1..],
                        log := w.log + [Activity(ActivityInput(pc.key, pc.input, Some(pc.req), ""))]);
        && (ok <==> AcceptAll(taken, step.1).Some?)
        && (ok ==> Vars() == Drained(AcceptAll(taken, step.1).value, pc, step.0))
    {
      var pc := pendingCalls[0];
      pendingCalls := pendingCalls[1..];
      log := log + [Activity(ActivityInput(pc.key, pc.input, Some(pc.req), ""))];
      ok := AcceptUpdates(step.1);
      if !ok { return; }
      var callOutput := RunHandler(step.0);
      if callOutput.None? {
        answers := answers + [Answer(pc.call, Error(step.0.error))];
        return;
      }
      answers := answers + [Answer(pc.call, Value(callOutput.value.callResponse))];
      var cont := callOutput.value.continuation;
      if cont.Some? && |cont.value| > 0 {
        handlerKey, handlerInput := cont.value[0].handlerKey, cont.value[0].input;
      }
    }

    /** One iteration up to the check for continue-as-new. Some: the loop goes on to the check. */
    method ToCheck(t: Turn<V>) returns (r: Stage<V>)
      requires WfInv(Vars())
      modifies this
      ensures Iterate(reg, old(Vars()), t) == Staged(r, Vars(), t)
    {
      var ok := AcceptUpdates(t.before);
      if !ok { return CannotBe; }
      AcceptAllKeeps(old(Vars()), t.before, []);
      var output: ActivityOutput<V>;
      if callHandlerOutput.Some? {
        output := callHandlerOutput.value;
        callHandlerOutput := None;
      } else {
        var key, input, msg := handlerKey, handlerInput, message;
        message := None;
        var produced, e := Execute(key, input, msg, t.primary, t.recovery);
        if produced.None? { return Stops(FailedWith(e)); }
        output := produced.value;
      }
      ApplyActivityOutput(output);
      r := InterpretOutput(output, t);
    }

    /** Steps 5 and 6. */
    method InterpretOutput(output: ActivityOutput<V>, t: Turn<V>) returns (r: Stage<V>)
      modifies this
      ensures Interpret(reg, old(Vars()), output, t) == Staged(r, Vars(), t)
    {
      if output.done { return Stops(Completed(output.result)); }
      if output.continuation.None? || |output.continuation.value| == 0 {
        return Stops(FailedWith(NoCases(handlerKey)));
      }
      var cases := output.continuation.value;
      if |cases| == 1 && cases[0].immediate {
        handlerKey, handlerInput := cases[0].handlerKey, cases[0].input;
        return Checks;
      }
      RegisterUpdates(cases);
      r := Choose(cases, t);
    }

    /** The selector. */
    method Choose(cases: seq<Case<V>>, t: Turn<V>) returns (r: Stage<V>)
      modifies this
      ensures RunSelector(reg, old(Vars()), cases, t) == Staged(r, Vars(), t)
    {
      var ok := AcceptUpdates(t.during);
      if !ok { return CannotBe; }
      match t.pick {
        case PickTimer(i) =>
          if i >= |cases| || cases[i].timer.None? { return CannotBe; }
          handlerKey, handlerInput := cases[i].handlerKey, cases[i].input;
        case PickSend(i, m) =>
          if i >= |cases| || cases[i].sendName == "" { return CannotBe; }
          handlerKey, handlerInput, message := cases[i].handlerKey, cases[i].input, Some(m);
        case PickDefault(i) =>
          if i >= |cases| || !cases[i].immediate { return CannotBe; }
          handlerKey, handlerInput := cases[i].handlerKey, cases[i].input;
        case PickCall =>
          var hasCallCases := HasCalls(cases);
          if !hasCallCases || notes == 0 { return CannotBe; }
          if pendingCalls == [] { return Panics; }
          ok := OnCall(cases, t);
          if !ok { return CannotBe; }
      }
      return Checks;
    }

    /** One iteration. */
    method Iteration(t: Turn<V>) returns (r: Stage<V>)
      requires WfInv(Vars())
      modifies this
      ensures Iterate(reg, old(Vars()), t) == Concluded(r, Vars())
    {
      r := ToCheck(t);
      if r.Checks? && callHandlerOutput.None? && t.cut {
        var ok := DrainCalls(t.drain);
        r := if ok then Cuts else CannotBe;
      }
    }

    /** RoutineWorkflow over a script of turns, restarted at every cut. It never reads past the call queue;
        its calls are answered once, in order; and if every cut is clean, what it does is what it would do
        uncut, as long as it knows the updates that come. */
    method RoutineWorkflow(turns: seq<Turn<V>>) returns (r: Stage<V>)
      requires WfInv(Vars())
      modifies this
      ensures RunWorkflow(reg, old(Vars()), turns) == Concluded(r, Vars())
      ensures r != Panics
      ensures r == Checks || r.Stops? ==> InOrder(Vars(), []) && QueriesInstalled(Vars())
      ensures CutsClean(reg, old(Vars()), turns) ==>
        AlikeIf(AllKnown(reg, old(Vars()), turns), Concluded(r, Vars()), RunWorkflow(reg, old(Vars()), UncutAll(turns)))
    {
      r := Checks;
      for k := 0 to |turns|
        invariant r == Checks && WfInv(Vars())
        invariant RunWorkflow(reg, old(Vars()), turns[..k]) == Next(Vars())
      {
        assert turns[..k + 1][..k] == turns[..k];
        ghost var before := Vars();
        r := Iteration(turns[k]);
        IterateKeeps(reg, before, turns[k]);
        if r == Cuts {
          Restart();
          r := Checks;
        }
        if r != Checks {
          Afterwards(reg, old(Vars()), turns, k + 1);
          break;
        }
      }
      assert turns[..|turns|] == turns;
      RunKeeps(reg, old(Vars()), turns);
      if CutsClean(reg, old(Vars()), turns) {
        CutsTransparent(reg, old(Vars()), turns);
      }
    }
  }

  /** Where an iteration stands, the variables apart. */
  datatype Stage<V> = Checks | Stops(result: WfResult<V>) | Cuts | Panics | CannotBe

  ghost function Concluded<V>(s: Stage<V>, w: Wf<V>): Ran<V> {
    match s
    case Checks => Next(w)
    case Stops(result) => Ended(result, w)
    case Cuts => Cut(w)
    case Panics => Panicked
    case CannotBe => Impossible
  }

  /** The same, with the check for continue-as-new still to come. */
  ghost function Staged<V>(s: Stage<V>, w: Wf<V>, t: Turn<V>): Ran<V> {
    if s.Checks? then CutCheck(w, t) else Concluded(s, w)
  }

  /** No turn is taken after the workflow has ended. */
  lemma {:induction false} Afterwards<V>(reg: Recovery, w: Wf<V>, turns: seq<Turn<V>>, k: nat)
    requires k <= |turns| && !RunWorkflow(reg, w, turns[..k]).Next?
    ensures RunWorkflow(reg, w, turns) == RunWorkflow(reg, w, turns[..k])
  {
    if k == |turns| {
      assert turns[..k] == turns;
    } else {
      var n := |turns| - 1;
      assert turns[..n][..k] == turns[..k];
      Afterwards(reg, w, turns[..n], k);
    }
  }
}
