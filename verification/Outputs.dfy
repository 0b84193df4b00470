/** What a workflow does with the outputs of its handlers, said of what the handlers returned: which outcome is in
    force, in which order its effects are made, how a call is answered, and what comes next. */
module Outputs {
  import opened Wrappers
  import opened Queries
  import opened Durable
  import opened Temporal
  import opened WorkflowRuns
  import opened CallInputs

  lemma UsedIsInForce<V>(reg: Recovery, key: string, primary: Outcome<V>, recovery: Outcome<V>)
    ensures Used(reg, key, primary, recovery)
      == if key !in reg then Failed("no handler registered for key: " + key, NoEffects())
         else if primary.Failed? && reg[key] != "" && reg[key] in reg then recovery
         else primary
  {}

  /** The activities of a handler: its own, and after that of a registered handler that fails the recovery handler's,
      on the same input and message and with the error. */
  ghost function Invoked<V>(reg: Recovery, key: string, input: V, msg: Option<V>, primary: Outcome<V>): seq<Event<V>> {
    if key in reg && primary.Failed? && reg[key] != "" && reg[key] in reg then
      [Activity(ActivityInput(key, input, msg, "")), Activity(ActivityInput(reg[key], input, msg, primary.error))]
    else [Activity(ActivityInput(key, input, msg, ""))]
  }

  lemma InvocationsAre<V>(reg: Recovery, key: string, input: V, msg: Option<V>, primary: Outcome<V>)
    ensures Invocations(reg, key, input, msg, primary) == Invoked(reg, key, input, msg, primary)
  {}

  /** On this log, from position `at` on: the children are started, in order, then the messages are signalled, in
      order. */
  ghost predicate Made<V>(log: seq<Event<V>>, at: nat, eff: Effects<V>) {
    var n, m := |eff.starts|, |eff.sends|;
    && at + n + m <= |log|
    && (forall k :: 0 <= k < n ==> log[at + k] == ChildStarted(eff.starts[k]))
    && (forall k :: 0 <= k < m ==> log[at + n + k] == Signalled(eff.sends[k]))
  }

  /** The same, with only activities after them: those of a call. */
  ghost predicate MadeLast<V>(log: seq<Event<V>>, at: nat, eff: Effects<V>) {
    && Made(log, at, eff)
    && forall p :: at + |eff.starts| + |eff.sends| <= p < |log| ==> log[p].Activity?
  }

  lemma EffectsMade<V>(w: Wf<V>, out: ActivityOutput<V>)
    ensures w.log <= ApplyOutput(w, out).log && MadeLast(ApplyOutput(w, out).log, |w.log|, out.effects)
  {}

  // ----- From an output on -----

  /** A log that went on with activities only. */
  ghost predicate MoreActivities<V>(w: Wf<V>, w': Wf<V>) {
    && w.log <= w'.log && (forall p :: |w.log| <= p < |w'.log| ==> w'.log[p].Activity?)
    && w'.queries == w.queries && w'.installed == w.installed
  }

  lemma {:induction false} DrainActivities<V>(w: Wf<V>, steps: seq<(Outcome<V>, seq<Arrival<V>>)>)
    requires Drain(w, steps).Some?
    ensures MoreActivities(w, Drain(w, steps).value)
    decreases |steps|
  {
    if w.pending != [] {
      var pc := w.pending[0];
      var taken := w.(pending := w.pending[1..], log := w.log + [Runs(pc)]);
      AcceptSpares(taken, steps[0].1);
      DrainActivities(Drained(AcceptAll(taken, steps[0].1).value, pc, steps[0].0), steps[1..]);
    }
  }

  lemma CutCheckActivities<V>(w: Wf<V>, t: Turn<V>)
    ensures var r := CutCheck(w, t); r.Next? || r.Cut? ==> MoreActivities(w, r.wf)
    ensures !CutCheck(w, t).Ended?
  {
    if w.callOutput.None? && t.cut && Drain(w, t.drain).Some? {
      DrainActivities(w, t.drain);
    }
  }

  lemma CallActivities<V>(reg: Recovery, w: Wf<V>, cases: seq<Case<V>>, t: Turn<V>)
    requires w.notes > 0 && w.pending != [] && HandleCall(reg, w, cases, t).Some?
    ensures MoreActivities(w, HandleCall(reg, w, cases, t).value)
  {
    var pc := w.pending[0];
    var events := Invocations(reg, pc.key, pc.input, Some(pc.req), t.callPrimary);
    var taken := w.(notes := w.notes - 1, pending := w.pending[1..], log := w.log + events);
    AcceptSpares(taken, t.after);
  }

  lemma PickedActivities<V>(reg: Recovery, w: Wf<V>, cases: seq<Case<V>>, t: Turn<V>)
    ensures var r := Picked(reg, w, cases, t); r.Next? || r.Cut? ==> MoreActivities(w, r.wf)
    ensures !Picked(reg, w, cases, t).Ended?
  {
    match t.pick
    case PickTimer(i) => if i < |cases| { CutCheckActivities(Goto(w, cases[i]), t); }
    case PickSend(i, m) => if i < |cases| { CutCheckActivities(Goto(w, cases[i]).(message := Some(m)), t); }
    case PickDefault(i) => if i < |cases| { CutCheckActivities(Goto(w, cases[i]), t); }
    case PickCall =>
      if HasCallCase(cases) && w.notes > 0 && w.pending != [] && HandleCall(reg, w, cases, t).Some? {
        CallActivities(reg, w, cases, t);
        CutCheckActivities(HandleCall(reg, w, cases, t).value, t);
      }
  }

  lemma SelectorActivities<V>(reg: Recovery, w: Wf<V>, cases: seq<Case<V>>, t: Turn<V>)
    ensures var r := RunSelector(reg, w, cases, t); r.Next? || r.Cut? ==> MoreActivities(w, r.wf)
    ensures !RunSelector(reg, w, cases, t).Ended?
  {
    if AcceptAll(w, t.during).Some? {
      AcceptSpares(w, t.during);
      PickedActivities(reg, AcceptAll(w, t.during).value, cases, t);
    }
  }

  /** How an iteration goes on from an output: it ends as the output says, or selects among its cases, or goes on with
      the only one; whatever else it does are activities. */
  ghost predicate GoesBy<V>(reg: Recovery, w: Wf<V>, t: Turn<V>, key: string, done: bool, result: Option<V>,
                            cases: seq<Case<V>>) {
    var r := Iterate(reg, w, t);
    if done then r.Ended? && r.result == Completed(result)
    else if cases == [] then
      r.Ended? && r.result == FailedWith("handler " + key + " returned no continuation cases and is not done")
    else if |cases| == 1 && cases[0].immediate then
      !r.Ended? && (r.Next? ==> r.wf.key == cases[0].handlerKey && r.wf.input == cases[0].input)
    else
      !r.Ended? && AtSelector(reg, w, t).Some? && AtSelector(reg, w, t).value.1 == cases
  }

  lemma InterpretGoes<V>(reg: Recovery, w: Wf<V>, out: ActivityOutput<V>, t: Turn<V>)
    ensures var r := Interpret(reg, w, out, t);
      && (r.Next? || r.Cut? || r.Ended? ==> MoreActivities(w, r.wf))
      && (out.done ==> r == Ended(Completed(out.result), w))
      && (!out.done && (out.continuation.None? || out.continuation == Some([])) ==>
            r.Ended? && r.result == FailedWith("handler " + w.key + " returned no continuation cases and is not done"))
      && (!out.done && out.continuation.Some? && out.continuation.value != [] ==>
            var cases := out.continuation.value;
            && !r.Ended?
            && (|cases| == 1 && cases[0].immediate && r.Next? ==>
                  r.wf.key == cases[0].handlerKey && r.wf.input == cases[0].input))
  {
    if !out.done && out.continuation.Some? && out.continuation.value != [] {
      var cases := out.continuation.value;
      if |cases| == 1 && cases[0].immediate {
        CutCheckActivities(Goto(w, cases[0]), t);
      } else {
        SelectorActivities(reg, w.(registered := Register(w.registered, cases)), cases, t);
      }
    }
  }

  /** An iteration that uses the output `out` of a handler, made after the events so far and `ran`. */
  ghost predicate Uses<V>(reg: Recovery, w: Wf<V>, t: Turn<V>, ran: seq<Event<V>>, eff: Effects<V>) {
    var r := Iterate(reg, w, t);
    (r.Next? || r.Cut? || r.Ended?) ==>
      && w.log + ran <= r.wf.log && MadeLast(r.wf.log, |w.log + ran|, eff)
      && r.wf.installed == WriteAll(w.installed, eff.queries)
  }

  lemma UsesOutput<V>(reg: Recovery, w: Wf<V>, w1: Wf<V>, out: ActivityOutput<V>, t: Turn<V>, ran: seq<Event<V>>)
    requires AcceptAll(w, t.before).Some? && Produce(reg, AcceptAll(w, t.before).value, t) == (w1, Some(out), "")
    requires w1.log == w.log + ran && w1.installed == w.installed && w1.key == w.key
    requires !out.done ==> out.continuation.Some?
    ensures Uses(reg, w, t, ran, out.effects)
    ensures GoesBy(reg, w, t, w.key, out.done, out.result, if out.done then [] else out.continuation.value)
  {
    EffectsMade(w1, out);
    InterpretGoes(reg, ApplyOutput(w1, out), out, t);
    StillMade(ApplyOutput(w1, out), Iterate(reg, w, t), |w1.log|, out.effects);
  }

  lemma StillMade<V>(w: Wf<V>, r: Ran<V>, at: nat, eff: Effects<V>)
    requires MadeLast(w.log, at, eff) && (r.Next? || r.Cut? || r.Ended? ==> MoreActivities(w, r.wf))
    ensures r.Next? || r.Cut? || r.Ended? ==> MadeLast(r.wf.log, at, eff) && r.wf.installed == w.installed
  {}

  // ----- The theorems -----

  /** An iteration that runs a handler: the activities are the handler's and, if that fails and a recovery handler is
      registered, the recovery handler's; an error in force ends the workflow with nothing else done; otherwise the
      children in force are started in order, and only then the messages in force are signalled in order, the queries
      in force are installed, and the workflow completes or goes on as the output in force says. */
  lemma HandlerOutputShows<V>(reg: Recovery, w: Wf<V>, t: Turn<V>)
    requires w.callOutput.None? && AcceptAll(w, t.before).Some?
    ensures var ran := Invoked(reg, w.key, w.input, w.message, t.primary);
      var o := if w.key !in reg then Failed("no handler registered for key: " + w.key, NoEffects())
               else if t.primary.Failed? && reg[w.key] != "" && reg[w.key] in reg then t.recovery
               else t.primary;
      match o
      case Failed(e, _) =>
        var r := Iterate(reg, w, t);
        r.Ended? && r.result == FailedWith(e) && r.wf.log == w.log + ran && r.wf.installed == w.installed
      case Returned(out, eff) =>
        Uses(reg, w, t, ran, eff) && GoesBy(reg, w, t, w.key, out.done, out.result, if out.done then [] else out.cases)
  {
    UsedIsInForce(reg, w.key, t.primary, t.recovery);
    InvocationsAre(reg, w.key, w.input, w.message, t.primary);
    AcceptSpares(w, t.before);
    var w0 := AcceptAll(w, t.before).value;
    var (w1, produced, e) := Produce(reg, w0, t);
    if produced.Some? {
      UsesOutput(reg, w, w1, produced.value, t, Invoked(reg, w.key, w.input, w.message, t.primary));
    }
  }

  /** An iteration that uses the output of a call handled before runs nothing first, and does with that output the
      same. */
  lemma CallOutputShows<V>(reg: Recovery, w: Wf<V>, t: Turn<V>)
    requires w.callOutput.Some? && AcceptAll(w, t.before).Some?
    requires var out := w.callOutput.value; !out.done ==> out.continuation.Some?
    ensures var out := w.callOutput.value;
      && Uses(reg, w, t, [], out.effects)
      && GoesBy(reg, w, t, w.key, out.done, out.result, if out.done then [] else out.continuation.value)
  {
    AcceptSpares(w, t.before);
    var w0 := AcceptAll(w, t.before).value;
    assert w0.log + [] == w0.log;
    UsesOutput(reg, w, w0.(callOutput := None), w.callOutput.value, t, []);
  }

  /** A call taken up at the selector: its activities, its answer, and the output that the next iteration uses, all of
      the outcome in force; a failed one leaves an output without effects that returns to the same cases. */
  lemma CallShows<V>(reg: Recovery, w: Wf<V>, t: Turn<V>)
    requires WfInv(w) && CallTaken(reg, w, t).Some? && Iterate(reg, w, t).Next?
    ensures var (v, cases), pc, w' := AtSelector(reg, w, t).value, CallTaken(reg, w, t).value, Iterate(reg, w, t).wf;
      var o := if pc.key !in reg then Failed("no handler registered for key: " + pc.key, NoEffects())
               else if t.callPrimary.Failed? && reg[pc.key] != "" && reg[pc.key] in reg then t.callRecovery
               else t.callPrimary;
      && w'.log == v.log + Invoked(reg, pc.key, pc.input, Some(pc.req), t.callPrimary)
      && w'.answers == w.answers
           + [Answer(pc.call, if o.Failed? then Error(o.error) else Value(o.output.callResponse))]
      && w'.callOutput.Some?
      && var next := w'.callOutput.value;
         match o
         case Failed(_, _) => !next.done && next.continuation == Some(cases) && next.effects == NoEffects()
         case Returned(out, eff) =>
           && next.done == out.done && next.effects == eff
           && (if out.done then next.result == out.result else next.continuation == Some(out.cases))
  {
    IterateSelects(reg, w, t);
    SelectorShows(reg, w, t);
    var (v, cases) := AtSelector(reg, w, t).value;
    AcceptSpares(v, t.during);
    CallHandled(reg, AcceptAll(v, t.during).value, cases, t);
  }

  lemma CallHandled<V>(reg: Recovery, w: Wf<V>, cases: seq<Case<V>>, t: Turn<V>)
    requires w.notes > 0 && w.pending != [] && HandleCall(reg, w, cases, t).Some?
    ensures var pc, w' := w.pending[0], HandleCall(reg, w, cases, t).value;
      var o := if pc.key !in reg then Failed("no handler registered for key: " + pc.key, NoEffects())
               else if t.callPrimary.Failed? && reg[pc.key] != "" && reg[pc.key] in reg then t.callRecovery
               else t.callPrimary;
      && w'.log == w.log + Invoked(reg, pc.key, pc.input, Some(pc.req), t.callPrimary)
      && w'.answers == w.answers
           + [Answer(pc.call, if o.Failed? then Error(o.error) else Value(o.output.callResponse))]
      && w'.callOutput.Some?
      && var next := w'.callOutput.value;
         match o
         case Failed(_, _) => !next.done && next.continuation == Some(cases) && next.effects == NoEffects()
         case Returned(out, eff) =>
           && next.done == out.done && next.effects == eff
           && (if out.done then next.result == out.result else next.continuation == Some(out.cases))
  {
    var pc := w.pending[0];
    UsedIsInForce(reg, pc.key, t.callPrimary, t.callRecovery);
    InvocationsAre(reg, pc.key, pc.input, Some(pc.req), t.callPrimary);
    var events := Invocations(reg, pc.key, pc.input, Some(pc.req), t.callPrimary);
    var taken := w.(notes := w.notes - 1, pending := w.pending[1..], log := w.log + events);
    AcceptSpares(taken, t.after);
  }

  // ----- Over whole runs -----

  ghost predicate HasWf<V>(r: Ran<V>) {
    r.Next? || r.Cut? || r.Ended?
  }

  lemma BeforeAccepted<V>(reg: Recovery, w: Wf<V>, t: Turn<V>)
    requires HasWf(Iterate(reg, w, t))
    ensures AcceptAll(w, t.before).Some?
  {}

  lemma IterateGrows<V>(reg: Recovery, w: Wf<V>, t: Turn<V>)
    requires HasWf(Iterate(reg, w, t))
    ensures w.log <= Iterate(reg, w, t).wf.log
  {
    BeforeAccepted(reg, w, t);
    AcceptSpares(w, t.before);
    var w0 := AcceptAll(w, t.before).value;
    var (w1, produced, e) := Produce(reg, w0, t);
    if produced.Some? {
      EffectsMade(w1, produced.value);
      InterpretGoes(reg, ApplyOutput(w1, produced.value), produced.value, t);
    }
  }

  /** A cut restarts the workflow. */
  function Restarted<V>(r: Ran<V>): Ran<V> {
    match r
    case Cut(w) => Next(Resume(w))
    case _ => r
  }

  lemma RestartKeepsLog<V>(r: Ran<V>)
    requires HasWf(r) || HasWf(Restarted(r))
    ensures HasWf(r) && HasWf(Restarted(r)) && Restarted(r).wf.log == r.wf.log
  {}

  lemma LastTurn<V>(reg: Recovery, w: Wf<V>, turns: seq<Turn<V>>)
    requires turns != []
    ensures var n := |turns| - 1;
      var before := RunWorkflow(reg, w, turns[..n]);
      RunWorkflow(reg, w, turns) == if before.Next? then Restarted(Iterate(reg, before.wf, turns[n])) else before
  {}

  /** What an iteration has logged stays where it is. */
  lemma {:induction false} RunGrows<V>(reg: Recovery, w: Wf<V>, turns: seq<Turn<V>>, k: nat)
    requires k < |turns| && RunWorkflow(reg, w, turns[..k]).Next? && HasWf(RunWorkflow(reg, w, turns))
    ensures var r := Iterate(reg, RunWorkflow(reg, w, turns[..k]).wf, turns[k]);
      HasWf(r) && r.wf.log <= RunWorkflow(reg, w, turns).wf.log
    decreases |turns|, 1
  {
    var n := |turns| - 1;
    LastTurn(reg, w, turns);
    if k < n {
      EarlierTurn(reg, w, turns, k);
    } else {
      assert k == n;
      RestartKeepsLog(Iterate(reg, RunWorkflow(reg, w, turns[..n]).wf, turns[n]));
    }
  }

  lemma {:induction false} EarlierTurn<V>(reg: Recovery, w: Wf<V>, turns: seq<Turn<V>>, k: nat)
    requires k < |turns| - 1 && RunWorkflow(reg, w, turns[..k]).Next? && HasWf(RunWorkflow(reg, w, turns))
    ensures var r := Iterate(reg, RunWorkflow(reg, w, turns[..k]).wf, turns[k]);
      HasWf(r) && r.wf.log <= RunWorkflow(reg, w, turns).wf.log
    decreases |turns|, 0
  {
    var n := |turns| - 1;
    LastTurn(reg, w, turns);
    var init, before := turns[..n], RunWorkflow(reg, w, turns[..n]);
    assert init[..k] == turns[..k] && init[k] == turns[k];
    RunGrows(reg, w, init, k);
    if before.Next? {
      RestartGrows(reg, before.wf, turns[n]);
    }
  }

  lemma RestartGrows<V>(reg: Recovery, w: Wf<V>, t: Turn<V>)
    requires HasWf(Restarted(Iterate(reg, w, t)))
    ensures w.log <= Restarted(Iterate(reg, w, t)).wf.log
  {
    RestartKeepsLog(Iterate(reg, w, t));
    IterateGrows(reg, w, t);
  }

  /** On the log of a whole run, cuts included: for each iteration that runs a handler, the children that its outcome
      in force starts stand in order before the messages that it sends, in order. So a message to a child that the
      same handler starts is signalled after the child is started. */
  lemma RunMakesInOrder<V>(reg: Recovery, w: Wf<V>, turns: seq<Turn<V>>, k: nat)
    requires k < |turns| && RunWorkflow(reg, w, turns[..k]).Next? && HasWf(RunWorkflow(reg, w, turns))
    requires RunWorkflow(reg, w, turns[..k]).wf.callOutput.None?
    ensures var v, t, log := RunWorkflow(reg, w, turns[..k]).wf, turns[k], RunWorkflow(reg, w, turns).wf.log;
      var ran := Invoked(reg, v.key, v.input, v.message, t.primary);
      var o := if v.key !in reg then Failed("no handler registered for key: " + v.key, NoEffects())
               else if t.primary.Failed? && reg[v.key] != "" && reg[v.key] in reg then t.recovery
               else t.primary;
      v.log + ran <= log && (o.Returned? ==> Made(log, |v.log + ran|, o.effects))
  {
    RunGrows(reg, w, turns, k);
    HandlerMakes(reg, RunWorkflow(reg, w, turns[..k]).wf, turns[k], RunWorkflow(reg, w, turns).wf.log);
  }

  lemma HandlerMakes<V>(reg: Recovery, v: Wf<V>, t: Turn<V>, log: seq<Event<V>>)
    requires v.callOutput.None? && HasWf(Iterate(reg, v, t)) && Iterate(reg, v, t).wf.log <= log
    ensures var ran := Invoked(reg, v.key, v.input, v.message, t.primary);
      var o := if v.key !in reg then Failed("no handler registered for key: " + v.key, NoEffects())
               else if t.primary.Failed? && reg[v.key] != "" && reg[v.key] in reg then t.recovery
               else t.primary;
      v.log + ran <= log && (o.Returned? ==> Made(log, |v.log + ran|, o.effects))
  {
    BeforeAccepted(reg, v, t);
    HandlerOutputShows(reg, v, t);
  }

  /** The same for an iteration that uses the output of a call. */
  lemma RunMakesCallsInOrder<V>(reg: Recovery, w: Wf<V>, turns: seq<Turn<V>>, k: nat)
    requires k < |turns| && RunWorkflow(reg, w, turns[..k]).Next? && HasWf(RunWorkflow(reg, w, turns))
    requires var v := RunWorkflow(reg, w, turns[..k]).wf;
      v.callOutput.Some? && (!v.callOutput.value.done ==> v.callOutput.value.continuation.Some?)
    ensures var v := RunWorkflow(reg, w, turns[..k]).wf;
      Made(RunWorkflow(reg, w, turns).wf.log, |v.log|, v.callOutput.value.effects)
  {
    RunGrows(reg, w, turns, k);
    CallMakes(reg, RunWorkflow(reg, w, turns[..k]).wf, turns[k], RunWorkflow(reg, w, turns).wf.log);
  }

  lemma CallMakes<V>(reg: Recovery, v: Wf<V>, t: Turn<V>, log: seq<Event<V>>)
    requires v.callOutput.Some? && (!v.callOutput.value.done ==> v.callOutput.value.continuation.Some?)
    requires HasWf(Iterate(reg, v, t)) && Iterate(reg, v, t).wf.log <= log
    ensures Made(log, |v.log|, v.callOutput.value.effects)
  {
    BeforeAccepted(reg, v, t);
    CallOutputShows(reg, v, t);
    assert v.log + [] == v.log;
  }
}
