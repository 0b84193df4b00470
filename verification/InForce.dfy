/** What a handler run does to an in-memory instance, said of what the handlers returned: the recovery handler's
    outcome is in force if the primary handler failed and a recovery handler is registered, and otherwise the
    primary's; and an unregistered key fails. */
module InForce {
  import opened Wrappers
  import opened Queries
  import opened Durable
  import opened Mailbox
  import opened InMemory
  import opened History
  import opened Routing
  import opened Reachable

  /** The outcome in force. */
  ghost function InForce<V>(reg: Recovery, key: string, primary: Outcome<V>, recovery: Outcome<V>): Outcome<V> {
    if key !in reg then Failed("no handler registered for key: " + key, NoEffects())
    else if primary.Failed? && reg[key] != "" && reg[key] in reg then recovery
    else primary
  }

  /** The effects in force of a run: those of its outcome in force, if that did not fail. */
  ghost function EffectsInForce<V>(reg: Recovery, r: Run<V>): Effects<V> {
    match InForce(reg, r.key, r.primary, r.recovery)
    case Failed(_, _) => NoEffects()
    case Returned(_, eff) => eff
  }

  lemma UsedIsInForce<V>(reg: Recovery, key: string, primary: Outcome<V>, recovery: Outcome<V>)
    ensures Used(reg, key, primary, recovery) == InForce(reg, key, primary, recovery)
  {}

  // ----- The two steps of a run -----

  /** What a handler returned is taken up at once: its writes are merged over the query results, and its starts and
      sends are next, with its own output after them; an error is answered and ends the routine, and nothing else of
      it is kept. */
  lemma HandlerTakesEffect<V>(reg: Recovery, s: System<V>, id: string, primary: Outcome<V>, recovery: Outcome<V>)
    requires Step(reg, s, Act(id, Handle(primary, recovery))).Some?
    ensures id in s.insts && s.insts[id].phase.Handling?
    ensures var i, i' := s.insts[id], Step(reg, s, Act(id, Handle(primary, recovery))).value.insts[id];
      var key, firing := i.phase.key, i.phase.firing;
      var o := if key !in reg then Failed("no handler registered for key: " + key, NoEffects())
               else if primary.Failed? && reg[key] != "" && reg[key] in reg then recovery else primary;
      match o
      case Failed(e, _) =>
        && i'.phase == Finished(Failure(e)) && i'.queries == i.queries
        && i'.box.replied == i.box.replied + (if firing.ByCall? then [Reply(firing.call, Err(e))] else [])
      case Returned(out, eff) =>
        && i'.phase == Applying(eff.starts, eff.sends, out, firing) && i'.box == i.box
        && forall n :: Find(i'.queries, n)
             == if LastWrite(eff.queries, n).Some? then LastWrite(eff.queries, n) else Find(i.queries, n)
  {
    var i := s.insts[id];
    UsedIsInForce(reg, i.phase.key, primary, recovery);
    var o := InForce(reg, i.phase.key, primary, recovery);
    if o.Returned? {
      WriteAllReads(i.queries, o.effects.queries);
    }
  }

  /** After its effects a run answers its caller; then the routine ends, or goes on at once if the only case is
      immediate, or waits for its cases from now on. */
  lemma OutputTakesEffect<V>(reg: Recovery, s: System<V>, id: string)
    requires Step(reg, s, Act(id, Settle)).Some?
    ensures id in s.insts && s.insts[id].phase.Applying?
    ensures var i, i' := s.insts[id], Step(reg, s, Act(id, Settle)).value.insts[id];
      var out, firing := i.phase.output, i.phase.firing;
      && i.phase.starts == [] && i.phase.sends == []
      && i'.box.replied == i.box.replied + (if firing.ByCall? then [Reply(firing.call, Ok(out.callResponse))] else [])
      && if out.done then i'.phase == Finished(Success(out.result))
         else if |out.cases| == 1 && out.cases[0].immediate then
           i'.phase == Handling(ByDefault(0), out.cases[0].handlerKey, out.cases[0].input, None)
         else
           && i'.phase.Waiting? && i'.phase.wait.cases == out.cases
           && i'.phase.wait.entered == s.now && i'.phase.wait.pc == Scan
  {
    assert s.insts[id].box.replied + [] == s.insts[id].box.replied;
  }

  // ----- In every reachable state -----

  /** The case that fired is one of these, and its handler is taken up on its input. */
  ghost predicate TakenUp<V>(cases: seq<Case<V>>, firing: Firing, key: string, input: V) {
    && CaseIndex(firing).Some? && CaseIndex(firing).value < |cases|
    && key == cases[CaseIndex(firing).value].handlerKey && input == cases[CaseIndex(firing).value].input
  }

  /** What a handled run returned decides what follows it, in every reachable state: the next handler is one of its
      cases, or it ended the routine; an error ended the routine. */
  lemma RunTakesEffect<V>(reg: Recovery, now: int, labels: seq<Label<V>>, s: System<V>, id: string, j: nat)
    requires Reached(reg, now, labels, s) && id in s.insts && j < |s.insts[id].runs|
    ensures var i, n := s.insts[id], |s.insts[id].runs|;
      var r := i.runs[j];
      var o := if r.key !in reg then Failed("no handler registered for key: " + r.key, NoEffects())
               else if r.primary.Failed? && reg[r.key] != "" && reg[r.key] in reg then r.recovery else r.primary;
      match o
      case Failed(e, _) => j == n - 1 && i.phase == Finished(Failure(e))
      case Returned(out, eff) =>
        if j < n - 1 then !out.done && TakenUp(out.cases, i.runs[j + 1].firing, i.runs[j + 1].key, i.runs[j + 1].input)
        else
          match i.phase
          case Applying(starts, sends, output, _) =>
            output == out && IsSuffix(starts, eff.starts) && IsSuffix(sends, eff.sends)
          case Handling(f, key, input, _) => !out.done && TakenUp(out.cases, f, key, input)
          case Waiting(w) => !out.done && w.cases == out.cases
          case Finished(outcome) => out.done && outcome == Success(out.result)
  {
    RunsLegal(reg, now, labels, s, id);
    var i := s.insts[id];
    var r := i.runs[j];
    UsedIsInForce(reg, r.key, r.primary, r.recovery);
    if j < |i.runs| - 1 {
      LegalAt(reg, i.key, i.input, i.runs, j + 1);
    }
  }

  /** The starts of a handled run have been applied, or are about to be. */
  lemma StartsInForce<V>(reg: Recovery, now: int, labels: seq<Label<V>>, s: System<V>, id: string, j: nat, k: nat)
    requires Reached(reg, now, labels, s) && id in s.insts && j < |s.insts[id].runs|
    requires k < |EffectsInForce(reg, s.insts[id].runs[j]).starts|
    ensures var i, starts := s.insts[id], EffectsInForce(reg, s.insts[id].runs[j]).starts;
      || starts[k].routineID in s.insts
      || (j == |i.runs| - 1 && i.phase.Applying? && k >= |starts| - |i.phase.starts|)
  {
    ReachedKeeps(reg, now, labels, s);
    var r := s.insts[id].runs[j];
    UsedIsInForce(reg, r.key, r.primary, r.recovery);
    assert StartsApplied(reg, s.insts, s.insts[id]);
    assert EffectsOf(reg, r) == EffectsInForce(reg, r);
  }

  /** The answer to a call is that of the run that it started. */
  lemma AnswerInForce<V>(reg: Recovery, now: int, labels: seq<Label<V>>, s: System<V>, id: string, j: nat)
    requires Reached(reg, now, labels, s) && id in s.insts && j < |s.insts[id].runs|
    requires s.insts[id].runs[j].firing.ByCall? && (j < |s.insts[id].runs| - 1 || !s.insts[id].phase.Applying?)
    ensures var r := s.insts[id].runs[j];
      var o := if r.key !in reg then Failed("no handler registered for key: " + r.key, NoEffects())
               else if r.primary.Failed? && reg[r.key] != "" && reg[r.key] in reg then r.recovery else r.primary;
      Reply(r.firing.call, if o.Failed? then Err(o.error) else Ok(o.output.callResponse)) in s.insts[id].box.replied
  {
    ReplyIsTheRuns(reg, now, labels, s, id, j);
    var r := s.insts[id].runs[j];
    UsedIsInForce(reg, r.key, r.primary, r.recovery);
  }

  /** All writes in force, in order. */
  ghost function Writes<V>(reg: Recovery, runs: seq<Run<V>>): seq<QueryEntry<V>> {
    if runs == [] then [] else Writes(reg, runs[..|runs| - 1]) + EffectsInForce(reg, runs[|runs| - 1]).queries
  }

  /** All messages to `dst` in force, in order. */
  ghost function Messages<V>(reg: Recovery, runs: seq<Run<V>>, dst: string): seq<SendMsg<V>> {
    if runs == [] then []
    else Messages(reg, runs[..|runs| - 1], dst) + To(EffectsInForce(reg, runs[|runs| - 1]).sends, dst)
  }

  lemma {:induction false} WritesAre<V>(reg: Recovery, runs: seq<Run<V>>)
    ensures Writes(reg, runs) == Flatten(WritesOf(reg, runs))
  {
    if runs != [] {
      var last := runs[|runs| - 1];
      WritesAre(reg, runs[..|runs| - 1]);
      UsedIsInForce(reg, last.key, last.primary, last.recovery);
      var w := WritesOf(reg, runs);
      assert w[..|w| - 1] == WritesOf(reg, runs[..|runs| - 1]);
    }
  }

  lemma {:induction false} MessagesAre<V>(reg: Recovery, runs: seq<Run<V>>, dst: string)
    ensures Messages(reg, runs, dst) == Requests(reg, runs, dst)
  {
    if runs != [] {
      var last := runs[|runs| - 1];
      MessagesAre(reg, runs[..|runs| - 1], dst);
      UsedIsInForce(reg, last.key, last.primary, last.recovery);
    }
  }

  /** The query results are the last writes in force, and the messages in force have arrived, are about to be sent or
      were dropped. */
  lemma EffectsReachWorld<V>(reg: Recovery, now: int, labels: seq<Label<V>>, s: System<V>, id: string, name: string,
                             dst: string)
    requires Reached(reg, now, labels, s) && id in s.insts
    ensures Find(s.insts[id].queries, name) == LastWrite(Writes(reg, s.insts[id].runs), name)
    ensures Messages(reg, s.insts[id].runs, dst)
      == Dropped(s.insts[id].drops, dst) + Arrived(s.insts, id, dst) + To(PendingOf(s.insts, id), dst)
  {
    QueriesAreLastWrites(reg, now, labels, s, id, name);
    WritesAre(reg, s.insts[id].runs);
    SendsRouted(reg, now, labels, s, id, dst);
    MessagesAre(reg, s.insts[id].runs, dst);
  }
}
