/** What every iteration of the Temporal workflow keeps: calls are answered once and in order, the queue is
    never read when it is empty, messages are fresh, and a failed call changes nothing but the answers. */
module WorkflowRuns {
  import opened Keys
  import opened Wrappers
  import opened Queries
  import opened Durable
  import opened Temporal

  function AnsweredCalls<V>(answers: seq<Answer<V>>): (calls: seq<nat>)
    ensures |calls| == |answers| && forall i :: 0 <= i < |answers| ==> calls[i] == answers[i].call
  {
    seq(|answers|, i requires 0 <= i < |answers| => answers[i].call)
  }

  function QueuedCalls<V>(pending: seq<PendingCall<V>>): (calls: seq<nat>)
    ensures |calls| == |pending| && forall i :: 0 <= i < |pending| ==> calls[i] == pending[i].call
  {
    seq(|pending|, i requires 0 <= i < |pending| => pending[i].call)
  }

  /** Every accepted call has been answered, in order of acceptance, or is `current`, or is queued. */
  ghost predicate InOrder<V>(w: Wf<V>, current: seq<nat>) {
    w.arrivals == AnsweredCalls(w.answers) + current + QueuedCalls(w.pending)
  }

  /** The query handlers give what the merged list gives. */
  ghost predicate QueriesInstalled<V>(w: Wf<V>) {
    Unique(w.queries) && w.installed == WriteAll(map[], w.queries)
  }

  /** The invariant of the main loop. */
  ghost predicate WfInv<V>(w: Wf<V>) {
    && InOrder(w, [])
    && w.notes <= |w.pending|
    && (w.callOutput.Some? ==> w.message.None?)
    && QueriesInstalled(w)
  }

  lemma BeginKeeps<V>(w: WorkflowInput<V>)
    requires Unique(w.queries)
    ensures WfInv(Begin(w, [], [], []))
  {}

  // ----- Accepting updates -----

  /** What accepting updates leaves alone. */
  ghost predicate OnlyQueueGrew<V>(w: Wf<V>, w': Wf<V>) {
    && w' == w.(pending := w'.pending, notes := w'.notes, arrivals := w'.arrivals)
    && w.pending <= w'.pending
    && w'.notes - w.notes <= |w'.pending| - |w.pending|
  }

  lemma {:induction false} AcceptAllKeeps<V>(w: Wf<V>, arrivals: seq<Arrival<V>>, current: seq<nat>)
    requires InOrder(w, current) && AcceptAll(w, arrivals).Some?
    ensures InOrder(AcceptAll(w, arrivals).value, current) && OnlyQueueGrew(w, AcceptAll(w, arrivals).value)
    decreases |arrivals|
  {
    if arrivals != [] {
      var a := arrivals[0];
      var w1 := Accept(w, a);
      assert QueuedCalls(w1.pending) == QueuedCalls(w.pending) + [a.call];
      assert w1.arrivals == AnsweredCalls(w.answers) + current + (QueuedCalls(w.pending) + [a.call]);
      AcceptAllKeeps(w1, arrivals[1..], current);
    }
  }

  // ----- Parts of an iteration -----

  lemma ApplyOutputKeeps<V>(w: Wf<V>, out: ActivityOutput<V>)
    requires QueriesInstalled(w)
    ensures QueriesInstalled(ApplyOutput(w, out))
  {
    var more := out.effects.queries;
    MergeReads(w.queries, more);
    var a, b := WriteAll(w.installed, more), WriteAll(map[], Merge(w.queries, more));
    WriteAllReads(w.installed, more);
    WriteAllReads<V>(map[], w.queries);
    WriteAllReads<V>(map[], Merge(w.queries, more));
    LookupIsLastWrite(w.queries);
    LookupIsLastWrite(Merge(w.queries, more));
    forall n ensures Find(a, n) == Find(b, n) {
      assert Lookup(w.queries, n) == LastWrite(w.queries, n);
      assert Lookup(Merge(w.queries, more), n) == LastWrite(Merge(w.queries, more), n);
    }
    SameFinds(a, b);
  }

  /** The first queued call becomes the current one. */
  lemma TakingFirst<V>(w: Wf<V>, taken: Wf<V>)
    requires InOrder(w, []) && w.pending != []
    requires taken.pending == w.pending[1..] && taken.answers == w.answers && taken.arrivals == w.arrivals
    ensures InOrder(taken, [w.pending[0].call])
  {
    QueuedCons(w.pending);
    Reassociate(AnsweredCalls(w.answers), [w.pending[0].call], QueuedCalls(taken.pending));
  }

  lemma QueuedCons<V>(pending: seq<PendingCall<V>>)
    requires pending != []
    ensures QueuedCalls(pending) == [pending[0].call] + QueuedCalls(pending[1..])
  {}

  lemma Reassociate<T>(a: seq<T>, b: seq<T>, c: seq<T>)
    ensures a + (b + c) == a + b + c && a + [] + (b + c) == a + b + c
  {}

  /** The current call is answered. */
  lemma AnsweringCurrent<V>(w: Wf<V>, call: nat, response: Response<V>, w': Wf<V>)
    requires InOrder(w, [call])
    requires w'.answers == w.answers + [Answer(call, response)] && w'.pending == w.pending && w'.arrivals == w.arrivals
    ensures InOrder(w', [])
  {
    assert AnsweredCalls(w'.answers) == AnsweredCalls(w.answers) + [call];
    Reassociate(AnsweredCalls(w.answers), [call], []);
  }

  /** A call handled in the selector is answered next, and its output is what the next iteration uses. */
  lemma HandleCallKeeps<V>(reg: Recovery, w: Wf<V>, cases: seq<Case<V>>, t: Turn<V>)
    requires InOrder(w, []) && 0 < w.notes <= |w.pending| && HandleCall(reg, w, cases, t).Some?
    ensures var w' := HandleCall(reg, w, cases, t).value;
      && InOrder(w', []) && w'.notes <= |w'.pending| && w'.callOutput.Some?
      && w'.message == w.message && w'.queries == w.queries && w'.installed == w.installed
      && |w'.answers| == |w.answers| + 1 && w'.answers[..|w.answers|] == w.answers
      && w'.answers[|w.answers|].call == w.pending[0].call
  {
    var pc := w.pending[0];
    var taken := w.(notes := w.notes - 1, pending := w.pending[1..],
                    log := w.log + Invocations(reg, pc.key, pc.input, Some(pc.req), t.callPrimary));
    TakingFirst(w, taken);
    AcceptAllKeeps(taken, t.after, [pc.call]);
    var w1 := AcceptAll(taken, t.after).value;
    var w' := HandleCall(reg, w, cases, t).value;
    AnsweringCurrent(w1, pc.call, w'.answers[|w1.answers|].response, w');
  }

  lemma {:induction false} DrainKeeps<V>(w: Wf<V>, steps: seq<(Outcome<V>, seq<Arrival<V>>)>)
    requires InOrder(w, []) && Drain(w, steps).Some?
    ensures var w' := Drain(w, steps).value;
      && InOrder(w', []) && w'.pending == []
      && w'.queries == w.queries && w'.installed == w.installed && w'.callOutput == w.callOutput
      && w'.message == w.message
    decreases |steps|
  {
    if w.pending != [] {
      var w1 := DrainOneKeeps(w, steps);
      DrainKeeps(w1, steps[1..]);
    }
  }

  /** Draining one call. */
  lemma DrainOneKeeps<V>(w: Wf<V>, steps: seq<(Outcome<V>, seq<Arrival<V>>)>) returns (w': Wf<V>)
    requires InOrder(w, []) && w.pending != [] && Drain(w, steps).Some?
    ensures steps != [] && Drain(w, steps) == Drain(w', steps[1..]) && InOrder(w', [])
    ensures w'.queries == w.queries && w'.installed == w.installed && w'.callOutput == w.callOutput
      && w'.message == w.message
  {
    var pc := w.pending[0];
    var taken := w.(pending := w.pending[1..],
                    log := w.log + [Activity(ActivityInput(pc.key, pc.input, Some(pc.req), ""))]);
    TakingFirst(w, taken);
    AcceptAllKeeps(taken, steps[0].1, [pc.call]);
    var w1 := AcceptAll(taken, steps[0].1).value;
    w' := Drained(w1, pc, steps[0].0);
    AnsweringCurrent(w1, pc.call, w'.answers[|w1.answers|].response, w');
  }

  /** How an iteration may end. */
  ghost predicate GoodEnd<V>(r: Ran<V>) {
    match r
    case Next(w) => WfInv(w)
    case Ended(_, w) => InOrder(w, []) && QueriesInstalled(w)
    case Cut(w) => InOrder(w, []) && w.pending == [] && w.callOutput.None? && QueriesInstalled(w)
    case Panicked => false
    case Impossible => true
  }

  lemma CutCheckKeeps<V>(w: Wf<V>, t: Turn<V>)
    requires WfInv(w)
    ensures GoodEnd(CutCheck(w, t))
  {
    if w.callOutput.None? && t.cut && Drain(w, t.drain).Some? {
      DrainKeeps(w, t.drain);
    }
  }

  lemma SelectKeeps<V>(reg: Recovery, w: Wf<V>, cases: seq<Case<V>>, t: Turn<V>)
    requires WfInv(w) && w.callOutput.None? && w.message.None?
    ensures GoodEnd(RunSelector(reg, w, cases, t))
  {
    if AcceptAll(w, t.during).Some? {
      AcceptAllKeeps(w, t.during, []);
      var w' := AcceptAll(w, t.during).value;
      match t.pick
      case PickTimer(i) => if i < |cases| { CutCheckKeeps(Goto(w', cases[i]), t); }
      case PickSend(i, m) => if i < |cases| { CutCheckKeeps(Goto(w', cases[i]).(message := Some(m)), t); }
      case PickDefault(i) => if i < |cases| { CutCheckKeeps(Goto(w', cases[i]), t); }
      case PickCall =>
        if w'.notes > 0 && w'.pending != [] && HandleCall(reg, w', cases, t).Some? {
          HandleCallKeeps(reg, w', cases, t);
          CutCheckKeeps(HandleCall(reg, w', cases, t).value, t);
        }
    }
  }

  lemma ProduceKeeps<V>(reg: Recovery, w: Wf<V>, t: Turn<V>)
    requires WfInv(w)
    ensures var w' := Produce(reg, w, t).0; WfInv(w') && w'.callOutput.None? && w'.message.None?
  {}

  /** Every iteration keeps the loop's invariant: it never reads an empty queue, whatever notifications were
      dropped; arrivals are answered in order, once each; a cut is raised only with the queue empty and no
      call output pending; and a pending call output never meets a pending message. */
  lemma IterateKeeps<V>(reg: Recovery, w: Wf<V>, t: Turn<V>)
    requires WfInv(w)
    ensures GoodEnd(Iterate(reg, w, t))
  {
    if AcceptAll(w, t.before).Some? {
      AcceptAllKeeps(w, t.before, []);
      var w0 := AcceptAll(w, t.before).value;
      ProduceKeeps(reg, w0, t);
      var (w1, produced, e) := Produce(reg, w0, t);
      if produced.Some? {
        ApplyOutputKeeps(w1, produced.value);
        InterpretKeeps(reg, ApplyOutput(w1, produced.value), produced.value, t);
      }
    }
  }

  lemma InterpretKeeps<V>(reg: Recovery, w: Wf<V>, out: ActivityOutput<V>, t: Turn<V>)
    requires WfInv(w) && w.callOutput.None? && w.message.None?
    ensures GoodEnd(Interpret(reg, w, out, t))
  {
    if !out.done && out.continuation.Some? && out.continuation.value != [] {
      var cases := out.continuation.value;
      if IsContinue(cases) {
        CutCheckKeeps(Goto(w, cases[0]), t);
      } else {
        SelectKeeps(reg, w.(registered := Register(w.registered, cases)), cases, t);
      }
    }
  }

  lemma ResumeKeeps<V>(w: Wf<V>)
    requires GoodEnd(Cut(w))
    ensures WfInv(Resume(w))
  {}

  /** The same over whole runs, cuts included. */
  lemma {:induction false} RunKeeps<V>(reg: Recovery, w: Wf<V>, turns: seq<Turn<V>>)
    requires WfInv(w)
    ensures GoodEnd(RunWorkflow(reg, w, turns))
  {
    if turns != [] {
      var init := turns[..|turns| - 1];
      RunKeeps(reg, w, init);
      var r := RunWorkflow(reg, w, init);
      if r.Next? {
        IterateKeeps(reg, r.wf, turns[|turns| - 1]);
        if Iterate(reg, r.wf, turns[|turns| - 1]).Cut? {
          ResumeKeeps(Iterate(reg, r.wf, turns[|turns| - 1]).wf);
        }
      }
    }
  }

  /** So for every workflow that a client or a parent starts, whatever its turns. */
  lemma RunsFromStart<V>(reg: Recovery, key: string, input: V, turns: seq<Turn<V>>)
    ensures GoodEnd(RunWorkflow(reg, Begin(WorkflowInput(key, input, []), [], [], []), turns))
  {
    BeginKeeps(WorkflowInput(key, input, []));
    RunKeeps(reg, Begin(WorkflowInput(key, input, []), [], [], []), turns);
  }

  /** A run of iterations never stops at a cut: the workflow is restarted there. */
  lemma {:induction false} RunNeverCut<V>(reg: Recovery, w: Wf<V>, turns: seq<Turn<V>>)
    ensures !RunWorkflow(reg, w, turns).Cut?
  {
    if turns != [] {
      RunNeverCut(reg, w, turns[..|turns| - 1]);
    }
  }

  // ----- Fresh messages -----

  /** The cases that an iteration which goes on interprets. */
  function CasesIn<V>(reg: Recovery, w: Wf<V>, t: Turn<V>): seq<Case<V>> {
    match AcceptAll(w, t.before)
    case None => []
    case Some(w0) =>
      match Produce(reg, w0, t).1
      case Some(ActivityOutput(_, _, Some(cases), _, _)) => cases
      case _ => []
  }

  /** After an iteration a message is pending exactly if the selector picked a send, and then the handler to run
      next is the one of that send case and no call output is pending; so the handlers of timers, Default and
      Continue see no message. */
  lemma MessageFresh<V>(reg: Recovery, w: Wf<V>, t: Turn<V>)
    requires WfInv(w) && Iterate(reg, w, t).Next?
    ensures var w', cases := Iterate(reg, w, t).wf, CasesIn(reg, w, t);
      && (w'.message.Some? <==> t.pick.PickSend? && !IsContinue(cases))
      && (w'.message.Some? ==>
            && t.pick.idx < |cases| && cases[t.pick.idx].sendName != ""
            && w'.key == cases[t.pick.idx].handlerKey && w'.input == cases[t.pick.idx].input
            && w'.message == Some(t.pick.msg) && w'.callOutput.None?)
  {
    AcceptAllKeeps(w, t.before, []);
    var w0 := AcceptAll(w, t.before).value;
    var (w1, produced, e) := Produce(reg, w0, t);
    var w2 := ApplyOutput(w1, produced.value);
    assert w2.message.None?;
    var cases := produced.value.continuation.value;
    if !IsContinue(cases) {
      SelectorMessage(reg, w2.(registered := Register(w2.registered, cases)), cases, t);
    }
  }

  lemma SelectorMessage<V>(reg: Recovery, w: Wf<V>, cases: seq<Case<V>>, t: Turn<V>)
    requires InOrder(w, []) && w.notes <= |w.pending| && w.callOutput.None? && w.message.None?
    requires RunSelector(reg, w, cases, t).Next?
    ensures var w' := RunSelector(reg, w, cases, t).wf;
      && (w'.message.Some? <==> t.pick.PickSend?)
      && (t.pick.PickSend? ==>
            && t.pick.idx < |cases| && cases[t.pick.idx].sendName != ""
            && w'.key == cases[t.pick.idx].handlerKey && w'.input == cases[t.pick.idx].input
            && w'.message == Some(t.pick.msg) && w'.callOutput.None?)
  {
    AcceptAllKeeps(w, t.during, []);
    if t.pick.PickCall? {
      HandleCallKeeps(reg, AcceptAll(w, t.during).value, cases, t);
    }
  }

  // ----- Notifications -----

  function Notified<V>(arrivals: seq<Arrival<V>>): nat {
    if arrivals == [] then 0 else (if arrivals[0].notified then 1 else 0) + Notified(arrivals[1..])
  }

  lemma {:induction false} AcceptNotes<V>(w: Wf<V>, arrivals: seq<Arrival<V>>)
    requires AcceptAll(w, arrivals).Some?
    ensures AcceptAll(w, arrivals).value.notes == w.notes + Notified(arrivals)
    decreases |arrivals|
  {
    if arrivals != [] {
      AcceptNotes(Accept(w, arrivals[0]), arrivals[1..]);
    }
  }

  /** A queued call is taken up only on a notification: where the wait has a call case and all its updates are
      registered, a call can be picked exactly if a notification is left or one of the updates brought one. */
  lemma CallNeedsNotice<V>(reg: Recovery, w: Wf<V>, cases: seq<Case<V>>, t: Turn<V>)
    requires WfInv(w) && AcceptAll(w, t.during).Some? && t.pick == PickCall && t.after == []
    ensures RunSelector(reg, w, cases, t).Next? <==> HasCallCase(cases) && w.notes + Notified(t.during) > 0
    ensures !RunSelector(reg, w, cases, t).Next? ==> RunSelector(reg, w, cases, t).Impossible?
  {
    AcceptNotes(w, t.during);
    AcceptAllKeeps(w, t.during, []);
  }

  // ----- Failed calls -----

  /** A turn in which the selector picks a call and its handling fails: the handler fails and there is no
      recovery handler, or that fails too. */
  ghost predicate FailsCall<V>(reg: Recovery, w: Wf<V>, t: Turn<V>) {
    && t.pick.PickCall?
    && AcceptAll(w, t.during).Some?
    && var w' := AcceptAll(w, t.during).value;
       w'.pending != [] ==> Used(reg, w'.pending[0].key, t.callPrimary, t.callRecovery).Failed?
  }

  ghost predicate OnlyActivities<V>(events: seq<Event<V>>) {
    forall e :: e in events ==> e.Activity?
  }

  /** The loop is waiting on these cases, through a call output that a failed call left. */
  ghost predicate StillWaiting<V>(w: Wf<V>, cases: seq<Case<V>>) {
    w.callOutput == Some(SameWait(cases))
  }

  /** What a failed call leaves alone: the handler and input to come, the message, the queries and their
      handlers; and it has started and sent nothing. */
  ghost predicate Stuttered<V>(w: Wf<V>, w': Wf<V>) {
    && w'.key == w.key && w'.input == w.input && w'.message == w.message
    && w'.queries == w.queries && w'.installed == w.installed
    && w.log <= w'.log && OnlyActivities(w'.log[|w.log|..])
  }

  /** The loop at the selector, with the cases it selects among, if a turn takes it there: the produced output's
      effects are applied and its calls are registered. */
  function AtSelector<V>(reg: Recovery, w: Wf<V>, t: Turn<V>): Option<(Wf<V>, seq<Case<V>>)> {
    match AcceptAll(w, t.before)
    case None => None
    case Some(w0) =>
      var (w1, produced, e) := Produce(reg, w0, t);
      match produced
      case Some(ActivityOutput(false, result, Some(cases), eff, resp)) =>
        var w2 := ApplyOutput(w1, produced.value);
        if cases == [] || IsContinue(cases) then None
        else Some((w2.(registered := Register(w2.registered, cases)), cases))
      case _ => None
  }

  /** What a loop has shown when it comes to the selector: besides what it had before, the activities that made
      the output, unless a call had made it, and the effects of that output. */
  lemma SelectorShows<V>(reg: Recovery, w: Wf<V>, t: Turn<V>)
    requires AtSelector(reg, w, t).Some?
    ensures Produce(reg, w, t).1.Some?
    ensures var v, eff := AtSelector(reg, w, t).value.0, Produce(reg, w, t).1.value.effects;
      var ran := if w.callOutput.Some? then [] else Invocations(reg, w.key, w.input, w.message, t.primary);
      && v.log == w.log + ran + EffectEvents(eff)
      && v.queries == Merge(w.queries, eff.queries) && v.installed == WriteAll(w.installed, eff.queries)
      && v.key == w.key && v.input == w.input && v.answers == w.answers
  {
    AcceptSpares(w, t.before);
  }

  lemma {:induction false} AcceptSpares<V>(w: Wf<V>, arrivals: seq<Arrival<V>>)
    requires AcceptAll(w, arrivals).Some?
    ensures var w' := AcceptAll(w, arrivals).value;
      w' == w.(pending := w'.pending, notes := w'.notes, arrivals := w'.arrivals)
    decreases |arrivals|
  {
    if arrivals != [] {
      AcceptSpares(Accept(w, arrivals[0]), arrivals[1..]);
    }
  }

  lemma IterateSelects<V>(reg: Recovery, w: Wf<V>, t: Turn<V>)
    requires WfInv(w) && AtSelector(reg, w, t).Some?
    ensures var (v, cases) := AtSelector(reg, w, t).value;
      Iterate(reg, w, t) == RunSelector(reg, v, cases, t) && WfInv(v) && v.callOutput.None? && v.message.None?
  {
    AcceptAllKeeps(w, t.before, []);
    var w0 := AcceptAll(w, t.before).value;
    ProduceKeeps(reg, w0, t);
    var (w1, produced, e) := Produce(reg, w0, t);
    ApplyOutputKeeps(w1, produced.value);
  }

  /** The cases of the wait that a turn enters. */
  function Entered<V>(reg: Recovery, w: Wf<V>, t: Turn<V>): seq<Case<V>> {
    if AtSelector(reg, w, t).Some? then AtSelector(reg, w, t).value.1 else []
  }

  /** A turn that goes on without a selector: the loop continues with the one case. */
  lemma ContinueSpares<V>(reg: Recovery, w: Wf<V>, t: Turn<V>)
    requires AtSelector(reg, w, t).None? && Iterate(reg, w, t).Next?
    ensures AcceptAll(w, t.before).Some?
    ensures var w0, w' := AcceptAll(w, t.before).value, Iterate(reg, w, t).wf;
      w'.pending == w0.pending && w'.registered == w0.registered && w'.notes == w0.notes
  {
    var w0 := AcceptAll(w, t.before).value;
    var (w1, produced, e) := Produce(reg, w0, t);
    var cases := produced.value.continuation.value;
    assert IsContinue(cases);
  }

  lemma SelectorSpares<V>(reg: Recovery, w: Wf<V>, cases: seq<Case<V>>, t: Turn<V>)
    requires WfInv(w) && RunSelector(reg, w, cases, t).Next?
    ensures RunSelector(reg, w, cases, t).wf.registered == w.registered
  {
    AcceptSpares(w, t.during);
    if t.pick.PickCall? {
      CallRegistersNothing(reg, AcceptAll(w, t.during).value, cases, t);
    }
  }

  /** Update handlers are only ever added. */
  lemma IterateRegisters<V>(reg: Recovery, w: Wf<V>, t: Turn<V>)
    requires WfInv(w) && Iterate(reg, w, t).Next?
    ensures Iterate(reg, w, t).wf.registered == Register(w.registered, Entered(reg, w, t))
  {
    AcceptSpares(w, t.before);
    if AtSelector(reg, w, t).Some? {
      EnteringRegisters(reg, w, t);
      SelectorSpares(reg, AtSelector(reg, w, t).value.0, AtSelector(reg, w, t).value.1, t);
    } else {
      ContinueSpares(reg, w, t);
    }
  }

  lemma EnteringRegisters<V>(reg: Recovery, w: Wf<V>, t: Turn<V>)
    requires WfInv(w) && AtSelector(reg, w, t).Some?
    ensures AcceptAll(w, t.before).Some?
    ensures var (v, cases) := AtSelector(reg, w, t).value;
      var w0 := AcceptAll(w, t.before).value;
      && v.registered == Register(w.registered, cases) && w0.registered == w.registered && v.pending == w0.pending
      && Iterate(reg, w, t) == RunSelector(reg, v, cases, t)
      && WfInv(v) && v.callOutput.None? && v.message.None? && cases != []
  {
    AcceptSpares(w, t.before);
    IterateSelects(reg, w, t);
  }

  lemma CallRegistersNothing<V>(reg: Recovery, w: Wf<V>, cases: seq<Case<V>>, t: Turn<V>)
    requires w.notes > 0 && w.pending != [] && HandleCall(reg, w, cases, t).Some?
    ensures HandleCall(reg, w, cases, t).value.registered == w.registered
  {
    var pc := w.pending[0];
    var taken := w.(notes := w.notes - 1, pending := w.pending[1..],
                    log := w.log + Invocations(reg, pc.key, pc.input, Some(pc.req), t.callPrimary));
    AcceptSpares(taken, t.after);
  }

  /** One failed call in a wait, whatever brought the loop there: it comes back to the same wait, without a cut,
      whatever the server suggests; nothing is queried, started, sent or completed. */
  lemma FailedCallStutters<V>(reg: Recovery, w: Wf<V>, t: Turn<V>)
    requires WfInv(w) && AtSelector(reg, w, t).Some? && FailsCall(reg, AtSelector(reg, w, t).value.0, t)
    requires !Iterate(reg, w, t).Impossible?
    ensures var r, (v, cases) := Iterate(reg, w, t), AtSelector(reg, w, t).value;
      && r.Next? && StillWaiting(r.wf, cases) && Stuttered(v, r.wf)
      && |r.wf.answers| == |w.answers| + 1 && r.wf.answers[..|w.answers|] == w.answers
      && r.wf.answers[|w.answers|].response.Error?
  {
    IterateSelects(reg, w, t);
    SelectorShows(reg, w, t);
    var (v, cases) := AtSelector(reg, w, t).value;
    SelectorFailsCall(reg, v, cases, t);
  }

  /** The output that a failed call leaves takes the next iteration straight back to the selector, without
      running or showing anything. */
  lemma ReentersWait<V>(reg: Recovery, w: Wf<V>, cases: seq<Case<V>>, t: Turn<V>)
    requires StillWaiting(w, cases) && cases != [] && !IsContinue(cases) && AcceptAll(w, t.before).Some?
    ensures AtSelector(reg, w, t).Some? && AtSelector(reg, w, t).value.1 == cases
    ensures WfInv(w) ==> Stuttered(w, AtSelector(reg, w, t).value.0)
  {
    AcceptSpares(w, t.before);
    assert EffectEvents(SameWait(cases).effects) == [];
    assert Merge(w.queries, []) == w.queries && WriteAll(w.installed, []) == w.installed;
  }

  lemma SelectorFailsCall<V>(reg: Recovery, w: Wf<V>, cases: seq<Case<V>>, t: Turn<V>)
    requires InOrder(w, []) && w.notes <= |w.pending| && FailsCall(reg, w, t)
    requires !RunSelector(reg, w, cases, t).Impossible?
    ensures var r := RunSelector(reg, w, cases, t);
      && r.Next? && StillWaiting(r.wf, cases) && Stuttered(w, r.wf)
      && |r.wf.answers| == |w.answers| + 1 && r.wf.answers[..|w.answers|] == w.answers
      && r.wf.answers[|w.answers|].response.Error?
  {
    AcceptAllKeeps(w, t.during, []);
    var w3 := AcceptAll(w, t.during).value;
    HandleCallKeeps(reg, w3, cases, t);
    FailedCallbackStutters(reg, w3, cases, t);
  }

  lemma FailedCallbackStutters<V>(reg: Recovery, w: Wf<V>, cases: seq<Case<V>>, t: Turn<V>)
    requires InOrder(w, []) && 0 < w.notes <= |w.pending| && HandleCall(reg, w, cases, t).Some?
    requires Used(reg, w.pending[0].key, t.callPrimary, t.callRecovery).Failed?
    ensures var w' := HandleCall(reg, w, cases, t).value;
      && StillWaiting(w', cases) && Stuttered(w, w')
      && |w'.answers| == |w.answers| + 1 && w'.answers[|w.answers|].response.Error?
  {
    var pc := w.pending[0];
    var events := Invocations(reg, pc.key, pc.input, Some(pc.req), t.callPrimary);
    var taken := w.(notes := w.notes - 1, pending := w.pending[1..], log := w.log + events);
    TakingFirst(w, taken);
    AcceptAllKeeps(taken, t.after, [pc.call]);
    assert taken.log[|w.log|..] == events;
  }

  /** Every turn of a run that comes to a selector is a failed call. */
  ghost predicate AllFailCalls<V>(reg: Recovery, w: Wf<V>, turns: seq<Turn<V>>) {
    forall k {:trigger turns[k]} :: 0 <= k < |turns| ==>
      var r := RunWorkflow(reg, w, turns[..k]);
      r.Next? && AtSelector(reg, r.wf, turns[k]).Some? ==>
        FailsCall(reg, AtSelector(reg, r.wf, turns[k]).value.0, turns[k])
  }

  lemma AllFailInit<V>(reg: Recovery, w: Wf<V>, turns: seq<Turn<V>>)
    requires AllFailCalls(reg, w, turns) && turns != []
    ensures AllFailCalls(reg, w, turns[..|turns| - 1])
  {
    var init := turns[..|turns| - 1];
    forall k {:trigger init[k]} | 0 <= k < |init|
      ensures var r := RunWorkflow(reg, w, init[..k]);
        r.Next? && AtSelector(reg, r.wf, init[k]).Some? ==>
          FailsCall(reg, AtSelector(reg, r.wf, init[k]).value.0, init[k])
    {
      assert init[..k] == turns[..k] && init[k] == turns[k];
    }
  }

  lemma StutterTwice<V>(a: Wf<V>, b: Wf<V>, c: Wf<V>)
    requires Stuttered(a, b) && Stuttered(b, c)
    ensures Stuttered(a, c)
  {
    assert c.log[|a.log|..] == b.log[|a.log|..] + c.log[|b.log|..];
  }

  /** The first turn of a run, by itself. */
  lemma OneTurn<V>(reg: Recovery, w: Wf<V>, t: Turn<V>)
    ensures RunWorkflow(reg, w, [t]) == match Iterate(reg, w, t) case Cut(cut) => Next(Resume(cut)) case r => r
  {
    assert [t][..0] == [];
  }

  /** Where n failed calls leave a loop that had the answers of w and was at the selector v. */
  ghost predicate FailedCalls<V>(w: Wf<V>, v: Wf<V>, cases: seq<Case<V>>, r: Ran<V>, n: nat) {
    && r.Next? && StillWaiting(r.wf, cases) && Stuttered(v, r.wf)
    && |r.wf.answers| == |w.answers| + n && r.wf.answers[..|w.answers|] == w.answers
    && forall j :: |w.answers| <= j < |r.wf.answers| ==> r.wf.answers[j].response.Error?
  }

  /** Any number of failed calls in a row, from the first in a wait on, leave the routine in the wait in which the
      first found it; each answers one call, with an error. */
  lemma {:induction false} FailedCallsStutter<V>(reg: Recovery, w: Wf<V>, turns: seq<Turn<V>>)
    requires WfInv(w) && turns != [] && AtSelector(reg, w, turns[0]).Some?
    requires AllFailCalls(reg, w, turns) && !RunWorkflow(reg, w, turns).Impossible?
    ensures var (v, cases) := AtSelector(reg, w, turns[0]).value;
      FailedCalls(w, v, cases, RunWorkflow(reg, w, turns), |turns|)
  {
    var n := |turns| - 1;
    if n == 0 {
      FirstFails(reg, w, turns);
    } else {
      AllFailInit(reg, w, turns);
      FailedCallsStutter(reg, w, turns[..n]);
      var (v, cases) := AtSelector(reg, w, turns[0]).value;
      LastFails(reg, w, v, cases, turns);
    }
  }

  lemma FirstFails<V>(reg: Recovery, w: Wf<V>, turns: seq<Turn<V>>)
    requires WfInv(w) && |turns| == 1 && AtSelector(reg, w, turns[0]).Some?
    requires AllFailCalls(reg, w, turns) && !RunWorkflow(reg, w, turns).Impossible?
    ensures var (v, cases) := AtSelector(reg, w, turns[0]).value;
      FailedCalls(w, v, cases, RunWorkflow(reg, w, turns), 1)
  {
    assert turns[..0] == [] && turns == [turns[0]];
    OneTurn(reg, w, turns[0]);
    FailedCallStutters(reg, w, turns[0]);
  }

  lemma LastFails<V>(reg: Recovery, w: Wf<V>, v: Wf<V>, cases: seq<Case<V>>, turns: seq<Turn<V>>)
    requires WfInv(w) && turns != [] && cases != [] && !IsContinue(cases)
    requires FailedCalls(w, v, cases, RunWorkflow(reg, w, turns[..|turns| - 1]), |turns| - 1)
    requires AllFailCalls(reg, w, turns) && !RunWorkflow(reg, w, turns).Impossible?
    ensures FailedCalls(w, v, cases, RunWorkflow(reg, w, turns), |turns|)
  {
    var n := |turns| - 1;
    RunKeeps(reg, w, turns[..n]);
    var mid := RunWorkflow(reg, w, turns[..n]).wf;
    assert AtSelector(reg, mid, turns[n]).Some? ==> FailsCall(reg, AtSelector(reg, mid, turns[n]).value.0, turns[n]);
    OneMoreFails(reg, v, mid, cases, turns[n]);
    OneMoreCounts(w, v, cases, mid, Iterate(reg, mid, turns[n]), n);
  }

  lemma OneMoreCounts<V>(w: Wf<V>, v: Wf<V>, cases: seq<Case<V>>, mid: Wf<V>, r: Ran<V>, n: nat)
    requires FailedCalls(w, v, cases, Next(mid), n) && FailedCalls(mid, v, cases, r, 1)
    ensures FailedCalls(w, v, cases, r, n + 1)
  {
    assert r.wf.answers == mid.answers + [r.wf.answers[|mid.answers|]];
  }

  /** One more failed call. */
  lemma OneMoreFails<V>(reg: Recovery, v: Wf<V>, mid: Wf<V>, cases: seq<Case<V>>, t: Turn<V>)
    requires WfInv(mid) && StillWaiting(mid, cases) && Stuttered(v, mid) && cases != [] && !IsContinue(cases)
    requires AtSelector(reg, mid, t).Some? ==> FailsCall(reg, AtSelector(reg, mid, t).value.0, t)
    requires !Iterate(reg, mid, t).Impossible?
    ensures FailedCalls(mid, v, cases, Iterate(reg, mid, t), 1)
  {
    ReentersWait(reg, mid, cases, t);
    var v' := AtSelector(reg, mid, t).value.0;
    FailedCallStutters(reg, mid, t);
    StutterTwice(v, mid, v');
    StutterTwice(v, v', Iterate(reg, mid, t).wf);
  }
}
