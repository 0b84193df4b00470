/** The input that a call's handler runs on in a workflow. An update handler stays registered when its wait is over,
    until the workflow is cut, so a call may come for any wait since the last cut. */
module CallInputs {
  import opened Keys
  import opened Wrappers
  import opened Queries
  import opened Durable
  import opened Temporal
  import opened WorkflowRuns

  predicate AwaitsCall<V>(c: Case<V>, key: string) {
    c.callName != "" && c.handlerKey == key
  }

  /** The input of the last case that awaits calls under a key. */
  function LastInput<V>(cases: seq<Case<V>>, key: string): Option<V> {
    if cases == [] then None
    else
      var n := |cases| - 1;
      if AwaitsCall(cases[n], key) then Some(cases[n].input) else LastInput(cases[..n], key)
  }

  lemma {:induction false} LastInputConcat<V>(a: seq<Case<V>>, b: seq<Case<V>>, key: string)
    ensures LastInput(a + b, key) == if LastInput(b, key).Some? then LastInput(b, key) else LastInput(a, key)
  {
    if b == [] {
      assert a + b == a;
    } else {
      var n := |b| - 1;
      assert (a + b)[..|a + b| - 1] == a + b[..n];
      LastInputConcat(a, b[..n], key);
    }
  }

  lemma LastInputCons<V>(cases: seq<Case<V>>, key: string)
    requires cases != []
    ensures LastInput(cases, key)
      == if LastInput(cases[1..], key).Some? then LastInput(cases[1..], key)
         else if AwaitsCall(cases[0], key) then Some(cases[0].input) else None
  {
    LastInputConcat([cases[0]], cases[1..], key);
    assert [cases[0]] + cases[1..] == cases && [cases[0]][..0] == [];
  }

  lemma {:induction false} RegisterReads<V>(registered: map<string, V>, cases: seq<Case<V>>, key: string)
    ensures Find(Register(registered, cases), key)
      == if LastInput(cases, key).Some? then LastInput(cases, key) else Find(registered, key)
    decreases |cases|
  {
    if cases != [] {
      var c := cases[0];
      RegisterReads(if c.callName == "" then registered else registered[c.handlerKey := c.input], cases[1..], key);
      LastInputCons(cases, key);
    }
  }

  lemma {:induction false} RegisterConcat<V>(registered: map<string, V>, a: seq<Case<V>>, b: seq<Case<V>>)
    ensures Register(registered, a + b) == Register(Register(registered, a), b)
    decreases |a|
  {
    if a == [] {
      assert a + b == b;
    } else {
      assert (a + b)[0] == a[0] && (a + b)[1..] == a[1..] + b;
      RegisterConcat(if a[0].callName == "" then registered else registered[a[0].handlerKey := a[0].input], a[1..], b);
    }
  }

  // ----- What has been awaited, and when a call was accepted -----

  /** The cases of all waits since the last cut, in order. */
  function Awaited<V>(reg: Recovery, w: Wf<V>, turns: seq<Turn<V>>): seq<Case<V>> {
    if turns == [] then []
    else
      var init, t := turns[..|turns| - 1], turns[|turns| - 1];
      match RunWorkflow(reg, w, init)
      case Next(w') => if Iterate(reg, w', t).Next? then Awaited(reg, w, init) + Entered(reg, w', t) else []
      case _ => []
  }

  function Times(n: nat, mark: nat): (marks: seq<nat>)
    ensures |marks| == n && forall i :: 0 <= i < n ==> marks[i] == mark
  {
    seq(n, i => mark)
  }

  /** The calls that a turn accepts at its selector. */
  function AcceptedThere<V>(reg: Recovery, w: Wf<V>, t: Turn<V>): nat {
    if AtSelector(reg, w, t).None? then 0
    else if t.pick.PickCall? then |t.during| + |t.after|
    else |t.during|
  }

  /** For each call accepted since the last cut, how many cases had been awaited by then. */
  function Marks<V>(reg: Recovery, w: Wf<V>, turns: seq<Turn<V>>): seq<nat> {
    if turns == [] then []
    else
      var init, t := turns[..|turns| - 1], turns[|turns| - 1];
      match RunWorkflow(reg, w, init)
      case Next(w') =>
        if Iterate(reg, w', t).Next? then
          Marks(reg, w, init) + Times(|t.before|, |Awaited(reg, w, init)|)
          + Times(AcceptedThere(reg, w', t), |Awaited(reg, w, init) + Entered(reg, w', t)|)
        else []
      case _ => []
  }

  /** The update handlers are those of the cases awaited; the queued calls are the last ones accepted. */
  ghost predicate Marked<V>(awaited: seq<Case<V>>, marks: seq<nat>, w: Wf<V>) {
    w.registered == Register(map[], awaited) && QueueMarked(awaited, marks, w.pending)
  }

  ghost predicate QueueMarked<V>(awaited: seq<Case<V>>, marks: seq<nat>, pending: seq<PendingCall<V>>) {
    && |pending| <= |marks|
    && (forall i :: 0 <= i < |marks| ==> marks[i] <= |awaited|)
    && forall k :: 0 <= k < |pending| ==> RunsOnLast(awaited, marks[|marks| - |pending| + k], pending[k])
  }

  /** A call carries the input of the last case with its key among those awaited by its mark. */
  ghost predicate RunsOnLast<V>(awaited: seq<Case<V>>, mark: nat, pc: PendingCall<V>) {
    mark <= |awaited| && LastInput(awaited[..mark], pc.key) == Some(pc.input)
  }

  lemma {:induction false} AcceptMarks<V>(awaited: seq<Case<V>>, marks: seq<nat>, w: Wf<V>, arrivals: seq<Arrival<V>>)
    requires Marked(awaited, marks, w) && AcceptAll(w, arrivals).Some?
    ensures Marked(awaited, marks + Times(|arrivals|, |awaited|), AcceptAll(w, arrivals).value)
    decreases |arrivals|
  {
    if arrivals == [] {
      assert marks + Times(0, |awaited|) == marks;
    } else {
      var a, marks1 := arrivals[0], marks + [|awaited|];
      RegisterReads(map[], awaited, a.key);
      assert awaited[..|awaited|] == awaited;
      PushMarks(awaited, marks, w.pending, PendingCall(a.call, a.key, a.req, w.registered[a.key]));
      AcceptMarks(awaited, marks1, Accept(w, a), arrivals[1..]);
      assert marks1 + Times(|arrivals| - 1, |awaited|) == marks + Times(|arrivals|, |awaited|);
    }
  }

  lemma PushMarks<V>(awaited: seq<Case<V>>, marks: seq<nat>, pending: seq<PendingCall<V>>, pc: PendingCall<V>)
    requires QueueMarked(awaited, marks, pending) && RunsOnLast(awaited, |awaited|, pc)
    ensures QueueMarked(awaited, marks + [|awaited|], pending + [pc])
  {
    var marks', pending' := marks + [|awaited|], pending + [pc];
    forall k | 0 <= k < |pending'|
      ensures RunsOnLast(awaited, marks'[|marks'| - |pending'| + k], pending'[k])
    {
      if k < |pending| {
        assert marks'[|marks'| - |pending'| + k] == marks[|marks| - |pending| + k];
      }
    }
  }

  lemma PopMarks<V>(awaited: seq<Case<V>>, marks: seq<nat>, pending: seq<PendingCall<V>>)
    requires QueueMarked(awaited, marks, pending) && pending != []
    ensures QueueMarked(awaited, marks, pending[1..])
  {
    var rest := pending[1..];
    forall k | 0 <= k < |rest|
      ensures RunsOnLast(awaited, marks[|marks| - |rest| + k], rest[k])
    {
      assert rest[k] == pending[k + 1];
    }
  }

  lemma RunsOnLonger<V>(awaited: seq<Case<V>>, cases: seq<Case<V>>, mark: nat, pc: PendingCall<V>)
    requires RunsOnLast(awaited, mark, pc)
    ensures RunsOnLast(awaited + cases, mark, pc)
  {
    assert (awaited + cases)[..mark] == awaited[..mark];
  }

  lemma EnterMarks<V>(awaited: seq<Case<V>>, marks: seq<nat>, pending: seq<PendingCall<V>>, cases: seq<Case<V>>)
    requires QueueMarked(awaited, marks, pending)
    ensures QueueMarked(awaited + cases, marks, pending)
  {
    forall k | 0 <= k < |pending|
      ensures RunsOnLast(awaited + cases, marks[|marks| - |pending| + k], pending[k])
    {
      RunsOnLonger(awaited, cases, marks[|marks| - |pending| + k], pending[k]);
    }
  }

  /** Up to the pick of a turn that comes to a selector. */
  lemma SelectorMarks<V>(reg: Recovery, awaited: seq<Case<V>>, marks: seq<nat>, w: Wf<V>, t: Turn<V>)
    requires WfInv(w) && Marked(awaited, marks, w) && AtSelector(reg, w, t).Some?
    ensures var (v, cases) := AtSelector(reg, w, t).value;
      Marked(awaited + cases, marks + Times(|t.before|, |awaited|), v)
  {
    AcceptMarks(awaited, marks, w, t.before);
    EnteringRegisters(reg, w, t);
    var (v, cases) := AtSelector(reg, w, t).value;
    EnterMarks(awaited, marks + Times(|t.before|, |awaited|), v.pending, cases);
    RegisterConcat(map[], awaited, cases);
  }

  lemma CallMarks<V>(reg: Recovery, awaited: seq<Case<V>>, marks: seq<nat>, w: Wf<V>, cases: seq<Case<V>>, t: Turn<V>)
    requires Marked(awaited, marks, w) && w.notes > 0 && w.pending != [] && HandleCall(reg, w, cases, t).Some?
    ensures Marked(awaited, marks + Times(|t.after|, |awaited|), HandleCall(reg, w, cases, t).value)
  {
    var pc := w.pending[0];
    var taken := w.(notes := w.notes - 1, pending := w.pending[1..],
                    log := w.log + Invocations(reg, pc.key, pc.input, Some(pc.req), t.callPrimary));
    PopMarks(awaited, marks, w.pending);
    AcceptMarks(awaited, marks, taken, t.after);
  }

  lemma PickedMarks<V>(reg: Recovery, awaited: seq<Case<V>>, marks: seq<nat>, w: Wf<V>, cases: seq<Case<V>>, t: Turn<V>)
    requires Marked(awaited, marks, w) && Picked(reg, w, cases, t).Next?
    ensures Marked(awaited, marks + Times(if t.pick.PickCall? then |t.after| else 0, |awaited|),
                   Picked(reg, w, cases, t).wf)
  {
    if t.pick.PickCall? {
      CallMarks(reg, awaited, marks, w, cases, t);
    } else {
      assert marks + Times(0, |awaited|) == marks;
    }
  }

  lemma AppendTimes(marks: seq<nat>, m: nat, n: nat, mark: nat)
    ensures marks + Times(m, mark) + Times(n, mark) == marks + Times(m + n, mark)
  {}

  lemma IterateMarks<V>(reg: Recovery, awaited: seq<Case<V>>, marks: seq<nat>, w: Wf<V>, t: Turn<V>)
    requires WfInv(w) && Marked(awaited, marks, w) && Iterate(reg, w, t).Next?
    ensures Marked(awaited + Entered(reg, w, t),
                   marks + Times(|t.before|, |awaited|)
                   + Times(AcceptedThere(reg, w, t), |awaited + Entered(reg, w, t)|),
                   Iterate(reg, w, t).wf)
  {
    if AtSelector(reg, w, t).Some? {
      WaitMarks(reg, awaited, marks, w, t);
    } else {
      AcceptMarks(awaited, marks, w, t.before);
      ContinueSpares(reg, w, t);
      var marks0 := marks + Times(|t.before|, |awaited|);
      assert marks0 + Times(0, |awaited + []|) == marks0 && awaited + [] == awaited;
    }
  }

  lemma WaitMarks<V>(reg: Recovery, awaited: seq<Case<V>>, marks: seq<nat>, w: Wf<V>, t: Turn<V>)
    requires WfInv(w) && Marked(awaited, marks, w) && Iterate(reg, w, t).Next? && AtSelector(reg, w, t).Some?
    ensures var cases := AtSelector(reg, w, t).value.1;
      Marked(awaited + cases,
             marks + Times(|t.before|, |awaited|) + Times(AcceptedThere(reg, w, t), |awaited + cases|),
             Iterate(reg, w, t).wf)
  {
    var (v, cases) := AtSelector(reg, w, t).value;
    SelectorMarks(reg, awaited, marks, w, t);
    EnteringRegisters(reg, w, t);
    BlockedMarks(reg, awaited + cases, marks + Times(|t.before|, |awaited|), v, cases, t);
  }

  /** From the selector on. */
  lemma BlockedMarks<V>(reg: Recovery, awaited: seq<Case<V>>, marks: seq<nat>, v: Wf<V>, cases: seq<Case<V>>,
                        t: Turn<V>)
    requires Marked(awaited, marks, v) && RunSelector(reg, v, cases, t).Next?
    ensures var n := if t.pick.PickCall? then |t.during| + |t.after| else |t.during|;
      Marked(awaited, marks + Times(n, |awaited|), RunSelector(reg, v, cases, t).wf)
  {
    AcceptMarks(awaited, marks, v, t.during);
    PickedMarks(reg, awaited, marks + Times(|t.during|, |awaited|), AcceptAll(v, t.during).value, cases, t);
    AppendTimes(marks, |t.during|, if t.pick.PickCall? then |t.after| else 0, |awaited|);
  }

  /** At every loop head of every run, each queued call carries the input of the last case with its key among all
      waits, since the last cut, that had begun when it was accepted. */
  lemma {:induction false} QueuedOnLast<V>(reg: Recovery, input: WorkflowInput<V>, turns: seq<Turn<V>>)
    requires Unique(input.queries) && RunWorkflow(reg, Begin(input, [], [], []), turns).Next?
    ensures var w := Begin(input, [], [], []);
      && WfInv(RunWorkflow(reg, w, turns).wf)
      && Marked(Awaited(reg, w, turns), Marks(reg, w, turns), RunWorkflow(reg, w, turns).wf)
  {
    var w := Begin(input, [], [], []);
    BeginKeeps(input);
    RunKeeps(reg, w, turns);
    if turns != [] {
      var init, t := turns[..|turns| - 1], turns[|turns| - 1];
      QueuedOnLast(reg, input, init);
      var w' := RunWorkflow(reg, w, init).wf;
      if Iterate(reg, w', t).Next? {
        IterateMarks(reg, Awaited(reg, w, init), Marks(reg, w, init), w', t);
      }
    }
  }

  // ----- The call that a selector takes up -----

  /** The call that a turn runs, if it picks one. */
  function CallTaken<V>(reg: Recovery, w: Wf<V>, t: Turn<V>): Option<PendingCall<V>> {
    match AtSelector(reg, w, t)
    case None => None
    case Some((v, _)) =>
      match AcceptAll(v, t.during)
      case Some(v') => if t.pick.PickCall? && v'.pending != [] then Some(v'.pending[0]) else None
      case None => None
  }

  /** How many cases had been awaited when the call that a turn finds first in the queue was accepted. */
  function MarkIn<V>(reg: Recovery, awaited: seq<Case<V>>, marks: seq<nat>, w: Wf<V>, t: Turn<V>): nat {
    var marks' := marks + Times(|t.before|, |awaited|) + Times(|t.during|, |awaited + Entered(reg, w, t)|);
    var queued := |w.pending| + |t.before| + |t.during|;
    if 0 < queued <= |marks'| then marks'[|marks'| - queued] else 0
  }

  /** The invocation of a call's handler. */
  function Runs<V>(pc: PendingCall<V>): Event<V> {
    Activity(ActivityInput(pc.key, pc.input, Some(pc.req), ""))
  }

  lemma {:induction false} AcceptedCount<V>(w: Wf<V>, arrivals: seq<Arrival<V>>)
    requires AcceptAll(w, arrivals).Some?
    ensures |AcceptAll(w, arrivals).value.pending| == |w.pending| + |arrivals|
    ensures w.pending <= AcceptAll(w, arrivals).value.pending
    decreases |arrivals|
  {
    if arrivals != [] {
      AcceptedCount(Accept(w, arrivals[0]), arrivals[1..]);
    }
  }

  /** A call runs on the input of the last case with its key among all waits, since the last cut, that had begun
      when it was accepted. So it runs on the input that the current wait has for it exactly if the current wait
      awaits it and either it came in this wait, nothing being queued before, or the input that was last
      registered when it came is the same. */
  lemma CallRunsOnLastAwaited<V>(reg: Recovery, input: WorkflowInput<V>, turns: seq<Turn<V>>, t: Turn<V>)
    requires Unique(input.queries) && RunWorkflow(reg, Begin(input, [], [], []), turns).Next?
    requires var w := RunWorkflow(reg, Begin(input, [], [], []), turns).wf;
      !Iterate(reg, w, t).Impossible? && CallTaken(reg, w, t).Some?
    ensures var w0 := Begin(input, [], [], []);
      var w, awaited := RunWorkflow(reg, w0, turns).wf, Awaited(reg, w0, turns);
      var mark := MarkIn(reg, awaited, Marks(reg, w0, turns), w, t);
      var (v, cases) := AtSelector(reg, w, t).value;
      var pc := CallTaken(reg, w, t).value;
      && Iterate(reg, w, t).Next? && v.log + [Runs(pc)] <= Iterate(reg, w, t).wf.log
      && RunsOnLast(awaited + cases, mark, pc)
      && (mark == |awaited + cases| <==> v.pending == [])
      && (LastInput(cases, pc.key) == Some(pc.input)
          <==> LastInput(cases, pc.key).Some?
               && (v.pending == [] || LastInput((awaited + cases)[..mark], pc.key) == LastInput(cases, pc.key)))
  {
    var w0 := Begin(input, [], [], []);
    var w, awaited, marks := RunWorkflow(reg, w0, turns).wf, Awaited(reg, w0, turns), Marks(reg, w0, turns);
    QueuedOnLast(reg, input, turns);
    TakenLogs(reg, w, t);
    TakenTells(reg, awaited, marks, w, t);
  }

  lemma TakenTells<V>(reg: Recovery, awaited: seq<Case<V>>, marks: seq<nat>, w: Wf<V>, t: Turn<V>)
    requires WfInv(w) && Marked(awaited, marks, w) && CallTaken(reg, w, t).Some?
    ensures var (v, cases) := AtSelector(reg, w, t).value;
      var mark, pc := MarkIn(reg, awaited, marks, w, t), CallTaken(reg, w, t).value;
      && RunsOnLast(awaited + cases, mark, pc)
      && (mark == |awaited + cases| <==> v.pending == [])
      && (LastInput(cases, pc.key) == Some(pc.input)
          <==> LastInput(cases, pc.key).Some?
               && (v.pending == [] || LastInput((awaited + cases)[..mark], pc.key) == LastInput(cases, pc.key)))
  {
    var (v, cases) := AtSelector(reg, w, t).value;
    EnteringRegisters(reg, w, t);
    AcceptedCount(w, t.before);
    SelectorMarks(reg, awaited, marks, w, t);
    AcceptMarks(awaited + cases, marks + Times(|t.before|, |awaited|), v, t.during);
    TakenMark(awaited, marks, cases, w, v, t);
    MarkTells(awaited, cases, MarkIn(reg, awaited, marks, w, t), CallTaken(reg, w, t).value, v.pending == []);
  }

  lemma MarkTells<V>(awaited: seq<Case<V>>, cases: seq<Case<V>>, mark: nat, pc: PendingCall<V>, here: bool)
    requires RunsOnLast(awaited + cases, mark, pc) && (mark == |awaited + cases| <==> here)
    ensures LastInput(cases, pc.key) == Some(pc.input)
      <==> (LastInput(cases, pc.key).Some?
            && (here || LastInput((awaited + cases)[..mark], pc.key) == LastInput(cases, pc.key)))
  {
    if here {
      assert (awaited + cases)[..mark] == awaited + cases;
      LastInputConcat(awaited, cases, pc.key);
    }
  }

  lemma TakenLogs<V>(reg: Recovery, w: Wf<V>, t: Turn<V>)
    requires WfInv(w) && !Iterate(reg, w, t).Impossible? && CallTaken(reg, w, t).Some?
    ensures var (v, cases) := AtSelector(reg, w, t).value;
      && Iterate(reg, w, t).Next?
      && v.log + [Runs(CallTaken(reg, w, t).value)] <= Iterate(reg, w, t).wf.log
      && |v.pending| == |w.pending| + |t.before| && cases != []
  {
    EnteringRegisters(reg, w, t);
    var (v, cases) := AtSelector(reg, w, t).value;
    AcceptedCount(w, t.before);
    AcceptSpares(v, t.during);
    CallLogs(reg, AcceptAll(v, t.during).value, cases, t);
  }

  lemma CallLogs<V>(reg: Recovery, w: Wf<V>, cases: seq<Case<V>>, t: Turn<V>)
    requires w.notes > 0 && w.pending != [] && HandleCall(reg, w, cases, t).Some?
    ensures HandleCall(reg, w, cases, t).value.callOutput.Some?
    ensures w.log + [Runs(w.pending[0])] <= HandleCall(reg, w, cases, t).value.log
  {
    var pc := w.pending[0];
    var taken := w.(notes := w.notes - 1, pending := w.pending[1..],
                    log := w.log + Invocations(reg, pc.key, pc.input, Some(pc.req), t.callPrimary));
    AcceptSpares(taken, t.after);
  }

  /** The mark of the call at the head of the queue. */
  lemma TakenMark<V>(awaited: seq<Case<V>>, marks: seq<nat>, cases: seq<Case<V>>, w: Wf<V>, v: Wf<V>, t: Turn<V>)
    requires cases != [] && |v.pending| == |w.pending| + |t.before|
    requires AcceptAll(v, t.during).Some? && AcceptAll(v, t.during).value.pending != []
    requires forall i :: 0 <= i < |marks| ==> marks[i] <= |awaited|
    requires var marks' := marks + Times(|t.before|, |awaited|) + Times(|t.during|, |awaited + cases|);
      Marked(awaited + cases, marks', AcceptAll(v, t.during).value)
    ensures var marks' := marks + Times(|t.before|, |awaited|) + Times(|t.during|, |awaited + cases|);
      var queued := |w.pending| + |t.before| + |t.during|;
      && 0 < queued <= |marks'|
      && RunsOnLast(awaited + cases, marks'[|marks'| - queued], AcceptAll(v, t.during).value.pending[0])
      && (marks'[|marks'| - queued] == |awaited + cases| <==> v.pending == [])
  {
    AcceptedCount(v, t.during);
  }

  // ----- Two inputs on which it is not the current wait's -----

  // A routine that waits on a number, for a send that moves it and a call that asks about it.

  function AskKey(): string {
    CallKey("state", "ask", "answer", "result")
  }

  function MoveOrAsk(n: int): seq<Case<int>> {
    [ReceiveSend("state", "move", "result", n), ReceiveCall("state", "ask", "answer", "result", n)]
  }

  function WaitOn(n: int): Outcome<int> {
    Returned(Select(MoveOrAsk(n)), NoEffects())
  }

  lemma RegisterAsk(registered: map<string, int>, n: int)
    ensures Register(registered, MoveOrAsk(n)) == registered[AskKey() := n]
  {
    var cases := MoveOrAsk(n);
    assert cases[1..] == [cases[1]] && cases[1..][1..] == [] && cases[1].callName == "ask";
    assert Register(registered[AskKey() := n], []) == registered[AskKey() := n];
    assert Register(registered, [cases[1]]) == Register(registered[AskKey() := n], [cases[1]][1..]);
  }

  /** A call can run on an input that the routine has left behind: accepted while the routine waits on 0, with a
      send taking the routine to 1 before it is taken up, it is run on 0 although the wait is on 1. */
  lemma CallInputCanBeStale(reg: Recovery, w: Wf<int>, req: int) returns (first: Turn<int>, second: Turn<int>)
    requires w.callOutput.None? && w.pending == [] && w.notes == 0
    requires w.key in reg && SendKey("state", "move", "result") in reg && AskKey() in reg
    ensures Iterate(reg, w, first).Next? && Iterate(reg, Iterate(reg, w, first).wf, second).Next?
    ensures var w2 := Iterate(reg, Iterate(reg, w, first).wf, second).wf;
      && AskKey() in w2.registered && w2.registered[AskKey()] == 1
      && w2.log != [] && w2.log[|w2.log| - 1] == Activity(ActivityInput(AskKey(), 0, Some(req), ""))
  {
    var ask := Arrival(0, AskKey(), req, true);
    first := Turn([], WaitOn(0), WaitOn(0), [ask], PickSend(0, 1), WaitOn(0), WaitOn(0), [], false, []);
    second := Turn([], WaitOn(1), WaitOn(1), [], PickCall, WaitOn(0), WaitOn(0), [], false, []);
    var w1 := MovesOn(reg, w, first, 0);
    assert w1.registered == w.registered[AskKey() := 0];
    assert AcceptAll(w1, [ask]) == Some(Accept(w1, ask)) by { assert [ask][1..] == []; }
    var w1' := Iterate(reg, w, first).wf;
    assert w1'.pending == [PendingCall(0, AskKey(), req, 0)] && w1'.notes == 1;
    var w2 := MovesOn(reg, w1', second, 1);
    assert HasCallCase(MoveOrAsk(1)) by { assert MoveOrAsk(1)[1].callName == "ask"; }
    assert HandleCall(reg, w2, MoveOrAsk(1), second).Some?;
  }

  /** A handler that returns a wait on n, up to the selector. */
  lemma MovesOn(reg: Recovery, w: Wf<int>, t: Turn<int>, n: int) returns (w': Wf<int>)
    requires w.callOutput.None? && w.key in reg && t.before == [] && t.primary == WaitOn(n)
    ensures Iterate(reg, w, t) == RunSelector(reg, w', MoveOrAsk(n), t)
    ensures w'.callOutput.None? && w'.pending == w.pending && w'.notes == w.notes
    ensures w'.registered == w.registered[AskKey() := n]
  {
    var (w1, produced, e) := Produce(reg, w, t);
    var w2 := ApplyOutput(w1, produced.value);
    RegisterAsk(w2.registered, n);
    w' := w2.(registered := Register(w2.registered, MoveOrAsk(n)));
  }

  // A routine that answers a call until a timer fires, and then waits for another call.

  function BidKey(): string {
    CallKey("later", "bid", "answer", "result")
  }

  function AskForAWhile(): seq<Case<int>> {
    [After(1, "later", "result", 0), ReceiveCall("state", "ask", "answer", "result", 0)]
  }

  function Bid(): seq<Case<int>> {
    [ReceiveCall("later", "bid", "answer", "result", 1)]
  }

  lemma OtherKey()
    ensures AskKey() != BidKey() && LastInput(Bid(), AskKey()).None?
  {
    assert AskKey()[5] == 's' && BidKey()[5] == 'l';
    assert Bid()[..0] == [];
  }

  /** The first wait ends with its timer, and the call for it comes in the second. Whether the server suggests to
      continue as new after the first wait is left open. */
  function AskLate(req: int, cut: bool): seq<Turn<int>> {
    var asks, bids := Returned(Select(AskForAWhile()), NoEffects()), Returned(Select(Bid()), NoEffects());
    [Turn([], asks, asks, [], PickTimer(0), asks, asks, [], cut, []),
     Turn([], bids, bids, [Arrival(0, AskKey(), req, true)], PickCall, bids, bids, [], false, [])]
  }

  lemma RegisterOne(registered: map<string, int>, c: Case<int>, rest: seq<Case<int>>)
    requires c.callName != ""
    ensures Register(registered, [c] + rest) == Register(registered[c.handlerKey := c.input], rest)
  {
    assert ([c] + rest)[1..] == rest;
  }

  /** The first turn, up to the check: the timer's handler comes next, and the call can be made. */
  lemma AsksFirst(reg: Recovery, key: string, input: int, req: int, cut: bool) returns (w: Wf<int>)
    requires key in reg
    ensures Iterate(reg, Begin(WorkflowInput(key, input, []), [], [], []), AskLate(req, cut)[0])
      == CutCheck(w, AskLate(req, cut)[0])
    ensures w.key == HandlerKey("later", "result") && w.input == 0 && w.callOutput.None? && w.message.None?
    ensures w.pending == [] && w.notes == 0 && w.queries == [] && w.registered == map[AskKey() := 0]
  {
    var b, t := Begin(WorkflowInput(key, input, []), [], [], []), AskLate(req, cut)[0];
    var (w1, produced, e) := Produce(reg, b, t);
    var w2 := ApplyOutput(w1, produced.value);
    var cases := AskForAWhile();
    assert cases[1..] == [cases[1]] + [];
    RegisterOne(map[], cases[1], []);
    assert Register(w2.registered, cases) == Register(map[], cases[1..]);
    w := Goto(w2.(registered := Register(w2.registered, cases)), cases[0]);
  }

  /** What the second turn registers. */
  lemma BidsNext(reg: Recovery, w: Wf<int>, req: int, cut: bool) returns (v: Wf<int>)
    requires w.key in reg && w.callOutput.None? && w.pending == [] && w.notes == 0
    ensures AtSelector(reg, w, AskLate(req, cut)[1]) == Some((v, Bid()))
    ensures Iterate(reg, w, AskLate(req, cut)[1]) == RunSelector(reg, v, Bid(), AskLate(req, cut)[1])
    ensures v.registered == w.registered[BidKey() := 1] && v.callOutput.None? && v.pending == [] && v.notes == 0
  {
    var t := AskLate(req, cut)[1];
    var (w1, produced, e) := Produce(reg, w, t);
    var w2 := ApplyOutput(w1, produced.value);
    RegisterOne(w2.registered, Bid()[0], []);
    assert Bid() == [Bid()[0]] + [];
    v := w2.(registered := Register(w2.registered, Bid()));
  }

  /** A call can run although no case of the current wait has its key: an update handler of the first wait is still
      there in the second, and its call is taken up because the second awaits a call, of another kind. */
  lemma LeftoverUpdate(reg: Recovery, key: string, input: int, req: int)
    requires key in reg && HandlerKey("later", "result") in reg && AskKey() in reg
    ensures RunWorkflow(reg, Begin(WorkflowInput(key, input, []), [], [], []), AskLate(req, false)[..1]).Next?
    ensures var w0, turns := Begin(WorkflowInput(key, input, []), [], [], []), AskLate(req, false);
      var w := RunWorkflow(reg, w0, turns[..1]).wf;
      && Iterate(reg, w, turns[1]).Next?
      && CallTaken(reg, w, turns[1]) == Some(PendingCall(0, AskKey(), req, 0))
      && LastInput(Bid(), AskKey()).None? && Entered(reg, w, turns[1]) == Bid()
  {
    var w0, turns := Begin(WorkflowInput(key, input, []), [], [], []), AskLate(req, false);
    var w := AsksFirst(reg, key, input, req, false);
    assert turns[..1] == [turns[0]];
    OneTurn(reg, w0, turns[0]);
    var v := BidsNext(reg, w, req, false);
    OtherKey();
    var ask := turns[1].during[0];
    assert turns[1].during[1..] == [];
    assert AcceptAll(v, turns[1].during) == Some(Accept(v, ask));
    assert HasCallCase(Bid()) by { assert Bid()[0].callName == "bid"; }
    assert HandleCall(reg, Accept(v, ask), Bid(), turns[1]).Some?;
  }
}
