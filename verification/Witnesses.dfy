/** Runs that show where the code does less than its documentation: each is a run of the in-memory runtime from its
    start, or of a workflow from its start. */
module Witnesses {
  import opened Keys
  import opened Wrappers
  import opened Queries
  import opened Durable
  import opened Mailbox
  import opened InMemory
  import opened Routing
  import opened Reachable
  import opened WaitLoop
  import opened Priorities
  import opened Driving
  import Temporal

  const ID := "routine"

  function SendCaseFor(kind: string, n: int): Case<int> {
    ReceiveSend("state", kind, "result", n)
  }

  function MsgKey(kind: string): string {
    SendKey("state", kind, "result")
  }

  function Registry(): Recovery {
    map[HandlerKey("start", "result") := "", MsgKey("a") := ""]
  }

  lemma KeysDiffer()
    ensures MsgKey("a") != MsgKey("b") && MsgKey("a") != HandlerKey("start", "result")
  {
    assert MsgKey("a")[11] == 'a' && MsgKey("b")[11] == 'b' && HandlerKey("start", "result")[0] == 'h';
  }

  /** A system of one instance. */
  function Alone(i: Inst<int>, now: int, calls: seq<string>): System<int> {
    System(map[ID := i], now, calls)
  }

  /** The instance has started and waits on these cases; nothing has happened since. */
  lemma Entered(cases: seq<Case<int>>) returns (labels: seq<Label<int>>, s: System<int>, i: Inst<int>)
    requires !IsContinue(cases)
    ensures Reached(Registry(), 0, labels, s) && s == Alone(i, 0, [])
    ensures i.phase == Waiting(EnterWait(cases, 0)) && i.box == EmptyBox()
  {
    labels, s := DriveGo<int>(Registry(), 0, ID, "start", "result", 0);
    var waits := Handle(Returned(Select(cases), NoEffects()), Failed("", NoEffects()));
    labels, s := Drive(Registry(), 0, labels, s, ID, waits);
    labels, s := Drive(Registry(), 0, labels, s, ID, Settle);
    i := s.insts[ID];
  }

  lemma OneTimer(c: Case<int>, d: Case<int>, now: int)
    requires c.timer.Some? && d.timer.None?
    ensures Deadlines([c, d], now) == [Timer(0, now + c.timer.value)]
  {
    assert [c, d][..1] == [c] && [c][..0] == [];
    assert Deadlines([c], now) == Deadlines<int>([], now) + [Timer(0, now + c.timer.value)];
  }

  lemma NoTimers(c: Case<int>, d: Case<int>, now: int)
    requires c.timer.None? && d.timer.None?
    ensures Deadlines([c, d], now) == []
  {
    assert [c, d][..1] == [c] && [c][..0] == [];
    assert Deadlines([c], now) == Deadlines<int>([], now);
  }

  /** The next action fires a case out of turn. */
  ghost predicate FiresOutOfTurn(reg: Recovery, s: System<int>, id: string, a: Action<int>) {
    && id in s.insts && s.insts[id].phase.Waiting? && Acted(reg, s.now, s.insts[id], a).Some?
    && var i' := Acted(reg, s.now, s.insts[id], a).value;
       i'.phase.Handling? && OutOfTurn(s.insts[id].box, s.insts[id].phase.wait, s.now, i'.phase.firing)
  }

  // ----- A timer is passed over by the select -----

  function TimerOrSend(): seq<Case<int>> {
    [After(5, "state", "result", 0), SendCaseFor("a", 0)]
  }

  lemma BlockedOnTimerOrSend() returns (labels: seq<Label<int>>, s: System<int>)
    ensures Reached(Registry(), 0, labels, s) && s.now == 0 && ID in s.insts && NoMail(s.insts[ID].box)
    ensures s.insts[ID].phase == Waiting(EnterWait(TimerOrSend(), 0).(pc := Block))
    ensures s.insts[ID].phase.wait.timers == [Timer(0, 5)]
  {
    var cases := TimerOrSend();
    var i;
    labels, s, i := Entered(cases);
    OneTimer(cases[0], cases[1], 0);
    labels, s := DriveToTrySend(Registry(), 0, labels, s, ID);
    labels, s := DriveOn(Registry(), 0, labels, s, ID);
    labels, s := DriveOn(Registry(), 0, labels, s, ID);
  }

  /** What is on the channel makes no difference to the buffer. */
  lemma SendsBuffer(a: Box<int>, b: Box<int>, cases: seq<Case<int>>)
    requires a.buffered == b.buffered
    ensures BufferedCase(a, cases).Some? <==> BufferedCase(b, cases).Some?
  {
    assert forall key :: Buf(a, key) == Buf(b, key);
  }

  /** Nothing is buffered, the timer is due, and the select takes a send. */
  lemma SelectPassesTimer() returns (labels: seq<Label<int>>, s: System<int>)
    ensures Reached(Registry(), 0, labels, s) && FiresOutOfTurn(Registry(), s, ID, Choose(ChooseSend))
    ensures TimerDue(s.insts[ID].phase.wait, s.now) && BufferedCase(s.insts[ID].box, s.insts[ID].phase.wait.cases).None?
  {
    var cases := TimerOrSend();
    labels, s := BlockedOnTimerOrSend();
    var quiet := s.insts[ID].box;
    labels, s := DriveTick(Registry(), 0, labels, s, 5);
    labels, s := DriveSend(Registry(), 0, labels, s, ID, SendMsg(MsgKey("a"), 7));
    assert s.insts[ID].phase.wait.timers[0].deadline <= s.now;
    assert s.insts[ID].box.sendCh[0].key == MsgKey("a");
    FindsSend(cases, 1, "a");
    SendsBuffer(quiet, s.insts[ID].box, cases);
  }

  // ----- A timer is passed over by a buffered send -----

  lemma FindsSend(cases: seq<Case<int>>, k: nat, kind: string)
    requires k < |cases| && cases[k] == SendCaseFor(kind, cases[k].input) && kind != ""
    ensures SendCase(cases, MsgKey(kind)).Some?
  {
    assert Awaits(cases[k], MsgKey(kind));
  }

  /** A wait for "a", about to look at the channel. */
  lemma AwaitingA() returns (labels: seq<Label<int>>, s: System<int>)
    ensures Reached(Registry(), 0, labels, s) && s.now == 0 && ID in s.insts && NoMail(s.insts[ID].box)
    ensures s.insts[ID].phase == Waiting(EnterWait([SendCaseFor("a", 0)], 0).(pc := TrySend))
    ensures s.insts[ID].phase.wait.timers == []
  {
    var i;
    var first := [SendCaseFor("a", 0)];
    labels, s, i := Entered(first);
    assert first[..0] == [] && i.phase.wait.timers == [];
    labels, s := DriveToTrySend(Registry(), 0, labels, s, ID);
  }

  lemma BStrayed(labels: seq<Label<int>>, s: System<int>) returns (labels': seq<Label<int>>, s': System<int>)
    requires Reached(Registry(), 0, labels, s) && s.now == 0 && ID in s.insts && NoMail(s.insts[ID].box)
    requires s.insts[ID].phase == Waiting(EnterWait([SendCaseFor("a", 0)], 0).(pc := TrySend))
    ensures Reached(Registry(), 0, labels', s') && s'.now == 0 && ID in s'.insts
    ensures s'.insts[ID].phase == Waiting(s.insts[ID].phase.wait.(pc := Fallback))
    ensures s'.insts[ID].box.sendCh == [SendMsg(MsgKey("a"), 2)] && Buf(s'.insts[ID].box, MsgKey("b")) == [1]
  {
    KeysDiffer();
    var first := [SendCaseFor("a", 0)];
    assert Buf(s.insts[ID].box, MsgKey("b")) == [];
    labels', s' := DriveSend(Registry(), 0, labels, s, ID, SendMsg(MsgKey("b"), 1));
    labels', s' := DriveSend(Registry(), 0, labels', s', ID, SendMsg(MsgKey("a"), 2));
    assert !Awaits(first[0], MsgKey("b"));
    labels', s' := TakesStray(labels', s', first);
  }

  /** The same with a message "b" buffered, and the handler of "a" about to run. */
  lemma HandlingA() returns (labels: seq<Label<int>>, s: System<int>)
    ensures Reached(Registry(), 0, labels, s) && s.now == 0 && ID in s.insts
    ensures s.insts[ID].phase == Handling(BySend(0), MsgKey("a"), 0, Some(2))
    ensures Buf(s.insts[ID].box, MsgKey("b")) == [1]
  {
    KeysDiffer();
    var first := [SendCaseFor("a", 0)];
    labels, s := AwaitingA();
    labels, s := BStrayed(labels, s);
    FindsSend(first, 0, "a");
    labels, s := DriveOn(Registry(), 0, labels, s, ID);
    labels, s := Drive(Registry(), 0, labels, s, ID, Choose(ChooseSend));
  }

  /** A wait entered with a message "b" buffered. */
  lemma WithBuffered(cases: seq<Case<int>>) returns (labels: seq<Label<int>>, s: System<int>)
    requires !IsContinue(cases)
    ensures Reached(Registry(), 0, labels, s) && s.now == 0 && ID in s.insts
    ensures s.insts[ID].phase == Waiting(EnterWait(cases, 0))
    ensures Buf(s.insts[ID].box, MsgKey("b")) == [1]
  {
    labels, s := HandlingA();
    var waits := Handle(Returned(Select(cases), NoEffects()), Failed("", NoEffects()));
    labels, s := Drive(Registry(), 0, labels, s, ID, waits);
    labels, s := Drive(Registry(), 0, labels, s, ID, Settle);
  }

  /** The head of the channel is not awaited and goes to the buffer. */
  lemma TakesStray(labels: seq<Label<int>>, s: System<int>, cases: seq<Case<int>>)
    returns (labels': seq<Label<int>>, s': System<int>)
    requires Reached(Registry(), 0, labels, s) && ID in s.insts && s.insts[ID].phase.Waiting?
    requires s.insts[ID].phase.wait.pc == TrySend && s.insts[ID].phase.wait.cases == cases
    requires |s.insts[ID].box.sendCh| > 0 && s.insts[ID].box.sendCh[0].key == MsgKey("b")
    requires Buf(s.insts[ID].box, MsgKey("b")) == [] && SendCase(cases, MsgKey("b")).None?
    ensures Reached(Registry(), 0, labels', s') && s'.now == s.now && s'.insts.Keys == s.insts.Keys
    ensures var i, i' := s.insts[ID], s'.insts[ID];
      && i'.phase == Waiting(i.phase.wait.(pc := Fallback)) && i'.runs == i.runs
      && i'.box.sendCh == i.box.sendCh[1..] && Buf(i'.box, MsgKey("b")) == [i.box.sendCh[0].msg]
  {
    labels', s' := Drive(Registry(), 0, labels, s, ID, WaitOn);
  }

  /** The timer is due, and a buffered send fires. */
  lemma BufferedPassesTimer() returns (labels: seq<Label<int>>, s: System<int>)
    ensures Reached(Registry(), 0, labels, s) && FiresOutOfTurn(Registry(), s, ID, WaitOn)
    ensures s.insts[ID].phase.wait.pc == Scan && TimerDue(s.insts[ID].phase.wait, s.now)
  {
    var cases := [After(5, "state", "result", 0), SendCaseFor("b", 0)];
    labels, s := WithBuffered(cases);
    OneTimer(cases[0], cases[1], 0);
    labels, s := DriveTick(Registry(), 0, labels, s, 5);
    assert s.insts[ID].phase.wait.timers[0].deadline <= s.now;
    assert cases[1].sendName != "" && cases[1].handlerKey == MsgKey("b");
    assert BufferedCase(s.insts[ID].box, cases).Some?;
  }

  // ----- Default passes over what is hidden -----

  /** An awaited message is on the channel behind one that is not awaited, and Default fires. */
  lemma DefaultPassesSend() returns (labels: seq<Label<int>>, s: System<int>)
    ensures Reached(Registry(), 0, labels, s) && FiresOutOfTurn(Registry(), s, ID, WaitOn)
    ensures s.insts[ID].phase.wait.pc == Fallback && AwaitedOnChannel(s.insts[ID].box, s.insts[ID].phase.wait.cases)
  {
    var cases := [SendCaseFor("a", 0), Immediate("state", "result", 0)];
    var i;
    KeysDiffer();
    labels, s, i := Entered(cases);
    NoTimers(cases[0], cases[1], 0);
    labels, s := DriveToTrySend(Registry(), 0, labels, s, ID);
    labels, s := DriveSend(Registry(), 0, labels, s, ID, SendMsg(MsgKey("b"), 1));
    labels, s := DriveSend(Registry(), 0, labels, s, ID, SendMsg(MsgKey("a"), 2));
    labels, s := TakesStray(labels, s, cases);
    FindsSend(cases, 0, "a");
    assert s.insts[ID].box.sendCh[0].key == MsgKey("a");
    assert cases[1].immediate;
  }

  function AskOrGoOn(): seq<Case<int>> {
    [ReceiveCall("state", "ask", "answer", "result", 0), Immediate("state", "result", 0)]
  }

  lemma AsksMatch()
    ensures CallCase(AskOrGoOn(), "other").None? && CallCase(AskOrGoOn(), "ask") == Some(0) && HasCall(AskOrGoOn())
    ensures DefaultCase(AskOrGoOn()) == Some(1)
  {
    var cases := AskOrGoOn();
    assert cases[0].callName == "ask" && cases[1].callName == "" && "ask" != "other";
    assert !cases[0].immediate && cases[1].immediate;
  }

  /** The wait for a call or Default, about to look for callers. */
  lemma AwaitingAsk() returns (labels: seq<Label<int>>, s: System<int>)
    ensures Reached(Registry(), 0, labels, s) && s.now == 0 && ID in s.insts && NoMail(s.insts[ID].box) && s.calls == []
    ensures s.insts[ID].phase == Waiting(EnterWait(AskOrGoOn(), 0).(pc := TryCall))
    ensures s.insts[ID].phase.wait.timers == []
  {
    var cases := AskOrGoOn();
    var i;
    labels, s, i := Entered(cases);
    NoTimers(cases[0], cases[1], 0);
    labels, s := DriveOn(Registry(), 0, labels, s, ID);
    labels, s := DriveOn(Registry(), 0, labels, s, ID);
  }

  /** The first caller is refused, and the second is passed by for now. */
  lemma OtherRefused() returns (labels: seq<Label<int>>, s: System<int>)
    ensures Reached(Registry(), 0, labels, s) && s.now == 0 && ID in s.insts
    ensures s.insts[ID].phase == Waiting(EnterWait(AskOrGoOn(), 0).(pc := TrySend))
    ensures s.insts[ID].phase.wait.timers == []
    ensures s.insts[ID].box.sendCh == []
    ensures |s.insts[ID].box.callers| == 1 && s.insts[ID].box.callers[0].callName == "ask"
  {
    AsksMatch();
    labels, s := AwaitingAsk();
    labels, s := DriveCall(Registry(), 0, labels, s, ID, "other", "", 1);
    labels, s := DriveCall(Registry(), 0, labels, s, ID, "ask", "", 2);
    labels, s := Drive(Registry(), 0, labels, s, ID, WaitOn);
  }

  /** An awaited caller is behind one that is not awaited, and Default fires. */
  lemma DefaultPassesCall() returns (labels: seq<Label<int>>, s: System<int>)
    ensures Reached(Registry(), 0, labels, s) && FiresOutOfTurn(Registry(), s, ID, WaitOn)
    ensures s.insts[ID].phase.wait.pc == Fallback && CallerAwaited(s.insts[ID].box, s.insts[ID].phase.wait.cases)
  {
    AsksMatch();
    labels, s := OtherRefused();
    labels, s := DriveOn(Registry(), 0, labels, s, ID);
    assert s.insts[ID].box.callers[0].callName == "ask";
  }

  // ----- A call is passed over by the select -----

  function AskOrSend(): seq<Case<int>> {
    [ReceiveCall("state", "ask", "answer", "result", 0), SendCaseFor("a", 0)]
  }

  lemma AskOrSendMatch()
    ensures CallCase(AskOrSend(), "ask") == Some(0) && DefaultCase(AskOrSend()).None?
  {
    var cases := AskOrSend();
    assert cases[0].callName == "ask" && !cases[0].immediate && !cases[1].immediate;
  }

  lemma BlockedOnAskOrSend() returns (labels: seq<Label<int>>, s: System<int>)
    ensures Reached(Registry(), 0, labels, s) && s.now == 0 && ID in s.insts && NoMail(s.insts[ID].box)
    ensures s.insts[ID].phase == Waiting(EnterWait(AskOrSend(), 0).(pc := Block))
  {
    var cases := AskOrSend();
    var i;
    AskOrSendMatch();
    labels, s, i := Entered(cases);
    NoTimers(cases[0], cases[1], 0);
    labels, s := DriveToTrySend(Registry(), 0, labels, s, ID);
    labels, s := DriveOn(Registry(), 0, labels, s, ID);
    labels, s := DriveOn(Registry(), 0, labels, s, ID);
  }

  /** A caller and a send come while the select blocks, and it takes the send. */
  lemma SelectPassesCall() returns (labels: seq<Label<int>>, s: System<int>)
    ensures Reached(Registry(), 0, labels, s) && FiresOutOfTurn(Registry(), s, ID, Choose(ChooseSend))
    ensures CallerAwaited(s.insts[ID].box, s.insts[ID].phase.wait.cases)
  {
    AskOrSendMatch();
    labels, s := BlockedOnAskOrSend();
    labels, s := DriveCall(Registry(), 0, labels, s, ID, "ask", CallKey("state", "ask", "answer", "result"), 1);
    labels, s := DriveSend(Registry(), 0, labels, s, ID, SendMsg(MsgKey("a"), 7));
    assert s.insts[ID].box.callers[0].callName == "ask";
    assert s.insts[ID].box.sendCh[0].key == MsgKey("a");
    FindsSend(AskOrSend(), 1, "a");
  }

  // ----- A call runs under another key -----

  /** A caller names the handler of another state that takes the same request, and the one at hand is run. */
  lemma CallRunsUnderAnotherKey() returns (labels: seq<Label<int>>, s: System<int>)
    ensures Reached(Registry(), 0, labels, s) && ID in s.insts && s.insts[ID].phase.Waiting?
    ensures s.insts[ID].box.callers != [] && Acted(Registry(), s.now, s.insts[ID], WaitOn).Some?
    ensures var req, i' := s.insts[ID].box.callers[0], Acted(Registry(), s.now, s.insts[ID], WaitOn).value;
      i'.phase.Handling? && i'.phase.firing == ByCall(0, req.call) && i'.phase.key != req.handlerKey
  {
    var cases := AskOrGoOn();
    AsksMatch();
    labels, s := AwaitingAsk();
    labels, s := DriveCall(Registry(), 0, labels, s, ID, "ask", CallKey("other", "ask", "answer", "result"), 1);
    assert cases[0].handlerKey == CallKey("state", "ask", "answer", "result");
    assert cases[0].handlerKey[5] == 's' && CallKey("other", "ask", "answer", "result")[5] == 'o';
  }

  // ----- Continue-as-new loses a message -----

  function Start(): Temporal.Wf<int> {
    Temporal.Begin(Temporal.WorkflowInput(HandlerKey("start", "result"), 0, []), [], [], [])
  }

  /** A turn in which the handler waits for "a" and the message 7 is picked. */
  function Receives(cut: bool): Temporal.Turn<int> {
    var waits := Returned(Select([SendCaseFor("a", 0), SendCaseFor("b", 0)]), NoEffects());
    Temporal.Turn([], waits, waits, [], Temporal.PickSend(0, 7), waits, waits, [], cut, [])
  }

  function Handles(input: int, msg: Option<int>): Temporal.Event<int> {
    Temporal.Activity(Temporal.ActivityInput(MsgKey("a"), input, msg, ""))
  }

  /** The turn that receives the message, up to the check. */
  lemma AtCheck(w: Temporal.Wf<int>, cut: bool) returns (w': Temporal.Wf<int>)
    requires w.callOutput.None? && w.pending == [] && w.key in Registry()
    ensures Temporal.Iterate(Registry(), w, Receives(cut)) == Temporal.CutCheck(w', Receives(cut))
    ensures w'.key == MsgKey("a") && w'.input == 0 && w'.message == Some(7) && w'.callOutput.None? && w'.pending == []
  {
    var t := Receives(cut);
    var (w1, produced, e) := Temporal.Produce(Registry(), w, t);
    var w2 := Temporal.ApplyOutput(w1, produced.value);
    var cases := produced.value.continuation.value;
    assert SendCaseFor("a", 0).sendName == "a" && SendCaseFor("a", 0).handlerKey == MsgKey("a");
    w' := Temporal.Goto(w2.(registered := Temporal.Register(w2.registered, cases)), cases[0]).(message := Some(7));
  }

  lemma Received(w: Temporal.Wf<int>, cut: bool)
    requires w.callOutput.None? && w.pending == [] && w.key in Registry()
    ensures var r := Temporal.Iterate(Registry(), w, Receives(cut));
      && (if cut then r.Cut? else r.Next? && r.wf.callOutput.None?)
      && r.wf.key == MsgKey("a") && r.wf.input == 0 && r.wf.message == Some(7) && r.wf.pending == []
  {
    var w' := AtCheck(w, cut);
  }

  lemma NextHandles(w: Temporal.Wf<int>)
    requires w.callOutput.None? && w.pending == [] && w.key == MsgKey("a") && w.input == 0
    ensures var r := Temporal.Iterate(Registry(), w, Receives(false));
      r.Next? && Handles(0, w.message) in r.wf.log
  {
    KeysDiffer();
    assert SendCaseFor("a", 0).sendName == "a";
    var (w1, produced, e) := Temporal.Produce(Registry(), w, Receives(false));
    assert w1.log[|w.log|] == Handles(0, w.message);
    assert Handles(0, w.message) in w1.log;
  }

  lemma TwoTurns(w: Temporal.Wf<int>, a: Temporal.Turn<int>, b: Temporal.Turn<int>)
    ensures Temporal.RunWorkflow(Registry(), w, [a]) == (match Temporal.Iterate(Registry(), w, a)
      case Cut(w') => Temporal.Next(Temporal.Resume(w'))
      case r => r)
    ensures Temporal.RunWorkflow(Registry(), w, [a]).Next? ==>
      Temporal.RunWorkflow(Registry(), w, [a, b])
        == (match Temporal.Iterate(Registry(), Temporal.RunWorkflow(Registry(), w, [a]).wf, b)
            case Cut(w') => Temporal.Next(Temporal.Resume(w'))
            case r => r)
  {
    assert [a][..0] == [] && [a, b][..1] == [a];
  }

  /** A message is picked; if the workflow is cut there, its handler is run without the message, and else with it. */
  lemma CutLosesMessage()
    ensures var cut := Temporal.RunWorkflow(Registry(), Start(), [Receives(true), Receives(false)]);
      cut.Next? && Handles(0, None) in cut.wf.log
    ensures var uncut := Temporal.RunWorkflow(Registry(), Start(), [Receives(false), Receives(false)]);
      uncut.Next? && Handles(0, Some(7)) in uncut.wf.log
  {
    Received(Start(), true);
    Received(Start(), false);
    TwoTurns(Start(), Receives(true), Receives(false));
    TwoTurns(Start(), Receives(false), Receives(false));
    NextHandles(Temporal.Resume(Temporal.Iterate(Registry(), Start(), Receives(true)).wf));
    NextHandles(Temporal.Iterate(Registry(), Start(), Receives(false)).wf);
  }
}
