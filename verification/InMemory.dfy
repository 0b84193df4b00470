/** The in-memory runtime (backend/inmemory/runtime.go, client.go) as a machine over a map of
    instances. A label is one atomic action of some goroutine, of a client or of the clock; a run is any
    sequence of labels, so that every interleaving is covered. What handlers return is part of the
    label: nothing is assumed of them. */
module InMemory {
  import opened Keys
  import opened Wrappers
  import opened Queries
  import opened Durable
  import opened Mailbox

  datatype RoutineResult<V> = Success(result: Option<V>) | Failure(error: string)

  /** One execution of runHandler, as history records it: why it ran, on what, and what the primary
      handler returned. The recovery outcome means something only if the recovery handler was invoked. */
  datatype Run<V> = Run(firing: Firing, key: string, input: V, msg: Option<V>,
                        primary: Outcome<V>, recovery: Outcome<V>)

  /** Where a goroutine is in runInstance. */
  datatype Phase<V> =
    | Handling(firing: Firing, key: string, input: V, msg: Option<V>)
    | Applying(starts: seq<StartEntry<V>>, sends: seq<SendEntry<V>>, output: RunOutput<V>, firing: Firing)
    | Waiting(wait: Wait<V>)
    | Finished(outcome: RoutineResult<V>)

  /** A send that found no target, and the run that asked for it. */
  datatype Drop<V> = Drop(run: int, entry: SendEntry<V>)

  /** An instance. `key`, `input` and `parent` say how it was started; `runs` and `drops` are histories. */
  datatype Inst<V> = Inst(key: string, input: V, parent: Origin, phase: Phase<V>, box: Box<V>,
                          queries: map<string, V>, runs: seq<Run<V>>, drops: seq<Drop<V>>)

  /** `calls` lists the target of every call made so far; a call's position names its response channel. */
  datatype System<V> = System(insts: map<string, Inst<V>>, now: int, calls: seq<string>)

  function EmptySystem<V>(now: int): System<V> {
    System(map[], now, [])
  }

  /** The actions that change only the goroutine's own instance. */
  datatype Action<V> =
    | Handle(primary: Outcome<V>, recovery: Outcome<V>)
    | Settle
    | WaitOn
    | Choose(choice: Choice)

  datatype Label<V> =
    | Tick(elapsed: nat)
    | Go(id: string, kind: string, resultKind: string, input: V)
    | Send(id: string, key: string, msg: V)
    | Call(id: string, callName: string, handlerKey: string, req: V)
    | Apply(id: string)
    | Act(id: string, action: Action<V>)

  // ----- Actions of one goroutine -----

  function ReplyTo(firing: Firing): Option<nat> {
    match firing
    case ByCall(_, call) => Some(call)
    case _ => None
  }

  /** Puts a response on the channel of the call that the current run answers, if any. */
  function Respond<V>(b: Box<V>, firing: Firing, resp: CallResp<V>): Box<V> {
    match ReplyTo(firing)
    case Some(call) => b.(replied := b.replied + [Reply(call, resp)])
    case None => b
  }

  /** runHandler and what follows it when it fails; a successful run goes on to its effects, of which
      the query results are merged at once. */
  function HandleStep<V>(reg: Recovery, i: Inst<V>, primary: Outcome<V>, recovery: Outcome<V>): Inst<V>
    requires i.phase.Handling?
  {
    var p := i.phase;
    var ran := i.(runs := i.runs + [Run(p.firing, p.key, p.input, p.msg, primary, recovery)]);
    match Used(reg, p.key, primary, recovery)
    case Failed(e, _) => ran.(phase := Finished(Failure(e)), box := Respond(i.box, p.firing, Err(e)))
    case Returned(out, eff) =>
      ran.(phase := Applying(eff.starts, eff.sends, out, p.firing), queries := WriteAll(i.queries, eff.queries))
  }

  /** After the effects: answer the caller, then finish or look for the next case. */
  function SettleStep<V>(i: Inst<V>, now: int): Inst<V>
    requires i.phase.Applying?
  {
    var out := i.phase.output;
    var answered := i.(box := Respond(i.box, i.phase.firing, Ok(out.callResponse)));
    if out.done then answered.(phase := Finished(Success(out.result)))
    else if IsContinue(out.cases) then
      answered.(phase := Handling(ByDefault(0), out.cases[0].handlerKey, out.cases[0].input, None))
    else answered.(phase := Waiting(EnterWait(out.cases, now)))
  }

  function CaseIndex(firing: Firing): Option<nat> {
    match firing
    case ByStart => None
    case ByTimer(i, _, _) => Some(i)
    case BySend(i) => Some(i)
    case ByCall(i, _) => Some(i)
    case ByDefault(i) => Some(i)
  }

  /** After a step of waitForCase: stay in the wait, or take up the handler of the case that fired. */
  function AfterWait<V>(i: Inst<V>, step: (Box<V>, Progress<V>)): Inst<V>
    requires i.phase.Waiting?
  {
    var w := i.phase.wait;
    match step.1
    case Pass(pc) => i.(box := step.0, phase := Waiting(w.(pc := pc)))
    case Fire(firing, msg) =>
      var c := CaseIndex(firing);
      if c.Some? && c.value < |w.cases| then
        i.(box := step.0, phase := Handling(firing, w.cases[c.value].handlerKey, w.cases[c.value].input, msg))
      else i
  }

  /** One action of a goroutine on its own instance; None if it is not at that point. */
  function Acted<V>(reg: Recovery, now: int, i: Inst<V>, a: Action<V>): Option<Inst<V>> {
    match a
    case Handle(primary, recovery) =>
      if i.phase.Handling? then Some(HandleStep(reg, i, primary, recovery)) else None
    case Settle =>
      if i.phase.Applying? && i.phase.starts == [] && i.phase.sends == [] then Some(SettleStep(i, now)) else None
    case WaitOn =>
      if i.phase.Waiting? && i.phase.wait.pc != Block then Some(AfterWait(i, WaitStep(i.box, i.phase.wait, now)))
      else None
    case Choose(choice) =>
      if i.phase.Waiting? && i.phase.wait.pc == Block && Ready(i.box, i.phase.wait, now, choice) then
        Some(AfterWait(i, BlockStep(i.box, i.phase.wait, now, choice)))
      else None
  }

  // ----- Actions on the map of instances -----

  function NewInst<V>(key: string, input: V, parent: Origin): Inst<V> {
    Inst(key, input, parent, Handling(ByStart, key, input, None), EmptyBox(), map[], [], [])
  }

  /** start: an id that is taken is left alone. */
  function Start<V>(insts: map<string, Inst<V>>, parent: Origin, e: StartEntry<V>): map<string, Inst<V>> {
    if e.routineID in insts then insts
    else insts[e.routineID := NewInst(StartKey(e), e.input, parent)]
  }

  function Deliver<V>(insts: map<string, Inst<V>>, to: string, origin: Origin, m: SendMsg<V>): map<string, Inst<V>>
    requires to in insts
  {
    insts[to := insts[to].(box := Enqueue(insts[to].box, origin, m))]
  }

  predicate HasRoom<V>(insts: map<string, Inst<V>>, to: string)
    requires to in insts
  {
    |insts[to].box.sendCh| < CAPACITY
  }

  /** Some effect is left to apply. */
  predicate Busy<V>(i: Inst<V>) {
    i.phase.Applying? && (i.phase.starts != [] || i.phase.sends != [])
  }

  /** The next action of instance `id` when it is applying effects. None: it is blocked on a full channel. */
  function ApplyOne<V>(insts: map<string, Inst<V>>, id: string): Option<map<string, Inst<V>>>
    requires id in insts && Busy(insts[id])
  {
    var i := insts[id];
    if i.phase.starts != [] then
      Some(Start(insts[id := i.(phase := i.phase.(starts := i.phase.starts[1..]))], Routine(id), i.phase.starts[0]))
    else
      var e := i.phase.sends[0];
      var popped := i.(phase := i.phase.(sends := i.phase.sends[1..]));
      if e.routineID !in insts then Some(insts[id := popped.(drops := i.drops + [Drop(|i.runs| - 1, e)])])
      else if !HasRoom(insts, e.routineID) then None
      else Some(Deliver(insts[id := popped], e.routineID, Routine(id), SendMsg(EntryKey(e), e.msg)))
  }

  // ----- The machine -----

  function MadeCall<V>(s: System<V>, id: string, callName: string, handlerKey: string, req: V): System<V>
    requires id in s.insts
  {
    var i := s.insts[id];
    s.(insts := s.insts[id := i.(box := Offer(i.box, CallReq(|s.calls|, callName, handlerKey, req)))],
       calls := s.calls + [id])
  }

  /** One atomic action; None if it is not enabled. */
  function Step<V>(reg: Recovery, s: System<V>, l: Label<V>): Option<System<V>> {
    match l
    case Tick(elapsed) => Some(s.(now := s.now + elapsed))
    case Go(id, kind, resultKind, input) =>
      Some(s.(insts := Start(s.insts, Client, StartEntry(id, kind, resultKind, input))))
    case Send(id, key, msg) =>
      if id in s.insts && HasRoom(s.insts, id) then Some(s.(insts := Deliver(s.insts, id, Client, SendMsg(key, msg))))
      else None
    case Call(id, callName, handlerKey, req) =>
      if id in s.insts then Some(MadeCall(s, id, callName, handlerKey, req)) else None
    case Apply(id) =>
      if id in s.insts && Busy(s.insts[id]) && ApplyOne(s.insts, id).Some? then
        Some(s.(insts := ApplyOne(s.insts, id).value))
      else None
    case Act(id, action) =>
      if id in s.insts && Acted(reg, s.now, s.insts[id], action).Some? then
        Some(s.(insts := s.insts[id := Acted(reg, s.now, s.insts[id], action).value]))
      else None
  }

  /** The state after a sequence of actions; None if one of them was not enabled. */
  function Exec<V>(reg: Recovery, s: System<V>, labels: seq<Label<V>>): Option<System<V>> {
    if labels == [] then Some(s)
    else
      var before := Exec(reg, s, labels[..|labels| - 1]);
      if before.Some? then Step(reg, before.value, labels[|labels| - 1]) else None
  }
}
