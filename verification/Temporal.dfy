/** The Temporal workflow loop (backend/temporal/workflow.go). One iteration is a function of the loop's
    variables and of a turn: what the activities return, which updates are accepted and when, which ready
    case the selector picks, and whether the server asks for continue-as-new. */
module Temporal {
  import opened Wrappers
  import opened Queries
  import opened Durable

  // ----- Activities -----

  datatype ActivityInput<V> = ActivityInput(key: string, input: V, message: Option<V>, error: string)

  datatype ActivityOutput<V> = ActivityOutput(done: bool, result: Option<V>, continuation: Option<seq<Case<V>>>,
                                              effects: Effects<V>, callResponse: Option<V>)

  /** RunHandler: what the activity makes of a runner's output. */
  function ToActivity<V>(out: RunOutput<V>, eff: Effects<V>): ActivityOutput<V> {
    if out.done then ActivityOutput(true, out.result, None, eff, out.callResponse)
    else ActivityOutput(false, None, Some(out.cases), eff, out.callResponse)
  }

  /** Everything a workflow does that can be seen from outside, other than answering. */
  datatype Event<V> =
    | Activity(input: ActivityInput<V>)
    | ChildStarted(start: StartEntry<V>)
    | Signalled(send: SendEntry<V>)

  /** The activities that running a handler takes: the handler's, and the recovery handler's if the first
      failed and one is registered. */
  function Invocations<V>(reg: Recovery, key: string, input: V, msg: Option<V>, primary: Outcome<V>): seq<Event<V>> {
    [Activity(ActivityInput(key, input, msg, ""))]
    + if Recovers(reg, key, primary) then
        [Activity(ActivityInput(RecoveryKey(reg, key), input, msg, Attempt(reg, key, primary).error))]
      else []
  }

  function EffectEvents<V>(eff: Effects<V>): seq<Event<V>> {
    seq(|eff.starts|, i requires 0 <= i < |eff.starts| => ChildStarted(eff.starts[i]))
    + seq(|eff.sends|, i requires 0 <= i < |eff.sends| => Signalled(eff.sends[i]))
  }

  // ----- The loop's variables -----

  datatype PendingCall<V> = PendingCall(call: nat, key: string, req: V, input: V)
  datatype Response<V> = Value(result: Option<V>) | Error(error: string)
  datatype Answer<V> = Answer(call: nat, response: Response<V>)

  /** `notes` counts the notifications sent and not yet received. `installed` are the query handlers,
      `registered` the update handlers with the input each captured. `log`, `arrivals` and `answers` are
      histories. */
  datatype Wf<V> = Wf(
    key: string,
    input: V,
    message: Option<V>,
    callOutput: Option<ActivityOutput<V>>,
    pending: seq<PendingCall<V>>,
    notes: nat,
    queries: seq<QueryEntry<V>>,
    installed: map<string, V>,
    registered: map<string, V>,
    log: seq<Event<V>>,
    arrivals: seq<nat>,
    answers: seq<Answer<V>>)

  datatype WorkflowInput<V> = WorkflowInput(key: string, input: V, queries: seq<QueryEntry<V>>)

  /** The variables as an execution starts; the histories go on from earlier executions. */
  function Begin<V>(w: WorkflowInput<V>, log: seq<Event<V>>, arrivals: seq<nat>, answers: seq<Answer<V>>): Wf<V> {
    Wf(w.key, w.input, None, None, [], 0, w.queries, WriteAll(map[], w.queries), map[], log, arrivals, answers)
  }

  // ----- What the world decides -----

  /** An update. `notified`: whether the notification was delivered or dropped. */
  datatype Arrival<V> = Arrival(call: nat, key: string, req: V, notified: bool)

  datatype Pick<V> = PickTimer(idx: nat) | PickCall | PickSend(idx: nat, msg: V) | PickDefault(idx: nat)

  /** One iteration: the outcomes of the handler's activities; the updates accepted while they run
      (`before`), while the selector blocks (`during`) and while the activities of a call run (`after`); the
      selector's pick; whether to cut; and the calls drained before the cut, each with the updates accepted
      while it ran. */
  datatype Turn<V> = Turn(
    before: seq<Arrival<V>>, primary: Outcome<V>, recovery: Outcome<V>,
    during: seq<Arrival<V>>, pick: Pick<V>,
    callPrimary: Outcome<V>, callRecovery: Outcome<V>, after: seq<Arrival<V>>,
    cut: bool, drain: seq<(Outcome<V>, seq<Arrival<V>>)>)

  datatype WfResult<V> = Completed(result: Option<V>) | FailedWith(error: string)

  /** How an iteration ends. Panicked: an index out of range. Impossible: the turn picks a case that is not
      ready or has an update accepted that nobody registered. */
  datatype Ran<V> =
    | Next(wf: Wf<V>)
    | Ended(result: WfResult<V>, wf: Wf<V>)
    | Cut(wf: Wf<V>)
    | Panicked
    | Impossible

  // ----- One iteration -----

  function Accept<V>(w: Wf<V>, a: Arrival<V>): Wf<V>
    requires a.key in w.registered
  {
    w.(pending := w.pending + [PendingCall(a.call, a.key, a.req, w.registered[a.key])],
       notes := w.notes + (if a.notified then 1 else 0),
       arrivals := w.arrivals + [a.call])
  }

  function AcceptAll<V>(w: Wf<V>, arrivals: seq<Arrival<V>>): Option<Wf<V>>
    decreases |arrivals|
  {
    if arrivals == [] then Some(w)
    else if arrivals[0].key !in w.registered then None
    else AcceptAll(Accept(w, arrivals[0]), arrivals[1..])
  }

  /** Step 1: the output to process, from a call handled in the last iteration or from the activity. */
  function Produce<V>(reg: Recovery, w: Wf<V>, t: Turn<V>): (Wf<V>, Option<ActivityOutput<V>>, string) {
    if w.callOutput.Some? then (w.(callOutput := None), w.callOutput, "")
    else
      var ran := w.(log := w.log + Invocations(reg, w.key, w.input, w.message, t.primary), message := None);
      match Used(reg, w.key, t.primary, t.recovery)
      case Failed(e, _) => (ran, None, e)
      case Returned(out, eff) => (ran, Some(ToActivity(out, eff)), "")
  }

  /** Steps 2 to 4. */
  function ApplyOutput<V>(w: Wf<V>, out: ActivityOutput<V>): Wf<V> {
    w.(queries := Merge(w.queries, out.effects.queries),
       installed := WriteAll(w.installed, out.effects.queries),
       log := w.log + EffectEvents(out.effects))
  }

  function Register<V>(registered: map<string, V>, cases: seq<Case<V>>): map<string, V>
    decreases |cases|
  {
    if cases == [] then registered
    else
      var c := cases[0];
      Register(if c.callName == "" then registered else registered[c.handlerKey := c.input], cases[1..])
  }

  predicate HasCallCase<V>(cases: seq<Case<V>>) {
    exists i :: 0 <= i < |cases| && cases[i].callName != ""
  }

  function Goto<V>(w: Wf<V>, c: Case<V>): Wf<V> {
    w.(key := c.handlerKey, input := c.input)
  }

  /** The output that re-establishes a wait. */
  function SameWait<V>(cases: seq<Case<V>>): ActivityOutput<V> {
    ActivityOutput(false, None, Some(cases), NoEffects(), None)
  }

  /** The callback of a call notification: the first pending call is taken off the queue and handled. */
  function HandleCall<V>(reg: Recovery, w: Wf<V>, cases: seq<Case<V>>, t: Turn<V>): Option<Wf<V>>
    requires w.notes > 0 && w.pending != []
  {
    var pc := w.pending[0];
    var taken := w.(notes := w.notes - 1, pending := w.pending[1..],
                    log := w.log + Invocations(reg, pc.key, pc.input, Some(pc.req), t.callPrimary));
    match AcceptAll(taken, t.after)
    case None => None
    case Some(w') =>
      match Used(reg, pc.key, t.callPrimary, t.callRecovery)
      case Failed(e, _) =>
        Some(w'.(answers := w'.answers + [Answer(pc.call, Error(e))], callOutput := Some(SameWait(cases))))
      case Returned(out, eff) =>
        Some(w'.(answers := w'.answers + [Answer(pc.call, Value(out.callResponse))],
                 callOutput := Some(ToActivity(out, eff))))
  }

  /** The selector, then the check for continue-as-new. */
  function RunSelector<V>(reg: Recovery, w: Wf<V>, cases: seq<Case<V>>, t: Turn<V>): Ran<V> {
    match AcceptAll(w, t.during)
    case None => Impossible
    case Some(w') => Picked(reg, w', cases, t)
  }

  /** The callback of the case that the selector picks. */
  function Picked<V>(reg: Recovery, w: Wf<V>, cases: seq<Case<V>>, t: Turn<V>): Ran<V> {
    match t.pick
    case PickTimer(i) =>
      if i < |cases| && cases[i].timer.Some? then CutCheck(Goto(w, cases[i]), t)
      else Impossible
    case PickSend(i, m) =>
      if i < |cases| && cases[i].sendName != "" then CutCheck(Goto(w, cases[i]).(message := Some(m)), t) else Impossible
    case PickDefault(i) =>
      if i < |cases| && cases[i].immediate then CutCheck(Goto(w, cases[i]), t) else Impossible
    case PickCall =>
      if !HasCallCase(cases) || w.notes == 0 then Impossible
      else if w.pending == [] then Panicked
      else
        var r := HandleCall(reg, w, cases, t);
        if r.Some? then CutCheck(r.value, t) else Impossible
  }

  /** The calls still queued are run before a cut, without recovery; an output that has cases sends the
      workflow to the first of them. */
  function Drain<V>(w: Wf<V>, steps: seq<(Outcome<V>, seq<Arrival<V>>)>): Option<Wf<V>>
    decreases |steps|
  {
    if w.pending == [] then (if steps == [] then Some(w) else None)
    else if steps == [] then None
    else
      var pc := w.pending[0];
      var taken := w.(pending := w.pending[1..],
                      log := w.log + [Activity(ActivityInput(pc.key, pc.input, Some(pc.req), ""))]);
      match AcceptAll(taken, steps[0].1)
      case None => None
      case Some(w') => Drain(Drained(w', pc, steps[0].0), steps[1..])
  }

  function Drained<V>(w: Wf<V>, pc: PendingCall<V>, outcome: Outcome<V>): Wf<V> {
    match outcome
    case Failed(e, _) => w.(answers := w.answers + [Answer(pc.call, Error(e))])
    case Returned(out, _) =>
      var answered := w.(answers := w.answers + [Answer(pc.call, Value(out.callResponse))]);
      if !out.done && out.cases != [] then Goto(answered, out.cases[0]) else answered
  }

  function CutCheck<V>(w: Wf<V>, t: Turn<V>): Ran<V> {
    if w.callOutput.None? && t.cut then
      var r := Drain(w, t.drain);
      if r.Some? then Cut(r.value) else Impossible
    else Next(w)
  }

  function NoCases(key: string): string {
    "handler " + key + " returned no continuation cases and is not done"
  }

  /** One iteration of the main loop. */
  function Iterate<V>(reg: Recovery, w: Wf<V>, t: Turn<V>): Ran<V> {
    match AcceptAll(w, t.before)
    case None => Impossible
    case Some(w0) =>
      var (w1, produced, e) := Produce(reg, w0, t);
      match produced
      case None => Ended(FailedWith(e), w1)
      case Some(out) => Interpret(reg, ApplyOutput(w1, out), out, t)
  }

  /** Steps 5 and 6. */
  function Interpret<V>(reg: Recovery, w: Wf<V>, out: ActivityOutput<V>, t: Turn<V>): Ran<V> {
    if out.done then Ended(Completed(out.result), w)
    else if out.continuation.None? || out.continuation.value == [] then Ended(FailedWith(NoCases(w.key)), w)
    else
      var cases := out.continuation.value;
      if IsContinue(cases) then CutCheck(Goto(w, cases[0]), t)
      else RunSelector(reg, w.(registered := Register(w.registered, cases)), cases, t)
  }

  /** What continue-as-new passes on. */
  function Resume<V>(w: Wf<V>): Wf<V> {
    Begin(WorkflowInput(w.key, w.input, w.queries), w.log, w.arrivals, w.answers)
  }

  /** Any number of iterations, each cut restarting the workflow from what continue-as-new passes on; turns
      after the workflow has ended are not taken. */
  function RunWorkflow<V>(reg: Recovery, w: Wf<V>, turns: seq<Turn<V>>): Ran<V> {
    if turns == [] then Next(w)
    else
      match RunWorkflow(reg, w, turns[..|turns| - 1])
      case Next(w') =>
        (match Iterate(reg, w', turns[|turns| - 1])
         case Cut(w'') => Next(Resume(w''))
         case r => r)
      case r => r
  }
}
