/** The in-memory runtime as objects: the map of instances, starting, applying effects and the loop of
    runInstance, as moves of one goroutine and of the world around it. */
module RuntimeObject {
  import opened Wrappers
  import opened Queries
  import opened Durable
  import opened Mailbox
  import opened InMemory
  import opened History
  import opened Routing
  import opened Reachable
  import opened WaitLoop
  import opened Instances

  // ----- What one goroutine and the world around it do -----

  datatype Move<V> = Around(event: WorldEvent<V>) | Acts(action: Action<V>) | Applies

  /** The moves of the goroutine of instance `id`, and of the world on its channels and clock. */
  function Moved<V>(reg: Recovery, id: string, insts: map<string, Inst<V>>, now: int, m: Move<V>)
    : Option<(map<string, Inst<V>>, int)>
  {
    if id !in insts then None
    else
      var i := insts[id];
      match m
      case Around(Elapse(d)) => Some((insts, now + d))
      case Around(Arrive(origin, msg)) => Some((Deliver(insts, id, origin, msg), now))
      case Around(CallIn(req)) => Some((insts[id := i.(box := Offer(i.box, req))], now))
      case Around(Pause) => Some((insts, now))
      case Acts(a) =>
        if Acted(reg, now, i, a).Some? then Some((insts[id := Acted(reg, now, i, a).value], now)) else None
      case Applies =>
        if Busy(i) && ApplyOne(insts, id).Some? then Some((ApplyOne(insts, id).value, now)) else None
  }

  function MoveExec<V>(reg: Recovery, id: string, insts: map<string, Inst<V>>, now: int, moves: seq<Move<V>>)
    : Option<(map<string, Inst<V>>, int)>
  {
    if moves == [] then Some((insts, now))
    else
      var before := MoveExec(reg, id, insts, now, moves[..|moves| - 1]);
      if before.Some? then Moved(reg, id, before.value.0, before.value.1, moves[|moves| - 1]) else None
  }

  lemma MoveSnoc<V>(reg: Recovery, id: string, insts: map<string, Inst<V>>, now: int, moves: seq<Move<V>>, m: Move<V>)
    requires MoveExec(reg, id, insts, now, moves).Some?
    ensures MoveExec(reg, id, insts, now, moves + [m])
      == Moved(reg, id, MoveExec(reg, id, insts, now, moves).value.0, MoveExec(reg, id, insts, now, moves).value.1, m)
  {
    assert (moves + [m])[..|moves|] == moves;
  }

  /** The labels of the machine that a move is, if the world's part in it is a client's: sends come from clients and
      find room, a call carries the next call number. A pause is no step. */
  function LabelsOf<V>(s: System<V>, id: string, m: Move<V>): Option<seq<Label<V>>>
    requires id in s.insts
  {
    match m
    case Around(Elapse(d)) => Some([Tick(d)])
    case Around(Arrive(origin, msg)) =>
      if origin == Client && HasRoom(s.insts, id) then Some([Label.Send(id, msg.key, msg.msg)]) else None
    case Around(CallIn(req)) =>
      if req.call == |s.calls| then Some([Label.Call(id, req.callName, req.handlerKey, req.req)]) else None
    case Around(Pause) => Some([])
    case Acts(a) => Some([Act(id, a)])
    case Applies => Some([Apply(id)])
  }

  /** The same for many moves, each as it finds the machine. */
  function Labelled<V>(reg: Recovery, id: string, s: System<V>, moves: seq<Move<V>>): Option<seq<Label<V>>> {
    if moves == [] then Some([])
    else
      match Labelled(reg, id, s, moves[..|moves| - 1])
      case None => None
      case Some(labels) =>
        match Exec(reg, s, labels)
        case Some(mid) =>
          if id !in mid.insts then None
          else
            (match LabelsOf(mid, id, moves[|moves| - 1])
             case Some(more) => Some(labels + more)
             case None => None)
        case None => None
  }

  /** Every move is a step of the machine, with the same effect on the instances and the clock. */
  lemma MoveIsStep<V>(reg: Recovery, s: System<V>, id: string, m: Move<V>)
    requires id in s.insts && Moved(reg, id, s.insts, s.now, m).Some? && LabelsOf(s, id, m).Some?
    ensures |LabelsOf(s, id, m).value| <= 1
    ensures var labels, moved := LabelsOf(s, id, m).value, Moved(reg, id, s.insts, s.now, m).value;
      if labels == [] then (s.insts, s.now) == moved
      else Step(reg, s, labels[0]).Some?
           && (Step(reg, s, labels[0]).value.insts, Step(reg, s, labels[0]).value.now) == moved
  {
    if m.Around? && m.event.Arrive? {
      assert SendMsg(m.event.msg.key, m.event.msg.msg) == m.event.msg;
    }
    if m.Around? && m.event.CallIn? {
      var r := m.event.req;
      assert CallReq(r.call, r.callName, r.handlerKey, r.req) == r;
    }
  }

  /** The moves of a goroutine among clients are an execution of the machine, with the same effect. */
  lemma {:induction false} MovesAreExec<V>(reg: Recovery, id: string, s: System<V>, moves: seq<Move<V>>)
    requires MoveExec(reg, id, s.insts, s.now, moves).Some? && Labelled(reg, id, s, moves).Some?
    ensures Exec(reg, s, Labelled(reg, id, s, moves).value).Some?
    ensures var s' := Exec(reg, s, Labelled(reg, id, s, moves).value).value;
      MoveExec(reg, id, s.insts, s.now, moves) == Some((s'.insts, s'.now))
  {
    if moves != [] {
      var init, m := moves[..|moves| - 1], moves[|moves| - 1];
      MovesAreExec(reg, id, s, init);
      var labels := Labelled(reg, id, s, init).value;
      var mid := Exec(reg, s, labels).value;
      MoveIsStep(reg, mid, id, m);
      var more := LabelsOf(mid, id, m).value;
      if more == [] {
        assert labels + more == labels;
      } else {
        assert labels + more == labels + [more[0]];
        assert (labels + [more[0]])[..|labels|] == labels;
      }
    }
  }

  /** So whatever holds of every reachable state of the machine holds where they lead, if they set out from one. */
  lemma MovesReach<V>(reg: Recovery, now: int, past: seq<Label<V>>, id: string, s: System<V>, moves: seq<Move<V>>)
    returns (s': System<V>)
    requires Reached(reg, now, past, s)
    requires MoveExec(reg, id, s.insts, s.now, moves).Some? && Labelled(reg, id, s, moves).Some?
    ensures Reached(reg, now, past + Labelled(reg, id, s, moves).value, s')
    ensures MoveExec(reg, id, s.insts, s.now, moves) == Some((s'.insts, s'.now))
  {
    MovesAreExec(reg, id, s, moves);
    ExecConcat(reg, EmptySystem(now), past, Labelled(reg, id, s, moves).value);
    s' := Exec(reg, s, Labelled(reg, id, s, moves).value).value;
  }

  // ----- An execution of the wait loop, as moves -----

  function ToMove<V>(e: WaitEvent<V>): Move<V> {
    match e
    case World(event) => Around(event)
    case Stepped => Acts(WaitOn)
    case Chosen(choice) => Acts(Choose(choice))
  }

  function ToMoves<V>(trace: seq<WaitEvent<V>>): seq<Move<V>> {
    if trace == [] then [] else ToMoves(trace[..|trace| - 1]) + [ToMove(trace[|trace| - 1])]
  }

  lemma WaitNextMoves<V>(reg: Recovery, id: string, insts: map<string, Inst<V>>, i: Inst<V>, w: Wait<V>,
                         s: WaitState<V>, e: WaitEvent<V>)
    requires id in insts && insts[id] == During(i, w, s) && WaitNext(s, w, e).Some? && WaitStateInv(s, w)
    ensures var s' := WaitNext(s, w, e).value;
      Moved(reg, id, insts, s.now, ToMove(e)) == Some((insts[id := During(i, w, s')], s'.now))
  {
    assert insts[id := insts[id]] == insts;
    match e
    case World(event) => WorldMoves(reg, id, insts, i, w, s, event);
    case Stepped =>
      WaitNextKeeps(s, w, e);
      FiringNamesCase(w, WaitNext(s, w, e).value);
    case Chosen(_) =>
      WaitNextKeeps(s, w, e);
      FiringNamesCase(w, WaitNext(s, w, e).value);
  }

  /** In a good state of a wait, what has fired is one of its cases. */
  lemma FiringNamesCase<V>(w: Wait<V>, s: WaitState<V>)
    requires WaitStateInv(s, w)
    ensures s.progress.Fire? ==> CaseIndex(s.progress.firing).Some? && CaseIndex(s.progress.firing).value < |w.cases|
  {}

  lemma WorldMoves<V>(reg: Recovery, id: string, insts: map<string, Inst<V>>, i: Inst<V>, w: Wait<V>, s: WaitState<V>,
                      event: WorldEvent<V>)
    requires id in insts && insts[id] == During(i, w, s) && WaitNext(s, w, World(event)).Some?
    requires insts[id := insts[id]] == insts
    ensures var s' := WaitNext(s, w, World(event)).value;
      Moved(reg, id, insts, s.now, Around(event)) == Some((insts[id := During(i, w, s')], s'.now))
  {}

  lemma MidMoves<V>(reg: Recovery, id: string, insts: map<string, Inst<V>>, i: Inst<V>, w: Wait<V>, s: WaitState<V>,
                    s': WaitState<V>, e: WaitEvent<V>)
    requires id in insts && WaitNext(s, w, e) == Some(s') && WaitStateInv(s, w)
    ensures Moved(reg, id, insts[id := During(i, w, s)], s.now, ToMove(e))
      == Some((insts[id := During(i, w, s')], s'.now))
  {
    var mid := insts[id := During(i, w, s)];
    WaitNextMoves(reg, id, mid, i, w, s, e);
    assert mid[id := During(i, w, s')] == insts[id := During(i, w, s')];
  }

  lemma {:induction false} WaitMoves<V>(reg: Recovery, id: string, insts: map<string, Inst<V>>, i: Inst<V>,
                                        w: Wait<V>, s: WaitState<V>, trace: seq<WaitEvent<V>>)
    requires id in insts && insts[id] == During(i, w, s) && WaitStateInv(s, w) && WaitExec(s, w, trace).Some?
    ensures var s' := WaitExec(s, w, trace).value;
      MoveExec(reg, id, insts, s.now, ToMoves(trace)) == Some((insts[id := During(i, w, s')], s'.now))
  {
    if trace == [] {
      assert insts[id := insts[id]] == insts;
    } else {
      var init, last := trace[..|trace| - 1], trace[|trace| - 1];
      WaitMoves(reg, id, insts, i, w, s, init);
      WaitExecKeeps(s, w, init);
      var mid := WaitExec(s, w, init).value;
      var s' := WaitExec(s, w, trace).value;
      MidMoves(reg, id, insts, i, w, mid, s', last);
      assert ToMoves(trace) == ToMoves(init) + [ToMove(last)];
      MoveSnoc(reg, id, insts, s.now, ToMoves(init), ToMove(last));
    }
  }

  lemma {:induction false} MoveConcat<V>(reg: Recovery, id: string, insts: map<string, Inst<V>>, now: int,
                                         a: seq<Move<V>>, b: seq<Move<V>>)
    requires MoveExec(reg, id, insts, now, a).Some?
    ensures MoveExec(reg, id, insts, now, a + b)
      == MoveExec(reg, id, MoveExec(reg, id, insts, now, a).value.0, MoveExec(reg, id, insts, now, a).value.1, b)
  {
    if b == [] {
      assert a + b == a;
    } else {
      var init := b[..|b| - 1];
      MoveConcat(reg, id, insts, now, a, init);
      assert (a + b)[..|a + b| - 1] == a + init;
    }
  }

  lemma MoveKeeps<V>(reg: Recovery, id: string, insts: map<string, Inst<V>>, now: int, m: Move<V>)
    requires Local(reg, insts) && Moved(reg, id, insts, now, m).Some?
    ensures Local(reg, Moved(reg, id, insts, now, m).value.0)
  {
    match m
    case Around(Arrive(origin, msg)) => LocalDeliver(reg, insts, id, origin, msg);
    case Around(CallIn(req)) => LocalOffer(reg, insts, id, req);
    case Around(Elapse(_)) =>
    case Around(Pause) =>
    case Acts(a) => LocalAct(reg, insts, id, now, a);
    case Applies => LocalApply(reg, insts, id);
  }

  /** Whatever a goroutine and the world around it do, every instance's invariant is kept. */
  lemma {:induction false} MovesKeep<V>(reg: Recovery, id: string, insts: map<string, Inst<V>>, now: int,
                                        moves: seq<Move<V>>)
    requires Local(reg, insts) && MoveExec(reg, id, insts, now, moves).Some?
    ensures Local(reg, MoveExec(reg, id, insts, now, moves).value.0)
  {
    if moves != [] {
      var init := moves[..|moves| - 1];
      MovesKeep(reg, id, insts, now, init);
      var mid := MoveExec(reg, id, insts, now, init).value;
      MoveKeeps(reg, id, mid.0, mid.1, moves[|moves| - 1]);
    }
  }

  // ----- The objects -----

  /** `insts` is the state of the machine that the objects realise: its mailboxes and query maps are the
      objects' fields, and its phases say where each goroutine is. */
  class Runtime<V> {
    const handlers: Recovery
    var instances: map<string, Instance<V>>
    ghost var insts: map<string, Inst<V>>

    constructor (handlers: Recovery)
      ensures this.handlers == handlers && Valid() && insts == map[] && instances == map[]
    {
      this.handlers, instances, insts := handlers, map[], map[];
    }

    ghost function Objects(): set<object>
      reads this
    {
      set id | id in instances :: instances[id]
    }

    ghost predicate Valid()
      reads this, Objects()
    {
      && instances.Keys == insts.Keys
      && forall id :: id in instances ==> instances[id].id == id && instances[id].Is(insts[id])
    }

    /** Instances stay, and new ones are new objects. */
    twostate predicate Grown()
      reads this
    {
      && (forall id :: id in old(instances) ==> id in instances && instances[id] == old(instances[id]))
      && (forall id :: id in instances && id !in old(instances) ==> fresh(instances[id]))
    }

    /** start: creates the instance and its goroutine, unless the id is taken. */
    method Start(e: StartEntry<V>, ghost parent: Origin) returns (started: bool)
      requires Valid()
      modifies this
      ensures Valid() && Grown()
      ensures insts == InMemory.Start(old(insts), parent, e)
      ensures started <==> e.routineID !in old(instances)
    {
      if e.routineID in instances { return false; }
      var inst := new Instance(e.routineID);
      instances := instances[e.routineID := inst];
      insts := InMemory.Start(insts, parent, e);
      return true;
    }

    /** Puts a message on the target's channel, if there is a target and room. */
    method SendTo(to: string, m: SendMsg<V>, ghost origin: Origin)
      requires Valid() && to in instances && HasRoom(insts, to)
      modifies this`insts, instances[to]
      ensures Valid() && insts == Deliver(old(insts), to, origin, m)
    {
      instances[to].Receive(m, origin);
      insts := Deliver(insts, to, origin, m);
    }

    /** runHandler: the primary handler, then the recovery handler if one is registered and the primary
        failed. The outcomes are what the two handlers return if they are invoked. */
    method RunHandler(key: string, primary: Outcome<V>, recovery: Outcome<V>) returns (used: Outcome<V>)
      ensures used == Used(handlers, key, primary, recovery)
      ensures key !in handlers ==> used.Failed? && used.effects == NoEffects()
      ensures key in handlers ==>
        used == if primary.Failed? && handlers[key] != "" && handlers[key] in handlers then recovery else primary
    {
      if key !in handlers { return Failed("no handler registered for key: " + key, NoEffects()); }
      if primary.Failed? {
        var teKey := handlers[key];
        if teKey != "" && teKey in handlers { return recovery; }
      }
      return primary;
    }

    /** Applies the next start entry. */
    method PopStart(id: string, e: StartEntry<V>)
      requires Valid() && id in instances && insts[id].phase.Applying?
      requires insts[id].phase.starts != [] && insts[id].phase.starts[0] == e
      modifies this
      ensures Valid() && Grown()
      ensures ApplyOne(old(insts), id) == Some(insts)
      ensures insts[id].phase == old(insts[id].phase).(starts := old(insts[id].phase.starts)[1..])
      ensures insts[id].runs == old(insts[id].runs)
    {
      ApplyPhase(insts, id);
      ghost var i := insts[id];
      ghost var i' := i.(phase := i.phase.(starts := i.phase.starts[1..]));
      assert instances[id].Is(i) && instances[id].Is(i');
      insts := insts[id := i'];
      assert Valid();
      var _ := Start(e, Routine(id));
    }

    /** Applies the next send entry, unless its target's channel is full. */
    method PopSend(id: string, e: SendEntry<V>) returns (sent: bool)
      requires Valid() && id in instances && insts[id].phase.Applying?
      requires insts[id].phase.starts == [] && insts[id].phase.sends != [] && insts[id].phase.sends[0] == e
      modifies this`insts, Objects()
      ensures Valid()
      ensures ApplyOne(old(insts), id) == (if sent then Some(insts) else None)
      ensures !sent ==> insts == old(insts)
      ensures sent ==> insts[id].phase == old(insts[id].phase).(sends := old(insts[id].phase.sends)[1..])
      ensures insts[id].runs == old(insts[id].runs)
    {
      if ApplyOne(insts, id).Some? { ApplyPhase(insts, id); }
      ghost var i := insts[id];
      if e.routineID !in instances {
        insts := insts[id := SendPopped(i).(drops := i.drops + [Drop(|i.runs| - 1, e)])];
        return true;
      }
      assert instances[e.routineID].Is(insts[e.routineID]);
      if |instances[e.routineID].sendCh| >= CAPACITY { return false; }
      insts := insts[id := SendPopped(i)];
      SendTo(e.routineID, SendMsg(EntryKey(e), e.msg), Routine(id));
      return true;
    }

    method ApplyStarts(id: string, starts: seq<StartEntry<V>>, ghost now: int) returns (ghost moves: seq<Move<V>>)
      requires Valid() && id in instances && insts[id].phase.Applying? && insts[id].phase.starts == starts
      modifies this
      ensures Valid() && Grown()
      ensures MoveExec(handlers, id, old(insts), now, moves) == Some((insts, now))
      ensures insts[id].phase == old(insts[id].phase).(starts := []) && insts[id].runs == old(insts[id].runs)
    {
      ghost var i0 := insts;
      moves := [];
      for k := 0 to |starts|
        invariant Valid() && Grown()
        invariant MoveExec(handlers, id, i0, now, moves) == Some((insts, now))
        invariant insts[id].phase == i0[id].phase.(starts := starts[k..]) && insts[id].runs == i0[id].runs
      {
        ghost var before, objects := insts, instances;
        assert starts[k..][1..] == starts[k + 1..];
        label popping:
        PopStart(id, starts[k]);
        forall other | other in instances && other !in old(instances) ensures fresh(instances[other]) {
          assert other in objects ==> instances[other] == objects[other];
          assert other !in objects ==> fresh@popping(instances[other]);
        }
        AppliesNext(handlers, id, i0, now, moves, before, insts);
        moves := moves + [Applies];
      }
    }

    /** False: the goroutine is blocked on a full channel, with that send and the later ones still to do. */
    method ApplySends(id: string, sends: seq<SendEntry<V>>, ghost env: Environment<V>)
      returns (finished: bool, ghost moves: seq<Move<V>>)
      requires Valid() && id in instances && insts[id].phase.Applying?
      requires insts[id].phase.starts == [] && insts[id].phase.sends == sends
      modifies this`insts, Objects()
      ensures Valid()
      ensures env.now == old(env.now)
      ensures MoveExec(handlers, id, old(insts), env.now, moves) == Some((insts, env.now))
      ensures insts[id].phase.Applying? && insts[id].phase == old(insts[id].phase).(sends := insts[id].phase.sends)
      ensures insts[id].runs == old(insts[id].runs)
      ensures finished <==> insts[id].phase.sends == []
      ensures !finished ==> ApplyOne(insts, id).None?
    {
      ghost var now := env.now;
      moves := [];
      for k := 0 to |sends|
        invariant Valid() && env.now == now
        invariant MoveExec(handlers, id, old(insts), now, moves) == Some((insts, now))
        invariant insts[id].phase == old(insts[id].phase).(sends := sends[k..]) && insts[id].runs == old(insts[id].runs)
      {
        ghost var before := insts;
        assert sends[k..][1..] == sends[k + 1..];
        var sent := PopSend(id, sends[k]);
        if !sent { return false, moves; }
        AppliesNext(handlers, id, old(insts), now, moves, before, insts);
        moves := moves + [Applies];
      }
      return true, moves;
    }

    /** What runInstance does with a handler's outcome before the effects: on failure it answers the caller
        and records the error; otherwise the query results are merged. */
    method TakeOutcome(id: string, firing: Firing, used: Outcome<V>, ghost primary: Outcome<V>,
                       ghost recovery: Outcome<V>)
      requires Valid() && id in instances && insts[id].phase.Handling? && insts[id].phase.firing == firing
      requires used == Used(handlers, insts[id].phase.key, primary, recovery)
      modifies this`insts, instances[id]
      ensures Valid() && insts == old(insts)[id := HandleStep(handlers, old(insts[id]), primary, recovery)]
    {
      instances[id].TakeOutcome(handlers, firing, used, insts[id], primary, recovery);
      insts := insts[id := HandleStep(handlers, insts[id], primary, recovery)];
    }

    /** Answers the caller, then records the result if the routine is done. */
    method Conclude(id: string, firing: Firing, out: RunOutput<V>, now: int)
      requires Valid() && id in instances && insts[id].phase.Applying?
      requires insts[id].phase.firing == firing && insts[id].phase.output == out
      modifies this`insts, instances[id]
      ensures Valid() && insts == old(insts)[id := SettleStep(old(insts[id]), now)]
    {
      instances[id].Conclude(firing, out, insts[id], now);
      insts := insts[id := SettleStep(insts[id], now)];
    }

    /** The wait as part of an execution. None: still blocked when the script has ended. */
    method WaitFor(id: string, cases: seq<Case<V>>, env: Environment<V>)
      returns (next: Option<Phase<V>>, ghost moves: seq<Move<V>>)
      requires Valid() && id in instances && BoxInv(insts[id].box) && !IsContinue(cases)
      requires insts[id].phase == Waiting(EnterWait(cases, env.now))
      modifies this`insts, instances[id], env
      ensures Valid()
      ensures MoveExec(handlers, id, old(insts), old(env.now), moves) == Some((insts, env.now))
      ensures Continues(next)
      ensures next.Some? ==> insts[id].phase == next.value
      ensures next.None? ==> Stopped(insts, id) && env.script == []
    {
      ghost var i0, i := insts, insts[id];
      ghost var w, s0 := EnterWait(cases, env.now), WaitState(i.box, Pass(Scan), env.now);
      ghost var s: WaitState<V>;
      ghost var trace;
      var r;
      r, trace, s := instances[id].WaitAs(cases, env, i);
      WaitMoves(handlers, id, i0, i, w, s0, trace);
      moves := ToMoves(trace);
      insts := i0[id := During(i, w, s)];
      if r.None? { return None, moves; }
      var c := cases[CaseIndex(r.value.0).value];
      next := Some(Handling(r.value.0, c.handlerKey, c.input, r.value.1));
    }

    /** The handler's outcome, as the first move of a turn. */
    method Handled(id: string, firing: Firing, key: string, used: Outcome<V>, ghost env: Environment<V>,
                   ghost primary: Outcome<V>, ghost recovery: Outcome<V>) returns (ghost moves: seq<Move<V>>)
      requires Valid() && Local(handlers, insts) && id in instances
      requires insts[id].phase.Handling? && insts[id].phase.firing == firing && insts[id].phase.key == key
      requires used == Used(handlers, key, primary, recovery)
      modifies this`insts, instances[id]
      ensures Valid() && Local(handlers, insts)
      ensures env.now == old(env.now)
      ensures MoveExec(handlers, id, old(insts), env.now, moves) == Some((insts, env.now))
      ensures used.Failed? ==> insts[id].phase.Finished?
      ensures used.Returned? ==>
        insts[id].phase == Applying(used.effects.starts, used.effects.sends, used.output, firing)
    {
      moves := [Acts(Handle(primary, recovery))];
      OneAct(handlers, id, insts, env.now, Handle(primary, recovery));
      TakeOutcome(id, firing, used, primary, recovery);
    }

    /** The child starts, then the sends. False: blocked on a full channel. */
    method ApplyContextEffects(id: string, eff: Effects<V>, env: Environment<V>)
      returns (finished: bool, ghost moves: seq<Move<V>>)
      requires Valid() && id in instances && insts[id].phase.Applying?
      requires insts[id].phase.starts == eff.starts && insts[id].phase.sends == eff.sends
      modifies this, Objects()
      ensures Valid() && Grown()
      ensures MoveExec(handlers, id, old(insts), old(env.now), moves) == Some((insts, env.now))
      ensures finished ==> insts[id].phase == old(insts[id].phase).(starts := [], sends := [])
      ensures !finished ==> Stopped(insts, id)
    {
      ghost var more;
      var now := env.now;
      moves := ApplyStarts(id, eff.starts, now);
      finished, more := ApplySends(id, eff.sends, env);
      MoveConcat(handlers, id, old(insts), now, moves, more);
      moves := moves + more;
    }

    /** After the effects: the answer, then the end or the wait. */
    method Finish(id: string, firing: Firing, out: RunOutput<V>, env: Environment<V>)
      returns (next: Option<Phase<V>>, ghost moves: seq<Move<V>>)
      requires Valid() && id in instances && insts[id].phase == Applying([], [], out, firing)
      requires BoxInv(SettleStep(insts[id], env.now).box)
      modifies this`insts, instances[id], env
      ensures Valid()
      ensures MoveExec(handlers, id, old(insts), old(env.now), moves) == Some((insts, env.now))
      ensures Continues(next)
      ensures next.None? ==> Stopped(insts, id)
      ensures next.Some? ==> insts[id].phase == next.value
    {
      ghost var i0, now := insts, env.now;
      OneMove(handlers, id, i0, now, Settle);
      moves := [Acts(Settle)];
      Conclude(id, firing, out, env.now);
      assert env.now == now;
      if out.done { return None, moves; }
      if |out.cases| == 1 && out.cases[0].immediate {
        return Some(Handling(ByDefault(0), out.cases[0].handlerKey, out.cases[0].input, None)), moves;
      }
      ghost var waits;
      next, waits := WaitFor(id, out.cases, env);
      MoveConcat(handlers, id, i0, now, moves, waits);
      moves := moves + waits;
    }

    ghost predicate Continues(next: Option<Phase<V>>) {
      next.Some? ==> next.value.Handling?
    }

    /** Finish, after the moves made so far. */
    method FinishAfter(id: string, firing: Firing, out: RunOutput<V>, env: Environment<V>,
                       ghost i0: map<string, Inst<V>>, ghost now: int, ghost soFar: seq<Move<V>>)
      returns (next: Option<Phase<V>>, ghost moves: seq<Move<V>>)
      requires Valid() && id in instances && insts[id].phase == Applying([], [], out, firing)
      requires Local(handlers, i0) && MoveExec(handlers, id, i0, now, soFar) == Some((insts, env.now))
      modifies this`insts, instances[id], env
      ensures Valid()
      ensures unchanged(`instances)
      ensures MoveExec(handlers, id, i0, now, moves) == Some((insts, env.now))
      ensures Continues(next)
      ensures next.None? ==> Stopped(insts, id)
      ensures next.Some? ==> insts[id].phase == next.value
    {
      SettledBox(handlers, id, i0, insts, now, env.now, soFar);
      ghost var rest;
      next, rest := Finish(id, firing, out, env);
      MoveConcat(handlers, id, i0, now, soFar, rest);
      moves := soFar + rest;
    }

    /** The part of a turn after the handler has returned. */
    method Proceed(id: string, firing: Firing, out: RunOutput<V>, eff: Effects<V>, env: Environment<V>)
      returns (next: Option<Phase<V>>, ghost moves: seq<Move<V>>)
      requires Valid() && Local(handlers, insts) && id in instances
      requires insts[id].phase == Applying(eff.starts, eff.sends, out, firing)
      modifies this, Objects(), env
      ensures Valid() && Grown()
      ensures MoveExec(handlers, id, old(insts), old(env.now), moves) == Some((insts, env.now))
      ensures Continues(next)
      ensures next.None? ==> Stopped(insts, id)
      ensures next.Some? ==> insts[id].phase == next.value
    {
      var finished;
      ghost var now := env.now;
      finished, moves := ApplyContextEffects(id, eff, env);
      if !finished { return None, moves; }
      next, moves := FinishAfter(id, firing, out, env, old(insts), now, moves);
    }

    /** runHandler, applyContextEffects, the answer and the wait: one turn of the loop. The result is what
        the next turn handles, or None if there is none: the routine has finished, or the goroutine is
        blocked on a full channel or in its wait. */
    method Turn(id: string, firing: Firing, key: string, primary: Outcome<V>, recovery: Outcome<V>, env: Environment<V>)
      returns (next: Option<Phase<V>>, ghost moves: seq<Move<V>>)
      requires Valid() && Local(handlers, insts) && id in instances
      requires insts[id].phase.Handling? && insts[id].phase.firing == firing && insts[id].phase.key == key
      modifies this, Objects(), env
      ensures Valid() && Grown()
      ensures MoveExec(handlers, id, old(insts), old(env.now), moves) == Some((insts, env.now))
      ensures Continues(next)
      ensures next.None? ==> Stopped(insts, id)
      ensures next.Some? ==> insts[id].phase == next.value
    {
      var used := RunHandler(key, primary, recovery);
      ghost var i0, now := insts, env.now;
      moves := Handled(id, firing, key, used, env, primary, recovery);
      if used.Failed? { return None, moves; }
      ghost var rest;
      next, rest := Proceed(id, firing, used.output, used.effects, env);
      MoveConcat(handlers, id, i0, now, moves, rest);
      moves := moves + rest;
    }

    /** runInstance: turn after turn, with the handler outcomes given, until the routine finishes, the
        goroutine is blocked, or the outcomes are used up. What it does are the goroutine's moves, with the script's
        events between them; they keep every instance's invariant whatever the script, and where the script's
        events are those of clients they are a run of the machine (MovesReach). */
    method RunInstance(id: string, handlerKey: string, input: V, outcomes: seq<(Outcome<V>, Outcome<V>)>,
                       env: Environment<V>) returns (ghost moves: seq<Move<V>>)
      requires Valid() && Local(handlers, insts) && id in instances
      requires insts[id].phase == Handling(ByStart, handlerKey, input, None)
      modifies this, Objects(), env
      ensures Valid() && Local(handlers, insts) && id in insts
      ensures MoveExec(handlers, id, old(insts), old(env.now), moves) == Some((insts, env.now))
      ensures Stopped(insts, id) || insts[id].phase.Handling?
    {
      moves := [];
      var p := Handling(ByStart, handlerKey, input, None);
      for k := 0 to |outcomes|
        invariant Valid() && Grown() && Local(handlers, insts)
        invariant MoveExec(handlers, id, old(insts), old(env.now), moves) == Some((insts, env.now))
        invariant p.Handling? && insts[id].phase == p
      {
        label turning:
        ghost var objects := instances;
        var next, more := Turn(id, p.firing, p.key, outcomes[k].0, outcomes[k].1, env);
        MoveConcat(handlers, id, old(insts), old(env.now), moves, more);
        moves := moves + more;
        MovesKeep(handlers, id, old(insts), old(env.now), moves);
        if next.None? { return; }
        p := next.value;
        forall other | other in instances && other !in old(instances) ensures fresh(instances[other]) {
          assert other in objects ==> instances[other] == objects[other];
          assert other !in objects ==> fresh@turning(instances[other]);
        }
      }
    }
  }

  lemma OneMove<V>(reg: Recovery, id: string, insts: map<string, Inst<V>>, now: int, a: Action<V>)
    requires id in insts && Acted(reg, now, insts[id], a).Some?
    ensures MoveExec(reg, id, insts, now, [Acts(a)]) == Some((insts[id := Acted(reg, now, insts[id], a).value], now))
  {
    MoveSnoc(reg, id, insts, now, [], Acts(a));
    assert [] + [Acts(a)] == [Acts(a)];
  }

  lemma SettledBox<V>(reg: Recovery, id: string, before: map<string, Inst<V>>, after: map<string, Inst<V>>, now: int,
                      later: int, moves: seq<Move<V>>)
    requires Local(reg, before) && MoveExec(reg, id, before, now, moves) == Some((after, later))
    requires id in after && after[id].phase.Applying?
    ensures BoxInv(SettleStep(after[id], later).box)
  {
    MovesKeep(reg, id, before, now, moves);
    SettleKeeps(reg, after[id], later);
  }

  /** A single action of the goroutine, as an execution. */
  lemma OneAct<V>(reg: Recovery, id: string, insts: map<string, Inst<V>>, now: int, a: Action<V>)
    requires Local(reg, insts) && id in insts && Acted(reg, now, insts[id], a).Some?
    ensures Local(reg, insts[id := Acted(reg, now, insts[id], a).value])
    ensures MoveExec(reg, id, insts, now, [Acts(a)]) == Some((insts[id := Acted(reg, now, insts[id], a).value], now))
  {
    MoveSnoc(reg, id, insts, now, [], Acts(a));
    assert [] + [Acts(a)] == [Acts(a)];
    ActKeeps(reg, now, insts[id], a);
    LocalUpdate(reg, insts, id, Acted(reg, now, insts[id], a).value);
  }

  /** The goroutine cannot go on: its routine has finished, its next send finds the target's channel full,
      or its wait has nothing to take. */
  ghost predicate Stopped<V>(insts: map<string, Inst<V>>, id: string) {
    && id in insts
    && var i := insts[id];
       || i.phase.Finished?
       || (Busy(i) && ApplyOne(insts, id).None?)
       || (i.phase.Waiting? && i.phase.wait.pc == Block && i.box.sendCh == [] && i.box.callers == [])
  }

  lemma AppliesNext<V>(reg: Recovery, id: string, i0: map<string, Inst<V>>, now: int, moves: seq<Move<V>>,
                       before: map<string, Inst<V>>, after: map<string, Inst<V>>)
    requires MoveExec(reg, id, i0, now, moves) == Some((before, now))
    requires id in before && Busy(before[id]) && ApplyOne(before, id) == Some(after)
    ensures MoveExec(reg, id, i0, now, moves + [Applies]) == Some((after, now))
  {
    MoveSnoc(reg, id, i0, now, moves, Applies);
  }

  /** Applying an effect takes it off the list. */
  lemma ApplyPhase<V>(insts: map<string, Inst<V>>, id: string)
    requires id in insts && Busy(insts[id]) && ApplyOne(insts, id).Some?
    ensures var p, after := insts[id].phase, ApplyOne(insts, id).value;
      && id in after
      && after[id].phase == (if p.starts != [] then p.(starts := p.starts[1..]) else p.(sends := p.sends[1..]))
      && after[id].runs == insts[id].runs && after[id].queries == insts[id].queries
  {}
}
