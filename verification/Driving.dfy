/** Extending a run of the in-memory runtime by one action at a time. */
module Driving {
  import Keys
  import opened Wrappers
  import opened Durable
  import opened Mailbox
  import opened InMemory
  import opened History
  import opened Routing
  import opened Reachable

  lemma Extend<V>(reg: Recovery, now: int, labels: seq<Label<V>>, s: System<V>, l: Label<V>) returns (s': System<V>)
    requires Reached(reg, now, labels, s) && Step(reg, s, l).Some?
    ensures Reached(reg, now, labels + [l], s') && Step(reg, s, l) == Some(s')
  {
    assert (labels + [l])[..|labels|] == labels;
    s' := Step(reg, s, l).value;
  }

  /** A goroutine acts on its own instance. */
  lemma Drive<V>(reg: Recovery, now: int, labels: seq<Label<V>>, s: System<V>, id: string, a: Action<V>)
    returns (labels': seq<Label<V>>, s': System<V>)
    requires Reached(reg, now, labels, s) && id in s.insts && Acted(reg, s.now, s.insts[id], a).Some?
    ensures Reached(reg, now, labels', s')
    ensures s' == s.(insts := s.insts[id := Acted(reg, s.now, s.insts[id], a).value])
  {
    labels' := labels + [Act(id, a)];
    s' := Extend(reg, now, labels, s, Act(id, a));
  }

  lemma DriveTick<V>(reg: Recovery, now: int, labels: seq<Label<V>>, s: System<V>, d: nat)
    returns (labels': seq<Label<V>>, s': System<V>)
    requires Reached(reg, now, labels, s)
    ensures Reached(reg, now, labels', s') && s' == s.(now := s.now + d)
  {
    labels' := labels + [Tick(d)];
    s' := Extend(reg, now, labels, s, Tick(d));
  }

  lemma DriveSend<V>(reg: Recovery, now: int, labels: seq<Label<V>>, s: System<V>, id: string, m: SendMsg<V>)
    returns (labels': seq<Label<V>>, s': System<V>)
    requires Reached(reg, now, labels, s) && id in s.insts && HasRoom(s.insts, id)
    ensures Reached(reg, now, labels', s')
    ensures s' == s.(insts := s.insts[id := s.insts[id].(box := Enqueue(s.insts[id].box, Client, m))])
  {
    labels' := labels + [Label.Send(id, m.key, m.msg)];
    s' := Extend(reg, now, labels, s, Label.Send(id, m.key, m.msg));
    assert SendMsg(m.key, m.msg) == m;
  }

  lemma DriveCall<V>(reg: Recovery, now: int, labels: seq<Label<V>>, s: System<V>, id: string, name: string,
                     key: string, req: V) returns (labels': seq<Label<V>>, s': System<V>)
    requires Reached(reg, now, labels, s) && id in s.insts
    ensures Reached(reg, now, labels', s') && s' == MadeCall(s, id, name, key, req)
  {
    labels' := labels + [Label.Call(id, name, key, req)];
    s' := Extend(reg, now, labels, s, Label.Call(id, name, key, req));
  }

  /** A client starts the first routine. */
  lemma DriveGo<V>(reg: Recovery, now: int, id: string, kind: string, resultKind: string, input: V)
    returns (labels: seq<Label<V>>, s: System<V>)
    ensures Reached(reg, now, labels, s)
    ensures s == System(map[id := NewInst(Keys.HandlerKey(kind, resultKind), input, Client)], now, [])
  {
    assert Reached(reg, now, [], EmptySystem<V>(now));
    labels := [Go(id, kind, resultKind, input)];
    assert [] + labels == labels;
    s := Extend(reg, now, [], EmptySystem(now), Go(id, kind, resultKind, input));
  }

  // ----- Through a wait in which nothing is ready -----

  /** The step of the loop at `pc` finds nothing. */
  ghost predicate FindsNothing<V>(b: Box<V>, w: Wait<V>, now: int) {
    match w.pc
    case Scan => BufferedCase(b, w.cases).None?
    case CheckTimers => FirstExpired(w.timers, now).None?
    case TryCall => b.callers == [] || !HasCall(w.cases)
    case TrySend => b.sendCh == []
    case Fallback => DefaultCase(w.cases).None? && FirstExpired(w.timers, now).None?
    case Block => false
  }

  function NextPc(pc: Pc): Pc {
    match pc
    case Scan => CheckTimers
    case CheckTimers => TryCall
    case TryCall => TrySend
    case TrySend => Fallback
    case Fallback => Block
    case Block => Block
  }

  function AtPc<V>(i: Inst<V>, pc: Pc): Inst<V>
    requires i.phase.Waiting?
  {
    i.(phase := Waiting(i.phase.wait.(pc := pc)))
  }

  lemma NothingFound<V>(b: Box<V>, w: Wait<V>, now: int)
    requires FindsNothing(b, w, now)
    ensures w.pc != Block && WaitStep(b, w, now) == (b, Pass(NextPc(w.pc)))
  {
    if w.pc == Fallback {
      assert Nearest(w.timers).Some? ==> now < w.timers[Nearest(w.timers).value].deadline;
    }
  }

  lemma DriveOn<V>(reg: Recovery, now: int, labels: seq<Label<V>>, s: System<V>, id: string)
    returns (labels': seq<Label<V>>, s': System<V>)
    requires Reached(reg, now, labels, s) && id in s.insts && s.insts[id].phase.Waiting?
    requires FindsNothing(s.insts[id].box, s.insts[id].phase.wait, s.now)
    ensures Reached(reg, now, labels', s')
    ensures s' == s.(insts := s.insts[id := AtPc(s.insts[id], NextPc(s.insts[id].phase.wait.pc))])
  {
    NothingFound(s.insts[id].box, s.insts[id].phase.wait, s.now);
    labels', s' := Drive(reg, now, labels, s, id, WaitOn);
  }

  /** Nothing has arrived. */
  ghost predicate NoMail<V>(b: Box<V>) {
    b.sendCh == [] && b.callers == [] && forall key :: Buf(b, key) == []
  }

  /** From the scan to the check of the channel for sends. */
  lemma DriveToTrySend<V>(reg: Recovery, now: int, labels: seq<Label<V>>, s: System<V>, id: string)
    returns (labels': seq<Label<V>>, s': System<V>)
    requires Reached(reg, now, labels, s) && id in s.insts && s.insts[id].phase.Waiting?
    requires s.insts[id].phase.wait.pc == Scan
    requires NoMail(s.insts[id].box) && FirstExpired(s.insts[id].phase.wait.timers, s.now).None?
    ensures Reached(reg, now, labels', s') && s' == s.(insts := s.insts[id := AtPc(s.insts[id], TrySend)])
  {
    assert BufferedCase(s.insts[id].box, s.insts[id].phase.wait.cases).None?;
    var labels1, s1 := DriveOn(reg, now, labels, s, id);
    var labels2, s2 := DriveOn(reg, now, labels1, s1, id);
    labels', s' := DriveOn(reg, now, labels2, s2, id);
    assert s1.insts[id := AtPc(s1.insts[id], TryCall)] == s.insts[id := AtPc(s.insts[id], TryCall)];
    assert s2.insts[id := AtPc(s2.insts[id], TrySend)] == s.insts[id := AtPc(s.insts[id], TrySend)];
  }
}
