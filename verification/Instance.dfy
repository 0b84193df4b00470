/** An in-memory instance as an object, and waitForCase as the loop that the source writes. Between any
    two steps the rest of the world acts as its script says. */
module Instances {
  import opened Wrappers
  import opened Queries
  import opened Durable
  import opened Mailbox
  import opened InMemory
  import opened WaitLoop

  /** What happens to a mailbox and the clock while the goroutine does nothing. */
  function Disturbed<V>(b: Box<V>, now: int, e: WorldEvent<V>): (Box<V>, int) {
    var s := Disturb(WaitState(b, Pass(Scan), now), e);
    (s.box, s.now)
  }

  function Happened<V>(b: Box<V>, now: int, events: seq<WorldEvent<V>>): (Box<V>, int) {
    if events == [] then (b, now)
    else
      var before := Happened(b, now, events[..|events| - 1]);
      Disturbed(before.0, before.1, events[|events| - 1])
  }

  lemma HappenedSnoc<V>(b: Box<V>, now: int, events: seq<WorldEvent<V>>, e: WorldEvent<V>)
    ensures Happened(b, now, events + [e]) == Disturbed(Happened(b, now, events).0, Happened(b, now, events).1, e)
  {
    assert (events + [e])[..|events|] == events;
  }

  function Lift<V>(events: seq<WorldEvent<V>>): seq<WaitEvent<V>> {
    if events == [] then [] else Lift(events[..|events| - 1]) + [World(events[|events| - 1])]
  }

  lemma {:induction false} WaitExecHappened<V>(s: WaitState<V>, w: Wait<V>, trace: seq<WaitEvent<V>>,
                                               events: seq<WorldEvent<V>>)
    requires WaitExec(s, w, trace).Some? && WaitExec(s, w, trace).value.progress.Pass?
    ensures var at := WaitExec(s, w, trace).value;
      WaitExec(s, w, trace + Lift(events))
        == Some(WaitState(Happened(at.box, at.now, events).0, at.progress, Happened(at.box, at.now, events).1))
  {
    if events == [] {
      assert trace + Lift(events) == trace;
    } else {
      var init, last := events[..|events| - 1], events[|events| - 1];
      WaitExecHappened(s, w, trace, init);
      assert trace + Lift(events) == (trace + Lift(init)) + [World(last)];
      WaitExecSnoc(s, w, trace + Lift(init), World(last));
    }
  }

  /** The instance while its wait loop is in state `s`. */
  function During<V>(i: Inst<V>, w: Wait<V>, s: WaitState<V>): Inst<V> {
    match s.progress
    case Pass(pc) => i.(box := s.box, phase := Waiting(w.(pc := pc)))
    case Fire(firing, msg) =>
      var c := CaseIndex(firing);
      if c.Some? && c.value < |w.cases| then
        i.(box := s.box, phase := Handling(firing, w.cases[c.value].handlerKey, w.cases[c.value].input, msg))
      else i
  }

  /** The other goroutines, the clients and the clock. */
  class Environment<V> {
    var script: seq<WorldEvent<V>>
    var now: int

    constructor (script: seq<WorldEvent<V>>, now: int)
      ensures this.script == script && this.now == now
    {
      this.script, this.now := script, now;
    }
  }

  class Instance<V> {
    const id: string
    var sendCh: seq<SendMsg<V>>
    var callChan: seq<CallReq<V>>
    var buffered: map<string, seq<V>>
    var queryResults: map<string, V>
    var replies: seq<Reply<V>>
    var outcome: Option<RoutineResult<V>>

    ghost var sent: seq<SendMsg<V>>
    ghost var origins: seq<Origin>
    ghost var delivered: seq<SendMsg<V>>
    ghost var taken: seq<nat>
    ghost var strays: set<string>

    constructor (id: string)
      ensures this.id == id && Mail() == EmptyBox() && queryResults == map[] && outcome.None?
    {
      this.id := id;
      sendCh, callChan, buffered, queryResults, replies := [], [], map[], map[], [];
      sent, origins, delivered, taken, strays := [], [], [], [], {};
      outcome := None;
    }

    ghost function Mail(): Box<V>
      reads this
    {
      Box(sendCh, callChan, buffered, sent, origins, delivered, taken, replies, strays)
    }

    /** The object realises the state `i` of an instance of the machine. */
    ghost predicate Is(i: Inst<V>)
      reads this
    {
      && Mail() == i.box
      && queryResults == i.queries
      && outcome == (if i.phase.Finished? then Some(i.phase.outcome) else None)
    }

    /** Answers the call that is being handled, if there is one. */
    method Reply(firing: Firing, resp: CallResp<V>)
      modifies this`replies
      ensures Mail() == Respond(old(Mail()), firing, resp)
    {
      if firing.ByCall? {
        replies := replies + [Mailbox.Reply(firing.call, resp)];
      }
    }

    /** On failure: answers the caller and records the error. Otherwise: merges the query results. */
    method TakeOutcome(reg: Recovery, firing: Firing, used: Outcome<V>, ghost i: Inst<V>, ghost primary: Outcome<V>,
                       ghost recovery: Outcome<V>)
      requires Is(i) && i.phase.Handling? && i.phase.firing == firing
      requires used == Used(reg, i.phase.key, primary, recovery)
      modifies this
      ensures Is(HandleStep(reg, i, primary, recovery))
    {
      match used {
        case Failed(e, _) =>
          Reply(firing, Err(e));
          outcome := Some(Failure(e));
        case Returned(_, eff) =>
          queryResults := ApplyQueryResults(queryResults, eff.queries);
      }
    }

    /** Answers the caller, then records the result if the routine is done. */
    method Conclude(firing: Firing, out: RunOutput<V>, ghost i: Inst<V>, ghost now: int)
      requires Is(i) && i.phase.Applying? && i.phase.firing == firing && i.phase.output == out
      modifies this
      ensures Is(SettleStep(i, now))
    {
      Reply(firing, Ok(out.callResponse));
      if out.done {
        outcome := Some(Success(out.result));
      }
    }

    /** A message is put on the channel. */
    method Receive(m: SendMsg<V>, ghost origin: Origin)
      modifies this`sendCh, this`sent, this`origins
      ensures Mail() == Enqueue(old(Mail()), origin, m)
    {
      sendCh, sent, origins := sendCh + [m], sent + [m], origins + [origin];
    }

    /** The fields that waiting never touches. */
    ghost predicate SameElse(queries: map<string, V>, result: Option<RoutineResult<V>>)
      reads this
    {
      queryResults == queries && outcome == result
    }

    /** Lets the world act up to the next Pause, or until a sender blocks on the full channel. */
    method Interfere(env: Environment<V>) returns (ghost events: seq<WorldEvent<V>>)
      modifies this, env
      ensures (Mail(), env.now) == Happened(old(Mail()), old(env.now), events)
      ensures old(env.script) == events + env.script
      ensures old(env.script) != [] && |old(sendCh)| < CAPACITY ==> events != []
      ensures SameElse(old(queryResults), old(outcome))
    {
      events := [];
      while env.script != [] && !(env.script[0].Arrive? && |sendCh| >= CAPACITY)
        invariant (Mail(), env.now) == Happened(old(Mail()), old(env.now), events)
        invariant old(env.script) == events + env.script
        invariant events == [] ==> sendCh == old(sendCh) && env.script == old(env.script)
        invariant SameElse(old(queryResults), old(outcome))
        decreases |env.script|
      {
        var e := env.script[0];
        HappenedSnoc(old(Mail()), old(env.now), events, e);
        events := events + [e];
        env.script := env.script[1..];
        Absorb(e, env);
        if e.Pause? { return; }
      }
    }

    method Absorb(e: WorldEvent<V>, env: Environment<V>)
      modifies this`sendCh, this`sent, this`origins, this`callChan, env`now
      ensures (Mail(), env.now) == Disturbed(old(Mail()), old(env.now), e)
    {
      match e {
        case Elapse(d) => env.now := env.now + d;
        case Arrive(origin, m) => Receive(m, origin);
        case CallIn(req) => callChan := callChan + [req];
        case Pause =>
      }
    }

    /** The deadlines of the timer cases. */
    method ComputeTimers(cases: seq<Case<V>>, now: int) returns (timers: seq<Timer>)
      ensures timers == Deadlines(cases, now)
    {
      timers := [];
      for i := 0 to |cases|
        invariant timers == Deadlines(cases[..i], now)
      {
        assert cases[..i + 1][..i] == cases[..i];
        if cases[i].timer.Some? {
          timers := timers + [Timer(i, now + cases[i].timer.value)];
        }
      }
      assert cases[..|cases|] == cases;
    }

    method FindDefault(cases: seq<Case<V>>) returns (r: Option<nat>)
      ensures r == DefaultCase(cases)
    {
      for i := 0 to |cases|
        invariant forall j :: 0 <= j < i ==> !cases[j].immediate
      {
        if cases[i].immediate { return Some(i); }
      }
      return None;
    }

    /** Step 2 of the loop: the oldest buffered message of the first case that has one. */
    method CheckBuffered(cases: seq<Case<V>>, w: Wait<V>, ghost now: int) returns (p: Progress<V>)
      requires w.cases == cases && w.pc == Scan
      modifies this
      ensures (Mail(), p) == WaitStep(old(Mail()), w, now) && SameElse(old(queryResults), old(outcome))
    {
      for i := 0 to |cases|
        invariant Mail() == old(Mail()) && SameElse(old(queryResults), old(outcome))
        invariant forall j :: 0 <= j < i && cases[j].sendName != "" ==> Buf(Mail(), cases[j].handlerKey) == []
      {
        if cases[i].sendName != "" {
          var key := cases[i].handlerKey;
          if key in buffered && |buffered[key]| > 0 {
            var msg := buffered[key][0];
            assert BufferedCase(Mail(), cases) == Some(i);
            buffered := buffered[key := buffered[key][1..]];
            delivered := delivered + [SendMsg(key, msg)];
            return Fire(BySend(i), Some(msg));
          }
        }
      }
      return Pass(CheckTimers);
    }

    /** Step 3: the first timer whose deadline has passed. */
    method CheckExpired(timers: seq<Timer>, now: int, w: Wait<V>) returns (p: Progress<V>)
      requires w.timers == timers && w.pc == CheckTimers
      ensures (Mail(), p) == WaitStep(Mail(), w, now)
      ensures p.Fire? ==> p.firing.ByTimer?
    {
      for j := 0 to |timers|
        invariant forall k :: 0 <= k < j ==> now < timers[k].deadline
      {
        if timers[j].deadline <= now {
          assert FirstExpired(timers, now) == Some(j);
          return Fire(ByTimer(timers[j].idx, w.entered, now), None);
        }
      }
      return Pass(TryCall);
    }

    method MatchCall(cases: seq<Case<V>>, req: CallReq<V>, ghost otherwise: Pc, ghost before: Box<V>)
      returns (r: Option<nat>)
      requires before.callers != [] && req == before.callers[0]
      requires Mail() == before.(callers := before.callers[1..], taken := before.taken + [req.call])
      modifies this`replies
      ensures r == CallCase(cases, req.callName)
      ensures (Mail(), if r.Some? then Fire(ByCall(r.value, req.call), Some(req.req)) else Pass(otherwise))
           == TakeCall(before, cases, otherwise)
    {
      for i := 0 to |cases|
        invariant forall j :: 0 <= j < i ==> cases[j].callName == "" || cases[j].callName != req.callName
        invariant replies == old(replies)
      {
        if cases[i].callName != "" && req.callName == cases[i].callName {
          assert CallCase(cases, req.callName) == Some(i);
          return Some(i);
        }
      }
      replies := replies + [Mailbox.Reply(req.call, NoMatch(req))];
      return None;
    }

    method MatchSend(cases: seq<Case<V>>, m: SendMsg<V>, ghost otherwise: Pc, ghost before: Box<V>)
      returns (r: Option<nat>)
      requires before.sendCh != [] && m == before.sendCh[0]
      requires Mail() == before.(sendCh := before.sendCh[1..])
      modifies this`buffered, this`strays, this`delivered
      ensures r == SendCase(cases, m.key)
      ensures (Mail(), if r.Some? then Fire(BySend(r.value), Some(m.msg)) else Pass(otherwise))
           == TakeSend(before, cases, otherwise)
    {
      for i := 0 to |cases|
        invariant forall j :: 0 <= j < i ==> !Awaits(cases[j], m.key)
        invariant Mail() == old(Mail())
      {
        if cases[i].sendName != "" && cases[i].handlerKey == m.key {
          assert SendCase(cases, m.key) == Some(i);
          delivered := delivered + [m];
          return Some(i);
        }
      }
      buffered := buffered[m.key := (if m.key in buffered then buffered[m.key] else []) + [m.msg]];
      strays := strays + {m.key};
      return None;
    }

    /** Step 4, calls: a non-blocking receive, attempted only if some case awaits a call. */
    method TryReceiveCall(cases: seq<Case<V>>, w: Wait<V>, ghost now: int) returns (p: Progress<V>)
      requires w.cases == cases && w.pc == TryCall
      modifies this
      ensures (Mail(), p) == WaitStep(old(Mail()), w, now) && SameElse(old(queryResults), old(outcome))
    {
      var hasCall := false;
      for i := 0 to |cases|
        invariant !hasCall ==> forall j :: 0 <= j < i ==> cases[j].callName == ""
        invariant hasCall ==> HasCall(cases)
      {
        if cases[i].callName != "" {
          hasCall := true;
          break;
        }
      }
      if !hasCall || callChan == [] { return Pass(TrySend); }
      ghost var before := Mail();
      var req := callChan[0];
      callChan, taken := callChan[1..], taken + [req.call];
      var r := MatchCall(cases, req, TrySend, before);
      return if r.Some? then Fire(ByCall(r.value, req.call), Some(req.req)) else Pass(TrySend);
    }

    /** Step 4, sends. */
    method TryReceiveSend(cases: seq<Case<V>>, w: Wait<V>, ghost now: int) returns (p: Progress<V>)
      requires w.cases == cases && w.pc == TrySend
      modifies this
      ensures (Mail(), p) == WaitStep(old(Mail()), w, now) && SameElse(old(queryResults), old(outcome))
    {
      if sendCh == [] { return Pass(Fallback); }
      ghost var before := Mail();
      var m := sendCh[0];
      sendCh := sendCh[1..];
      var r := MatchSend(cases, m, Fallback, before);
      return if r.Some? then Fire(BySend(r.value), Some(m.msg)) else Pass(Fallback);
    }

    method NearestTimer(timers: seq<Timer>) returns (r: Option<nat>)
      ensures r == Nearest(timers)
    {
      r := None;
      for j := 0 to |timers|
        invariant r == Nearest(timers[..j])
      {
        assert timers[..j + 1][..j] == timers[..j];
        if r.None? || timers[j].deadline < timers[r.value].deadline {
          r := Some(j);
        }
      }
      assert timers[..|timers|] == timers;
    }

    /** Blocks until an alternative is ready or the script has ended. */
    method AwaitReady(nearest: Option<nat>, env: Environment<V>, w: Wait<V>) returns (ghost events: seq<WorldEvent<V>>)
      requires nearest == Nearest(w.timers)
      modifies this, env
      ensures old(env.script) == events + env.script && SameElse(old(queryResults), old(outcome))
      ensures (Mail(), env.now) == Happened(old(Mail()), old(env.now), events)
      ensures (exists c :: Ready(Mail(), w, env.now, c)) || env.script == []
      ensures |env.script| < |old(env.script)| || (Mail() == old(Mail()) && env.now == old(env.now))
    {
      events := [];
      while env.script != [] && sendCh == [] && callChan == []
            && !(nearest.Some? && w.timers[nearest.value].deadline <= env.now)
        invariant (Mail(), env.now) == Happened(old(Mail()), old(env.now), events)
        invariant old(env.script) == events + env.script
        invariant SameElse(old(queryResults), old(outcome))
        invariant |env.script| < |old(env.script)| || (Mail() == old(Mail()) && env.now == old(env.now))
        decreases |env.script|
      {
        var more := Interfere(env);
        HappenedConcat(old(Mail()), old(env.now), events, more);
        assert old(env.script) == events + (more + env.script) == (events + more) + env.script;
        events := events + more;
      }
      assert sendCh != [] ==> Ready(Mail(), w, env.now, ChooseSend);
      assert callChan != [] ==> Ready(Mail(), w, env.now, ChooseCall);
      assert nearest.Some? && w.timers[nearest.value].deadline <= env.now ==> Ready(Mail(), w, env.now, ChooseTimer);
    }

    /** The select itself: any of the alternatives that are ready may be taken. None: none is ready. */
    method SelectReady(cases: seq<Case<V>>, nearest: Option<nat>, now: int, w: Wait<V>)
      returns (p: Option<Progress<V>>, ghost choice: Choice)
      requires w.cases == cases && nearest == Nearest(w.timers)
      modifies this
      ensures SameElse(old(queryResults), old(outcome))
      ensures p.Some? ==>
        Ready(old(Mail()), w, now, choice) && (Mail(), p.value) == BlockStep(old(Mail()), w, now, choice)
      ensures p.None? ==> Mail() == old(Mail()) && forall c :: !Ready(Mail(), w, now, c)
    {
      ghost var before := Mail();
      choice := ChooseTimer;
      if
      case sendCh != [] =>
        choice := ChooseSend;
        var m := sendCh[0];
        sendCh := sendCh[1..];
        var r := MatchSend(cases, m, Scan, before);
        p := Some(if r.Some? then Fire(BySend(r.value), Some(m.msg)) else Pass(Scan));
      case callChan != [] =>
        choice := ChooseCall;
        var req := callChan[0];
        callChan, taken := callChan[1..], taken + [req.call];
        var r := MatchCall(cases, req, Scan, before);
        p := Some(if r.Some? then Fire(ByCall(r.value, req.call), Some(req.req)) else Pass(Scan));
      case nearest.Some? && w.timers[nearest.value].deadline <= now =>
        p := Some(Fire(ByTimer(w.timers[nearest.value].idx, w.entered, now), None));
      case sendCh == [] && callChan == [] && !(nearest.Some? && w.timers[nearest.value].deadline <= now) =>
        p := None;
    }

    /** Step 6: the blocking select. None: nothing is ready and the script has ended. */
    method BlockForCase(cases: seq<Case<V>>, timers: seq<Timer>, env: Environment<V>, w: Wait<V>)
      returns (p: Option<Progress<V>>, ghost events: seq<WorldEvent<V>>, ghost choice: Choice)
      requires w.cases == cases && w.timers == timers && w.pc == Block
      modifies this, env
      ensures old(env.script) == events + env.script && SameElse(old(queryResults), old(outcome))
      ensures var (b, now) := Happened(old(Mail()), old(env.now), events);
        && env.now == now
        && (p.Some? ==> Ready(b, w, now, choice) && (Mail(), p.value) == BlockStep(b, w, now, choice))
        && (p.None? ==> Mail() == b && env.script == [] && forall c :: !Ready(b, w, now, c))
      ensures p.Some? && p.value.Pass? ==>
        && p.value.pc == Scan
        && (|env.script| < |old(env.script)|
            || (env.script == old(env.script) && |sendCh| + |callChan| < |old(sendCh)| + |old(callChan)|))
    {
      var nearest := NearestTimer(timers);
      events := AwaitReady(nearest, env, w);
      p, choice := SelectReady(cases, nearest, env.now, w);
    }

    /** waitForCase. The result is the firing and its message, or None if the goroutine is still blocked
        when the script ends; `trace` is the execution of the wait loop that happened. */
    method WaitForCase(cases: seq<Case<V>>, env: Environment<V>)
      returns (r: Option<(Firing, Option<V>)>, ghost trace: seq<WaitEvent<V>>)
      requires BoxInv(Mail())
      modifies this, env
      ensures IsContinue(cases) ==> r == Some((ByDefault(0), None)) && Mail() == old(Mail()) && trace == []
      ensures !IsContinue(cases) ==>
        WaitExec(WaitState(old(Mail()), Pass(Scan), old(env.now)), EnterWait(cases, old(env.now)), trace)
          == Some(WaitState(Mail(), if r.Some? then Fire(r.value.0, r.value.1) else Pass(Block), env.now))
      // The mail invariants hold again, and the case that fired did so rightly.
      ensures BoxInv(Mail()) && SameElse(old(queryResults), old(outcome))
      ensures r.Some? ==> Justified(cases, r.value.0, r.value.1)
      ensures r.Some? && r.value.0.ByTimer? ==>
        env.now >= old(env.now) + cases[r.value.0.idx].timer.value
      // It ends; and it stays blocked only if nothing has arrived and no timer has run out.
      ensures r.None? ==> env.script == [] && sendCh == [] && callChan == []
      ensures r.None? ==> forall i :: 0 <= i < |cases| && cases[i].timer.Some? ==>
        env.now < old(env.now) + cases[i].timer.value
    {
      trace := [];
      if |cases| == 1 && cases[0].immediate {
        return Some((ByDefault(0), None)), [];
      }
      var timers := ComputeTimers(cases, env.now);
      var w := Wait(cases, timers, env.now, Scan);
      ghost var s0 := WaitState(Mail(), Pass(Scan), env.now);
      var defaultIdx := FindDefault(cases);
      var p: Option<Progress<V>>;
      p, trace := WaitLoop(cases, timers, defaultIdx, env, w, s0);
      WaitExecKeeps(s0, w, trace);
      if p.None? {
        NoneReady(Mail(), w, env.now);
        return None, trace;
      }
      return Some((p.value.firing, p.value.msg)), trace;
    }

    /** The wait of the instance whose machine state is `i`. */
    method WaitAs(cases: seq<Case<V>>, env: Environment<V>, ghost i: Inst<V>)
      returns (r: Option<(Firing, Option<V>)>, ghost trace: seq<WaitEvent<V>>, ghost s: WaitState<V>)
      requires Is(i) && BoxInv(i.box) && !IsContinue(cases) && i.phase == Waiting(EnterWait(cases, env.now))
      modifies this, env
      ensures WaitExec(WaitState(i.box, Pass(Scan), old(env.now)), EnterWait(cases, old(env.now)), trace) == Some(s)
      ensures Is(During(i, EnterWait(cases, old(env.now)), s)) && s.now == env.now
      ensures r.Some? ==> var c := CaseIndex(r.value.0);
        && c.Some? && c.value < |cases|
        && During(i, EnterWait(cases, old(env.now)), s).phase
             == Handling(r.value.0, cases[c.value].handlerKey, cases[c.value].input, r.value.1)
      ensures r.None? ==> s.progress == Pass(Block) && env.script == [] && s.box.sendCh == [] && s.box.callers == []
    {
      r, trace := WaitForCase(cases, env);
      s := WaitState(Mail(), if r.Some? then Fire(r.value.0, r.value.1) else Pass(Block), env.now);
    }

    method WaitLoop(cases: seq<Case<V>>, timers: seq<Timer>, defaultIdx: Option<nat>, env: Environment<V>, w: Wait<V>,
                    ghost s0: WaitState<V>) returns (p: Option<Progress<V>>, ghost trace: seq<WaitEvent<V>>)
      requires w.cases == cases && w.timers == timers && w.pc == Scan && defaultIdx == DefaultCase(cases)
      requires s0 == WaitState(Mail(), Pass(Scan), env.now)
      modifies this, env
      ensures p.Some? ==> p.value.Fire? && WaitExec(s0, w, trace) == Some(WaitState(Mail(), p.value, env.now))
      ensures p.None? ==> WaitExec(s0, w, trace) == Some(WaitState(Mail(), Pass(Block), env.now))
      ensures p.None? ==> env.script == [] && forall c :: !Ready(Mail(), w, env.now, c)
      ensures SameElse(old(queryResults), old(outcome))
    {
      trace := [];
      while true
        invariant WaitExec(s0, w, trace) == Some(WaitState(Mail(), Pass(Scan), env.now))
        invariant SameElse(old(queryResults), old(outcome))
        decreases |env.script|, |sendCh| + |callChan|
      {
        var q: Progress<V>;
        q, trace := OnePass(cases, timers, defaultIdx, env, w, s0, trace);
        if q.Fire? { return Some(q), trace; }
        p, trace := BlockPass(cases, timers, env, w, s0, trace);
        if p.None? || p.value.Fire? { return p, trace; }
      }
    }

    /** Step 6 as part of an execution. */
    method BlockPass(cases: seq<Case<V>>, timers: seq<Timer>, env: Environment<V>, w: Wait<V>, ghost s0: WaitState<V>,
                     ghost soFar: seq<WaitEvent<V>>) returns (p: Option<Progress<V>>, ghost trace: seq<WaitEvent<V>>)
      requires w.cases == cases && w.timers == timers
      requires WaitExec(s0, w, soFar) == Some(WaitState(Mail(), Pass(Block), env.now))
      modifies this, env
      ensures p.Some? ==> WaitExec(s0, w, trace) == Some(WaitState(Mail(), p.value, env.now))
      ensures p.Some? && p.value.Pass? ==> p.value.pc == Scan
      ensures p.None? ==> WaitExec(s0, w, trace) == Some(WaitState(Mail(), Pass(Block), env.now))
      ensures p.None? ==> env.script == [] && forall c :: !Ready(Mail(), w, env.now, c)
      ensures p.Some? && p.value.Pass? ==>
        |env.script| < |old(env.script)|
        || (env.script == old(env.script) && |sendCh| + |callChan| < |old(sendCh)| + |old(callChan)|)
      ensures SameElse(old(queryResults), old(outcome))
    {
      var blocked, events, choice := BlockForCase(cases, timers, env, w.(pc := Block));
      WaitExecHappened(s0, w, soFar, events);
      trace := soFar + Lift(events);
      p := blocked;
      if p.Some? {
        WaitExecSnoc(s0, w, trace, Chosen(choice));
        trace := trace + [Chosen(choice)];
      } else {
        forall c ensures !Ready(Mail(), w, env.now, c) {
          assert !Ready(Mail(), w.(pc := Block), env.now, c);
        }
      }
    }

    /** One step of the loop, after the world has acted. */
    method Advance(cases: seq<Case<V>>, timers: seq<Timer>, defaultIdx: Option<nat>, env: Environment<V>, w: Wait<V>,
                   pc: Pc, ghost s0: WaitState<V>, ghost soFar: seq<WaitEvent<V>>)
      returns (p: Progress<V>, ghost trace: seq<WaitEvent<V>>)
      requires w.cases == cases && w.timers == timers && pc != Block && defaultIdx == DefaultCase(cases)
      requires WaitExec(s0, w, soFar) == Some(WaitState(Mail(), Pass(pc), env.now))
      modifies this, env
      ensures WaitExec(s0, w, trace) == Some(WaitState(Mail(), p, env.now))
      ensures p.Pass? ==> Rank(p.pc) == Rank(pc) - 1
      ensures |env.script| < |old(env.script)|
           || (env.script == old(env.script) && |sendCh| + |callChan| <= |old(sendCh)| + |old(callChan)|)
      ensures SameElse(old(queryResults), old(outcome))
    {
      trace := Yield(env, w, s0, soFar, Pass(pc));
      match pc {
        case Scan => p := CheckBuffered(cases, w.(pc := Scan), env.now);
        case CheckTimers => p := CheckExpired(timers, env.now, w.(pc := CheckTimers));
        case TryCall => p := TryReceiveCall(cases, w.(pc := TryCall), env.now);
        case TrySend => p := TryReceiveSend(cases, w.(pc := TrySend), env.now);
        case Fallback => p := DefaultOrExpired(timers, defaultIdx, w.(pc := Fallback), env.now);
      }
      trace := Stepping(s0, w, trace, Mail(), p, env.now);
    }

    /** Steps 1 to 3 of a pass. */
    method FirstSteps(cases: seq<Case<V>>, timers: seq<Timer>, defaultIdx: Option<nat>, env: Environment<V>,
                      w: Wait<V>, ghost s0: WaitState<V>, ghost soFar: seq<WaitEvent<V>>)
      returns (p: Progress<V>, ghost trace: seq<WaitEvent<V>>)
      requires w.cases == cases && w.timers == timers && defaultIdx == DefaultCase(cases)
      requires WaitExec(s0, w, soFar) == Some(WaitState(Mail(), Pass(Scan), env.now))
      modifies this, env
      ensures WaitExec(s0, w, trace) == Some(WaitState(Mail(), p, env.now))
      ensures p.Pass? ==> p.pc == TrySend
      ensures |env.script| < |old(env.script)|
           || (env.script == old(env.script) && |sendCh| + |callChan| <= |old(sendCh)| + |old(callChan)|)
      ensures SameElse(old(queryResults), old(outcome))
    {
      p, trace := Advance(cases, timers, defaultIdx, env, w, Scan, s0, soFar);
      if p.Fire? { return; }
      p, trace := Advance(cases, timers, defaultIdx, env, w, CheckTimers, s0, trace);
      if p.Fire? { return; }
      p, trace := Advance(cases, timers, defaultIdx, env, w, TryCall, s0, trace);
    }

    /** Steps 2 to 5 of the loop: one pass up to the blocking select. */
    method OnePass(cases: seq<Case<V>>, timers: seq<Timer>, defaultIdx: Option<nat>, env: Environment<V>, w: Wait<V>,
                   ghost s0: WaitState<V>, ghost soFar: seq<WaitEvent<V>>)
      returns (p: Progress<V>, ghost trace: seq<WaitEvent<V>>)
      requires w.cases == cases && w.timers == timers && defaultIdx == DefaultCase(cases)
      requires WaitExec(s0, w, soFar) == Some(WaitState(Mail(), Pass(Scan), env.now))
      modifies this, env
      ensures WaitExec(s0, w, trace) == Some(WaitState(Mail(), p, env.now))
      ensures p.Pass? ==> p.pc == Block
      ensures |env.script| < |old(env.script)|
           || (env.script == old(env.script) && |sendCh| + |callChan| <= |old(sendCh)| + |old(callChan)|)
      ensures SameElse(old(queryResults), old(outcome))
    {
      p, trace := FirstSteps(cases, timers, defaultIdx, env, w, s0, soFar);
      if p.Fire? { return; }
      p, trace := Advance(cases, timers, defaultIdx, env, w, TrySend, s0, trace);
      if p.Fire? { return; }
      p, trace := Advance(cases, timers, defaultIdx, env, w, Fallback, s0, trace);
    }

    /** Step 5, and the test that blockForCase makes before it blocks. */
    method DefaultOrExpired(timers: seq<Timer>, defaultIdx: Option<nat>, w: Wait<V>, now: int) returns (p: Progress<V>)
      requires w.timers == timers && w.pc == Fallback && defaultIdx == DefaultCase(w.cases)
      ensures (Mail(), p) == WaitStep(Mail(), w, now)
    {
      if defaultIdx.Some? { return Fire(ByDefault(defaultIdx.value), None); }
      var nearest := NearestTimer(timers);
      if nearest.Some? && timers[nearest.value].deadline <= now {
        return Fire(ByTimer(timers[nearest.value].idx, w.entered, now), None);
      }
      return Pass(Block);
    }

    /** Lets the world act between two steps. */
    method Yield(env: Environment<V>, ghost w: Wait<V>, ghost s0: WaitState<V>, ghost soFar: seq<WaitEvent<V>>,
                 ghost p: Progress<V>) returns (ghost trace: seq<WaitEvent<V>>)
      requires p.Pass? && WaitExec(s0, w, soFar) == Some(WaitState(Mail(), p, env.now))
      modifies this, env
      ensures WaitExec(s0, w, trace) == Some(WaitState(Mail(), p, env.now))
      ensures |env.script| < |old(env.script)|
           || (env.script == old(env.script) && sendCh == old(sendCh) && callChan == old(callChan))
      ensures SameElse(old(queryResults), old(outcome))
    {
      var events := Interfere(env);
      WaitExecHappened(s0, w, soFar, events);
      trace := soFar + Lift(events);
    }
  }

  /** Nothing ready: both channels are empty and every deadline is ahead. */
  lemma NoneReady<V>(b: Box<V>, w: Wait<V>, now: int)
    requires w.timers == Deadlines(w.cases, w.entered) && forall c :: !Ready(b, w, now, c)
    ensures b.sendCh == [] && b.callers == []
    ensures forall i :: 0 <= i < |w.cases| && w.cases[i].timer.Some? ==> now < w.entered + w.cases[i].timer.value
  {
    assert !Ready(b, w, now, ChooseSend) && !Ready(b, w, now, ChooseCall) && !Ready(b, w, now, ChooseTimer);
    DeadlinesAhead(w.cases, w.entered, now);
  }

  ghost predicate Quiet(timers: seq<Timer>, now: int) {
    Nearest(timers).None? || now < timers[Nearest(timers).value].deadline
  }

  lemma DeadlinesAhead<V>(cases: seq<Case<V>>, entered: int, now: int)
    requires Quiet(Deadlines(cases, entered), now)
    ensures forall i :: 0 <= i < |cases| && cases[i].timer.Some? ==> now < entered + cases[i].timer.value
  {
    forall i | 0 <= i < |cases| && cases[i].timer.Some? ensures now < entered + cases[i].timer.value {
      TimerAhead(Deadlines(cases, entered), Timer(i, entered + cases[i].timer.value), now);
    }
  }

  lemma TimerAhead(timers: seq<Timer>, t: Timer, now: int)
    requires t in timers && Quiet(timers, now)
    ensures now < t.deadline
  {}

  /** A step of the goroutine extends the execution. */
  ghost method Stepping<V>(s0: WaitState<V>, w: Wait<V>, soFar: seq<WaitEvent<V>>, b: Box<V>, p: Progress<V>, now: int)
    returns (trace: seq<WaitEvent<V>>)
    requires WaitExec(s0, w, soFar).Some? && WaitExec(s0, w, soFar).value.progress.Pass?
    requires var s := WaitExec(s0, w, soFar).value;
      s.progress.pc != Block && now == s.now && (b, p) == WaitStep(s.box, w.(pc := s.progress.pc), now)
    ensures WaitExec(s0, w, trace) == Some(WaitState(b, p, now))
  {
    WaitExecSnoc(s0, w, soFar, Stepped);
    trace := soFar + [Stepped];
  }

  lemma {:induction false} HappenedConcat<V>(b: Box<V>, now: int, first: seq<WorldEvent<V>>, second: seq<WorldEvent<V>>)
    ensures Happened(b, now, first + second) == Happened(Happened(b, now, first).0, Happened(b, now, first).1, second)
  {
    if second == [] {
      assert first + second == first;
    } else {
      var init, last := second[..|second| - 1], second[|second| - 1];
      HappenedConcat(b, now, first, init);
      assert (first + second)[..|first + second| - 1] == first + init;
    }
  }
}
