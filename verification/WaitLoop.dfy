/** The loop of waitForCase (backend/inmemory/runtime.go): what one undisturbed pass chooses, and executions of the
    loop in which the rest of the world acts between its steps. */
module WaitLoop {
  import opened Wrappers
  import opened Durable
  import opened Mailbox

  // ----- One pass without interference -----

  function Rank(pc: Pc): nat {
    match pc
    case Scan => 5
    case CheckTimers => 4
    case TryCall => 3
    case TrySend => 2
    case Fallback => 1
    case Block => 0
  }

  function QuietPass<V>(b: Box<V>, w: Wait<V>, now: int): (Box<V>, Progress<V>)
    decreases Rank(w.pc)
  {
    if w.pc == Block then (b, Pass(Block))
    else
      var (b', p) := WaitStep(b, w, now);
      match p
      case Pass(pc) => QuietPass(b', w.(pc := pc), now)
      case Fire(_, _) => (b', p)
  }

  ghost predicate CallReady<V>(b: Box<V>, cases: seq<Case<V>>) {
    b.callers != [] && CallCase(cases, b.callers[0].callName).Some?
  }

  ghost predicate SendReady<V>(b: Box<V>, cases: seq<Case<V>>) {
    b.sendCh != [] && SendCase(cases, b.sendCh[0].key).Some?
  }

  function DefaultOrBlock<V>(cases: seq<Case<V>>): Progress<V> {
    match DefaultCase(cases)
    case Some(i) => Fire(ByDefault(i), None)
    case None => Pass(Block)
  }

  function HeadSend<V>(b: Box<V>, cases: seq<Case<V>>): Progress<V>
    requires b.sendCh != [] && SendCase(cases, b.sendCh[0].key).Some?
  {
    Fire(BySend(SendCase(cases, b.sendCh[0].key).value), Some(b.sendCh[0].msg))
  }

  function HeadCall<V>(b: Box<V>, cases: seq<Case<V>>): Progress<V>
    requires b.callers != [] && CallCase(cases, b.callers[0].callName).Some?
  {
    Fire(ByCall(CallCase(cases, b.callers[0].callName).value, b.callers[0].call), Some(b.callers[0].req))
  }

  lemma FromFallback<V>(b: Box<V>, w: Wait<V>, now: int)
    requires w.pc == Fallback && FirstExpired(w.timers, now).None?
    ensures QuietPass(b, w, now).1 == DefaultOrBlock(w.cases)
  {
    assert Nearest(w.timers).Some? ==> now < w.timers[Nearest(w.timers).value].deadline;
  }

  lemma FromTrySend<V>(b: Box<V>, w: Wait<V>, now: int)
    requires w.pc == TrySend && FirstExpired(w.timers, now).None?
    ensures QuietPass(b, w, now).1 == if SendReady(b, w.cases) then HeadSend(b, w.cases) else DefaultOrBlock(w.cases)
  {
    var (b', p) := WaitStep(b, w, now);
    if p.Pass? {
      FromFallback(b', w.(pc := Fallback), now);
    }
  }

  lemma FromTryCall<V>(b: Box<V>, w: Wait<V>, now: int)
    requires w.pc == TryCall && FirstExpired(w.timers, now).None?
    ensures QuietPass(b, w, now).1 ==
      if CallReady(b, w.cases) then HeadCall(b, w.cases)
      else if SendReady(b, w.cases) then HeadSend(b, w.cases)
      else DefaultOrBlock(w.cases)
  {
    if CallReady(b, w.cases) {
      assert w.cases[CallCase(w.cases, b.callers[0].callName).value].callName != "";
    }
    var (b', p) := WaitStep(b, w, now);
    if p.Pass? {
      FromTrySend(b', w.(pc := TrySend), now);
    }
  }

  /** Each pass takes, in this order: a buffered send, an expired timer, the first caller if its request
      kind is awaited, the head of the channel if its key is awaited, and Default; otherwise it blocks. */
  lemma PassPriority<V>(b: Box<V>, w: Wait<V>, now: int)
    requires w.pc == Scan
    ensures var p := QuietPass(b, w, now).1;
      if BufferedCase(b, w.cases).Some? then
        var i := BufferedCase(b, w.cases).value;
        p == Fire(BySend(i), Some(Buf(b, w.cases[i].handlerKey)[0]))
      else if FirstExpired(w.timers, now).Some? then p == TimerFires(w, FirstExpired(w.timers, now).value, now)
      else if CallReady(b, w.cases) then p == HeadCall(b, w.cases)
      else if SendReady(b, w.cases) then p == HeadSend(b, w.cases)
      else p == DefaultOrBlock(w.cases)
  {
    if BufferedCase(b, w.cases).None? {
      var w1 := w.(pc := CheckTimers);
      assert WaitStep(b, w, now) == (b, Pass(CheckTimers));
      if FirstExpired(w.timers, now).None? {
        assert WaitStep(b, w1, now) == (b, Pass(TryCall));
        FromTryCall(b, w1.(pc := TryCall), now);
      }
    }
  }

  // ----- Executions of the wait loop -----

  /** What the rest of the world does. Pause lets the goroutine take its next step. */
  datatype WorldEvent<V> =
    | Elapse(duration: nat)
    | Arrive(origin: Origin, msg: SendMsg<V>)
    | CallIn(req: CallReq<V>)
    | Pause

  datatype WaitEvent<V> = World(event: WorldEvent<V>) | Stepped | Chosen(choice: Choice)

  datatype WaitState<V> = WaitState(box: Box<V>, progress: Progress<V>, now: int)

  function Disturb<V>(s: WaitState<V>, e: WorldEvent<V>): WaitState<V> {
    match e
    case Elapse(d) => s.(now := s.now + d)
    case Arrive(origin, m) => s.(box := Enqueue(s.box, origin, m))
    case CallIn(req) => s.(box := Offer(s.box, req))
    case Pause => s
  }

  function WaitNext<V>(s: WaitState<V>, w: Wait<V>, e: WaitEvent<V>): Option<WaitState<V>> {
    if s.progress.Fire? then None
    else
      var at := w.(pc := s.progress.pc);
      match e
      case World(event) => Some(Disturb(s, event))
      case Stepped =>
        if at.pc == Block then None
        else var (b, p) := WaitStep(s.box, at, s.now); Some(WaitState(b, p, s.now))
      case Chosen(choice) =>
        if at.pc != Block || !Ready(s.box, at, s.now, choice) then None
        else var (b, p) := BlockStep(s.box, at, s.now, choice); Some(WaitState(b, p, s.now))
  }

  function WaitExec<V>(s: WaitState<V>, w: Wait<V>, trace: seq<WaitEvent<V>>): Option<WaitState<V>> {
    if trace == [] then Some(s)
    else
      var before := WaitExec(s, w, trace[..|trace| - 1]);
      if before.Some? then WaitNext(before.value, w, trace[|trace| - 1]) else None
  }

  lemma WaitExecSnoc<V>(s: WaitState<V>, w: Wait<V>, trace: seq<WaitEvent<V>>, e: WaitEvent<V>)
    requires WaitExec(s, w, trace).Some?
    ensures WaitExec(s, w, trace + [e]) == WaitNext(WaitExec(s, w, trace).value, w, e)
  {
    assert (trace + [e])[..|trace|] == trace;
  }

  ghost predicate WaitStateInv<V>(s: WaitState<V>, w: Wait<V>) {
    && BoxInv(s.box)
    && s.now >= w.entered
    && w.timers == Deadlines(w.cases, w.entered)
    && match s.progress
       case Pass(pc) => WaitInv(s.box, w.(pc := pc))
       case Fire(firing, msg) =>
         Justified(w.cases, firing, msg) && (firing.ByTimer? ==> firing.entered == w.entered && firing.at <= s.now)
  }

  lemma WaitNextKeeps<V>(s: WaitState<V>, w: Wait<V>, e: WaitEvent<V>)
    requires WaitStateInv(s, w) && WaitNext(s, w, e).Some?
    ensures WaitStateInv(WaitNext(s, w, e).value, w)
  {
    var at := w.(pc := s.progress.pc);
    match e
    case World(Elapse(_)) =>
    case World(Arrive(origin, m)) =>
      EnqueueKeeps(s.box, origin, m);
      assert forall key :: Buf(Enqueue(s.box, origin, m), key) == Buf(s.box, key);
    case World(CallIn(req)) =>
      SameMail(s.box, Offer(s.box, req));
      assert forall key :: Buf(Offer(s.box, req), key) == Buf(s.box, key);
    case World(Pause) =>
    case Stepped => WaitStepKeeps(s.box, at, s.now);
    case Chosen(choice) => BlockStepKeeps(s.box, at, s.now, choice);
  }

  lemma {:induction false} WaitExecKeeps<V>(s: WaitState<V>, w: Wait<V>, trace: seq<WaitEvent<V>>)
    requires WaitStateInv(s, w) && WaitExec(s, w, trace).Some?
    ensures WaitStateInv(WaitExec(s, w, trace).value, w)
  {
    if trace != [] {
      WaitExecKeeps(s, w, trace[..|trace| - 1]);
      WaitNextKeeps(WaitExec(s, w, trace[..|trace| - 1]).value, w, trace[|trace| - 1]);
    }
  }
}
