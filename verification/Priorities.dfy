/** The order in which cases fire in memory, against the order that is documented (durable/continuation.go): timers,
    calls, sends, Default. When a case fires although one that should come first is ready, exactly. */
module Priorities {
  import opened Wrappers
  import opened Durable
  import opened Mailbox
  import opened InMemory
  import opened WaitLoop

  // ----- What is ready -----

  ghost predicate TimerDue<V>(w: Wait<V>, now: int) {
    exists j :: 0 <= j < |w.timers| && w.timers[j].deadline <= now
  }

  /** Some caller asks for a request kind that is awaited. */
  ghost predicate CallerAwaited<V>(b: Box<V>, cases: seq<Case<V>>) {
    exists k :: 0 <= k < |b.callers| && CallCase(cases, b.callers[k].callName).Some?
  }

  ghost predicate AwaitedOnChannel<V>(b: Box<V>, cases: seq<Case<V>>) {
    exists k :: 0 <= k < |b.sendCh| && SendCase(cases, b.sendCh[k].key).Some?
  }

  ghost predicate SendAwaited<V>(b: Box<V>, cases: seq<Case<V>>) {
    BufferedCase(b, cases).Some? || AwaitedOnChannel(b, cases)
  }

  /** No case but Default is ready. */
  ghost predicate NothingElse<V>(b: Box<V>, w: Wait<V>, now: int) {
    !TimerDue(w, now) && !CallerAwaited(b, w.cases) && !SendAwaited(b, w.cases)
  }

  /** An awaited message waits behind one that is not awaited. */
  ghost predicate SendHidden<V>(b: Box<V>, cases: seq<Case<V>>) {
    AwaitedOnChannel(b, cases) && !SendReady(b, cases)
  }

  /** An awaited caller waits behind one that is not. */
  ghost predicate CallHidden<V>(b: Box<V>, cases: seq<Case<V>>) {
    CallerAwaited(b, cases) && !CallReady(b, cases)
  }

  lemma DueIsFirstExpired<V>(w: Wait<V>, now: int)
    ensures TimerDue(w, now) <==> FirstExpired(w.timers, now).Some?
  {}

  // ----- Default -----

  /** Default is documented to run if no other case is ready. An undisturbed pass runs it whenever that is so, and
      also when what is ready is hidden: when it runs, no other case is ready exactly if no awaited send is behind an
      unawaited head of the channel and no awaited call behind an unmatched first caller. */
  lemma DefaultRuns<V>(b: Box<V>, w: Wait<V>, now: int)
    requires w.pc == Scan && DefaultCase(w.cases).Some?
    ensures var defaultRan := QuietPass(b, w, now).1 == Fire(ByDefault(DefaultCase(w.cases).value), None);
      && (defaultRan
          <==> (BufferedCase(b, w.cases).None? && !TimerDue(w, now)
                && !CallReady(b, w.cases) && !SendReady(b, w.cases)))
      && (NothingElse(b, w, now) ==> defaultRan)
      && (defaultRan ==> (NothingElse(b, w, now) <==> !SendHidden(b, w.cases) && !CallHidden(b, w.cases)))
  {
    PassPriority(b, w, now);
    DueIsFirstExpired(w, now);
  }

  // ----- Firing out of turn, anywhere in the wait -----

  /** The documented class of a firing; lower comes first. */
  function Class(f: Firing): nat {
    match f
    case ByStart => 0
    case ByTimer(_, _, _) => 0
    case ByCall(_, _) => 1
    case BySend(_) => 2
    case ByDefault(_) => 3
  }

  /** Something of a class before this firing's is ready. */
  ghost predicate OutOfTurn<V>(b: Box<V>, w: Wait<V>, now: int, f: Firing) {
    || (Class(f) > 0 && TimerDue(w, now))
    || (Class(f) > 1 && CallerAwaited(b, w.cases))
    || (Class(f) > 2 && SendAwaited(b, w.cases))
  }

  /** The loop fires a case in this step. */
  ghost predicate Fires<V>(s: WaitState<V>, w: Wait<V>, e: WaitEvent<V>) {
    s.progress.Pass? && WaitNext(s, w, e).Some? && WaitNext(s, w, e).value.progress.Fire?
  }

  function Fired<V>(s: WaitState<V>, w: Wait<V>, e: WaitEvent<V>): Firing {
    match WaitNext(s, w, e)
    case Some(WaitState(_, Fire(f, _), _)) => f
    case _ => ByStart
  }

  /** Where in the loop a case can fire out of turn, and what it then passes over. */
  ghost predicate PassesOver<V>(s: WaitState<V>, w: Wait<V>, e: WaitEvent<V>)
    requires s.progress.Pass?
  {
    var timer, call, send := TimerDue(w, s.now), CallerAwaited(s.box, w.cases), AwaitedOnChannel(s.box, w.cases);
    match s.progress.pc
    case Scan => timer || call
    case CheckTimers => false
    case TryCall => timer
    case TrySend => timer || call
    case Fallback => DefaultCase(w.cases).Some? && (timer || call || send)
    case Block => if e == Chosen(ChooseSend) then timer || call else e == Chosen(ChooseCall) && timer
  }

  /** The documented order over the whole wait, whatever happens between its steps and whichever ready alternative
      the blocking select takes: a case fires out of turn exactly if a buffered send passes over a due timer or an
      awaited caller; if a timer or an awaited caller has become ready, or was hidden, since the pass looked for
      them; if Default passes over what is hidden on the channels; or if the select takes a send or a call although
      something that comes first is ready too. */
  lemma OutOfTurnExactly<V>(s: WaitState<V>, w: Wait<V>, e: WaitEvent<V>)
    requires WaitStateInv(s, w) && Fires(s, w, e)
    ensures OutOfTurn(s.box, w, s.now, Fired(s, w, e)) <==> PassesOver(s, w, e)
  {
    match s.progress.pc
    case Scan =>
    case CheckTimers =>
    case TryCall => FiresACall(s, w, e);
    case TrySend => FiresASend(s, w, e);
    case Fallback => FiresDefaultOrTimer(s, w, e);
    case Block => FiresChosen(s, w, e);
  }

  lemma FiresACall<V>(s: WaitState<V>, w: Wait<V>, e: WaitEvent<V>)
    requires Fires(s, w, e) && s.progress.pc == TryCall
    ensures Fired(s, w, e).ByCall?
  {}

  lemma FiresASend<V>(s: WaitState<V>, w: Wait<V>, e: WaitEvent<V>)
    requires Fires(s, w, e) && s.progress.pc == TrySend
    ensures Fired(s, w, e).BySend?
  {}

  lemma FiresDefaultOrTimer<V>(s: WaitState<V>, w: Wait<V>, e: WaitEvent<V>)
    requires WaitStateInv(s, w) && Fires(s, w, e) && s.progress.pc == Fallback
    ensures if DefaultCase(w.cases).Some? then Fired(s, w, e).ByDefault? else Fired(s, w, e).ByTimer?
    ensures BufferedCase(s.box, w.cases).None?
  {}

  lemma FiresChosen<V>(s: WaitState<V>, w: Wait<V>, e: WaitEvent<V>)
    requires Fires(s, w, e) && s.progress.pc == Block
    ensures e == Chosen(ChooseSend) ==> Fired(s, w, e).BySend?
    ensures e == Chosen(ChooseCall) ==> Fired(s, w, e).ByCall?
    ensures e == Chosen(ChooseTimer) ==> Fired(s, w, e).ByTimer?
    ensures e in [Chosen(ChooseSend), Chosen(ChooseCall), Chosen(ChooseTimer)]
  {}

  // ----- Due timers -----

  predicate AfterCheck(pc: Pc) {
    pc == TryCall || pc == TrySend || pc == Fallback || pc == Block
  }

  /** The timer check of the pass that is under way. */
  ghost predicate CheckedAt<V>(s0: WaitState<V>, w: Wait<V>, trace: seq<WaitEvent<V>>, k: nat)
    requires k < |trace|
  {
    && WaitExec(s0, w, trace[..k]).Some?
    && WaitExec(s0, w, trace[..k]).value.progress == Pass(CheckTimers)
    && trace[k] == Stepped
    && !TimerDue(w, WaitExec(s0, w, trace[..k]).value.now)
    && forall m :: k < m <= |trace| ==>
         && WaitExec(s0, w, trace[..m]).Some? && WaitExec(s0, w, trace[..m]).value.progress.Pass?
         && AfterCheck(WaitExec(s0, w, trace[..m]).value.progress.pc)
  }

  /** Past the timer check of a pass, no timer was due at that check. */
  lemma {:induction false} Checked<V>(s0: WaitState<V>, w: Wait<V>, trace: seq<WaitEvent<V>>) returns (k: nat)
    requires s0.progress == Pass(Scan) && WaitExec(s0, w, trace).Some?
    requires WaitExec(s0, w, trace).value.progress.Pass? && AfterCheck(WaitExec(s0, w, trace).value.progress.pc)
    ensures k < |trace| && CheckedAt(s0, w, trace, k)
  {
    var n := |trace| - 1;
    var init := trace[..n];
    var s := WaitExec(s0, w, init).value;
    assert trace[..|trace|] == trace;
    if s.progress.pc == CheckTimers {
      k := n;
      CheckPasses(s, w, trace[n]);
    } else {
      NotFromElsewhere(s, w, trace[n]);
      k := Checked(s0, w, init);
      assert init[..k] == trace[..k] && init[k] == trace[k];
      forall m | k < m <= |trace|
        ensures WaitExec(s0, w, trace[..m]).Some? && WaitExec(s0, w, trace[..m]).value.progress.Pass?
        ensures AfterCheck(WaitExec(s0, w, trace[..m]).value.progress.pc)
      {
        if m < |trace| {
          assert init[..m] == trace[..m];
        }
      }
    }
  }

  lemma CheckPasses<V>(s: WaitState<V>, w: Wait<V>, e: WaitEvent<V>)
    requires s.progress == Pass(CheckTimers) && WaitNext(s, w, e).Some?
    requires WaitNext(s, w, e).value.progress.Pass? && AfterCheck(WaitNext(s, w, e).value.progress.pc)
    ensures e == Stepped && !TimerDue(w, s.now)
  {}

  lemma NotFromElsewhere<V>(s: WaitState<V>, w: Wait<V>, e: WaitEvent<V>)
    requires s.progress.Pass? && s.progress.pc != CheckTimers && WaitNext(s, w, e).Some?
    requires WaitNext(s, w, e).value.progress.Pass? && AfterCheck(WaitNext(s, w, e).value.progress.pc)
    ensures AfterCheck(s.progress.pc)
  {}

  /** Timers are documented to come first. Over any execution of a wait, with a timer due when a case fires, a timer
      fires exactly if no buffered send does, the pass has not gone on to the channels or to Default, and the select
      does not take another alternative; and once a pass is past its timer check, a timer that is passed over has
      become due since. */
  lemma ExpiredTimerWins<V>(s0: WaitState<V>, w: Wait<V>, trace: seq<WaitEvent<V>>, s: WaitState<V>, e: WaitEvent<V>)
    returns (k: nat)
    requires s0.progress == Pass(Scan) && WaitStateInv(s0, w) && WaitExec(s0, w, trace) == Some(s)
    requires Fires(s, w, e) && TimerDue(w, s.now)
    ensures Fired(s, w, e).ByTimer? <==>
      match s.progress.pc
      case Scan => false
      case CheckTimers => true
      case TryCall => false
      case TrySend => false
      case Fallback => DefaultCase(w.cases).None?
      case Block => e == Chosen(ChooseTimer)
    ensures s.progress.pc == Scan ==> BufferedCase(s.box, w.cases).Some?
    ensures AfterCheck(s.progress.pc) ==>
      k < |trace| && CheckedAt(s0, w, trace, k) && WaitExec(s0, w, trace[..k]).value.now < s.now
  {
    WaitExecKeeps(s0, w, trace);
    k := 0;
    if AfterCheck(s.progress.pc) {
      k := Checked(s0, w, trace);
      ClockRises(s0, w, trace, k);
      var checked := WaitExec(s0, w, trace[..k]).value.now;
      assert checked != s.now;
    }
    match s.progress.pc
    case Scan =>
    case CheckTimers =>
    case TryCall => FiresACall(s, w, e);
    case TrySend => FiresASend(s, w, e);
    case Fallback => FiresDefaultOrTimer(s, w, e);
    case Block => FiresChosen(s, w, e);
  }

  lemma {:induction false} ClockRises<V>(s0: WaitState<V>, w: Wait<V>, trace: seq<WaitEvent<V>>, k: nat)
    requires WaitExec(s0, w, trace).Some? && k <= |trace|
    ensures WaitExec(s0, w, trace[..k]).Some?
    ensures WaitExec(s0, w, trace[..k]).value.now <= WaitExec(s0, w, trace).value.now
    decreases |trace|
  {
    if k < |trace| {
      var n := |trace| - 1;
      ClockRises(s0, w, trace[..n], k);
      assert trace[..n][..k] == trace[..k];
    } else {
      assert trace[..k] == trace;
    }
  }

  // ----- Calls -----

  /** A call is matched by its request kind alone. Taken in a wait, it runs under the handler key that it was made
      with exactly if the first case of its request kind carries that key; otherwise it runs under that case's key,
      or is refused if there is no such case. */
  lemma CallRunsUnderOwnKey<V>(i: Inst<V>, otherwise: Pc)
    requires i.phase.Waiting? && i.box.callers != []
    ensures var cases, req := i.phase.wait.cases, i.box.callers[0];
      var i' := AfterWait(i, TakeCall(i.box, cases, otherwise));
      && (i'.phase.Handling? <==> CallCase(cases, req.callName).Some?)
      && (i'.phase.Handling? ==>
            && i'.phase.firing == ByCall(CallCase(cases, req.callName).value, req.call) && i'.phase.msg == Some(req.req)
            && i'.phase.key == cases[CallCase(cases, req.callName).value].handlerKey)
      && ((i'.phase.Handling? && i'.phase.key == req.handlerKey)
            <==> exists k :: FirstForCall(cases, req.callName, k) && cases[k].handlerKey == req.handlerKey)
      && (i'.phase.Waiting? ==>
            var refusal := Err("no matching ReceiveCall case for " + req.handlerKey);
            i'.box.replied == i.box.replied + [Reply(req.call, refusal)])
  {
    var cases, req := i.phase.wait.cases, i.box.callers[0];
    if CallCase(cases, req.callName).Some? {
      assert FirstForCall(cases, req.callName, CallCase(cases, req.callName).value);
    }
  }

  ghost predicate FirstForCall<V>(cases: seq<Case<V>>, name: string, k: int) {
    && 0 <= k < |cases| && cases[k].callName != "" && cases[k].callName == name
    && forall j :: 0 <= j < k ==> !(cases[j].callName != "" && cases[j].callName == name)
  }
}
