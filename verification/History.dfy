/** What every run of the in-memory runtime keeps in each instance: mail is conserved and in order,
    the handler runs follow one another as the continuations say, every call taken gets one reply and
    the query map holds the last writes of the runs whose output was used. */
module History {
  import opened Wrappers
  import opened Queries
  import opened Durable
  import opened Mailbox
  import opened InMemory

  // ----- Reading a history of runs -----

  function UsedIn<V>(reg: Recovery, r: Run<V>): Outcome<V> {
    Used(reg, r.key, r.primary, r.recovery)
  }

  /** The effects of a run: those of the invocation whose output is used, and none if it failed. */
  function EffectsOf<V>(reg: Recovery, r: Run<V>): Effects<V> {
    match UsedIn(reg, r)
    case Failed(_, _) => NoEffects()
    case Returned(_, eff) => eff
  }

  /** The run ended in a wait on these cases. */
  ghost predicate Suspends<V>(reg: Recovery, r: Run<V>, cases: seq<Case<V>>) {
    match UsedIn(reg, r)
    case Failed(_, _) => false
    case Returned(out, _) => !out.done && out.cases == cases
  }

  /** A handler entered next after run `r`: the case that fired is one of `r`'s, and it fired rightly. */
  ghost predicate Follows<V>(reg: Recovery, r: Run<V>, firing: Firing, key: string, input: V, msg: Option<V>) {
    match UsedIn(reg, r)
    case Failed(_, _) => false
    case Returned(out, _) =>
      && !out.done
      && Justified(out.cases, firing, msg)
      && (IsContinue(out.cases) ==> firing == ByDefault(0))
      && var c := out.cases[CaseIndex(firing).value];
         c.handlerKey == key && c.input == input
  }

  /** What may be entered after the runs so far; the first is the start itself. */
  ghost predicate Enters<V>(reg: Recovery, key: string, input: V, runs: seq<Run<V>>, firing: Firing, k: string, i: V,
                            m: Option<V>) {
    if runs == [] then firing == ByStart && k == key && i == input && m == None
    else Follows(reg, runs[|runs| - 1], firing, k, i, m)
  }

  /** A legal history of a routine started with `key` and `input`. */
  ghost predicate Legal<V>(reg: Recovery, key: string, input: V, runs: seq<Run<V>>) {
    forall j {:trigger runs[j]} :: 0 <= j < |runs| ==>
      Enters(reg, key, input, runs[..j], runs[j].firing, runs[j].key, runs[j].input, runs[j].msg)
  }

  /** The runs of a legal history one by one: the start, and each run after the one before it. */
  lemma LegalAt<V>(reg: Recovery, key: string, input: V, runs: seq<Run<V>>, j: nat)
    requires Legal(reg, key, input, runs) && j < |runs|
    ensures j == 0 ==> runs[0].firing == ByStart && runs[0].key == key && runs[0].input == input && runs[0].msg == None
    ensures j > 0 ==> Follows(reg, runs[j - 1], runs[j].firing, runs[j].key, runs[j].input, runs[j].msg)
  {
    var r := runs[j];
    assert Enters(reg, key, input, runs[..j], r.firing, r.key, r.input, r.msg);
    if j > 0 {
      assert runs[..j][j - 1] == runs[j - 1];
    }
  }

  function Delivered<V>(firing: Firing, key: string, msg: Option<V>): seq<SendMsg<V>> {
    if firing.BySend? && msg.Some? then [SendMsg(key, msg.value)] else []
  }

  /** The sends handed to the handlers of these runs, in order. */
  function Deliveries<V>(runs: seq<Run<V>>): seq<SendMsg<V>> {
    if runs == [] then []
    else
      var r := runs[|runs| - 1];
      Deliveries(runs[..|runs| - 1]) + Delivered(r.firing, r.key, r.msg)
  }

  function QueriesAfter<V>(reg: Recovery, runs: seq<Run<V>>): map<string, V> {
    if runs == [] then map[]
    else WriteAll(QueriesAfter(reg, runs[..|runs| - 1]), EffectsOf(reg, runs[|runs| - 1]).queries)
  }

  /** The answer that a run gives to the call it was run for. */
  function ResponseOf<V>(reg: Recovery, r: Run<V>): CallResp<V> {
    match UsedIn(reg, r)
    case Failed(e, _) => Err(e)
    case Returned(out, _) => Ok(out.callResponse)
  }

  // ----- The invariant of an instance -----

  /** The phase is what the last run leads to. */
  ghost predicate PhaseFits<V>(reg: Recovery, i: Inst<V>) {
    match i.phase
    case Handling(firing, key, input, msg) => Enters(reg, i.key, i.input, i.runs, firing, key, input, msg)
    case Applying(starts, sends, out, firing) =>
      && i.runs != []
      && var r := i.runs[|i.runs| - 1];
         && UsedIn(reg, r).Returned? && UsedIn(reg, r).output == out && r.firing == firing
         && IsSuffix(starts, EffectsOf(reg, r).starts)
         && IsSuffix(sends, EffectsOf(reg, r).sends)
         && (starts != [] ==> sends == EffectsOf(reg, r).sends)
    case Waiting(w) =>
      && i.runs != []
      && Suspends(reg, i.runs[|i.runs| - 1], w.cases)
      && !IsContinue(w.cases)
      && WaitInv(i.box, w)
    case Finished(outcome) =>
      && i.runs != []
      && match UsedIn(reg, i.runs[|i.runs| - 1])
         case Failed(e, _) => outcome == Failure(e)
         case Returned(out, _) => out.done && outcome == Success(out.result)
  }

  ghost predicate IsSuffix<T>(a: seq<T>, b: seq<T>) {
    |a| <= |b| && a == b[|b| - |a|..]
  }

  /** The call taken but not answered yet: at most one, and only between taking it and settling its run. */
  function Outstanding<V>(p: Phase<V>): seq<nat> {
    match p
    case Handling(firing, _, _, _) => if ReplyTo(firing).Some? then [ReplyTo(firing).value] else []
    case Applying(_, _, _, firing) => if ReplyTo(firing).Some? then [ReplyTo(firing).value] else []
    case _ => []
  }

  function InHand<V>(p: Phase<V>): seq<SendMsg<V>> {
    match p
    case Handling(firing, key, _, msg) => Delivered(firing, key, msg)
    case _ => []
  }

  /** How many runs have been answered for: all but the one whose effects are being applied. */
  function Settled<V>(i: Inst<V>): nat {
    if i.phase.Applying? && i.runs != [] then |i.runs| - 1 else |i.runs|
  }

  ghost predicate Answered<V>(reg: Recovery, i: Inst<V>) {
    forall j :: 0 <= j < Settled(i) && i.runs[j].firing.ByCall? ==>
      Reply(i.runs[j].firing.call, ResponseOf(reg, i.runs[j])) in i.box.replied
  }

  /** A key is stray only if some wait of this instance did not await it. */
  ghost predicate StraysExplained<V>(reg: Recovery, i: Inst<V>) {
    forall key :: key in i.box.strays ==> exists j :: 0 <= j < |i.runs| && Unawaited(reg, i.runs[j], key)
  }

  ghost predicate Unawaited<V>(reg: Recovery, r: Run<V>, key: string) {
    match UsedIn(reg, r)
    case Failed(_, _) => false
    case Returned(out, _) => !out.done && forall c :: c in out.cases ==> !Awaits(c, key)
  }

  ghost predicate InstInv<V>(reg: Recovery, i: Inst<V>) {
    && BoxInv(i.box)
    && Legal(reg, i.key, i.input, i.runs)
    && PhaseFits(reg, i)
    && i.box.delivered == Deliveries(i.runs) + InHand(i.phase)
    && i.box.taken == Calls(i.box.replied) + Outstanding(i.phase)
    && Answered(reg, i)
    && StraysExplained(reg, i)
    && i.queries == QueriesAfter(reg, i.runs)
  }

  // ----- Each action keeps it -----

  lemma NewInstKeeps<V>(reg: Recovery, key: string, input: V, parent: Origin)
    ensures InstInv(reg, NewInst(key, input, parent))
  {}

  lemma EnqueueInstKeeps<V>(reg: Recovery, i: Inst<V>, origin: Origin, m: SendMsg<V>)
    requires InstInv(reg, i)
    ensures InstInv(reg, i.(box := Enqueue(i.box, origin, m)))
  {
    EnqueueKeeps(i.box, origin, m);
    assert forall key :: Buf(Enqueue(i.box, origin, m), key) == Buf(i.box, key);
  }

  lemma OfferInstKeeps<V>(reg: Recovery, i: Inst<V>, req: CallReq<V>)
    requires InstInv(reg, i)
    ensures InstInv(reg, i.(box := Offer(i.box, req)))
  {
    SameMail(i.box, Offer(i.box, req));
    assert forall key :: Buf(Offer(i.box, req), key) == Buf(i.box, key);
  }

  lemma LegalSnoc<V>(reg: Recovery, key: string, input: V, runs: seq<Run<V>>, r: Run<V>)
    requires Legal(reg, key, input, runs) && Enters(reg, key, input, runs, r.firing, r.key, r.input, r.msg)
    ensures Legal(reg, key, input, runs + [r])
  {
    var more := runs + [r];
    forall j {:trigger more[j]} | 0 <= j < |more|
      ensures Enters(reg, key, input, more[..j], more[j].firing, more[j].key, more[j].input, more[j].msg)
    {
      assert more[..j] == runs[..j] && runs[..|runs|] == runs;
      if j < |runs| {
        assert more[j] == runs[j];
      }
    }
  }

  lemma RespondKeeps<V>(b: Box<V>, firing: Firing, resp: CallResp<V>)
    requires BoxInv(b)
    requires b.taken == Calls(b.replied) + (if ReplyTo(firing).Some? then [ReplyTo(firing).value] else [])
    ensures BoxInv(Respond(b, firing, resp))
    ensures Respond(b, firing, resp).taken == Calls(Respond(b, firing, resp).replied)
    ensures forall r :: r in b.replied ==> r in Respond(b, firing, resp).replied
    ensures firing.ByCall? ==> Reply(firing.call, resp) in Respond(b, firing, resp).replied
  {
    var b' := Respond(b, firing, resp);
    SameMail(b, b');
    if firing.ByCall? {
      assert b'.replied[|b.replied|] == Reply(firing.call, resp);
      assert Calls(b'.replied) == Calls(b.replied) + [firing.call];
    }
    forall r | r in b.replied ensures r in b'.replied {
      var k :| 0 <= k < |b.replied| && b.replied[k] == r;
      assert b'.replied[k] == r;
    }
  }

  lemma StraysStayExplained<V>(reg: Recovery, i: Inst<V>, i': Inst<V>)
    requires StraysExplained(reg, i) && i.runs <= i'.runs && i'.box.strays == i.box.strays
    ensures StraysExplained(reg, i')
  {
    forall key | key in i'.box.strays ensures exists j :: 0 <= j < |i'.runs| && Unawaited(reg, i'.runs[j], key) {
      var j :| 0 <= j < |i.runs| && Unawaited(reg, i.runs[j], key);
      assert i'.runs[j] == i.runs[j];
    }
  }

  /** A new run's answer is not due before it is settled. */
  lemma AnsweredLater<V>(reg: Recovery, i: Inst<V>, i': Inst<V>)
    requires Answered(reg, i) && Settled(i) == Settled(i') <= |i.runs|
    requires i.runs <= i'.runs && i'.box.replied == i.box.replied
    ensures Answered(reg, i')
  {
    forall j | 0 <= j < Settled(i') && i'.runs[j].firing.ByCall?
      ensures Reply(i'.runs[j].firing.call, ResponseOf(reg, i'.runs[j])) in i'.box.replied
    {
      assert i'.runs[j] == i.runs[j];
    }
  }

  /** Settling the last run adds its answer. */
  lemma AnsweredNow<V>(reg: Recovery, i: Inst<V>, i': Inst<V>)
    requires Answered(reg, i) && i'.runs != [] && Settled(i') == |i'.runs| == Settled(i) + 1
    requires i.runs <= i'.runs
    requires forall r :: r in i.box.replied ==> r in i'.box.replied
    requires var last := i'.runs[|i'.runs| - 1];
      last.firing.ByCall? ==> Reply(last.firing.call, ResponseOf(reg, last)) in i'.box.replied
    ensures Answered(reg, i')
  {
    forall j | 0 <= j < Settled(i') && i'.runs[j].firing.ByCall?
      ensures Reply(i'.runs[j].firing.call, ResponseOf(reg, i'.runs[j])) in i'.box.replied
    {
      if j < Settled(i) {
        assert i'.runs[j] == i.runs[j];
      }
    }
  }

  lemma HandleKeeps<V>(reg: Recovery, i: Inst<V>, primary: Outcome<V>, recovery: Outcome<V>)
    requires InstInv(reg, i) && i.phase.Handling?
    ensures InstInv(reg, HandleStep(reg, i, primary, recovery))
  {
    if Used(reg, i.phase.key, primary, recovery).Failed? {
      FailKeeps(reg, i, primary, recovery);
    } else {
      ReturnKeeps(reg, i, primary, recovery);
    }
  }

  /** A failed run: its caller gets the error, its effects are dropped and the routine ends. */
  lemma FailKeeps<V>(reg: Recovery, i: Inst<V>, primary: Outcome<V>, recovery: Outcome<V>)
    requires InstInv(reg, i) && i.phase.Handling? && Used(reg, i.phase.key, primary, recovery).Failed?
    ensures InstInv(reg, HandleStep(reg, i, primary, recovery))
    ensures var e, i' := Used(reg, i.phase.key, primary, recovery).error, HandleStep(reg, i, primary, recovery);
      && i'.phase == Finished(Failure(e)) && i'.queries == i.queries
      && i'.box.replied == i.box.replied + (if i.phase.firing.ByCall? then [Reply(i.phase.firing.call, Err(e))] else [])
  {
    var p := i.phase;
    var r := Run(p.firing, p.key, p.input, p.msg, primary, recovery);
    var i' := HandleStep(reg, i, primary, recovery);
    LegalSnoc(reg, i.key, i.input, i.runs, r);
    assert i'.runs == i.runs + [r] && i'.runs[..|i'.runs| - 1] == i.runs;
    StraysStayExplained(reg, i, i');
    RespondKeeps(i.box, p.firing, Err(UsedIn(reg, r).error));
    AnsweredNow(reg, i, i');
    assert WriteAll(i.queries, []) == i.queries;
  }

  lemma ReturnKeeps<V>(reg: Recovery, i: Inst<V>, primary: Outcome<V>, recovery: Outcome<V>)
    requires InstInv(reg, i) && i.phase.Handling? && Used(reg, i.phase.key, primary, recovery).Returned?
    ensures InstInv(reg, HandleStep(reg, i, primary, recovery))
  {
    var p := i.phase;
    var r := Run(p.firing, p.key, p.input, p.msg, primary, recovery);
    var i' := HandleStep(reg, i, primary, recovery);
    LegalSnoc(reg, i.key, i.input, i.runs, r);
    assert i'.runs == i.runs + [r] && i'.runs[..|i'.runs| - 1] == i.runs;
    StraysStayExplained(reg, i, i');
    AnsweredLater(reg, i, i');
  }

  lemma SettleKeeps<V>(reg: Recovery, i: Inst<V>, now: int)
    requires InstInv(reg, i) && i.phase.Applying?
    ensures InstInv(reg, SettleStep(i, now))
  {
    var resp := Ok(i.phase.output.callResponse);
    var i' := SettleStep(i, now);
    var b := Respond(i.box, i.phase.firing, resp);
    RespondKeeps(i.box, i.phase.firing, resp);
    AnsweredNow(reg, i, i');
    StraysStayExplained(reg, i, i');
    SettledPhaseFits(reg, i, now);
  }

  lemma SettledPhaseFits<V>(reg: Recovery, i: Inst<V>, now: int)
    requires PhaseFits(reg, i) && i.phase.Applying?
    ensures PhaseFits(reg, SettleStep(i, now))
    ensures InHand(SettleStep(i, now).phase) == [] && Outstanding(SettleStep(i, now).phase) == []
  {}

  lemma TakenStillReplied<V>(b: Box<V>, b': Box<V>, current: seq<nat>)
    requires b.taken == Calls(b.replied) && b.taken <= b'.taken && b.replied <= b'.replied
    requires b'.taken[|b.taken|..] == Calls(b'.replied[|b.replied|..]) + current
    ensures b'.taken == Calls(b'.replied) + current
  {
    var more := b'.replied[|b.replied|..];
    CallsConcat(b.replied, more);
    assert b'.replied == b.replied + more;
    Rejoin(Calls(b.replied), Calls(more), current, b'.taken);
  }

  lemma CallsConcat<V>(a: seq<Reply<V>>, b: seq<Reply<V>>)
    ensures Calls(a + b) == Calls(a) + Calls(b)
  {}

  lemma Rejoin<T>(a: seq<T>, b: seq<T>, c: seq<T>, all: seq<T>)
    requires a <= all && all[|a|..] == b + c
    ensures all == a + b + c
  {}

  lemma AfterWaitKeeps<V>(reg: Recovery, i: Inst<V>, now: int, step: (Box<V>, Progress<V>))
    requires InstInv(reg, i) && i.phase.Waiting?
    requires GoodStep(i.box, i.phase.wait, now, step.0, step.1)
    ensures InstInv(reg, AfterWait(i, step))
  {
    var w := i.phase.wait;
    var (b', p) := step;
    var i' := AfterWait(i, step);
    var last := i.runs[|i.runs| - 1];
    assert b'.delivered == Deliveries(i.runs) + InHand(i'.phase);
    TakenStillReplied(i.box, b', Accepted(p));
    assert Outstanding(i'.phase) == Accepted(p);
    forall j | 0 <= j < Settled(i') && i'.runs[j].firing.ByCall?
      ensures Reply(i'.runs[j].firing.call, ResponseOf(reg, i'.runs[j])) in i'.box.replied
    {
      var r := Reply(i.runs[j].firing.call, ResponseOf(reg, i.runs[j]));
      assert r in i.box.replied;
    }
    forall key | key in b'.strays ensures exists j :: 0 <= j < |i'.runs| && Unawaited(reg, i'.runs[j], key) {
      if key in i.box.strays {
        var j :| 0 <= j < |i.runs| && Unawaited(reg, i.runs[j], key);
      } else {
        assert Unawaited(reg, last, key);
      }
    }
  }

  /** Popping an effect that has been applied. */
  lemma PopKeeps<V>(reg: Recovery, i: Inst<V>, i': Inst<V>)
    requires InstInv(reg, i) && i.phase.Applying? && i'.phase.Applying?
    requires i' == i.(phase := i.phase.(starts := i'.phase.starts, sends := i'.phase.sends), drops := i'.drops)
    requires || (i.phase.starts != [] && i'.phase.starts == i.phase.starts[1..] && i'.phase.sends == i.phase.sends)
             || (i.phase.starts == [] == i'.phase.starts && i.phase.sends != [] && i'.phase.sends == i.phase.sends[1..])
    ensures InstInv(reg, i')
  {}
}
