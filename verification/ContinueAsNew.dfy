/** Continue-as-new: when cutting a run changes nothing, and when it does. */
module ContinueAsNew {
  import opened Keys
  import opened Wrappers
  import opened Queries
  import opened Durable
  import opened Temporal
  import opened WorkflowRuns
  import opened CallInputs

  /** The run that is cut (a) and the run that is not (b) have the same variables and histories; b may have
      more update handlers, left from waits before a cut. */
  ghost predicate Same<V>(a: Wf<V>, b: Wf<V>) {
    && a == b.(registered := a.registered)
    && forall k :: k in a.registered ==> k in b.registered && a.registered[k] == b.registered[k]
  }

  function Uncut<V>(t: Turn<V>): Turn<V> {
    t.(cut := false, drain := [])
  }

  /** The check finds a cut to make, with no call to drain and no message waiting for its handler. */
  ghost predicate CleanAt<V>(w: Wf<V>, t: Turn<V>) {
    w.callOutput.None? && t.cut ==> w.pending == [] && w.message.None? && t.drain == []
  }

  ghost predicate Clean<V>(r: Ran<V>, t: Turn<V>) {
    r.Next? ==> CleanAt(r.wf, t)
  }

  /** Both runs go on alike; where the first is cut, it is resumed. */
  ghost predicate Alike<V>(a: Ran<V>, b: Ran<V>) {
    match a
    case Next(w) => b.Next? && Same(w, b.wf)
    case Ended(r, w) => b.Ended? && b.result == r && Same(w, b.wf)
    case Cut(w) => b.Next? && Same(Resume(w), b.wf)
    case Panicked => b.Panicked?
    case Impossible => b.Impossible?
  }

  /** The cut run is like the uncut one, unless an update is accepted whose handler the cut forgot: then the cut run
      cannot do what the uncut one does. */
  ghost predicate AlikeIf<V>(known: bool, a: Ran<V>, b: Ran<V>) {
    if known || b.Impossible? then Alike(a, b) else a.Impossible?
  }

  // ----- One iteration -----

  ghost predicate KnownTo<V>(registered: map<string, V>, arrivals: seq<Arrival<V>>) {
    forall i :: 0 <= i < |arrivals| ==> arrivals[i].key in registered
  }

  lemma {:induction false} AcceptSame<V>(a: Wf<V>, b: Wf<V>, arrivals: seq<Arrival<V>>)
    requires Same(a, b)
    ensures AcceptAll(a, arrivals).Some? <==> KnownTo(a.registered, arrivals)
    ensures AcceptAll(a, arrivals).Some? ==>
      AcceptAll(b, arrivals).Some? && Same(AcceptAll(a, arrivals).value, AcceptAll(b, arrivals).value)
    decreases |arrivals|
  {
    if arrivals != [] {
      assert KnownTo(a.registered, arrivals)
        <==> (arrivals[0].key in a.registered && KnownTo(a.registered, arrivals[1..])) by {
        assert arrivals == [arrivals[0]] + arrivals[1..];
      }
      if arrivals[0].key in a.registered {
        AcceptSame(Accept(a, arrivals[0]), Accept(b, arrivals[0]), arrivals[1..]);
      }
    }
  }

  lemma {:induction false} RegisterSame<V>(a: map<string, V>, b: map<string, V>, cases: seq<Case<V>>)
    requires forall k :: k in a ==> k in b && a[k] == b[k]
    ensures forall k :: k in Register(a, cases) ==>
      k in Register(b, cases) && Register(a, cases)[k] == Register(b, cases)[k]
    decreases |cases|
  {
    if cases != [] {
      var c := cases[0];
      if c.callName == "" {
        RegisterSame(a, b, cases[1..]);
      } else {
        RegisterSame(a[c.handlerKey := c.input], b[c.handlerKey := c.input], cases[1..]);
      }
    }
  }

  lemma CutCheckSame<V>(a: Wf<V>, b: Wf<V>, t: Turn<V>)
    requires Same(a, b) && WfInv(a) && CleanAt(b, t)
    ensures Alike(CutCheck(a, t), CutCheck(b, Uncut(t))) && CutCheck(b, Uncut(t)) == Next(b)
  {}

  lemma HandleCallSame<V>(reg: Recovery, a: Wf<V>, b: Wf<V>, cases: seq<Case<V>>, t: Turn<V>)
    requires Same(a, b) && a.notes > 0 && a.pending != []
    ensures HandleCall(reg, a, cases, t).Some? <==> KnownTo(a.registered, t.after)
    ensures HandleCall(reg, a, cases, t).Some? ==>
      && HandleCall(reg, b, cases, Uncut(t)).Some?
      && Same(HandleCall(reg, a, cases, t).value, HandleCall(reg, b, cases, Uncut(t)).value)
  {
    var pc := a.pending[0];
    var events := Invocations(reg, pc.key, pc.input, Some(pc.req), t.callPrimary);
    var ta := a.(notes := a.notes - 1, pending := a.pending[1..], log := a.log + events);
    var tb := b.(notes := b.notes - 1, pending := b.pending[1..], log := b.log + events);
    AcceptSame(ta, tb, t.after);
  }

  /** The updates that a selector accepts. */
  ghost predicate KnownThere<V>(registered: map<string, V>, t: Turn<V>) {
    KnownTo(registered, t.during) && (t.pick.PickCall? ==> KnownTo(registered, t.after))
  }

  lemma SelectorSame<V>(reg: Recovery, a: Wf<V>, b: Wf<V>, cases: seq<Case<V>>, t: Turn<V>)
    requires Same(a, b) && WfInv(a) && a.callOutput.None? && a.message.None?
    requires Clean(RunSelector(reg, b, cases, Uncut(t)), t)
    ensures AlikeIf(KnownThere(a.registered, t), RunSelector(reg, a, cases, t), RunSelector(reg, b, cases, Uncut(t)))
  {
    AcceptSame(a, b, t.during);
    if AcceptAll(a, t.during).Some? {
      AcceptAllKeeps(a, t.during, []);
      AcceptSpares(a, t.during);
      PickedSame(reg, AcceptAll(a, t.during).value, AcceptAll(b, t.during).value, cases, t);
    }
  }

  lemma PickedSame<V>(reg: Recovery, a: Wf<V>, b: Wf<V>, cases: seq<Case<V>>, t: Turn<V>)
    requires Same(a, b) && WfInv(a) && a.callOutput.None? && a.message.None?
    requires Clean(Picked(reg, b, cases, Uncut(t)), t)
    ensures AlikeIf(t.pick.PickCall? ==> KnownTo(a.registered, t.after),
                    Picked(reg, a, cases, t), Picked(reg, b, cases, Uncut(t)))
  {
    match t.pick
    case PickTimer(i) => if i < |cases| { JumpSame(a, b, cases[i], None, t); }
    case PickSend(i, m) => if i < |cases| { JumpSame(a, b, cases[i], Some(m), t); }
    case PickDefault(i) => if i < |cases| { JumpSame(a, b, cases[i], None, t); }
    case PickCall => if a.notes > 0 { PickCallSame(reg, a, b, cases, t); }
  }

  lemma JumpSame<V>(a: Wf<V>, b: Wf<V>, c: Case<V>, m: Option<V>, t: Turn<V>)
    requires Same(a, b) && WfInv(a) && a.callOutput.None? && a.message.None?
    ensures var a', b' := Goto(a, c).(message := m), Goto(b, c).(message := m);
      && CutCheck(b', Uncut(t)) == Next(b')
      && (CleanAt(b', t) ==> Alike(CutCheck(a', t), CutCheck(b', Uncut(t))))
    ensures Goto(a, c).(message := None) == Goto(a, c) && Goto(b, c).(message := None) == Goto(b, c)
  {
    var a', b' := Goto(a, c).(message := m), Goto(b, c).(message := m);
    if CleanAt(b', t) {
      CutCheckSame(a', b', t);
    }
  }

  lemma PickCallSame<V>(reg: Recovery, a: Wf<V>, b: Wf<V>, cases: seq<Case<V>>, t: Turn<V>)
    requires Same(a, b) && WfInv(a) && a.notes > 0
    ensures HandleCall(reg, a, cases, t).Some? <==> KnownTo(a.registered, t.after)
    ensures HandleCall(reg, a, cases, t).Some? ==>
      && HandleCall(reg, b, cases, Uncut(t)).Some?
      && var a', b' := HandleCall(reg, a, cases, t).value, HandleCall(reg, b, cases, Uncut(t)).value;
         CutCheck(a', t) == Next(a') && CutCheck(b', Uncut(t)) == Next(b') && Same(a', b')
  {
    HandleCallSame(reg, a, b, cases, t);
    if HandleCall(reg, a, cases, t).Some? {
      HandleCallKeeps(reg, a, cases, t);
    }
  }

  /** The updates that a turn of the uncut run accepts are known to the cut run. */
  ghost predicate Known<V>(reg: Recovery, b: Wf<V>, t: Turn<V>, registered: map<string, V>) {
    && KnownTo(registered, t.before)
    && (AtSelector(reg, b, t).Some? ==> KnownThere(Register(registered, Entered(reg, b, t)), t))
  }

  /** The two loops after the output is applied. */
  lemma InterpretSame<V>(reg: Recovery, a: Wf<V>, b: Wf<V>, out: ActivityOutput<V>, t: Turn<V>)
    requires Same(a, b) && WfInv(a) && a.callOutput.None? && a.message.None?
    requires Clean(Interpret(reg, b, out, Uncut(t)), t)
    ensures var waits := !out.done && out.continuation.Some? && out.continuation.value != []
                         && !IsContinue(out.continuation.value);
      AlikeIf(waits ==> KnownThere(Register(a.registered, out.continuation.value), t),
              Interpret(reg, a, out, t), Interpret(reg, b, out, Uncut(t)))
  {
    if !out.done && out.continuation.Some? && out.continuation.value != [] {
      var cases := out.continuation.value;
      if IsContinue(cases) {
        CutCheckSame(Goto(a, cases[0]), Goto(b, cases[0]), t);
      } else {
        RegisterSame(a.registered, b.registered, cases);
        SelectorSame(reg, a.(registered := Register(a.registered, cases)),
                     b.(registered := Register(b.registered, cases)), cases, t);
      }
    }
  }

  lemma ProduceSame<V>(reg: Recovery, a: Wf<V>, b: Wf<V>, t: Turn<V>)
    requires Same(a, b)
    ensures var (a', out, e) := Produce(reg, a, t);
      var (b', out', e') := Produce(reg, b, Uncut(t));
      Same(a', b') && out' == out && e' == e && a'.registered == a.registered
  {}

  lemma ApplyOutputSame<V>(a: Wf<V>, b: Wf<V>, out: ActivityOutput<V>)
    requires Same(a, b)
    ensures Same(ApplyOutput(a, out), ApplyOutput(b, out))
  {}

  /** One turn, cut cleanly or not, and the same turn uncut. */
  lemma IterateSame<V>(reg: Recovery, a: Wf<V>, b: Wf<V>, t: Turn<V>)
    requires Same(a, b) && WfInv(a) && Clean(Iterate(reg, b, Uncut(t)), t)
    ensures AlikeIf(Known(reg, b, Uncut(t), a.registered), Iterate(reg, a, t), Iterate(reg, b, Uncut(t)))
  {
    AcceptSame(a, b, t.before);
    if AcceptAll(a, t.before).Some? {
      AcceptAllKeeps(a, t.before, []);
      AcceptSpares(a, t.before);
      ProducedSame(reg, a, b, AcceptAll(a, t.before).value, AcceptAll(b, t.before).value, t);
    }
  }

  lemma ProducedSame<V>(reg: Recovery, a: Wf<V>, b: Wf<V>, a0: Wf<V>, b0: Wf<V>, t: Turn<V>)
    requires Same(a0, b0) && WfInv(a0) && a0.registered == a.registered && KnownTo(a.registered, t.before)
    requires AcceptAll(a, t.before) == Some(a0) && AcceptAll(b, t.before) == Some(b0)
    requires Clean(Iterate(reg, b, Uncut(t)), t)
    ensures AlikeIf(Known(reg, b, Uncut(t), a.registered), Iterate(reg, a, t), Iterate(reg, b, Uncut(t)))
  {
    ProduceKeeps(reg, a0, t);
    ProduceSame(reg, a0, b0, t);
    var (a1, produced, e) := Produce(reg, a0, t);
    var b1 := Produce(reg, b0, Uncut(t)).0;
    if produced.Some? {
      ApplyOutputKeeps(a1, produced.value);
      ApplyOutputSame(a1, b1, produced.value);
      KnownAt(reg, b, b0, t, a.registered);
      InterpretSame(reg, ApplyOutput(a1, produced.value), ApplyOutput(b1, produced.value), produced.value, t);
    }
  }

  /** Whether the updates of a turn are known, once its output is. */
  lemma KnownAt<V>(reg: Recovery, b: Wf<V>, b0: Wf<V>, t: Turn<V>, registered: map<string, V>)
    requires AcceptAll(b, t.before) == Some(b0) && KnownTo(registered, t.before) && Produce(reg, b0, Uncut(t)).1.Some?
    ensures var out := Produce(reg, b0, Uncut(t)).1.value;
      var waits := !out.done && out.continuation.Some? && out.continuation.value != []
                   && !IsContinue(out.continuation.value);
      Known(reg, b, Uncut(t), registered) <==> (waits ==> KnownThere(Register(registered, out.continuation.value), t))
  {}

  // ----- Whole runs -----

  function UncutAll<V>(turns: seq<Turn<V>>): (r: seq<Turn<V>>)
    ensures |r| == |turns|
  {
    if turns == [] then [] else UncutAll(turns[..|turns| - 1]) + [Uncut(turns[|turns| - 1])]
  }

  /** Every cut is made with no call queued and no message pending. */
  ghost predicate CutsClean<V>(reg: Recovery, w: Wf<V>, turns: seq<Turn<V>>) {
    turns == []
    || (var init, t := turns[..|turns| - 1], turns[|turns| - 1];
        var b := RunWorkflow(reg, w, UncutAll(init));
        CutsClean(reg, w, init) && (b.Next? ==> Clean(Iterate(reg, b.wf, Uncut(t)), t)))
  }

  /** The update handlers registered since the last cut, on the uncut run. */
  function Since<V>(reg: Recovery, w: Wf<V>, turns: seq<Turn<V>>): map<string, V> {
    if turns == [] then w.registered
    else
      var init, t := turns[..|turns| - 1], turns[|turns| - 1];
      match RunWorkflow(reg, w, UncutAll(init))
      case Next(b) =>
        (match Iterate(reg, b, Uncut(t))
         case Next(b') =>
           if b'.callOutput.None? && t.cut then map[]
           else Register(Since(reg, w, init), Entered(reg, b, Uncut(t)))
         case _ => map[])
      case _ => map[]
  }

  /** Every update that the uncut run accepts is for a call awaited since the last cut. */
  ghost predicate AllKnown<V>(reg: Recovery, w: Wf<V>, turns: seq<Turn<V>>) {
    turns == []
    || (var init, t := turns[..|turns| - 1], turns[|turns| - 1];
        var b := RunWorkflow(reg, w, UncutAll(init));
        AllKnown(reg, w, init) && (b.Next? ==> Known(reg, b.wf, Uncut(t), Since(reg, w, init))))
  }

  /** What two runs show to the outside. */
  ghost predicate ShowTheSame<V>(a: Ran<V>, b: Ran<V>) {
    a.Next? || a.Ended? ==>
      && (a.Next? <==> b.Next?) && (a.Ended? ==> b.Ended? && b.result == a.result)
      && b.wf.log == a.wf.log && b.wf.answers == a.wf.answers && b.wf.arrivals == a.wf.arrivals
      && b.wf.installed == a.wf.installed
  }

  /** Exactly when continue-as-new is transparent: take any run with any schedule of cuts, each made with no call
      queued and no message pending. What the cut run can do at all, the uncut one does alike: the same activity
      invocations, child starts and signals in order, the same answers to the same calls, the same query handlers,
      and the same result or the same state to go on from. And what the uncut run can do, the cut one does exactly if
      every update accepted is for a call that has been awaited since the last cut: continue-as-new forgets the
      update handlers of earlier waits, and such an update is refused. */
  lemma {:induction false} CutsTransparent<V>(reg: Recovery, w: Wf<V>, turns: seq<Turn<V>>)
    requires WfInv(w) && CutsClean(reg, w, turns)
    ensures var a, b := RunWorkflow(reg, w, turns), RunWorkflow(reg, w, UncutAll(turns));
      && AlikeIf(AllKnown(reg, w, turns), a, b) && ShowTheSame(a, b)
      && (a.Next? ==> a.wf.registered == Since(reg, w, turns))
  {
    if turns != [] {
      var n := |turns| - 1;
      var init, t := turns[..n], turns[n];
      CutsTransparent(reg, w, init);
      RunKeeps(reg, w, init);
      RunNeverCut(reg, w, init);
      var a, b := RunWorkflow(reg, w, init), RunWorkflow(reg, w, UncutAll(init));
      assert UncutAll(turns)[..n] == UncutAll(init);
      if a.Next? {
        TurnSame(reg, a.wf, b.wf, t);
      }
    }
  }

  /** The same for one more turn, with the cut run resumed. */
  lemma TurnSame<V>(reg: Recovery, a: Wf<V>, b: Wf<V>, t: Turn<V>)
    requires Same(a, b) && WfInv(a) && Clean(Iterate(reg, b, Uncut(t)), t)
    ensures var ra := match Iterate(reg, a, t) case Cut(cut) => Next(Resume(cut)) case r => r;
      var rb := Iterate(reg, b, Uncut(t));
      && !rb.Cut? && AlikeIf(Known(reg, b, Uncut(t), a.registered), ra, rb)
      && (ra.Next? ==>
            var kept := if rb.wf.callOutput.None? && t.cut then map[]
                        else Register(a.registered, Entered(reg, b, Uncut(t)));
            ra.wf.registered == kept)
  {
    IterateSame(reg, a, b, t);
    IterateKeeps(reg, a, t);
    NoCutWithout(reg, b, Uncut(t));
    if Iterate(reg, a, t).Next? {
      IterateRegisters(reg, a, t);
      EntersSame(reg, a, b, t);
      CutIsMade(reg, a, t);
    } else if Iterate(reg, a, t).Cut? {
      CutIsMeant(reg, a, t);
    }
  }

  /** A turn without a cut does not cut. */
  lemma NoCutWithout<V>(reg: Recovery, w: Wf<V>, t: Turn<V>)
    requires !t.cut
    ensures !Iterate(reg, w, t).Cut?
  {}

  lemma CutIsMeant<V>(reg: Recovery, w: Wf<V>, t: Turn<V>)
    requires Iterate(reg, w, t).Cut?
    ensures t.cut
  {}

  lemma CutIsMade<V>(reg: Recovery, w: Wf<V>, t: Turn<V>)
    requires Iterate(reg, w, t).Next?
    ensures !(Iterate(reg, w, t).wf.callOutput.None? && t.cut)
  {}

  lemma EntersSame<V>(reg: Recovery, a: Wf<V>, b: Wf<V>, t: Turn<V>)
    requires Same(a, b) && AcceptAll(a, t.before).Some?
    ensures Entered(reg, a, t) == Entered(reg, b, Uncut(t))
  {
    AcceptSame(a, b, t.before);
    ProduceSame(reg, AcceptAll(a, t.before).value, AcceptAll(b, t.before).value, t);
  }

  /** A cut can be seen even with no call queued and no message pending. The routine that answers a call until a timer
      fires is cut after its first wait; the call comes in the second. Uncut, the workflow accepts it and runs it; cut,
      it has no handler for it. */
  lemma CleanCutShows(reg: Recovery, key: string, input: int, req: int)
    requires key in reg && HandlerKey("later", "result") in reg && AskKey() in reg
    ensures var w, turns := Begin(WorkflowInput(key, input, []), [], [], []), AskLate(req, true);
      && CutsClean(reg, w, turns) && !AllKnown(reg, w, turns)
      && RunWorkflow(reg, w, turns).Impossible? && RunWorkflow(reg, w, UncutAll(turns)).Next?
  {
    var w, turns := Begin(WorkflowInput(key, input, []), [], [], []), AskLate(req, true);
    UncutAskLate(req);
    LeftoverUpdate(reg, key, input, req);
    CutRefuses(reg, key, input, req);
    FirstCutClean(reg, key, input, req);
    TwoTurns(reg, w, AskLate(req, false));
    CutsTransparent(reg, w, turns);
  }

  lemma UncutAskLate(req: int)
    ensures UncutAll(AskLate(req, true)) == AskLate(req, false)
    ensures UncutAll(AskLate(req, true)[..1]) == AskLate(req, false)[..1]
  {
    var turns := AskLate(req, true);
    assert turns[..1][..0] == [] && UncutAll<int>([]) == [];
    assert UncutAll(turns[..1]) == [Uncut(turns[0])];
    assert Uncut(turns[0]) == AskLate(req, false)[0] && Uncut(turns[1]) == AskLate(req, false)[1];
  }

  lemma TwoTurns<V>(reg: Recovery, w: Wf<V>, turns: seq<Turn<V>>)
    requires |turns| == 2 && RunWorkflow(reg, w, turns[..1]).Next?
    ensures RunWorkflow(reg, w, turns)
      == match Iterate(reg, RunWorkflow(reg, w, turns[..1]).wf, turns[1]) case Cut(cut) => Next(Resume(cut)) case r => r
  {}

  /** The cut run: the second turn finds no handler for the call. */
  lemma CutRefuses(reg: Recovery, key: string, input: int, req: int)
    requires key in reg && HandlerKey("later", "result") in reg
    ensures RunWorkflow(reg, Begin(WorkflowInput(key, input, []), [], [], []), AskLate(req, true)).Impossible?
  {
    var w0, turns := Begin(WorkflowInput(key, input, []), [], [], []), AskLate(req, true);
    var w := AsksFirst(reg, key, input, req, true);
    assert CutCheck(w, turns[0]) == Cut(w);
    assert turns[..1] == [turns[0]];
    OneTurn(reg, w0, turns[0]);
    TwoTurns(reg, w0, turns);
    var v := BidsNext(reg, Resume(w), req, true);
    OtherKey();
    assert turns[1].during[0].key !in v.registered;
  }

  lemma FirstCutClean(reg: Recovery, key: string, input: int, req: int)
    requires key in reg
    ensures CutsClean(reg, Begin(WorkflowInput(key, input, []), [], [], []), AskLate(req, true))
  {
    var w0, turns := Begin(WorkflowInput(key, input, []), [], [], []), AskLate(req, true);
    var w := AsksFirst(reg, key, input, req, false);
    assert turns[..1][..0] == [] && UncutAll<int>([]) == [];
    assert Uncut(turns[0]) == AskLate(req, false)[0];
    assert Iterate(reg, w0, Uncut(turns[0])) == Next(w);
    assert CutsClean(reg, w0, turns[..1]) by { assert CutsClean(reg, w0, []); }
    assert !turns[1].cut;
  }

  // ----- Exactly when a cut cannot be seen -----

  /** The next activity invocation of a loop that is about to go round. */
  function NextInvocation<V>(w: Wf<V>): ActivityInput<V> {
    ActivityInput(w.key, w.input, w.message, "")
  }

  /** The first activity invocation from the check on, if the loop is cut there: that of the first call
      drained, or the one of the resumed workflow. */
  function InvocationAfterCut<V>(w: Wf<V>): ActivityInput<V> {
    if w.pending == [] then ActivityInput(w.key, w.input, None, "")
    else ActivityInput(w.pending[0].key, w.pending[0].input, Some(w.pending[0].req), "")
  }

  /** The shape of keys at the check, when cases come from the constructors: what runs next is a handler or
      send handler, and what is queued are calls. */
  ghost predicate KeysByFamily<V>(w: Wf<V>) {
    IsEntryOrSend(w.key) && forall i :: 0 <= i < |w.pending| ==> IsCallKey(w.pending[i].key)
  }

  ghost predicate IsCallKey(key: string) {
    exists a, b, c, d :: key == CallKey(a, b, c, d)
  }

  ghost predicate IsEntryOrSend(key: string) {
    (exists a, b :: key == HandlerKey(a, b)) || (exists a, b, c :: key == SendKey(a, b, c))
  }

  /** At a check with no call output pending, a cut goes unseen in the very next invocation exactly when no
      message is pending and no call is queued. (The code carries neither over.) */
  lemma CutUnseenIffClean<V>(w: Wf<V>)
    requires w.callOutput.None? && KeysByFamily(w)
    ensures InvocationAfterCut(w) == NextInvocation(w) <==> w.message.None? && w.pending == []
  {
    if w.pending != [] {
      var a, b, c, d :| w.pending[0].key == CallKey(a, b, c, d);
      assert CallKey(a, b, c, d)[0] == 'c';
      assert forall x, y :: HandlerKey(x, y)[0] == 'h';
      assert forall x, y, z :: SendKey(x, y, z)[0] == 's';
    }
  }

  // ----- Keys at the check -----

  ghost predicate AllConstructed<V>(cases: seq<Case<V>>) {
    forall i :: 0 <= i < |cases| ==> Constructed(cases[i])
  }

  ghost predicate ReturnsConstructed<V>(outcome: Outcome<V>) {
    outcome.Returned? ==> AllConstructed(outcome.output.cases)
  }

  /** The handlers of a turn return cases that the constructors built. */
  ghost predicate BuiltTurn<V>(t: Turn<V>) {
    && ReturnsConstructed(t.primary) && ReturnsConstructed(t.recovery)
    && ReturnsConstructed(t.callPrimary) && ReturnsConstructed(t.callRecovery)
  }

  /** Only calls are registered and queued, and a call output carries constructed cases. */
  ghost predicate Built<V>(w: Wf<V>) {
    && (forall k :: k in w.registered ==> IsCallKey(k))
    && (forall i :: 0 <= i < |w.pending| ==> IsCallKey(w.pending[i].key))
    && (w.callOutput.Some? && w.callOutput.value.continuation.Some? ==>
         AllConstructed(w.callOutput.value.continuation.value))
  }

  lemma {:induction false} AcceptBuilt<V>(w: Wf<V>, arrivals: seq<Arrival<V>>)
    requires Built(w) && AcceptAll(w, arrivals).Some?
    ensures Built(AcceptAll(w, arrivals).value)
    decreases |arrivals|
  {
    if arrivals != [] {
      AcceptBuilt(Accept(w, arrivals[0]), arrivals[1..]);
    }
  }

  lemma {:induction false} RegisterBuilt<V>(registered: map<string, V>, cases: seq<Case<V>>)
    requires AllConstructed(cases) && forall k :: k in registered ==> IsCallKey(k)
    ensures forall k :: k in Register(registered, cases) ==> IsCallKey(k)
    decreases |cases|
  {
    if cases != [] {
      assert Constructed(cases[0]);
      var c := cases[0];
      RegisterBuilt(if c.callName == "" then registered else registered[c.handlerKey := c.input], cases[1..]);
    }
  }

  /** A case that can fire otherwise than by a call leads to a handler or a send handler. */
  lemma FiresToEntryOrSend<V>(c: Case<V>)
    requires Constructed(c) && (c.timer.Some? || c.sendName != "" || c.immediate)
    ensures IsEntryOrSend(c.handlerKey)
  {}

  lemma HandleCallBuilt<V>(reg: Recovery, w: Wf<V>, cases: seq<Case<V>>, t: Turn<V>)
    requires Built(w) && BuiltTurn(t) && AllConstructed(cases) && w.notes > 0 && w.pending != []
    requires HandleCall(reg, w, cases, t).Some?
    ensures Built(HandleCall(reg, w, cases, t).value) && HandleCall(reg, w, cases, t).value.callOutput.Some?
  {
    var pc := w.pending[0];
    var taken := w.(notes := w.notes - 1, pending := w.pending[1..],
                    log := w.log + Invocations(reg, pc.key, pc.input, Some(pc.req), t.callPrimary));
    AcceptBuilt(taken, t.after);
  }

  lemma SelectorBuilt<V>(reg: Recovery, w: Wf<V>, cases: seq<Case<V>>, t: Turn<V>)
    requires Built(w) && BuiltTurn(t) && AllConstructed(cases) && w.callOutput.None?
    requires RunSelector(reg, w, cases, t).Next?
    ensures var w' := RunSelector(reg, w, cases, t).wf;
      Built(w') && (w'.callOutput.None? ==> IsEntryOrSend(w'.key))
  {
    AcceptBuilt(w, t.during);
    var w' := AcceptAll(w, t.during).value;
    match t.pick
    case PickTimer(i) => FiresToEntryOrSend(cases[i]);
    case PickSend(i, _) => FiresToEntryOrSend(cases[i]);
    case PickDefault(i) => FiresToEntryOrSend(cases[i]);
    case PickCall => HandleCallBuilt(reg, w', cases, t);
  }

  lemma InterpretBuilt<V>(reg: Recovery, w: Wf<V>, out: ActivityOutput<V>, t: Turn<V>)
    requires Built(w) && BuiltTurn(t) && w.callOutput.None? && Interpret(reg, w, out, t).Next?
    requires out.continuation.Some? ==> AllConstructed(out.continuation.value)
    ensures var w' := Interpret(reg, w, out, t).wf;
      Built(w') && (w'.callOutput.None? ==> IsEntryOrSend(w'.key))
  {
    var cases := out.continuation.value;
    if IsContinue(cases) {
      FiresToEntryOrSend(cases[0]);
    } else {
      RegisterBuilt(w.registered, cases);
      SelectorBuilt(reg, w.(registered := Register(w.registered, cases)), cases, t);
    }
  }

  /** An iteration that goes on keeps this, and comes to the check with keys of the right families. */
  lemma IterateBuilt<V>(reg: Recovery, w: Wf<V>, t: Turn<V>)
    requires Built(w) && BuiltTurn(t) && Iterate(reg, w, t).Next?
    ensures var w' := Iterate(reg, w, t).wf;
      Built(w') && (w'.callOutput.None? ==> KeysByFamily(w'))
  {
    AcceptBuilt(w, t.before);
    var w0 := AcceptAll(w, t.before).value;
    var (w1, produced, e) := Produce(reg, w0, t);
    InterpretBuilt(reg, ApplyOutput(w1, produced.value), produced.value, t);
  }

  lemma {:induction false} RunBuilt<V>(reg: Recovery, w: Wf<V>, turns: seq<Turn<V>>)
    requires Built(w) && (forall k :: 0 <= k < |turns| ==> BuiltTurn(turns[k])) && RunWorkflow(reg, w, turns).Next?
    ensures Built(RunWorkflow(reg, w, turns).wf)
  {
    if turns != [] {
      var n := |turns| - 1;
      RunBuilt(reg, w, turns[..n]);
      var before := RunWorkflow(reg, w, turns[..n]).wf;
      if Iterate(reg, before, turns[n]).Next? {
        IterateBuilt(reg, before, turns[n]);
      }
    }
  }

  /** On any run whose handlers build their cases with the constructors: where an iteration comes to the check,
      a cut there goes unseen in the next invocation exactly when no message is pending and no call is queued. */
  lemma CutUnseenOnRuns<V>(reg: Recovery, w: Wf<V>, turns: seq<Turn<V>>, t: Turn<V>)
    requires Built(w) && (forall k :: 0 <= k < |turns| ==> BuiltTurn(turns[k])) && BuiltTurn(t)
    requires RunWorkflow(reg, w, turns).Next?
    requires var r := Iterate(reg, RunWorkflow(reg, w, turns).wf, Uncut(t)); r.Next? && r.wf.callOutput.None?
    ensures var w' := Iterate(reg, RunWorkflow(reg, w, turns).wf, Uncut(t)).wf;
      InvocationAfterCut(w') == NextInvocation(w') <==> w'.message.None? && w'.pending == []
  {
    RunBuilt(reg, w, turns);
    IterateBuilt(reg, RunWorkflow(reg, w, turns).wf, Uncut(t));
    CutUnseenIffClean(Iterate(reg, RunWorkflow(reg, w, turns).wf, Uncut(t)).wf);
  }

  /** The invocation of CutUnseenIffClean is the one that the code makes: after a clean-or-not cut with one
      call queued, the drained call's; with none, the resumed workflow's. */
  lemma InvocationAfterCutIsMade<V>(reg: Recovery, w: Wf<V>, t: Turn<V>, next: Turn<V>)
    requires w.callOutput.None? && t.cut && CutCheck(w, t).Cut?
    requires AcceptAll(Resume(CutCheck(w, t).wf), next.before).Some?
    requires WfInv(w)
    ensures w.pending == [] ==>
      var (w', produced, e) := Produce(reg, AcceptAll(Resume(CutCheck(w, t).wf), next.before).value, next);
      |w'.log| > |w.log| && w'.log[|w.log|] == Activity(InvocationAfterCut(w))
    ensures w.pending != [] ==>
      |CutCheck(w, t).wf.log| > |w.log| && CutCheck(w, t).wf.log[|w.log|] == Activity(InvocationAfterCut(w))
  {
    if w.pending == [] {
      assert CutCheck(w, t).wf == w;
      assert next.before == [];
    } else {
      var pc := w.pending[0];
      var taken := w.(pending := w.pending[1..],
                      log := w.log + [Activity(ActivityInput(pc.key, pc.input, Some(pc.req), ""))]);
      TakingFirst(w, taken);
      AcceptAllKeeps(taken, t.drain[0].1, [pc.call]);
      DrainLog(Drained(AcceptAll(taken, t.drain[0].1).value, pc, t.drain[0].0), t.drain[1..]);
    }
  }

  lemma {:induction false} AcceptLog<V>(w: Wf<V>, arrivals: seq<Arrival<V>>)
    requires AcceptAll(w, arrivals).Some?
    ensures AcceptAll(w, arrivals).value.log == w.log
    decreases |arrivals|
  {
    if arrivals != [] {
      AcceptLog(Accept(w, arrivals[0]), arrivals[1..]);
    }
  }

  lemma {:induction false} DrainLog<V>(w: Wf<V>, steps: seq<(Outcome<V>, seq<Arrival<V>>)>)
    requires Drain(w, steps).Some?
    ensures w.log <= Drain(w, steps).value.log
    decreases |steps|
  {
    if w.pending != [] {
      var pc := w.pending[0];
      var taken := w.(pending := w.pending[1..],
                      log := w.log + [Activity(ActivityInput(pc.key, pc.input, Some(pc.req), ""))]);
      AcceptLog(taken, steps[0].1);
      DrainLog(Drained(AcceptAll(taken, steps[0].1).value, pc, steps[0].0), steps[1..]);
    }
  }
}
