/** The drain before a cut: which calls it runs, how it answers them, and where it sends the workflow. */
module Draining {
  import opened Wrappers
  import opened Queries
  import opened Durable
  import opened Temporal
  import opened WorkflowRuns
  import opened CallInputs
  import opened ContinueAsNew

  /** The updates accepted in the course of a drain. */
  function Arriving<V>(steps: seq<(Outcome<V>, seq<Arrival<V>>)>): seq<Arrival<V>> {
    if steps == [] then [] else steps[0].1 + Arriving(steps[1..])
  }

  /** The calls that updates become. */
  function Queued<V>(registered: map<string, V>, arrivals: seq<Arrival<V>>): seq<PendingCall<V>> {
    if arrivals == [] || arrivals[0].key !in registered then []
    else
      var a := arrivals[0];
      [PendingCall(a.call, a.key, a.req, registered[a.key])] + Queued(registered, arrivals[1..])
  }

  lemma {:induction false} AcceptQueues<V>(w: Wf<V>, arrivals: seq<Arrival<V>>)
    requires AcceptAll(w, arrivals).Some?
    ensures KnownTo(w.registered, arrivals)
    ensures AcceptAll(w, arrivals).value.pending == w.pending + Queued(w.registered, arrivals)
    decreases |arrivals|
  {
    if arrivals != [] {
      var w1 := Accept(w, arrivals[0]);
      AcceptQueues(w1, arrivals[1..]);
      assert arrivals == [arrivals[0]] + arrivals[1..];
      assert w1.pending + Queued(w.registered, arrivals[1..]) == w.pending + Queued(w.registered, arrivals);
    }
  }

  lemma {:induction false} QueuedConcat<V>(registered: map<string, V>, a: seq<Arrival<V>>, b: seq<Arrival<V>>)
    requires KnownTo(registered, a)
    ensures Queued(registered, a + b) == Queued(registered, a) + Queued(registered, b)
  {
    if a == [] {
      assert a + b == b;
    } else {
      assert (a + b)[0] == a[0] && (a + b)[1..] == a[1..] + b;
      QueuedConcat(registered, a[1..], b);
    }
  }

  function CallEvents<V>(calls: seq<PendingCall<V>>): (events: seq<Event<V>>)
    ensures |events| == |calls| && forall i :: 0 <= i < |calls| ==> events[i] == Runs(calls[i])
  {
    seq(|calls|, i requires 0 <= i < |calls| => Runs(calls[i]))
  }

  function ReplyOf<V>(outcome: Outcome<V>): Response<V> {
    match outcome
    case Failed(e, _) => Error(e)
    case Returned(out, _) => Value(out.callResponse)
  }

  /** An outcome whose first case a drain jumps to. */
  predicate Jumps<V>(outcome: Outcome<V>) {
    outcome.Returned? && !outcome.output.done && outcome.output.cases != []
  }

  function Replies<V>(calls: seq<PendingCall<V>>, steps: seq<(Outcome<V>, seq<Arrival<V>>)>): (replies: seq<Answer<V>>)
    requires |calls| == |steps|
    ensures |replies| == |calls|
    ensures forall i :: 0 <= i < |calls| ==> replies[i] == Answer(calls[i].call, ReplyOf(steps[i].0))
  {
    seq(|calls|, i requires 0 <= i < |calls| => Answer(calls[i].call, ReplyOf(steps[i].0)))
  }

  /** What draining `calls` has made of w, apart from where it goes next. */
  ghost predicate DrainedTo<V>(w: Wf<V>, calls: seq<PendingCall<V>>, steps: seq<(Outcome<V>, seq<Arrival<V>>)>,
                               w': Wf<V>) {
    && |calls| == |steps|
    && w'.log == w.log + CallEvents(calls) && w'.answers == w.answers + Replies(calls, steps)
    && Spared(w, w')
  }

  ghost predicate Spared<V>(w: Wf<V>, w': Wf<V>) {
    && w'.message == w.message && w'.callOutput == w.callOutput && w'.registered == w.registered
    && w'.queries == w.queries && w'.installed == w.installed
  }

  /** Where a drain goes next: to the first case of the last outcome that has cases and is not done. */
  ghost predicate JumpsTo<V>(w: Wf<V>, steps: seq<(Outcome<V>, seq<Arrival<V>>)>, w': Wf<V>) {
    && ((forall i :: 0 <= i < |steps| ==> !Jumps(steps[i].0)) ==> w'.key == w.key && w'.input == w.input)
    && forall i :: LastJump(steps, i) ==>
         w'.key == steps[i].0.output.cases[0].handlerKey && w'.input == steps[i].0.output.cases[0].input
  }

  ghost predicate LastJump<V>(steps: seq<(Outcome<V>, seq<Arrival<V>>)>, i: int) {
    0 <= i < |steps| && Jumps(steps[i].0) && forall j :: i < j < |steps| ==> !Jumps(steps[j].0)
  }

  /** A drain runs every queued call, and every call that comes meanwhile, once and in order, and answers it. That is
      all it does: no recovery handler is run, no effect is applied, a handler that says that the routine is done
      does not end it. If an outcome has cases the workflow resumes with the first of them, whether that case has
      fired or not. */
  lemma {:induction false} DrainJumps<V>(w: Wf<V>, steps: seq<(Outcome<V>, seq<Arrival<V>>)>)
    requires Drain(w, steps).Some?
    ensures DrainedTo(w, w.pending + Queued(w.registered, Arriving(steps)), steps, Drain(w, steps).value)
    ensures JumpsTo(w, steps, Drain(w, steps).value) && Drain(w, steps).value.pending == []
    decreases |steps|
  {
    if w.pending == [] {
      NothingDrained(w);
    } else {
      var w1 := DrainsOne(w, steps);
      DrainJumps(w1, steps[1..]);
      QueueSplit(w, w1, steps);
      OneMoreDrained(w, w1, w.pending + Queued(w.registered, Arriving(steps)), steps, Drain(w1, steps[1..]).value);
      OneMoreJump(w, w1, steps, Drain(w1, steps[1..]).value);
    }
  }

  lemma NothingDrained<V>(w: Wf<V>)
    requires w.pending == []
    ensures DrainedTo(w, w.pending + Queued(w.registered, Arriving([])), [], w) && JumpsTo(w, [], w)
  {}

  lemma QueueSplit<V>(w: Wf<V>, w1: Wf<V>, steps: seq<(Outcome<V>, seq<Arrival<V>>)>)
    requires w.pending != [] && steps != [] && KnownTo(w.registered, steps[0].1)
    requires w1.pending == w.pending[1..] + Queued(w.registered, steps[0].1)
    ensures (w.pending + Queued(w.registered, Arriving(steps)))[0] == w.pending[0]
    ensures (w.pending + Queued(w.registered, Arriving(steps)))[1..]
      == w1.pending + Queued(w.registered, Arriving(steps[1..]))
  {
    var here, later := Queued(w.registered, steps[0].1), Queued(w.registered, Arriving(steps[1..]));
    QueuedConcat(w.registered, steps[0].1, Arriving(steps[1..]));
    assert Queued(w.registered, Arriving(steps)) == here + later;
    TailOfAll(w.pending, here, later);
  }

  lemma TailOfAll<T>(a: seq<T>, b: seq<T>, c: seq<T>)
    requires a != []
    ensures (a + (b + c))[0] == a[0] && (a + (b + c))[1..] == a[1..] + b + c
  {}

  /** The first step of a drain. */
  ghost predicate DrainsFirst<V>(w: Wf<V>, pc: PendingCall<V>, outcome: Outcome<V>, w1: Wf<V>) {
    && w1.log == w.log + [Runs(pc)] && w1.answers == w.answers + [Answer(pc.call, ReplyOf(outcome))] && Spared(w, w1)
    && if Jumps(outcome) then
         w1.key == outcome.output.cases[0].handlerKey && w1.input == outcome.output.cases[0].input
       else w1.key == w.key && w1.input == w.input
  }

  lemma DrainsOne<V>(w: Wf<V>, steps: seq<(Outcome<V>, seq<Arrival<V>>)>) returns (w1: Wf<V>)
    requires Drain(w, steps).Some? && w.pending != []
    ensures steps != [] && Drain(w, steps) == Drain(w1, steps[1..]) && KnownTo(w.registered, steps[0].1)
    ensures w1.pending == w.pending[1..] + Queued(w.registered, steps[0].1)
    ensures DrainsFirst(w, w.pending[0], steps[0].0, w1)
  {
    var pc := w.pending[0];
    var taken := w.(pending := w.pending[1..], log := w.log + [Runs(pc)]);
    AcceptQueues(taken, steps[0].1);
    AcceptSpares(taken, steps[0].1);
    var w' := AcceptAll(taken, steps[0].1).value;
    DrainedShows(w, w', pc, steps[0].0);
    w1 := Drained(w', pc, steps[0].0);
  }

  lemma DrainedShows<V>(w: Wf<V>, w': Wf<V>, pc: PendingCall<V>, outcome: Outcome<V>)
    requires w'.log == w.log + [Runs(pc)] && w'.answers == w.answers && Spared(w, w')
    requires w'.key == w.key && w'.input == w.input
    ensures DrainsFirst(w, pc, outcome, Drained(w', pc, outcome))
    ensures Drained(w', pc, outcome).pending == w'.pending
  {}

  lemma OneMoreDrained<V>(w: Wf<V>, w1: Wf<V>, calls: seq<PendingCall<V>>, steps: seq<(Outcome<V>, seq<Arrival<V>>)>,
                          w': Wf<V>)
    requires steps != [] && calls != []
    requires DrainsFirst(w, calls[0], steps[0].0, w1) && DrainedTo(w1, calls[1..], steps[1..], w')
    ensures DrainedTo(w, calls, steps, w')
  {
    CallEventsCons(calls);
    RepliesCons(calls, steps);
    WorkflowRuns.Reassociate(w.log, [Runs(calls[0])], CallEvents(calls[1..]));
    WorkflowRuns.Reassociate(w.answers, [Answer(calls[0].call, ReplyOf(steps[0].0))], Replies(calls[1..], steps[1..]));
  }

  lemma CallEventsCons<V>(calls: seq<PendingCall<V>>)
    requires calls != []
    ensures CallEvents(calls) == [Runs(calls[0])] + CallEvents(calls[1..])
  {}

  lemma RepliesCons<V>(calls: seq<PendingCall<V>>, steps: seq<(Outcome<V>, seq<Arrival<V>>)>)
    requires calls != [] && |calls| == |steps|
    ensures Replies(calls, steps) == [Answer(calls[0].call, ReplyOf(steps[0].0))] + Replies(calls[1..], steps[1..])
  {}

  lemma OneMoreJump<V>(w: Wf<V>, w1: Wf<V>, steps: seq<(Outcome<V>, seq<Arrival<V>>)>, w': Wf<V>)
    requires steps != [] && w.pending != [] && DrainsFirst(w, w.pending[0], steps[0].0, w1)
    requires JumpsTo(w1, steps[1..], w')
    ensures JumpsTo(w, steps, w')
  {
    var rest := steps[1..];
    assert forall j :: 0 <= j < |rest| ==> rest[j] == steps[j + 1];
    forall i | LastJump(steps, i)
      ensures w'.key == steps[i].0.output.cases[0].handlerKey && w'.input == steps[i].0.output.cases[0].input
    {
      if i > 0 {
        assert LastJump(rest, i - 1);
      }
    }
  }
}
