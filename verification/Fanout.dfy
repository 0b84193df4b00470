/** The fan-out routine (docs/howto/fanout/fanout.go): a parent that starts one child per item and collects one
    result from each. The theorems are about every reachable state of the in-memory runtime in which a parent and
    its children run these handlers, whatever else runs beside them. */
module Fanout {
  import opened Counting
  import opened Keys
  import opened Wrappers
  import opened Durable
  import opened Mailbox
  import opened InMemory
  import opened History
  import opened Routing
  import opened Reachable
  import opened Families

  datatype Item = Item(id: string, data: string)

  /** The payloads. `results` are ItemResults, in the order of collection. Foreign stands for the payloads of
      other routines. */
  datatype Payload =
    | FanoutInput(items: seq<Item>)
    | ItemInput(id: string, data: string, parentID: string)
    | ItemResult(id: string, output: string)
    | Collecting(pending: int, results: seq<Payload>)
    | FanoutResult(results: seq<Payload>)
    | Unit
    | Foreign(data: string)

  function StartKey(): string { HandlerKey("fanout", "fanout-result") }
  function CollectKey(): string { SendKey("fanout.collecting", "results", "fanout-result") }
  function ProcessKey(): string { HandlerKey("process-item", "unit") }

  ghost predicate Registers(reg: Recovery) {
    forall key :: key in {StartKey(), CollectKey(), ProcessKey()} ==> key in reg && reg[key] == ""
  }

  // ----- Handlers -----

  function ChildID(item: Item): string {
    "item-" + item.id
  }

  function Await(pending: int, results: seq<Payload>): RunOutput<Payload> {
    Select([ReceiveSend("fanout.collecting", "results", "fanout-result", Collecting(pending, results))])
  }

  function ChildEntry(parentID: string, item: Item): StartEntry<Payload> {
    StartEntry(ChildID(item), "process-item", "unit", ItemInput(item.id, item.data, parentID))
  }

  function ChildEntries(parentID: string, items: seq<Item>): (entries: seq<StartEntry<Payload>>)
    ensures |entries| == |items|
    ensures forall k :: 0 <= k < |items| ==> entries[k] == ChildEntry(parentID, items[k])
  {
    seq(|items|, k requires 0 <= k < |items| => ChildEntry(parentID, items[k]))
  }

  function ResultFor(item: Item): Payload {
    ItemResult(item.id, "processed: " + item.data)
  }

  /** What the registered runner of `key` returns; payloads of another kind are not decoded. */
  function Invoke(id: string, key: string, input: Payload, msg: Option<Payload>): Outcome<Payload> {
    if key == StartKey() && input.FanoutInput? then
      Returned(Await(|input.items|, []), Effects([], ChildEntries(id, input.items), []))
    else if key == CollectKey() && input.Collecting? && msg.Some? && msg.value.ItemResult? then
      var results := input.results + [msg.value];
      Returned(if input.pending - 1 > 0 then Await(input.pending - 1, results) else Done(FanoutResult(results)),
               NoEffects())
    else if key == ProcessKey() && input.ItemInput? then
      Returned(Done(Unit),
               Effects([], [], [SendEntry(input.parentID, "fanout.collecting", "results", "fanout-result",
                                          ResultFor(Item(input.id, input.data)))]))
    else Failed("deserialize", NoEffects())
  }

  method StartItems(ctx: Context<Payload>, items: seq<Item>) returns (cont: RunOutput<Payload>)
    requires ctx.Collected() == NoEffects()
    modifies ctx
    ensures Returned(cont, ctx.Collected()) == Invoke(ctx.routineID, StartKey(), FanoutInput(items), None)
  {
    var parentID := ctx.routineID;
    for k := 0 to |items|
      invariant ctx.Collected() == Effects([], ChildEntries(parentID, items[..k]), [])
    {
      ctx.BufferStart(ChildEntry(parentID, items[k]));
      assert ChildEntries(parentID, items[..k + 1])
        == ChildEntries(parentID, items[..k]) + [ChildEntry(parentID, items[k])];
    }
    assert items[..|items|] == items;
    cont := Await(|items|, []);
  }

  /** `input` is a copy; the handler appends to its results and counts down. */
  method CollectResult(input: Payload, result: Payload) returns (cont: RunOutput<Payload>)
    requires input.Collecting? && result.ItemResult?
    ensures forall id :: Returned(cont, NoEffects()) == Invoke(id, CollectKey(), input, Some(result))
  {
    KeysDiffer();
    var pending, results := input.pending, input.results;
    results := results + [result];
    pending := pending - 1;
    if pending > 0 {
      return Await(pending, results);
    }
    return Done(FanoutResult(results));
  }

  method ProcessItem(ctx: Context<Payload>, input: Payload) returns (cont: RunOutput<Payload>)
    requires ctx.Collected() == NoEffects() && input.ItemInput?
    modifies ctx
    ensures Returned(cont, ctx.Collected()) == Invoke(ctx.routineID, ProcessKey(), input, None)
  {
    KeysDiffer();
    var result := ItemResult(input.id, "processed: " + input.data);
    ctx.BufferSend(SendEntry(input.parentID, "fanout.collecting", "results", "fanout-result", result));
    cont := Done(Unit);
  }

  lemma KeysDiffer()
    ensures StartKey() != CollectKey() && StartKey() != ProcessKey() && CollectKey() != ProcessKey()
  {
    assert StartKey()[0] == 'h' && CollectKey()[0] == 's' && ProcessKey()[0] == 'h';
    assert StartKey()[8] == 'f' && ProcessKey()[8] == 'p';
  }

  // ----- The system -----

  function ChildIDs(items: seq<Item>): (ids: seq<string>)
    ensures |ids| == |items| && forall k :: 0 <= k < |items| ==> ids[k] == ChildID(items[k])
  {
    seq(|items|, k requires 0 <= k < |items| => ChildID(items[k]))
  }

  function Results(items: seq<Item>): (results: seq<Payload>)
    ensures |results| == |items| && forall k :: 0 <= k < |items| ==> results[k] == ResultFor(items[k])
  {
    seq(|items|, k requires 0 <= k < |items| => ResultFor(items[k]))
  }

  ghost predicate Runs(id: string, runs: seq<Run<Payload>>) {
    forall j {:trigger runs[j]} :: 0 <= j < |runs| ==>
      runs[j].primary == Invoke(id, runs[j].key, runs[j].input, runs[j].msg)
  }

  /** A parent `p` of these items: it and its children run the handlers above, the items have distinct IDs, the
      child IDs were not taken when the parent started them, and nobody but the children sends results to it. */
  ghost predicate FansOut(reg: Recovery, now: int, labels: seq<Label<Payload>>, s: System<Payload>, p: string,
                          items: seq<Item>) {
    && Reached(reg, now, labels, s) && Registers(reg)
    && p in s.insts && s.insts[p].key == StartKey() && s.insts[p].input == FanoutInput(items)
    && Runs(p, s.insts[p].runs)
    && (forall x, y :: 0 <= x < y < |items| ==> items[x].id != items[y].id)
    && (forall item :: item in items && ChildID(item) in s.insts ==>
         s.insts[ChildID(item)].parent == Routine(p) && Runs(ChildID(item), s.insts[ChildID(item)].runs))
    && var b := s.insts[p].box;
       forall k :: 0 <= k < |b.sent| && k < |b.origins| && b.sent[k].key == CollectKey() ==>
         b.origins[k].Routine? && b.origins[k].id in ChildIDs(items)
  }

  // ----- The parent's runs -----

  lemma PrimaryIsUsed(reg: Recovery, r: Run<Payload>)
    requires Registers(reg) && r.key in {StartKey(), CollectKey(), ProcessKey()}
    ensures UsedIn(reg, r) == r.primary
  {}

  /** What the parent has collected. */
  function Collected(runs: seq<Run<Payload>>): seq<Payload> {
    Msgs(Deliveries(runs), CollectKey())
  }

  function AfterCollecting(n: int, results: seq<Payload>): RunOutput<Payload> {
    if n - |results| > 0 then Await(n - |results|, results) else Done(FanoutResult(results))
  }

  /** After its jth run, the parent has collected j results; its continuation carries them and how many are
      missing, or it is done. */
  lemma {:induction false} ParentRuns(reg: Recovery, p: string, items: seq<Item>, runs: seq<Run<Payload>>, j: nat)
    requires Registers(reg) && Legal(reg, StartKey(), FanoutInput(items), runs) && Runs(p, runs) && items != []
    requires j < |runs| && (forall m :: m in Collected(runs[..j + 1]) ==> m.ItemResult?)
    ensures UsedIn(reg, runs[j]) == runs[j].primary
    ensures runs[j].primary.Returned? && runs[j].primary.output == AfterCollecting(|items|, Collected(runs[..j + 1]))
    ensures |Collected(runs[..j + 1])| == j && j <= |items|
    ensures runs[j].primary.effects == Effects([], if j == 0 then ChildEntries(p, items) else [], [])
  {
    LegalAt(reg, StartKey(), FanoutInput(items), runs, j);
    assert runs[..j + 1][..j] == runs[..j];
    var r := runs[j];
    if j > 0 {
      MsgsConcat(Deliveries(runs[..j]), Delivered(r.firing, r.key, r.msg), CollectKey());
      ParentRuns(reg, p, items, runs, j - 1);
      CollectsNext(reg, p, |items|, runs[j - 1], r, Collected(runs[..j]));
    } else {
      PrimaryIsUsed(reg, r);
    }
  }

  lemma CollectsNext(reg: Recovery, p: string, n: int, prev: Run<Payload>, r: Run<Payload>, results: seq<Payload>)
    requires Registers(reg) && r.primary == Invoke(p, r.key, r.input, r.msg)
    requires UsedIn(reg, prev) == prev.primary && prev.primary.Returned?
    requires prev.primary.output == AfterCollecting(n, results)
    requires Follows(reg, prev, r.firing, r.key, r.input, r.msg)
    ensures r.key == CollectKey() && r.firing.BySend? && r.msg.Some? && |results| < n
    ensures UsedIn(reg, r) == r.primary
    ensures r.msg.value.ItemResult? ==>
      && r.primary.Returned? && r.primary.effects == NoEffects()
      && r.primary.output == AfterCollecting(n, results + [r.msg.value])
    ensures Msgs(Delivered(r.firing, r.key, r.msg), CollectKey()) == [r.msg.value]
  {
    KeysDiffer();
    PrimaryIsUsed(reg, r);
  }

  // ----- The children's runs -----

  /** Only the parent's first run starts anything. */
  lemma {:induction false} ParentStarts(reg: Recovery, p: string, items: seq<Item>, runs: seq<Run<Payload>>, j: nat)
    requires Registers(reg) && Legal(reg, StartKey(), FanoutInput(items), runs) && Runs(p, runs) && j < |runs|
    ensures UsedIn(reg, runs[j]) == runs[j].primary
    ensures runs[j].key in {StartKey(), CollectKey()}
    ensures EffectsOf(reg, runs[j]).starts == if j == 0 then ChildEntries(p, items) else []
  {
    LegalAt(reg, StartKey(), FanoutInput(items), runs, j);
    if j == 0 {
      PrimaryIsUsed(reg, runs[0]);
    } else {
      ParentStarts(reg, p, items, runs, j - 1);
      CollectFollows(reg, p, runs[j - 1], runs[j]);
    }
  }

  lemma CollectFollows(reg: Recovery, p: string, prev: Run<Payload>, r: Run<Payload>)
    requires Registers(reg) && prev.key in {StartKey(), CollectKey()} && UsedIn(reg, prev) == prev.primary
    requires prev.primary == Invoke(p, prev.key, prev.input, prev.msg) && r.primary == Invoke(p, r.key, r.input, r.msg)
    requires Follows(reg, prev, r.firing, r.key, r.input, r.msg)
    ensures r.key == CollectKey() && r.input.Collecting? && UsedIn(reg, r) == r.primary
    ensures EffectsOf(reg, r).starts == []
  {
    KeysDiffer();
    PrimaryIsUsed(reg, r);
  }

  lemma ChildIDUnique(a: Item, b: Item)
    ensures ChildID(a) == ChildID(b) <==> a.id == b.id
  {
    SamePrefix("item-", a.id, b.id);
  }

  lemma EntryFor(reg: Recovery, p: string, items: seq<Item>, runs: seq<Run<Payload>>, x: nat, j: nat, k: nat)
    requires Registers(reg) && Legal(reg, StartKey(), FanoutInput(items), runs) && Runs(p, runs)
    requires forall x, y :: 0 <= x < y < |items| ==> items[x].id != items[y].id
    requires x < |items| && j < |runs| && k < |EffectsOf(reg, runs[j]).starts|
    requires EffectsOf(reg, runs[j]).starts[k].routineID == ChildID(items[x])
    ensures EffectsOf(reg, runs[j]).starts[k] == ChildEntry(p, items[x])
  {
    ParentStarts(reg, p, items, runs, j);
    ChildIDUnique(items[k], items[x]);
  }

  /** A child was started for its item. */
  lemma ChildStarted(reg: Recovery, now: int, labels: seq<Label<Payload>>, s: System<Payload>, p: string,
                     items: seq<Item>, x: nat)
    requires FansOut(reg, now, labels, s, p, items) && x < |items| && ChildID(items[x]) in s.insts
    ensures var c := s.insts[ChildID(items[x])];
      && c.key == ProcessKey() && c.input == ItemInput(items[x].id, items[x].data, p)
      && Legal(reg, c.key, c.input, c.runs) && Runs(ChildID(items[x]), c.runs) && c.parent == Routine(p)
  {
    assert items[x] in items;
    RunsLegal(reg, now, labels, s, ChildID(items[x]));
    RunsLegal(reg, now, labels, s, p);
    var j, k := StartedBy(reg, now, labels, s, ChildID(items[x]), p);
    EntryFor(reg, p, items, s.insts[p].runs, x, j, k);
  }

  lemma ChildRuns(reg: Recovery, id: string, p: string, item: Item, runs: seq<Run<Payload>>)
    requires Registers(reg) && Legal(reg, ProcessKey(), ItemInput(item.id, item.data, p), runs) && Runs(id, runs)
    ensures |runs| <= 1
    ensures Requests(reg, runs, p) == if runs == [] then [] else [SendMsg(CollectKey(), ResultFor(item))]
  {
    KeysDiffer();
    if |runs| > 0 {
      LegalAt(reg, ProcessKey(), ItemInput(item.id, item.data, p), runs, 0);
      PrimaryIsUsed(reg, runs[0]);
      RequestsOfFew(reg, runs[..1], p);
    }
    if |runs| > 1 {
      LegalAt(reg, ProcessKey(), ItemInput(item.id, item.data, p), runs, 1);
      assert false;
    }
    assert |runs| == 1 ==> runs[..1] == runs;
  }

  // ----- Where each item is -----

  /** The item's child has not run. */
  ghost predicate Unrun(s: System<Payload>, item: Item) {
    RunsOf(s.insts, ChildID(item)) == []
  }

  /** The item's child has run and is about to send its result. */
  ghost predicate Sending(s: System<Payload>, p: string, item: Item) {
    To(PendingOf(s.insts, ChildID(item)), p) != []
  }

  /** The results that have arrived from an item's child. */
  function ArrivedFrom(s: System<Payload>, p: string, item: Item): seq<Payload> {
    Msgs(Arrived(s.insts, ChildID(item), p), CollectKey())
  }

  /** An item is in one place: its child has not run, or is sending its result, or the result has arrived. */
  ghost predicate Placed(s: System<Payload>, p: string, item: Item) {
    && ArrivedFrom(s, p, item) == (if Unrun(s, item) || Sending(s, p, item) then [] else [ResultFor(item)])
    && !(Unrun(s, item) && Sending(s, p, item))
  }

  lemma ItemSomewhere(reg: Recovery, now: int, labels: seq<Label<Payload>>, s: System<Payload>, p: string,
                      items: seq<Item>, x: nat)
    requires FansOut(reg, now, labels, s, p, items) && x < |items|
    ensures Placed(s, p, items[x])
  {
    var c := ChildID(items[x]);
    if c in s.insts {
      ChildStarted(reg, now, labels, s, p, items, x);
      ChildRuns(reg, c, p, items[x], s.insts[c].runs);
      ChildReachesParent(reg, now, labels, s, c, p);
    } else {
      SendsRouted(reg, now, labels, s, c, p);
    }
    InOnePlace(RunsOf(s.insts, c) == [], Arrived(s.insts, c, p), To(PendingOf(s.insts, c), p), ResultFor(items[x]));
  }

  lemma InOnePlace(unrun: bool, arrived: seq<SendMsg<Payload>>, pending: seq<SendMsg<Payload>>, result: Payload)
    requires arrived + pending == if unrun then [] else [SendMsg(CollectKey(), result)]
    ensures Msgs(arrived, CollectKey()) == if unrun || pending != [] then [] else [result]
    ensures !(unrun && pending != [])
  {
    assert |arrived| + |pending| <= 1;
    assert arrived != [] ==> arrived[0] == (arrived + pending)[0];
  }

  // ----- All items together -----

  ghost function UnrunIn(s: System<Payload>): Item -> bool {
    item => Unrun(s, item)
  }

  ghost function SendingIn(s: System<Payload>, p: string): Item -> bool {
    item => Sending(s, p, item)
  }

  /** The results that have arrived from the first n children. */
  function ArrivedFirst(s: System<Payload>, p: string, items: seq<Item>): seq<Payload>
    requires p in s.insts
  {
    Gathered(s.insts[p].box.sent, s.insts[p].box.origins, CollectKey(), ChildIDs(items))
  }

  lemma ArrivedFirstSnoc(s: System<Payload>, p: string, items: seq<Item>, n: nat)
    requires p in s.insts && n < |items|
    ensures ArrivedFirst(s, p, items[..n + 1]) == ArrivedFirst(s, p, items[..n]) + ArrivedFrom(s, p, items[n])
  {
    assert ChildIDs(items[..n + 1])[..n] == ChildIDs(items[..n]);
  }

  ghost predicate Tallied(s: System<Payload>, p: string, items: seq<Item>)
    requires p in s.insts
  {
    && Count(items, UnrunIn(s)) + Count(items, SendingIn(s, p)) + |ArrivedFirst(s, p, items)| == |items|
    && multiset(ArrivedFirst(s, p, items)) <= multiset(Results(items))
  }

  lemma TallyNext(s: System<Payload>, p: string, items: seq<Item>, n: nat)
    requires p in s.insts && 0 < n <= |items| && Tallied(s, p, items[..n - 1]) && Placed(s, p, items[n - 1])
    ensures Tallied(s, p, items[..n])
  {
    TallyCounts(s, p, items, n - 1);
    TallyResults(s, p, items, n - 1);
  }

  lemma TallyResults(s: System<Payload>, p: string, items: seq<Item>, n: nat)
    requires p in s.insts && n < |items| && multiset(ArrivedFirst(s, p, items[..n])) <= multiset(Results(items[..n]))
    requires ArrivedFrom(s, p, items[n]) in [[], [ResultFor(items[n])]]
    ensures multiset(ArrivedFirst(s, p, items[..n + 1])) <= multiset(Results(items[..n + 1]))
  {
    ArrivedFirstSnoc(s, p, items, n);
    assert Results(items[..n + 1]) == Results(items[..n]) + [ResultFor(items[n])];
    MoreOnBothSides(ArrivedFirst(s, p, items[..n]), Results(items[..n]), ArrivedFrom(s, p, items[n]),
                    [ResultFor(items[n])]);
  }

  lemma MoreOnBothSides<T>(a: seq<T>, b: seq<T>, x: seq<T>, y: seq<T>)
    requires multiset(a) <= multiset(b) && multiset(x) <= multiset(y)
    ensures multiset(a + x) <= multiset(b + y)
  {}

  lemma TallyCounts(s: System<Payload>, p: string, items: seq<Item>, n: nat)
    requires p in s.insts && n < |items| && Placed(s, p, items[n])
    ensures Count(items[..n + 1], UnrunIn(s)) + Count(items[..n + 1], SendingIn(s, p))
      + |ArrivedFirst(s, p, items[..n + 1])|
         == Count(items[..n], UnrunIn(s)) + Count(items[..n], SendingIn(s, p)) + |ArrivedFirst(s, p, items[..n])| + 1
  {
    CountNext(items, n, UnrunIn(s));
    CountNext(items, n, SendingIn(s, p));
    ArrivedFirstSnoc(s, p, items, n);
  }

  lemma {:induction false} TallyAll(s: System<Payload>, p: string, items: seq<Item>, n: nat)
    requires p in s.insts && n <= |items| && forall x {:trigger items[x]} :: 0 <= x < |items| ==> Placed(s, p, items[x])
    ensures Tallied(s, p, items[..n])
  {
    if n > 0 {
      TallyAll(s, p, items, n - 1);
      TallyNext(s, p, items, n);
    } else {
      TallyNone(s, p, items[..0]);
    }
  }

  lemma TallyNone(s: System<Payload>, p: string, items: seq<Item>)
    requires p in s.insts && items == []
    ensures Tallied(s, p, items)
  {}

  lemma Tally(reg: Recovery, now: int, labels: seq<Label<Payload>>, s: System<Payload>, p: string, items: seq<Item>)
    requires FansOut(reg, now, labels, s, p, items)
    ensures Tallied(s, p, items)
  {
    forall x {:trigger items[x]} | 0 <= x < |items| ensures Placed(s, p, items[x]) {
      ItemSomewhere(reg, now, labels, s, p, items, x);
    }
    TallyAll(s, p, items, |items|);
    assert items[..|items|] == items;
  }

  /** What was sent to the parent as results is what its children sent. */
  lemma SentByChildren(reg: Recovery, now: int, labels: seq<Label<Payload>>, s: System<Payload>, p: string,
                       items: seq<Item>)
    requires FansOut(reg, now, labels, s, p, items)
    ensures multiset(Msgs(s.insts[p].box.sent, CollectKey())) == multiset(ArrivedFirst(s, p, items))
  {
    ReachedKeeps(reg, now, labels, s);
    var b := s.insts[p].box;
    assert InstInv(reg, s.insts[p]);
    forall x, y | 0 <= x < y < |items| ensures ChildIDs(items)[x] != ChildIDs(items)[y] {
      ChildIDUnique(items[x], items[y]);
    }
    GatheredIsAll(b.sent, b.origins, CollectKey(), ChildIDs(items));
  }

  /** The results on their way to the parent's handler: on its channel, buffered, or in hand. */
  function InFlight(i: Inst<Payload>): seq<Payload> {
    Msgs(InHand(i.phase), CollectKey()) + Buf(i.box, CollectKey()) + Msgs(i.box.sendCh, CollectKey())
  }

  lemma SentIsCollected(reg: Recovery, now: int, labels: seq<Label<Payload>>, s: System<Payload>, p: string)
    requires Reached(reg, now, labels, s) && p in s.insts
    ensures Msgs(s.insts[p].box.sent, CollectKey()) == Collected(s.insts[p].runs) + InFlight(s.insts[p])
  {
    var i := s.insts[p];
    MailConserved(reg, now, labels, s, p, CollectKey());
    MsgsConcat(Deliveries(i.runs), InHand(i.phase), CollectKey());
  }

  lemma SameSize<T>(a: seq<T>, b: seq<T>)
    requires multiset(a) == multiset(b)
    ensures |a| == |b|
  {
    assert |multiset(a)| == |a| && |multiset(b)| == |b|;
  }

  /** Conservation: in every reachable state, the children that have not run, the results in flight and the
      results collected are together as many as the items. */
  lemma ItemsConserved(reg: Recovery, now: int, labels: seq<Label<Payload>>, s: System<Payload>, p: string,
                       items: seq<Item>)
    requires FansOut(reg, now, labels, s, p, items)
    ensures Count(items, UnrunIn(s))
         + (Count(items, SendingIn(s, p)) + |InFlight(s.insts[p])|)
         + |Collected(s.insts[p].runs)| == |items|
  {
    Tally(reg, now, labels, s, p, items);
    SentByChildren(reg, now, labels, s, p, items);
    SentIsCollected(reg, now, labels, s, p);
    SameSize(Msgs(s.insts[p].box.sent, CollectKey()), ArrivedFirst(s, p, items));
  }

  /** Whatever has been collected or is in flight is the result of an item, and no item's result twice. */
  lemma CollectsResults(reg: Recovery, now: int, labels: seq<Label<Payload>>, s: System<Payload>, p: string,
                        items: seq<Item>)
    requires FansOut(reg, now, labels, s, p, items)
    ensures multiset(Collected(s.insts[p].runs) + InFlight(s.insts[p])) <= multiset(Results(items))
  {
    Tally(reg, now, labels, s, p, items);
    SentByChildren(reg, now, labels, s, p, items);
    SentIsCollected(reg, now, labels, s, p);
  }

  // ----- The parent's state -----

  lemma {:induction false} CollectedPrefix(runs: seq<Run<Payload>>, n: nat)
    requires n <= |runs|
    ensures Collected(runs[..n]) <= Collected(runs)
    decreases |runs|
  {
    if n < |runs| {
      var init, r := runs[..|runs| - 1], runs[|runs| - 1];
      CollectedPrefix(init, n);
      assert init[..n] == runs[..n];
      MsgsConcat(Deliveries(init), Delivered(r.firing, r.key, r.msg), CollectKey());
    } else {
      assert runs[..n] == runs;
    }
  }

  lemma CollectedAreResults(reg: Recovery, now: int, labels: seq<Label<Payload>>, s: System<Payload>, p: string,
                            items: seq<Item>, n: nat)
    requires FansOut(reg, now, labels, s, p, items) && n <= |s.insts[p].runs|
    ensures forall m :: m in Collected(s.insts[p].runs[..n]) ==> m.ItemResult?
  {
    var runs := s.insts[p].runs;
    var all := Collected(runs) + InFlight(s.insts[p]);
    CollectsResults(reg, now, labels, s, p, items);
    CollectedPrefix(runs, n);
    forall m | m in Collected(runs[..n]) ensures m.ItemResult? {
      assert m in all;
      assert m in multiset(all);
      assert m in multiset(Results(items));
      assert m in Results(items);
    }
  }

  ghost predicate CountedDown(reg: Recovery, items: seq<Item>, runs: seq<Run<Payload>>, j: nat)
    requires j < |runs|
  {
    var used, results := UsedIn(reg, runs[j]), Collected(runs[..j + 1]);
    && |results| == j && used.Returned?
    && if j < |items| then used.output == Await(|items| - j, results)
       else j == |items| && used.output == Done(FanoutResult(results))
  }

  /** After each of its runs the parent has collected one result more, its continuation carries the results so
      far and the number missing, Pending + |Results| = N, and it is done exactly when none is missing. */
  lemma PendingCountsDown(reg: Recovery, now: int, labels: seq<Label<Payload>>, s: System<Payload>, p: string,
                          items: seq<Item>, j: nat)
    requires FansOut(reg, now, labels, s, p, items) && items != [] && j < |s.insts[p].runs|
    ensures CountedDown(reg, items, s.insts[p].runs, j)
  {
    RunsLegal(reg, now, labels, s, p);
    CollectedAreResults(reg, now, labels, s, p, items, j + 1);
    RunCountsDown(reg, p, items, s.insts[p].runs, j);
  }

  lemma RunCountsDown(reg: Recovery, p: string, items: seq<Item>, runs: seq<Run<Payload>>, j: nat)
    requires Registers(reg) && Legal(reg, StartKey(), FanoutInput(items), runs) && Runs(p, runs) && items != []
    requires j < |runs| && (forall m :: m in Collected(runs[..j + 1]) ==> m.ItemResult?)
    ensures CountedDown(reg, items, runs, j)
  {
    ParentRuns(reg, p, items, runs, j);
    CountsFrom(reg, items, runs, j);
  }

  lemma CountsFrom(reg: Recovery, items: seq<Item>, runs: seq<Run<Payload>>, j: nat)
    requires j < |runs| && UsedIn(reg, runs[j]).Returned? && |Collected(runs[..j + 1])| == j <= |items|
    requires UsedIn(reg, runs[j]).output == AfterCollecting(|items|, Collected(runs[..j + 1]))
    ensures CountedDown(reg, items, runs, j)
  {}

  /** As long as it waits, the parent takes results. */
  lemma AwaitsResults(reg: Recovery, now: int, labels: seq<Label<Payload>>, s: System<Payload>, p: string,
                      items: seq<Item>)
    requires FansOut(reg, now, labels, s, p, items) && items != [] && s.insts[p].phase.Waiting?
    ensures SendCase(s.insts[p].phase.wait.cases, CollectKey()).Some?
  {
    var i := s.insts[p];
    RunsLegal(reg, now, labels, s, p);
    PendingCountsDown(reg, now, labels, s, p, items, |i.runs| - 1);
    AwaitTakes(i.phase.wait.cases);
  }

  lemma AwaitTakes(cases: seq<Case<Payload>>)
    requires exists pending, results :: cases == Await(pending, results).cases
    ensures SendCase(cases, CollectKey()).Some?
  {
    assert Awaits(cases[0], CollectKey());
  }

  /** The parent completes only with a permutation of the results of exactly its items, when every child has run
      and nothing is in flight; it never fails. */
  lemma CompletesWithAll(reg: Recovery, now: int, labels: seq<Label<Payload>>, s: System<Payload>, p: string,
                         items: seq<Item>) returns (results: seq<Payload>)
    requires FansOut(reg, now, labels, s, p, items) && items != [] && s.insts[p].phase.Finished?
    ensures s.insts[p].phase.outcome == Success(Some(FanoutResult(results)))
    ensures multiset(results)
      == multiset(seq(|items|, k requires 0 <= k < |items| => ItemResult(items[k].id, "processed: " + items[k].data)))
    ensures Count(items, UnrunIn(s)) == 0 && Count(items, SendingIn(s, p)) == 0 && InFlight(s.insts[p]) == []
  {
    var i := s.insts[p];
    RunsLegal(reg, now, labels, s, p);
    var j := |i.runs| - 1;
    PendingCountsDown(reg, now, labels, s, p, items, j);
    assert i.runs[..j + 1] == i.runs;
    results := Collected(i.runs);
    ItemsConserved(reg, now, labels, s, p, items);
    CollectsResults(reg, now, labels, s, p, items);
    assert InFlight(i) == [] && results + InFlight(i) == results;
    SubsetOfSameSize(results, Results(items));
    ResultsAre(items);
  }

  lemma ResultsAre(items: seq<Item>)
    ensures Results(items)
      == seq(|items|, k requires 0 <= k < |items| => ItemResult(items[k].id, "processed: " + items[k].data))
  {}

  lemma SubsetOfSameSize<T>(a: seq<T>, b: seq<T>)
    requires multiset(a) <= multiset(b) && |a| == |b|
    ensures multiset(a) == multiset(b)
  {
    var rest := multiset(b) - multiset(a);
    assert multiset(b) == multiset(a) + rest;
    assert |rest| == 0;
  }

  /** With no items the parent waits for ever: it runs once and does not finish. */
  lemma NoItemsNoEnd(reg: Recovery, now: int, labels: seq<Label<Payload>>, s: System<Payload>, p: string)
    requires FansOut(reg, now, labels, s, p, [])
    ensures |s.insts[p].runs| <= 1 && !s.insts[p].phase.Finished?
  {
    var i := s.insts[p];
    RunsLegal(reg, now, labels, s, p);
    CollectsResults(reg, now, labels, s, p, []);
    assert |multiset(Collected(i.runs) + InFlight(i))| == 0;
    OneRun(reg, p, i);
  }

  lemma OneRun(reg: Recovery, p: string, i: Inst<Payload>)
    requires Registers(reg) && Legal(reg, StartKey(), FanoutInput([]), i.runs) && Runs(p, i.runs)
    requires PhaseFits(reg, i) && Collected(i.runs) == []
    ensures |i.runs| <= 1 && !i.phase.Finished?
  {
    if |i.runs| > 0 {
      FirstRunWaits(reg, p, i.runs);
    }
    if |i.runs| > 1 {
      CollectedPrefix(i.runs, 2);
      assert i.runs[..2][..1] == i.runs[..1] && i.runs[..2][1] == i.runs[1];
      MsgsConcat(Deliveries(i.runs[..1]), Delivered(i.runs[1].firing, i.runs[1].key, i.runs[1].msg), CollectKey());
    }
  }

  lemma FirstRunWaits(reg: Recovery, p: string, runs: seq<Run<Payload>>)
    requires Registers(reg) && Legal(reg, StartKey(), FanoutInput([]), runs) && Runs(p, runs) && runs != []
    ensures UsedIn(reg, runs[0]).Returned? && UsedIn(reg, runs[0]).output == Await(0, [])
    ensures |runs| > 1 ==> runs[1].firing.BySend? && runs[1].key == CollectKey() && runs[1].msg.Some?
  {
    LegalAt(reg, StartKey(), FanoutInput([]), runs, 0);
    PrimaryIsUsed(reg, runs[0]);
    if |runs| > 1 {
      LegalAt(reg, StartKey(), FanoutInput([]), runs, 1);
    }
  }
}
