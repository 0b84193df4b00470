/** The pipeline (docs/howto/pipeline/pipeline.go): a producer sends numbered items and then a done message to a
    consumer. The theorems are about every run of the in-memory runtime in which the two run these handlers and
    the consumer was there first, whatever else runs beside them and whatever else is sent to the consumer. */
module Pipeline {
  import opened Keys
  import opened Wrappers
  import opened Durable
  import opened Mailbox
  import opened InMemory
  import opened History
  import opened Routing
  import opened Reachable
  import opened Families

  datatype Item = Item(num: int, data: string)

  /** The payloads. Foreign stands for those of other routines. */
  datatype Payload =
    | ProducerInput(items: seq<string>, consumerRoutineID: string)
    | ConsumerInput(name: string, received: seq<Item>)
    | ItemMsg(item: Item)
    | DoneMsg
    | ConsumerResult(received: seq<Item>)
    | Unit
    | Foreign(data: string)

  function ProduceKey(): string { HandlerKey("producer", "unit") }
  function ConsumeKey(): string { HandlerKey("consumer", "consumer-result") }
  function ItemKey(): string { SendKey("consumer", "items", "consumer-result") }
  function DoneKey(): string { SendKey("consumer", "done", "consumer-result") }

  function MailKeys(): set<string> {
    {ItemKey(), DoneKey()}
  }

  ghost predicate Registers(reg: Recovery) {
    forall key :: key in {ProduceKey(), ConsumeKey(), ItemKey(), DoneKey()} ==> key in reg && reg[key] == ""
  }

  lemma KeysDiffer()
    ensures ProduceKey() != ConsumeKey() && ItemKey() != DoneKey()
    ensures forall k :: k in MailKeys() ==> k != ProduceKey() && k != ConsumeKey()
  {
    assert ProduceKey()[0] == 'h' && ConsumeKey()[0] == 'h' && ItemKey()[0] == 's' && DoneKey()[0] == 's';
    assert ProduceKey()[8] == 'p' && ConsumeKey()[8] == 'c';
    assert ItemKey()[14] == 'i' && DoneKey()[14] == 'd';
  }

  // ----- Handlers -----

  function ItemEntry(consumer: string, num: int, data: string): SendEntry<Payload> {
    SendEntry(consumer, "consumer", "items", "consumer-result", ItemMsg(Item(num, data)))
  }

  function DoneEntry(consumer: string): SendEntry<Payload> {
    SendEntry(consumer, "consumer", "done", "consumer-result", DoneMsg)
  }

  function ItemEntries(consumer: string, items: seq<string>): (entries: seq<SendEntry<Payload>>)
    ensures |entries| == |items| && forall k :: 0 <= k < |items| ==> entries[k] == ItemEntry(consumer, k, items[k])
  {
    seq(|items|, k requires 0 <= k < |items| => ItemEntry(consumer, k, items[k]))
  }

  function Listen(name: string, received: seq<Item>): RunOutput<Payload> {
    Select([ReceiveSend("consumer", "items", "consumer-result", ConsumerInput(name, received)),
            ReceiveSend("consumer", "done", "consumer-result", ConsumerInput(name, received))])
  }

  /** What the registered runner of `key` returns; payloads of another kind are not decoded. */
  function Invoke(key: string, input: Payload, msg: Option<Payload>): Outcome<Payload> {
    if key == ProduceKey() && input.ProducerInput? then
      var consumer := input.consumerRoutineID;
      Returned(Done(Unit), Effects([], [], ItemEntries(consumer, input.items) + [DoneEntry(consumer)]))
    else if key == ConsumeKey() && input.ConsumerInput? then Returned(Listen(input.name, input.received), NoEffects())
    else if key == ItemKey() && input.ConsumerInput? && msg.Some? && msg.value.ItemMsg? then
      Returned(Listen(input.name, input.received + [msg.value.item]), NoEffects())
    else if key == DoneKey() && input.ConsumerInput? && msg.Some? && msg.value.DoneMsg? then
      Returned(Done(ConsumerResult(input.received)), NoEffects())
    else Failed("deserialize", NoEffects())
  }

  method Produce(ctx: Context<Payload>, items: seq<string>, consumer: string) returns (cont: RunOutput<Payload>)
    requires ctx.Collected() == NoEffects()
    modifies ctx
    ensures Returned(cont, ctx.Collected()) == Invoke(ProduceKey(), ProducerInput(items, consumer), None)
  {
    for k := 0 to |items|
      invariant ctx.Collected() == Effects([], [], ItemEntries(consumer, items[..k]))
    {
      ctx.BufferSend(ItemEntry(consumer, k, items[k]));
      assert ItemEntries(consumer, items[..k + 1])
        == ItemEntries(consumer, items[..k]) + [ItemEntry(consumer, k, items[k])];
    }
    assert items[..|items|] == items;
    ctx.BufferSend(DoneEntry(consumer));
    cont := Done(Unit);
  }

  /** `input` is a copy; the handler appends to what it has received. */
  method ReceiveItem(input: Payload, item: Item) returns (cont: RunOutput<Payload>)
    requires input.ConsumerInput?
    ensures Returned(cont, NoEffects()) == Invoke(ItemKey(), input, Some(ItemMsg(item)))
  {
    KeysDiffer();
    var received := input.received;
    received := received + [item];
    cont := Listen(input.name, received);
  }

  // ----- The producer -----

  ghost predicate Runs(runs: seq<Run<Payload>>) {
    forall j {:trigger runs[j]} :: 0 <= j < |runs| ==>
      runs[j].primary == Invoke(runs[j].key, runs[j].input, runs[j].msg)
  }

  lemma PrimaryIsUsed(reg: Recovery, r: Run<Payload>)
    requires Registers(reg) && r.key in {ProduceKey(), ConsumeKey(), ItemKey(), DoneKey()}
    ensures UsedIn(reg, r) == r.primary
  {}

  function Numbered(items: seq<string>): (numbered: seq<Item>)
    ensures |numbered| == |items| && forall k :: 0 <= k < |items| ==> numbered[k] == Item(k, items[k])
  {
    seq(|items|, k requires 0 <= k < |items| => Item(k, items[k]))
  }

  /** The items in order, then the done message. */
  function Stream(items: seq<string>): (stream: seq<SendMsg<Payload>>)
    ensures |stream| == |items| + 1
    ensures forall k :: 0 <= k < |items| ==> stream[k] == SendMsg(ItemKey(), ItemMsg(Item(k, items[k])))
    ensures stream[|items|] == SendMsg(DoneKey(), DoneMsg)
    ensures forall k :: 0 <= k < |stream| ==> stream[k].key in MailKeys()
  {
    seq(|items|, k requires 0 <= k < |items| => SendMsg(ItemKey(), ItemMsg(Item(k, items[k]))))
    + [SendMsg(DoneKey(), DoneMsg)]
  }

  lemma {:induction false} ToAll(entries: seq<SendEntry<Payload>>, dst: string)
    requires forall k :: 0 <= k < |entries| ==> entries[k].routineID == dst
    ensures |To(entries, dst)| == |entries|
    ensures forall k :: 0 <= k < |entries| ==> To(entries, dst)[k] == SendMsg(EntryKey(entries[k]), entries[k].msg)
  {
    if entries != [] {
      ToAll(entries[1..], dst);
    }
  }

  lemma ProducerSends(items: seq<string>, consumer: string)
    ensures To(ItemEntries(consumer, items) + [DoneEntry(consumer)], consumer) == Stream(items)
  {
    ToAll(ItemEntries(consumer, items) + [DoneEntry(consumer)], consumer);
  }

  lemma ProducerRuns(reg: Recovery, items: seq<string>, consumer: string, runs: seq<Run<Payload>>)
    requires Registers(reg) && Legal(reg, ProduceKey(), ProducerInput(items, consumer), runs) && Runs(runs)
    ensures |runs| <= 1
    ensures Requests(reg, runs, consumer) == if runs == [] then [] else Stream(items)
  {
    if |runs| > 0 {
      LegalAt(reg, ProduceKey(), ProducerInput(items, consumer), runs, 0);
      PrimaryIsUsed(reg, runs[0]);
      ProducerSends(items, consumer);
      RequestsOfFew(reg, runs[..1], consumer);
    }
    if |runs| > 1 {
      LegalAt(reg, ProduceKey(), ProducerInput(items, consumer), runs, 1);
      assert false;
    }
    assert |runs| == 1 ==> runs[..1] == runs;
  }

  // ----- The consumer -----

  /** Every wait of the consumer awaits items and the done message. */
  lemma {:induction false} ConsumerAwaits(reg: Recovery, input: Payload, runs: seq<Run<Payload>>, j: nat)
    requires Registers(reg) && input.ConsumerInput? && Legal(reg, ConsumeKey(), input, runs) && Runs(runs) && j < |runs|
    ensures UsedIn(reg, runs[j]) == runs[j].primary
    ensures if j == 0 then runs[0].key == ConsumeKey() && runs[0].input == input
            else runs[j].key in MailKeys() && runs[j].input.ConsumerInput?
    ensures HandlesMail(runs[j], j == 0)
    ensures forall key :: key in MailKeys() ==> !Unawaited(reg, runs[j], key)
  {
    LegalAt(reg, ConsumeKey(), input, runs, j);
    if j > 0 {
      ConsumerAwaits(reg, input, runs, j - 1);
      MailFollows(reg, runs[j - 1], runs[j]);
    }
    PrimaryIsUsed(reg, runs[j]);
    AwaitsBoth(reg, runs[j]);
  }

  ghost predicate Listens(r: Run<Payload>) {
    && r.primary.Returned?
    && (r.primary.output.done || exists name, received :: r.primary.output == Listen(name, received))
  }

  lemma ConsumerListens(r: Run<Payload>)
    requires r.primary == Invoke(r.key, r.input, r.msg) && r.input.ConsumerInput?
    ensures r.primary.Failed? || Listens(r)
  {}

  lemma AwaitsBoth(reg: Recovery, r: Run<Payload>)
    requires UsedIn(reg, r) == r.primary && r.primary == Invoke(r.key, r.input, r.msg) && r.input.ConsumerInput?
    ensures forall key :: key in MailKeys() ==> !Unawaited(reg, r, key)
  {
    ConsumerListens(r);
    if r.primary.Returned? && !r.primary.output.done {
      var cases := r.primary.output.cases;
      assert cases[0] in cases && cases[1] in cases;
      assert Awaits(cases[0], ItemKey()) && Awaits(cases[1], DoneKey());
    }
  }

  lemma MailFollows(reg: Recovery, prev: Run<Payload>, r: Run<Payload>)
    requires UsedIn(reg, prev) == prev.primary && prev.primary == Invoke(prev.key, prev.input, prev.msg)
    requires prev.input.ConsumerInput?
    requires Follows(reg, prev, r.firing, r.key, r.input, r.msg)
    ensures r.key in MailKeys() && r.input.ConsumerInput? && r.firing.BySend? && r.msg.Some?
  {
    ConsumerListens(prev);
  }

  /** A run after the first handles one message, from the consumer's mail. */
  ghost predicate HandlesMail(r: Run<Payload>, first: bool) {
    if first then Delivered(r.firing, r.key, r.msg) == []
    else r.msg.Some? && r.key in MailKeys() && Delivered(r.firing, r.key, r.msg) == [SendMsg(r.key, r.msg.value)]
  }

  ghost predicate AllHandleMail(runs: seq<Run<Payload>>) {
    forall j {:trigger runs[j]} :: 0 <= j < |runs| ==> HandlesMail(runs[j], j == 0)
  }

  lemma ConsumerHandlesMail(reg: Recovery, input: Payload, runs: seq<Run<Payload>>)
    requires Registers(reg) && input.ConsumerInput? && Legal(reg, ConsumeKey(), input, runs) && Runs(runs)
    ensures AllHandleMail(runs)
  {
    forall j {:trigger runs[j]} | 0 <= j < |runs| ensures HandlesMail(runs[j], j == 0) {
      ConsumerAwaits(reg, input, runs, j);
    }
  }

  lemma {:induction false} DeliveriesAre(runs: seq<Run<Payload>>)
    requires AllHandleMail(runs)
    ensures |Deliveries(runs)| == if runs == [] then 0 else |runs| - 1
    ensures forall k :: 0 <= k < |Deliveries(runs)| ==> Deliveries(runs)[k].key in MailKeys()
    ensures forall j {:trigger runs[j]} :: 0 < j < |runs| ==>
      runs[j].msg.Some? && Deliveries(runs)[j - 1] == SendMsg(runs[j].key, runs[j].msg.value)
  {
    if runs != [] {
      var n := |runs| - 1;
      var init := runs[..n];
      assert forall j {:trigger init[j]} :: 0 <= j < n ==> init[j] == runs[j];
      DeliveriesAre(init);
      assert HandlesMail(runs[n], n == 0);
      forall j {:trigger runs[j]} | 0 < j < |runs|
        ensures runs[j].msg.Some? && Deliveries(runs)[j - 1] == SendMsg(runs[j].key, runs[j].msg.value)
      {
        if j < n {
          assert init[j] == runs[j];
        }
      }
    }
  }

  /** What the consumer holds after its jth run, if its mail is the producer's. */
  function Receiving(name: string, received: seq<Item>, items: seq<string>, j: nat): RunOutput<Payload>
    requires j <= |items| + 1
  {
    if j <= |items| then Listen(name, received + Numbered(items)[..j])
    else Done(ConsumerResult(received + Numbered(items)))
  }

  lemma HandlesStream(reg: Recovery, input: Payload, items: seq<string>, runs: seq<Run<Payload>>, j: nat)
    requires Registers(reg) && input.ConsumerInput? && Legal(reg, ConsumeKey(), input, runs) && Runs(runs)
    requires Deliveries(runs) <= Stream(items) && 0 < j < |runs|
    ensures runs[j].msg.Some? && j <= |items| + 1 && SendMsg(runs[j].key, runs[j].msg.value) == Stream(items)[j - 1]
  {
    ConsumerHandlesMail(reg, input, runs);
    DeliveriesAre(runs);
    assert Deliveries(runs)[j - 1] == Stream(items)[j - 1];
  }

  lemma {:induction false} ReceivesInOrder(reg: Recovery, items: seq<string>, name: string, received: seq<Item>,
                                           runs: seq<Run<Payload>>, j: nat)
    requires Registers(reg) && Legal(reg, ConsumeKey(), ConsumerInput(name, received), runs) && Runs(runs)
    requires Deliveries(runs) <= Stream(items) && j < |runs|
    ensures j <= |items| + 1
    ensures UsedIn(reg, runs[j]) == Returned(Receiving(name, received, items, j), NoEffects())
  {
    var input := ConsumerInput(name, received);
    ConsumerAwaits(reg, input, runs, j);
    if j > 0 {
      ReceivesInOrder(reg, items, name, received, runs, j - 1);
      LegalAt(reg, ConsumeKey(), input, runs, j);
      HandlesStream(reg, input, items, runs, j);
      ReceivesNext(reg, items, name, received, runs[j - 1], runs[j], j);
    } else {
      assert received + Numbered(items)[..0] == received;
    }
  }

  lemma ReceivesNext(reg: Recovery, items: seq<string>, name: string, received: seq<Item>, prev: Run<Payload>,
                     r: Run<Payload>, j: nat)
    requires Registers(reg) && 0 < j <= |items| + 1 && r.primary == Invoke(r.key, r.input, r.msg)
    requires UsedIn(reg, prev) == Returned(Receiving(name, received, items, j - 1), NoEffects())
    requires Follows(reg, prev, r.firing, r.key, r.input, r.msg)
    requires r.msg.Some? && SendMsg(r.key, r.msg.value) == Stream(items)[j - 1]
    ensures UsedIn(reg, r) == Returned(Receiving(name, received, items, j), NoEffects())
  {
    KeysDiffer();
    PrimaryIsUsed(reg, r);
    var sofar := received + Numbered(items)[..j - 1];
    assert r.input == ConsumerInput(name, sofar);
    if j <= |items| {
      assert sofar + [Item(j - 1, items[j - 1])] == received + Numbered(items)[..j];
    } else {
      assert Numbered(items)[..j - 1] == Numbered(items);
    }
  }

  // ----- The system -----

  /** A producer `a` and a consumer `c` that was there before it; both run the handlers above, and all items and
      done messages sent to the consumer are the producer's. */
  ghost predicate Pipes(reg: Recovery, now: int, before: seq<Label<Payload>>, s0: System<Payload>,
                        after: seq<Label<Payload>>, s: System<Payload>, a: string, items: seq<string>, c: string,
                        name: string, received: seq<Item>) {
    && Registers(reg)
    && Reached(reg, now, before, s0) && c in s0.insts && a !in s0.insts && Exec(reg, s0, after) == Some(s)
    && (a in s.insts ==>
         s.insts[a].key == ProduceKey() && s.insts[a].input == ProducerInput(items, c) && Runs(s.insts[a].runs))
    && c in s.insts && s.insts[c].key == ConsumeKey() && s.insts[c].input == ConsumerInput(name, received)
    && Runs(s.insts[c].runs)
    && var b := s.insts[c].box;
       forall k :: 0 <= k < |b.sent| && k < |b.origins| && b.sent[k].key in MailKeys() ==> b.origins[k] == Routine(a)
  }

  /** What has arrived from the producer is a first part of its stream. */
  lemma ArrivesInOrder(reg: Recovery, now: int, before: seq<Label<Payload>>, s0: System<Payload>,
                       after: seq<Label<Payload>>, s: System<Payload>, a: string, items: seq<string>, c: string,
                       name: string, received: seq<Item>)
    requires Pipes(reg, now, before, s0, after, s, a, items, c, name, received)
    ensures Reached(reg, now, before + after, s)
    ensures Arrived(s.insts, a, c) <= Stream(items)
  {
    LaterReachesEarlier(reg, now, before, s0, after, s, a, c);
    if a in s.insts {
      RunsLegal(reg, now, before + after, s, a);
      ProducerRuns(reg, items, c, s.insts[a].runs);
    }
  }

  lemma MailIsProducers(reg: Recovery, now: int, labels: seq<Label<Payload>>, s: System<Payload>, a: string,
                        items: seq<string>, c: string)
    requires Reached(reg, now, labels, s) && c in s.insts && Arrived(s.insts, a, c) <= Stream(items)
    requires var b := s.insts[c].box;
      forall k :: 0 <= k < |b.sent| && k < |b.origins| && b.sent[k].key in MailKeys() ==> b.origins[k] == Routine(a)
    ensures Only(s.insts[c].box.sent, MailKeys()) <= Stream(items)
  {
    ReachedKeeps(reg, now, labels, s);
    assert InstInv(reg, s.insts[c]);
    var b := s.insts[c].box;
    OneSource(b.sent, b.origins, Routine(a), MailKeys());
    OnlyThese(Arrived(s.insts, a, c), MailKeys());
  }

  /** What the consumer has handled is a first part of the producer's stream: nothing lost, nothing twice, nothing
      overtaken, whatever else arrived in between. */
  lemma HandledInOrder(reg: Recovery, now: int, before: seq<Label<Payload>>, s0: System<Payload>,
                       after: seq<Label<Payload>>, s: System<Payload>, a: string, items: seq<string>, c: string,
                       name: string, received: seq<Item>)
    requires Pipes(reg, now, before, s0, after, s, a, items, c, name, received)
    ensures Legal(reg, ConsumeKey(), ConsumerInput(name, received), s.insts[c].runs)
    ensures Deliveries(s.insts[c].runs) <= Stream(items)
  {
    ArrivesInOrder(reg, now, before, s0, after, s, a, items, c, name, received);
    MailIsProducers(reg, now, before + after, s, a, items, c);
    RunsLegal(reg, now, before + after, s, c);
    HandledIsSent(reg, now, before + after, s, c, ConsumerInput(name, received));
  }

  lemma HandledIsSent(reg: Recovery, now: int, labels: seq<Label<Payload>>, s: System<Payload>, c: string,
                      input: Payload)
    requires Registers(reg) && Reached(reg, now, labels, s) && c in s.insts
    requires s.insts[c].key == ConsumeKey() && s.insts[c].input == input && input.ConsumerInput?
    requires Runs(s.insts[c].runs)
    ensures Deliveries(s.insts[c].runs) <= Only(s.insts[c].box.sent, MailKeys())
  {
    var i := s.insts[c];
    RunsLegal(reg, now, labels, s, c);
    forall j, key | 0 <= j < |i.runs| && key in MailKeys() ensures !Unawaited(reg, i.runs[j], key) {
      ConsumerAwaits(reg, input, i.runs, j);
    }
    MailOrdered(reg, now, labels, s, c, MailKeys());
    OnlyConcat(Deliveries(i.runs), InHand(i.phase), MailKeys());
    ConsumerHandlesMail(reg, input, i.runs);
    DeliveriesAre(i.runs);
    OnlyThese(Deliveries(i.runs), MailKeys());
  }

  /** Pipeline order: after each of its runs the consumer holds what it started with and then the first items, in
      order and numbered by their index; when it completes, all of them. The done message never overtakes an
      item, and the consumer never fails. */
  lemma ConsumesInOrder(reg: Recovery, now: int, before: seq<Label<Payload>>, s0: System<Payload>,
                        after: seq<Label<Payload>>, s: System<Payload>, a: string, items: seq<string>, c: string,
                        name: string, received: seq<Item>)
    requires Pipes(reg, now, before, s0, after, s, a, items, c, name, received)
    ensures forall j {:trigger s.insts[c].runs[j]} :: 0 <= j < |s.insts[c].runs| ==>
      j <= |items| + 1 && UsedIn(reg, s.insts[c].runs[j]) == Returned(Receiving(name, received, items, j), NoEffects())
    ensures s.insts[c].phase.Finished? ==>
      s.insts[c].phase.outcome == Success(Some(ConsumerResult(received + Numbered(items))))
  {
    var i := s.insts[c];
    HandledInOrder(reg, now, before, s0, after, s, a, items, c, name, received);
    forall j {:trigger i.runs[j]} | 0 <= j < |i.runs|
      ensures j <= |items| + 1 && UsedIn(reg, i.runs[j]) == Returned(Receiving(name, received, items, j), NoEffects())
    {
      ReceivesInOrder(reg, items, name, received, i.runs, j);
    }
    ArrivesInOrder(reg, now, before, s0, after, s, a, items, c, name, received);
    RunsLegal(reg, now, before + after, s, c);
    if i.phase.Finished? {
      EndsWithAll(reg, items, name, received, i);
    }
  }

  lemma EndsWithAll(reg: Recovery, items: seq<string>, name: string, received: seq<Item>, i: Inst<Payload>)
    requires i.phase.Finished? && PhaseFits(reg, i) && i.runs != [] && |i.runs| - 1 <= |items| + 1
    requires UsedIn(reg, i.runs[|i.runs| - 1]) == Returned(Receiving(name, received, items, |i.runs| - 1), NoEffects())
    ensures i.phase.outcome == Success(Some(ConsumerResult(received + Numbered(items))))
  {}
}
