/** The batch routine (docs/howto/batch/batch.go): a list processed in chunks, with a look for a cancel message
    between them. The theorems are about every reachable state of the in-memory runtime in which an instance runs
    these handlers. */
module Batch {
  import opened Keys
  import opened Wrappers
  import opened Durable
  import opened Mailbox
  import opened InMemory
  import opened History
  import opened Reachable

  /** The payloads. Foreign stands for those of other routines. */
  datatype Payload =
    | BatchInput(items: seq<string>)
    | Processing(items: seq<string>, offset: nat, processed: int, errors: int)
    | CancelMsg(reason: string)
    | BatchResult(processed: int, errors: int, cancelled: bool)
    | Foreign(data: string)

  function StartKey(): string { HandlerKey("batch", "batch-result") }
  function ChunkKey(): string { HandlerKey("batch.processing", "batch-result") }
  function CancelKey(): string { SendKey("batch.processing", "cancel", "batch-result") }

  ghost predicate Registers(reg: Recovery) {
    forall key :: key in {StartKey(), ChunkKey(), CancelKey()} ==> key in reg && reg[key] == ""
  }

  lemma KeysDiffer()
    ensures StartKey() != ChunkKey() && StartKey() != CancelKey() && ChunkKey() != CancelKey()
  {
    assert StartKey()[0] == 'h' && ChunkKey()[0] == 'h' && CancelKey()[0] == 's';
    assert StartKey()[13] == ':' && ChunkKey()[13] == '.';
  }

  // ----- Handlers -----

  const CHUNK_SIZE: nat := 100

  /** Whether processing the item at an index fails. */
  type Fails = nat -> bool

  function Errors(fails: Fails, from: nat, to: nat): (e: nat)
    requires from <= to
    ensures e <= to - from
  {
    if from == to then 0 else Errors(fails, from, to - 1) + (if fails(to - 1) then 1 else 0)
  }

  lemma {:induction false} ErrorsJoin(fails: Fails, a: nat, b: nat, c: nat)
    requires a <= b <= c
    ensures Errors(fails, a, b) + Errors(fails, b, c) == Errors(fails, a, c)
  {
    if b < c {
      ErrorsJoin(fails, a, b, c - 1);
    }
  }

  lemma FailuresNext(fails: Fails, from: nat, n: nat)
    requires from <= n
    ensures |set k: nat | from <= k < n + 1 && fails(k)|
      == |set k: nat | from <= k < n && fails(k)| + (if fails(n) then 1 else 0)
  {
    var before, after := set k: nat | from <= k < n && fails(k), set k: nat | from <= k < n + 1 && fails(k);
    assert after == if fails(n) then before + {n} else before;
  }

  lemma OthersNext(fails: Fails, from: nat, n: nat)
    requires from <= n
    ensures |set k: nat | from <= k < n + 1 && !fails(k)|
      == |set k: nat | from <= k < n && !fails(k)| + (if fails(n) then 0 else 1)
  {
    var before, after := set k: nat | from <= k < n && !fails(k), set k: nat | from <= k < n + 1 && !fails(k);
    assert after == if fails(n) then before else before + {n};
  }

  lemma NoItems(fails: Fails, n: nat)
    ensures |set k: nat | n <= k < n && fails(k)| == 0 && |set k: nat | n <= k < n && !fails(k)| == 0
  {
    assert (set k: nat | n <= k < n && fails(k)) == {} && (set k: nat | n <= k < n && !fails(k)) == {};
  }

  /** The counts of failed and of other items in a range. */
  lemma {:induction false} ErrorsAreFailures(fails: Fails, from: nat, to: nat)
    requires from <= to
    ensures Errors(fails, from, to) == |set k: nat | from <= k < to && fails(k)|
    ensures to - from - Errors(fails, from, to) == |set k: nat | from <= k < to && !fails(k)|
  {
    if from == to {
      NoItems(fails, from);
    } else {
      ErrorsAreFailures(fails, from, to - 1);
      FailuresNext(fails, from, to - 1);
      OthersNext(fails, from, to - 1);
    }
  }

  /** The same below an offset. */
  lemma FailuresBelow(fails: Fails, n: nat)
    ensures Errors(fails, 0, n) == |set k: nat | k < n && fails(k)|
    ensures n - Errors(fails, 0, n) == |set k: nat | k < n && !fails(k)|
  {
    ErrorsAreFailures(fails, 0, n);
    assert (set k: nat | 0 <= k < n && fails(k)) == (set k: nat | k < n && fails(k));
    assert (set k: nat | 0 <= k < n && !fails(k)) == (set k: nat | k < n && !fails(k));
  }

  function ChunkEnd(items: seq<string>, offset: nat): nat {
    if offset + CHUNK_SIZE > |items| then |items| else offset + CHUNK_SIZE
  }

  function BetweenChunks(items: seq<string>, offset: nat, processed: int, errors: int): RunOutput<Payload> {
    Select([ReceiveSend("batch.processing", "cancel", "batch-result", Processing(items, offset, processed, errors)),
            Immediate("batch.processing", "batch-result", Processing(items, offset, processed, errors))])
  }

  /** What remains to be done when `offset` items are processed. */
  function Onwards(items: seq<string>, offset: nat, processed: int, errors: int): RunOutput<Payload> {
    if offset >= |items| then Done(BatchResult(processed, errors, false))
    else BetweenChunks(items, offset, processed, errors)
  }

  function Chunk(fails: Fails, items: seq<string>, offset: nat, processed: int, errors: int): Outcome<Payload> {
    var end := ChunkEnd(items, offset);
    if offset > end then Failed("slice bounds out of range", NoEffects())
    else
      var e := Errors(fails, offset, end);
      Returned(Onwards(items, end, processed + (end - offset - e), errors + e), NoEffects())
  }

  /** What the registered runner of `key` returns; payloads of another kind are not decoded. */
  function Invoke(fails: Fails, key: string, input: Payload, msg: Option<Payload>): Outcome<Payload> {
    if key == StartKey() && input.BatchInput? then Chunk(fails, input.items, 0, 0, 0)
    else if key == ChunkKey() && input.Processing? then
      Chunk(fails, input.items, input.offset, input.processed, input.errors)
    else if key == CancelKey() && input.Processing? && msg.Some? && msg.value.CancelMsg? then
      Returned(Done(BatchResult(input.processed, input.errors, true)), NoEffects())
    else Failed("deserialize", NoEffects())
  }

  /** `worked` lists the items handed to ProcessItem. */
  class BatchService {
    var worked: seq<string>

    constructor ()
      ensures worked == []
    {
      worked := [];
    }

    method ProcessItem(item: string)
      modifies this
      ensures worked == old(worked) + [item]
    {
      worked := worked + [item];
    }

    method ProcessChunk(fails: Fails, items: seq<string>, offset: nat, processed: int, errors: int)
      returns (cont: RunOutput<Payload>)
      requires offset <= |items|
      modifies this
      ensures Returned(cont, NoEffects()) == Chunk(fails, items, offset, processed, errors)
      ensures worked == old(worked) + items[offset..ChunkEnd(items, offset)]
      ensures var end := if offset + 100 > |items| then |items| else offset + 100;
        var more, failed := |set k: nat | offset <= k < end && !fails(k)|, |set k: nat | offset <= k < end && fails(k)|;
        cont == if end == |items| then Done(BatchResult(processed + more, errors + failed, false))
                else BetweenChunks(items, end, processed + more, errors + failed)
    {
      var done, failed := processed, errors;
      var end := offset + CHUNK_SIZE;
      if end > |items| {
        end := |items|;
      }
      for k := offset to end
        invariant worked == old(worked) + items[offset..k]
        invariant failed == errors + Errors(fails, offset, k)
        invariant done == processed + (k - offset - Errors(fails, offset, k))
      {
        ProcessItem(items[k]);
        if fails(k) {
          failed := failed + 1;
        } else {
          done := done + 1;
        }
        assert items[offset..k + 1] == items[offset..k] + [items[k]];
      }
      ErrorsAreFailures(fails, offset, end);
      if end >= |items| {
        return Done(BatchResult(done, failed, false));
      }
      return BetweenChunks(items, end, done, failed);
    }
  }

  // ----- The runs of a batch -----

  ghost predicate Serves(reg: Recovery, fails: Fails, items: seq<string>, i: Inst<Payload>) {
    && Registers(reg) && i.key == StartKey() && i.input == BatchInput(items)
    && forall j {:trigger i.runs[j]} :: 0 <= j < |i.runs| ==>
         i.runs[j].primary == Invoke(fails, i.runs[j].key, i.runs[j].input, i.runs[j].msg)
  }

  /** The offset after j chunks. */
  function Offset(items: seq<string>, j: nat): nat {
    if 100 * j > |items| then |items| else 100 * j
  }

  /** Where the batch stands after j chunks. */
  function Standing(fails: Fails, items: seq<string>, j: nat): RunOutput<Payload> {
    var offset := Offset(items, j);
    var e := Errors(fails, 0, offset);
    Onwards(items, offset, offset - e, e)
  }

  /** A run for a cancel message; all others process a chunk. */
  predicate IsCancel(r: Run<Payload>) {
    r.firing.BySend?
  }

  /** The items that a run processes. */
  function ItemsOf(r: Run<Payload>): seq<string> {
    if r.input.BatchInput? then r.input.items[..ChunkEnd(r.input.items, 0)]
    else if r.input.Processing? && !IsCancel(r) && r.input.offset <= |r.input.items| then
      r.input.items[r.input.offset..ChunkEnd(r.input.items, r.input.offset)]
    else []
  }

  function WorkOf(runs: seq<Run<Payload>>): seq<string> {
    if runs == [] then [] else WorkOf(runs[..|runs| - 1]) + ItemsOf(runs[|runs| - 1])
  }

  lemma PrimaryIsUsed(reg: Recovery, r: Run<Payload>)
    requires Registers(reg) && r.key in {StartKey(), ChunkKey(), CancelKey()}
    ensures UsedIn(reg, r) == r.primary
  {}

  lemma NextChunk(fails: Fails, items: seq<string>, j: nat)
    requires 100 * j < |items| || j == 0
    ensures var offset := Offset(items, j);
      var e := Errors(fails, 0, offset);
      && offset == 100 * j && ChunkEnd(items, offset) == Offset(items, j + 1)
      && Chunk(fails, items, offset, offset - e, e) == Returned(Standing(fails, items, j + 1), NoEffects())
  {
    var a, b := Offset(items, j), Offset(items, j + 1);
    var e, e' := Errors(fails, 0, a), Errors(fails, a, b);
    ErrorsJoin(fails, 0, a, b);
    assert ChunkEnd(items, a) == b;
    assert (a - e) + (b - a - e') == b - (e + e');
  }

  /** Run j processes the jth chunk. */
  ghost predicate DoesChunk(reg: Recovery, fails: Fails, items: seq<string>, r: Run<Payload>, j: nat) {
    && !IsCancel(r) && UsedIn(reg, r) == Returned(Standing(fails, items, j + 1), NoEffects())
    && ItemsOf(r) == items[Offset(items, j)..Offset(items, j + 1)]
  }

  /** Run j ends the routine after j chunks, by a cancel message or one that cannot be decoded. */
  ghost predicate DoesCancel(reg: Recovery, fails: Fails, items: seq<string>, r: Run<Payload>, j: nat) {
    var offset := Offset(items, j);
    var e := Errors(fails, 0, offset);
    && IsCancel(r) && j > 0 && ItemsOf(r) == [] && r.msg.Some?
    && if r.msg.value.CancelMsg? then UsedIn(reg, r) == Returned(Done(BatchResult(offset - e, e, true)), NoEffects())
       else UsedIn(reg, r) == Failed("deserialize", NoEffects())
  }

  ghost predicate ChunkOrCancel(reg: Recovery, fails: Fails, items: seq<string>, r: Run<Payload>, j: nat) {
    && (j > 0 ==> 100 * j < |items|)
    && if IsCancel(r) then DoesCancel(reg, fails, items, r, j) else DoesChunk(reg, fails, items, r, j)
  }

  lemma {:induction false} BatchRuns(reg: Recovery, fails: Fails, items: seq<string>, i: Inst<Payload>, j: nat)
    requires Serves(reg, fails, items, i) && Legal(reg, i.key, i.input, i.runs) && j < |i.runs|
    ensures ChunkOrCancel(reg, fails, items, i.runs[j], j)
    ensures j > 0 ==> !IsCancel(i.runs[j - 1])
  {
    LegalAt(reg, i.key, i.input, i.runs, j);
    if j > 0 {
      BatchRuns(reg, fails, items, i, j - 1);
      RunFollows(reg, fails, items, i.runs[j - 1], i.runs[j], j);
    } else {
      FirstChunk(reg, fails, items, i.runs[0]);
    }
  }

  lemma FirstChunk(reg: Recovery, fails: Fails, items: seq<string>, r: Run<Payload>)
    requires Registers(reg) && r.primary == Invoke(fails, r.key, r.input, r.msg)
    requires r.key == StartKey() && r.input == BatchInput(items) && r.firing == ByStart
    ensures ChunkOrCancel(reg, fails, items, r, 0)
  {
    NextChunk(fails, items, 0);
    PrimaryIsUsed(reg, r);
  }

  lemma RunFollows(reg: Recovery, fails: Fails, items: seq<string>, prev: Run<Payload>, r: Run<Payload>, j: nat)
    requires Registers(reg) && 0 < j && ChunkOrCancel(reg, fails, items, prev, j - 1)
    requires r.primary == Invoke(fails, r.key, r.input, r.msg) && Follows(reg, prev, r.firing, r.key, r.input, r.msg)
    ensures ChunkOrCancel(reg, fails, items, r, j) && !IsCancel(prev)
  {
    Waited(reg, fails, items, prev, r, j);
    PrimaryIsUsed(reg, r);
    if IsCancel(r) {
      CancelRuns(fails, r);
    } else {
      ChunkRuns(fails, r);
      NextChunk(fails, items, j);
    }
  }

  lemma CancelRuns(fails: Fails, r: Run<Payload>)
    requires r.primary == Invoke(fails, r.key, r.input, r.msg) && r.input.Processing? && r.key == CancelKey()
    requires r.msg.Some?
    ensures r.primary ==
      if r.msg.value.CancelMsg? then Returned(Done(BatchResult(r.input.processed, r.input.errors, true)), NoEffects())
                         else Failed("deserialize", NoEffects())
  {
    KeysDiffer();
  }

  lemma ChunkRuns(fails: Fails, r: Run<Payload>)
    requires r.primary == Invoke(fails, r.key, r.input, r.msg) && r.input.Processing? && r.key == ChunkKey()
    ensures r.primary == Chunk(fails, r.input.items, r.input.offset, r.input.processed, r.input.errors)
  {}

  /** What follows a chunk that leaves items: the next chunk, or a message for the cancel handler. */
  lemma Waited(reg: Recovery, fails: Fails, items: seq<string>, prev: Run<Payload>, r: Run<Payload>, j: nat)
    requires 0 < j && ChunkOrCancel(reg, fails, items, prev, j - 1)
    requires Follows(reg, prev, r.firing, r.key, r.input, r.msg)
    ensures !IsCancel(prev) && 100 * j < |items|
    ensures var offset := Offset(items, j);
      var e := Errors(fails, 0, offset);
      r.input == Processing(items, offset, offset - e, e)
    ensures r.key == (if IsCancel(r) then CancelKey() else ChunkKey()) && (IsCancel(r) ==> r.msg.Some?)
  {}

  /** How many items are behind the batch after its first n runs. */
  function Behind(items: seq<string>, runs: seq<Run<Payload>>, n: nat): (offset: nat)
    requires n <= |runs|
    ensures offset <= |items|
  {
    Offset(items, if n > 0 && IsCancel(runs[n - 1]) then n - 1 else n)
  }

  lemma {:induction false} WorkInOrder(reg: Recovery, fails: Fails, items: seq<string>, i: Inst<Payload>, n: nat)
    requires Serves(reg, fails, items, i) && Legal(reg, i.key, i.input, i.runs) && n <= |i.runs|
    ensures WorkOf(i.runs[..n]) == items[..Behind(items, i.runs, n)]
  {
    if n > 0 {
      WorkInOrder(reg, fails, items, i, n - 1);
      BatchRuns(reg, fails, items, i, n - 1);
      WorkNext(reg, fails, items, i.runs, n - 1);
    }
  }

  lemma WorkNext(reg: Recovery, fails: Fails, items: seq<string>, runs: seq<Run<Payload>>, j: nat)
    requires j < |runs| && ChunkOrCancel(reg, fails, items, runs[j], j) && (j > 0 ==> !IsCancel(runs[j - 1]))
    requires WorkOf(runs[..j]) == items[..Behind(items, runs, j)]
    ensures WorkOf(runs[..j + 1]) == items[..Behind(items, runs, j + 1)]
  {
    WorkSnoc(runs, j);
    var a, b := Offset(items, j), Offset(items, j + 1);
    if IsCancel(runs[j]) {
      assert items[..a] + [] == items[..a];
    } else {
      assert items[..a] + items[a..b] == items[..b];
    }
  }

  lemma WorkSnoc(runs: seq<Run<Payload>>, j: nat)
    requires j < |runs|
    ensures WorkOf(runs[..j + 1]) == WorkOf(runs[..j]) + ItemsOf(runs[j])
  {
    assert runs[..j + 1][..j] == runs[..j];
  }

  // ----- The theorems -----

  /** What a run that returned leaves: with items left, a wait for a cancel message and otherwise the next chunk; with
      none left, or cancelled, the end. The counters are how many items below the offset failed and how many did
      not. */
  ghost predicate Counts(out: RunOutput<Payload>, cancelled: bool, items: seq<string>, offset: nat, fails: Fails) {
    var processed, errors := |set k: nat | k < offset && !fails(k)|, |set k: nat | k < offset && fails(k)|;
    if cancelled || offset == |items| then out == Done(BatchResult(processed, errors, cancelled))
    else out == BetweenChunks(items, offset, processed, errors)
  }

  /** Accounting: after each run the items processed so far, in order and once each, are the first Offset ones,
      Errors is the number of those whose processing fails and Processed the number of the others. */
  lemma BatchAccounts(reg: Recovery, now: int, labels: seq<Label<Payload>>, s: System<Payload>, id: string,
                      fails: Fails, items: seq<string>, j: nat)
    requires Reached(reg, now, labels, s) && id in s.insts && Serves(reg, fails, items, s.insts[id])
    requires j < |s.insts[id].runs|
    ensures var runs := s.insts[id].runs;
      var offset := Behind(items, runs, j + 1);
      && WorkOf(runs[..j + 1]) == items[..offset]
      && (UsedIn(reg, runs[j]).Returned? ==>
            Counts(UsedIn(reg, runs[j]).output, IsCancel(runs[j]), items, offset, fails))
  {
    RunsLegal(reg, now, labels, s, id);
    RunAccounts(reg, fails, items, s.insts[id], j);
  }

  lemma RunAccounts(reg: Recovery, fails: Fails, items: seq<string>, i: Inst<Payload>, j: nat)
    requires Serves(reg, fails, items, i) && Legal(reg, i.key, i.input, i.runs) && j < |i.runs|
    ensures var offset := Behind(items, i.runs, j + 1);
      && WorkOf(i.runs[..j + 1]) == items[..offset]
      && (UsedIn(reg, i.runs[j]).Returned? ==>
            Counts(UsedIn(reg, i.runs[j]).output, IsCancel(i.runs[j]), items, offset, fails))
  {
    BatchRuns(reg, fails, items, i, j);
    WorkInOrder(reg, fails, items, i, j + 1);
    if UsedIn(reg, i.runs[j]).Returned? {
      RunCounts(reg, fails, items, i.runs, j);
    }
  }

  lemma RunCounts(reg: Recovery, fails: Fails, items: seq<string>, runs: seq<Run<Payload>>, j: nat)
    requires j < |runs| && ChunkOrCancel(reg, fails, items, runs[j], j) && UsedIn(reg, runs[j]).Returned?
    ensures Counts(UsedIn(reg, runs[j]).output, IsCancel(runs[j]), items, Behind(items, runs, j + 1), fails)
  {
    FailuresBelow(fails, Behind(items, runs, j + 1));
  }

  /** Between chunks a batch can be cancelled: its wait takes cancel messages, and otherwise the next chunk. */
  lemma AwaitsCancel(reg: Recovery, now: int, labels: seq<Label<Payload>>, s: System<Payload>, id: string,
                     fails: Fails, items: seq<string>)
    requires Reached(reg, now, labels, s) && id in s.insts && Serves(reg, fails, items, s.insts[id])
    requires s.insts[id].phase.Waiting?
    ensures var cases := s.insts[id].phase.wait.cases;
      var cancel, go := SendCase(cases, CancelKey()), DefaultCase(cases);
      && cancel.Some? && go.Some? && cases[go.value].handlerKey == ChunkKey()
      && s.insts[id].phase.wait.timers == []
  {
    RunsLegal(reg, now, labels, s, id);
    var i := s.insts[id];
    BatchAccounts(reg, now, labels, s, id, fails, items, |i.runs| - 1);
    ReachedKeeps(reg, now, labels, s);
    assert InstInv(reg, i) && WaitInv(i.box, i.phase.wait);
    BetweenAwaits(i.phase.wait.cases, i.phase.wait.entered);
  }

  lemma BetweenAwaits(cases: seq<Case<Payload>>, now: int)
    requires exists items, offset, processed, errors :: cases == BetweenChunks(items, offset, processed, errors).cases
    ensures SendCase(cases, CancelKey()).Some? && DefaultCase(cases) == Some(1) && cases[1].handlerKey == ChunkKey()
    ensures Deadlines(cases, now) == []
  {
    assert Awaits(cases[0], CancelKey()) && !cases[0].immediate && cases[1].immediate;
    assert cases[..1] == [cases[0]] && cases[..1][..0] == [];
    assert Deadlines(cases[..1], now) == Deadlines<Payload>([], now);
  }

  /** After max(1, ceil(n / 100)) runs and with all n items processed; cancelled, after a positive multiple of 100
      below n; or on a cancel message that cannot be decoded, likewise. The result counts the failures and the others
      among the items processed. */
  ghost predicate EndedRight(fails: Fails, items: seq<string>, i: Inst<Payload>)
    requires i.phase.Finished? && i.runs != []
  {
    var n := |items|;
    if !IsCancel(i.runs[|i.runs| - 1]) then
      var processed, errors := |set k: nat | k < n && !fails(k)|, |set k: nat | k < n && fails(k)|;
      && i.phase.outcome == Success(Some(BatchResult(processed, errors, false)))
      && WorkOf(i.runs) == items
      && |i.runs| == if n == 0 then 1 else (n + 99) / 100
    else
      var offset := 100 * (|i.runs| - 1);
      var processed, errors := |set k: nat | k < offset && !fails(k)|, |set k: nat | k < offset && fails(k)|;
      && 0 < offset < n && WorkOf(i.runs) == items[..offset]
      && i.phase.outcome in [Success(Some(BatchResult(processed, errors, true))), Failure("deserialize")]
  }

  /** Every batch that has ended has ended in one of these ways. */
  lemma BatchEnds(reg: Recovery, now: int, labels: seq<Label<Payload>>, s: System<Payload>, id: string, fails: Fails,
                  items: seq<string>)
    requires Reached(reg, now, labels, s) && id in s.insts && Serves(reg, fails, items, s.insts[id])
    requires s.insts[id].phase.Finished?
    ensures s.insts[id].runs != [] && EndedRight(fails, items, s.insts[id])
  {
    RunsLegal(reg, now, labels, s, id);
    InstEnds(reg, fails, items, s.insts[id]);
  }

  lemma InstEnds(reg: Recovery, fails: Fails, items: seq<string>, i: Inst<Payload>)
    requires Serves(reg, fails, items, i) && Legal(reg, i.key, i.input, i.runs) && PhaseFits(reg, i)
    requires i.phase.Finished?
    ensures i.runs != [] && EndedRight(fails, items, i)
  {
    var j := |i.runs| - 1;
    RunAccounts(reg, fails, items, i, j);
    assert i.runs[..j + 1] == i.runs && items[..|items|] == items;
    BatchRuns(reg, fails, items, i, j);
    EndsAt(reg, fails, items, i);
  }

  lemma EndsAt(reg: Recovery, fails: Fails, items: seq<string>, i: Inst<Payload>)
    requires i.phase.Finished? && PhaseFits(reg, i) && i.runs != []
    requires ChunkOrCancel(reg, fails, items, i.runs[|i.runs| - 1], |i.runs| - 1)
    requires WorkOf(i.runs) == items[..Behind(items, i.runs, |i.runs|)] && items[..|items|] == items
    ensures EndedRight(fails, items, i)
  {
    var j := |i.runs| - 1;
    if IsCancel(i.runs[j]) {
      assert DoesCancel(reg, fails, items, i.runs[j], j) && Offset(items, j) == 100 * j;
      FailuresBelow(fails, 100 * j);
    } else {
      LastChunk(reg, fails, items, i);
      FailuresBelow(fails, |items|);
    }
  }

  lemma LastChunk(reg: Recovery, fails: Fails, items: seq<string>, i: Inst<Payload>)
    requires i.phase.Finished? && PhaseFits(reg, i) && i.runs != []
    requires DoesChunk(reg, fails, items, i.runs[|i.runs| - 1], |i.runs| - 1)
    ensures var n := |items|;
      && Offset(items, |i.runs|) == n
      && i.phase.outcome == Success(Some(BatchResult(n - Errors(fails, 0, n), Errors(fails, 0, n), false)))
  {}
}
