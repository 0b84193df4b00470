module Wrappers {
  datatype Option<+T> = None | Some(value: T)
}

/** What handlers and backends share: continuations and their cases, the context that collects a
    handler's effects, and the record of one handler run. */
module Durable {
  import opened Keys
  import opened Wrappers
  import opened Queries

  // ----- durable/continuation.go -----

  /** One wait condition. `timer` is the duration of a timer case; `sendName` and `callName` are empty
      unless the case waits for a send or a call. */
  datatype Case<V> = Case(timer: Option<int>, sendName: string, callName: string, immediate: bool,
                          input: V, handlerKey: string)

  function After<V>(d: int, inputKind: string, resultKind: string, input: V): Case<V> {
    Case(Some(d), "", "", false, input, HandlerKey(inputKind, resultKind))
  }

  function ReceiveSend<V>(inputKind: string, msgKind: string, resultKind: string, input: V): Case<V> {
    Case(None, msgKind, "", false, input, SendKey(inputKind, msgKind, resultKind))
  }

  function ReceiveCall<V>(inputKind: string, reqKind: string, respKind: string, resultKind: string, input: V): Case<V> {
    Case(None, "", reqKind, false, input, CallKey(inputKind, reqKind, respKind, resultKind))
  }

  /** Continue and Default build the same case; whether it stands alone decides its meaning. */
  function Immediate<V>(inputKind: string, resultKind: string, input: V): Case<V> {
    Case(None, "", "", true, input, HandlerKey(inputKind, resultKind))
  }

  /** A case waits for sends under a key. */
  predicate Awaits<V>(c: Case<V>, key: string) {
    c.sendName != "" && c.handlerKey == key
  }

  /** The only case is immediate: nothing is waited for. */
  predicate IsContinue<V>(cases: seq<Case<V>>) {
    |cases| == 1 && cases[0].immediate
  }

  /** A case as the constructors build it: of one kind, and with a key of that kind's family. */
  ghost predicate Constructed<V>(c: Case<V>) {
    || (exists d, i, r :: c == After(d, i, r, c.input))
    || (exists i, m, r :: m != "" && c == ReceiveSend(i, m, r, c.input))
    || (exists i, q, p, r :: q != "" && c == ReceiveCall(i, q, p, r, c.input))
    || (exists i, r :: c == Immediate(i, r, c.input))
  }

  // ----- durable/context.go -----

  datatype StartEntry<V> = StartEntry(routineID: string, inputKind: string, resultKind: string, input: V)
  datatype SendEntry<V> = SendEntry(routineID: string, inputKind: string, externalInputKind: string,
                                    resultKind: string, msg: V)

  function StartKey<V>(e: StartEntry<V>): string {
    HandlerKey(e.inputKind, e.resultKind)
  }

  function EntryKey<V>(e: SendEntry<V>): string {
    SendKey(e.inputKind, e.externalInputKind, e.resultKind)
  }

  /** Everything a handler buffered on its context. */
  datatype Effects<V> = Effects(queries: seq<QueryEntry<V>>, starts: seq<StartEntry<V>>, sends: seq<SendEntry<V>>)

  function NoEffects<V>(): Effects<V> {
    Effects([], [], [])
  }

  /** What the search for an entry's name finds out at position i. */
  lemma UpsertAt<V>(list: seq<QueryEntry<V>>, i: nat, e: QueryEntry<V>)
    requires i < |list|
    ensures list[..i] + Upsert(list[i..], e)
      == if list[i].queryName == e.queryName then list[i := e] else list[..i + 1] + Upsert(list[i + 1..], e)
  {
    var rest := list[i + 1..];
    assert list[i..][0] == list[i] && list[i..][1..] == rest;
    if list[i].queryName == e.queryName {
      assert Upsert(list[i..], e) == [e] + rest;
      assert list[..i] + ([e] + rest) == list[i := e];
    } else {
      assert Upsert(list[i..], e) == [list[i]] + Upsert(rest, e);
      SplitNext(list, i, Upsert(rest, e));
    }
  }

  lemma SplitNext<T>(list: seq<T>, i: nat, rest: seq<T>)
    requires i < |list|
    ensures list[..i] + ([list[i]] + rest) == list[..i + 1] + rest
  {}

  class Context<V> {
    const routineID: string
    var startRequests: seq<StartEntry<V>>
    var sendRequests: seq<SendEntry<V>>
    var queryResults: seq<QueryEntry<V>>

    constructor (id: string)
      ensures routineID == id && Collected() == NoEffects()
    {
      routineID := id;
      startRequests, sendRequests, queryResults := [], [], [];
    }

    function Collected(): Effects<V>
      reads this
    {
      Effects(queryResults, startRequests, sendRequests)
    }

    method BufferStart(e: StartEntry<V>)
      modifies this
      ensures Collected() == old(Collected()).(starts := old(startRequests) + [e])
    {
      startRequests := startRequests + [e];
    }

    method BufferSend(e: SendEntry<V>)
      modifies this
      ensures Collected() == old(Collected()).(sends := old(sendRequests) + [e])
    {
      sendRequests := sendRequests + [e];
    }

    /** Overwrites the entry of that name where it stands, or appends one. */
    method SetQueryResult(e: QueryEntry<V>)
      modifies this
      ensures Collected() == old(Collected()).(queries := Upsert(old(queryResults), e))
    {
      var i := 0;
      while i < |queryResults|
        invariant 0 <= i <= |queryResults| && Collected() == old(Collected())
        invariant Upsert(queryResults, e) == queryResults[..i] + Upsert(queryResults[i..], e)
      {
        UpsertAt(queryResults, i, e);
        if queryResults[i].queryName == e.queryName {
          queryResults := queryResults[i := e];
          return;
        }
        i := i + 1;
      }
      assert queryResults[i..] == [] && queryResults[..i] == queryResults;
      queryResults := queryResults + [e];
    }
  }

  // ----- One handler run -----

  /** What a runner returns. `cases` matters only when the routine is not done. */
  datatype RunOutput<V> = RunOutput(done: bool, result: Option<V>, cases: seq<Case<V>>, callResponse: Option<V>)

  /** How one runner invocation ended. A failed handler may have buffered effects too. */
  datatype Outcome<V> =
    | Failed(error: string, effects: Effects<V>)
    | Returned(output: RunOutput<V>, effects: Effects<V>)

  function Done<V>(result: V): RunOutput<V> {
    RunOutput(true, Some(result), [], None)
  }

  function Select<V>(cases: seq<Case<V>>): RunOutput<V> {
    RunOutput(false, None, cases, None)
  }

  /** The registry as both backends read it: the recovery key of each registered handler, "" if none. */
  type Recovery = map<string, string>

  function RecoveryKey(reg: Recovery, key: string): string {
    if key in reg && reg[key] != "" && reg[key] in reg then reg[key] else ""
  }

  /** The primary outcome as the backend sees it: a key without a handler fails by itself. */
  function Attempt<V>(reg: Recovery, key: string, primary: Outcome<V>): Outcome<V> {
    if key in reg then primary else Failed("no handler registered for key: " + key, NoEffects())
  }

  /** Whether the recovery handler is invoked too. */
  predicate Recovers<V>(reg: Recovery, key: string, primary: Outcome<V>) {
    Attempt(reg, key, primary).Failed? && RecoveryKey(reg, key) != ""
  }

  /** The outcome that is used: the recovery's if it was invoked, the primary's otherwise. A failed
      recovery is not recovered again. */
  function Used<V>(reg: Recovery, key: string, primary: Outcome<V>, recovery: Outcome<V>): Outcome<V> {
    if Recovers(reg, key, primary) then recovery else Attempt(reg, key, primary)
  }

  // ----- What a handler returns -----

  /** A continuation is a result or a list of cases; Done and the constructors of cases build one. */
  datatype Continuation<V> = Continuation(done: bool, result: Option<V>, cases: seq<Case<V>>)

  function AwaitAny<V>(cases: seq<Case<V>>): Continuation<V> {
    Continuation(false, None, cases)
  }

  /** buildRunOutput: the cases of a continuation that is done are not looked at. */
  function Output<V>(c: Continuation<V>): RunOutput<V> {
    if c.done then RunOutput(true, c.result, [], None) else Select(c.cases)
  }

  /** What a handler's output says is what its continuation says: the end and its result, or the cases to wait for. */
  lemma OutputSays<V>(c: Continuation<V>)
    ensures Output(c).done <==> c.done
    ensures if c.done then Output(c).result == c.result && Output(c).cases == [] else Output(c).cases == c.cases
  {}

  /** The cases of several continuations, one after the other. */
  function AllCases<V>(conts: seq<Continuation<V>>): seq<Case<V>> {
    if conts == [] then [] else AllCases(conts[..|conts| - 1]) + conts[|conts| - 1].cases
  }

  /** How many cases several continuations have. */
  function Total<V>(conts: seq<Continuation<V>>): nat {
    if conts == [] then 0 else Total(conts[..|conts| - 1]) + |conts[|conts| - 1].cases|
  }

  /** Each continuation's cases stand together, after those of the ones before it. */
  ghost predicate TakesAll<V>(cases: seq<Case<V>>, conts: seq<Continuation<V>>) {
    && |cases| == Total(conts)
    && forall k :: 0 <= k < |conts| ==> TakesOne(cases, Total(conts[..k]), conts[k].cases)
  }

  ghost predicate TakesOne<V>(cases: seq<Case<V>>, at: nat, part: seq<Case<V>>) {
    at + |part| <= |cases| && cases[at..at + |part|] == part
  }

  lemma {:induction false} AllAreTaken<V>(conts: seq<Continuation<V>>)
    ensures TakesAll(AllCases(conts), conts)
  {
    if conts != [] {
      var n := |conts| - 1;
      var init := conts[..n];
      AllAreTaken(init);
      forall k | 0 <= k < |conts| ensures TakesOne(AllCases(conts), Total(conts[..k]), conts[k].cases) {
        if k < n {
          assert init[..k] == conts[..k] && init[k] == conts[k];
          assert TakesOne(AllCases(init), Total(init[..k]), init[k].cases);
          TakenStays(AllCases(init), conts[n].cases, Total(conts[..k]), conts[k].cases);
        } else {
          TakenLast(AllCases(init), conts[n].cases);
        }
      }
    }
  }

  lemma TakenLast<V>(cases: seq<Case<V>>, part: seq<Case<V>>)
    ensures TakesOne(cases + part, |cases|, part)
  {}

  lemma TakenStays<V>(cases: seq<Case<V>>, more: seq<Case<V>>, at: nat, part: seq<Case<V>>)
    requires TakesOne(cases, at, part)
    ensures TakesOne(cases + more, at, part)
  {
    assert (cases + more)[at..at + |part|] == cases[at..at + |part|];
  }

  /** Select's loop. What a Done among the continuations says is lost. */
  method Combine<V>(conts: seq<Continuation<V>>) returns (c: Continuation<V>)
    ensures c == AwaitAny(AllCases(conts)) && Output(c) == Select(AllCases(conts))
    ensures TakesAll(c.cases, conts) && !c.done
  {
    var cases: seq<Case<V>> := [];
    for k := 0 to |conts|
      invariant cases == AllCases(conts[..k])
    {
      cases := cases + conts[k].cases;
      assert conts[..k + 1][..k] == conts[..k];
    }
    assert conts[..|conts|] == conts;
    AllAreTaken(conts);
    c := Continuation(false, None, cases);
  }

  lemma {:induction false} AllCasesConcat<V>(a: seq<Continuation<V>>, b: seq<Continuation<V>>)
    ensures AllCases(a + b) == AllCases(a) + AllCases(b)
  {
    if b == [] {
      assert a + b == a;
    } else {
      var n := |b| - 1;
      AllCasesConcat(a, b[..n]);
      assert (a + b)[..|a + b| - 1] == a + b[..n];
      assert AllCases(a) + AllCases(b[..n]) + b[n].cases == AllCases(a) + (AllCases(b[..n]) + b[n].cases);
    }
  }

  /** Selects can be nested: selecting among continuations that are Selects themselves waits on the same cases in
      the same order as selecting among all of them, so first-case priorities do not depend on the nesting. */
  lemma SelectsNest<V>(a: seq<Continuation<V>>, b: seq<Continuation<V>>, c: seq<Continuation<V>>)
    ensures AllCases(a + [AwaitAny(AllCases(b))] + c) == AllCases(a + b + c)
  {
    AllCasesConcat(a + [AwaitAny(AllCases(b))], c);
    AllCasesConcat(a, [AwaitAny(AllCases(b))]);
    AllCasesConcat([], [AwaitAny(AllCases(b))]);
    assert AllCases([AwaitAny(AllCases(b))]) == AllCases(b) by {
      assert [AwaitAny(AllCases(b))][..0] == [];
    }
    AllCasesConcat(a + b, c);
    AllCasesConcat(a, b);
  }
}
