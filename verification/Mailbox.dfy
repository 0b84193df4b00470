/** The mailbox of an in-memory instance and the atomic steps of waitForCase on it
    (backend/inmemory/runtime.go). A step is one piece of the loop between two points at which other
    goroutines can act: the scan of `buffered`, the check of the timers, one receive on a channel. */
module Mailbox {
  import opened Wrappers
  import opened Durable

  datatype SendMsg<V> = SendMsg(key: string, msg: V)

  /** A client blocked on the unbuffered callChan. `call` identifies its response channel. */
  datatype CallReq<V> = CallReq(call: nat, callName: string, handlerKey: string, req: V)

  datatype CallResp<V> = Ok(result: Option<V>) | Err(error: string)
  datatype Reply<V> = Reply(call: nat, resp: CallResp<V>)

  /** Who put a message on a channel. */
  datatype Origin = Client | Routine(id: string)

  /** The channels and the overflow buffer, followed by histories that no branch reads: all sends
      enqueued and where they came from, the sends handed to handlers, the calls taken from callChan,
      the replies, and the keys under which something was ever buffered. */
  datatype Box<V> = Box(
    sendCh: seq<SendMsg<V>>,
    callers: seq<CallReq<V>>,
    buffered: map<string, seq<V>>,
    sent: seq<SendMsg<V>>,
    origins: seq<Origin>,
    delivered: seq<SendMsg<V>>,
    taken: seq<nat>,
    replied: seq<Reply<V>>,
    strays: set<string>)

  function EmptyBox<V>(): Box<V> {
    Box([], [], map[], [], [], [], [], [], {})
  }

  function Buf<V>(b: Box<V>, key: string): seq<V> {
    if key in b.buffered then b.buffered[key] else []
  }

  // ----- What the environment does to a box -----

  const CAPACITY: nat := 1024

  function Enqueue<V>(b: Box<V>, origin: Origin, m: SendMsg<V>): Box<V> {
    b.(sendCh := b.sendCh + [m], sent := b.sent + [m], origins := b.origins + [origin])
  }

  function Offer<V>(b: Box<V>, req: CallReq<V>): Box<V> {
    b.(callers := b.callers + [req])
  }

  // ----- Searching the case list -----

  function FirstTrue(bs: seq<bool>): (r: Option<nat>)
    ensures r.Some? ==> r.value < |bs| && bs[r.value] && forall j :: 0 <= j < r.value ==> !bs[j]
    ensures r.None? ==> forall j :: 0 <= j < |bs| ==> !bs[j]
  {
    if bs == [] then None
    else if bs[0] then Some(0)
    else match FirstTrue(bs[1..])
      case Some(i) => assert forall j :: 1 <= j < |bs| ==> bs[j] == bs[1..][j - 1]; Some(i + 1)
      case None => assert forall j :: 1 <= j < |bs| ==> bs[j] == bs[1..][j - 1]; None
  }

  /** The first send case with a buffered message. */
  function BufferedCase<V>(b: Box<V>, cases: seq<Case<V>>): (r: Option<nat>)
    ensures r.Some? ==> r.value < |cases| && cases[r.value].sendName != "" && Buf(b, cases[r.value].handlerKey) != []
    ensures r.Some? ==> forall j :: 0 <= j < r.value && cases[j].sendName != "" ==> Buf(b, cases[j].handlerKey) == []
    ensures r.None? ==> forall j :: 0 <= j < |cases| && cases[j].sendName != "" ==> Buf(b, cases[j].handlerKey) == []
  {
    var bs := seq(|cases|, i requires 0 <= i < |cases| => cases[i].sendName != "" && Buf(b, cases[i].handlerKey) != []);
    assert forall j {:trigger cases[j]} :: 0 <= j < |cases| ==>
      bs[j] == (cases[j].sendName != "" && Buf(b, cases[j].handlerKey) != []);
    FirstTrue(bs)
  }

  function SendCase<V>(cases: seq<Case<V>>, key: string): (r: Option<nat>)
    ensures r.Some? ==> r.value < |cases| && Awaits(cases[r.value], key)
    ensures r.Some? ==> forall j :: 0 <= j < r.value ==> !Awaits(cases[j], key)
    ensures r.None? ==> forall j :: 0 <= j < |cases| ==> !Awaits(cases[j], key)
  {
    var bs := seq(|cases|, i requires 0 <= i < |cases| => Awaits(cases[i], key));
    assert forall j {:trigger cases[j]} :: 0 <= j < |cases| ==> bs[j] == (Awaits(cases[j], key));
    FirstTrue(bs)
  }

  /** Calls match on the request kind alone. */
  function CallCase<V>(cases: seq<Case<V>>, callName: string): (r: Option<nat>)
    ensures r.Some? ==> r.value < |cases| && cases[r.value].callName != "" && cases[r.value].callName == callName
    ensures r.Some? ==> forall j :: 0 <= j < r.value ==> cases[j].callName == "" || cases[j].callName != callName
    ensures r.None? ==> forall j :: 0 <= j < |cases| ==> cases[j].callName == "" || cases[j].callName != callName
  {
    var bs := seq(|cases|, i requires 0 <= i < |cases| => cases[i].callName != "" && cases[i].callName == callName);
    assert forall j {:trigger cases[j]} :: 0 <= j < |cases| ==>
      bs[j] == (cases[j].callName != "" && cases[j].callName == callName);
    FirstTrue(bs)
  }

  predicate HasCall<V>(cases: seq<Case<V>>) {
    exists i :: 0 <= i < |cases| && cases[i].callName != ""
  }

  function DefaultCase<V>(cases: seq<Case<V>>): (r: Option<nat>)
    ensures r.Some? ==> r.value < |cases| && cases[r.value].immediate
    ensures r.Some? ==> forall j :: 0 <= j < r.value ==> !cases[j].immediate
    ensures r.None? ==> forall j :: 0 <= j < |cases| ==> !cases[j].immediate
  {
    var bs := seq(|cases|, i requires 0 <= i < |cases| => cases[i].immediate);
    assert forall j {:trigger cases[j]} :: 0 <= j < |cases| ==> bs[j] == (cases[j].immediate);
    FirstTrue(bs)
  }

  // ----- Timers -----

  datatype Timer = Timer(idx: nat, deadline: int)

  /** The absolute deadlines of the timer cases, in case order. */
  function Deadlines<V>(cases: seq<Case<V>>, now: int): (timers: seq<Timer>)
    ensures forall j :: 0 <= j < |timers| ==>
      timers[j].idx < |cases| && cases[timers[j].idx].timer == Some(timers[j].deadline - now)
    ensures forall i :: 0 <= i < |cases| && cases[i].timer.Some? ==>
      Timer(i, now + cases[i].timer.value) in timers
  {
    if cases == [] then []
    else
      var n := |cases| - 1;
      var before := Deadlines(cases[..n], now);
      match cases[n].timer
      case Some(d) => before + [Timer(n, now + d)]
      case None => before
  }

  function FirstExpired(timers: seq<Timer>, now: int): (r: Option<nat>)
    ensures r.Some? ==> r.value < |timers| && timers[r.value].deadline <= now
    ensures r.Some? ==> forall j :: 0 <= j < r.value ==> now < timers[j].deadline
    ensures r.None? ==> forall j :: 0 <= j < |timers| ==> now < timers[j].deadline
  {
    var bs := seq(|timers|, i requires 0 <= i < |timers| => timers[i].deadline <= now);
    assert forall j {:trigger timers[j]} :: 0 <= j < |timers| ==> bs[j] == (timers[j].deadline <= now);
    FirstTrue(bs)
  }

  /** The first of the timers with the least deadline. */
  function Nearest(timers: seq<Timer>): (r: Option<nat>)
    ensures r.None? <==> timers == []
    ensures r.Some? ==> r.value < |timers|
    ensures r.Some? ==> forall j :: 0 <= j < |timers| ==> timers[r.value].deadline <= timers[j].deadline
    ensures r.Some? ==> forall j :: 0 <= j < r.value ==> timers[r.value].deadline < timers[j].deadline
  {
    if timers == [] then None
    else
      var n := |timers| - 1;
      match Nearest(timers[..n])
      case None => Some(n)
      case Some(j) => if timers[n].deadline < timers[j].deadline then Some(n) else Some(j)
  }

  // ----- The atomic steps -----

  datatype Pc = Scan | CheckTimers | TryCall | TrySend | Fallback | Block

  /** One execution of waitForCase in progress. */
  datatype Wait<V> = Wait(cases: seq<Case<V>>, timers: seq<Timer>, entered: int, pc: Pc)

  function EnterWait<V>(cases: seq<Case<V>>, now: int): Wait<V> {
    Wait(cases, Deadlines(cases, now), now, Scan)
  }

  /** Why a handler runs: the routine's start, or the case that fired. A timer's firing notes when the
      wait began and when it fired. */
  datatype Firing =
    | ByStart
    | ByTimer(idx: nat, entered: int, at: int)
    | BySend(idx: nat)
    | ByCall(idx: nat, call: nat)
    | ByDefault(idx: nat)

  datatype Progress<V> = Pass(pc: Pc) | Fire(firing: Firing, msg: Option<V>)

  function TakeSend<V>(b: Box<V>, cases: seq<Case<V>>, otherwise: Pc): (Box<V>, Progress<V>)
    requires b.sendCh != []
  {
    var m := b.sendCh[0];
    var rest := b.(sendCh := b.sendCh[1..]);
    match SendCase(cases, m.key)
    case Some(i) => (rest.(delivered := b.delivered + [m]), Fire(BySend(i), Some(m.msg)))
    case None => (rest.(buffered := b.buffered[m.key := Buf(b, m.key) + [m.msg]], strays := b.strays + {m.key}),
                  Pass(otherwise))
  }

  function NoMatch<V>(req: CallReq<V>): CallResp<V> {
    Err("no matching ReceiveCall case for " + req.handlerKey)
  }

  function TakeCall<V>(b: Box<V>, cases: seq<Case<V>>, otherwise: Pc): (Box<V>, Progress<V>)
    requires b.callers != []
  {
    var req := b.callers[0];
    var rest := b.(callers := b.callers[1..], taken := b.taken + [req.call]);
    match CallCase(cases, req.callName)
    case Some(i) => (rest, Fire(ByCall(i, req.call), Some(req.req)))
    case None => (rest.(replied := b.replied + [Reply(req.call, NoMatch(req))]), Pass(otherwise))
  }

  function TimerFires<V>(w: Wait<V>, j: nat, now: int): Progress<V>
    requires j < |w.timers|
  {
    Fire(ByTimer(w.timers[j].idx, w.entered, now), None)
  }

  /** The deterministic steps: everything but the blocking select. */
  function WaitStep<V>(b: Box<V>, w: Wait<V>, now: int): (Box<V>, Progress<V>)
    requires w.pc != Block
  {
    match w.pc
    case Scan =>
      (match BufferedCase(b, w.cases)
       case Some(i) =>
         var key := w.cases[i].handlerKey;
         var msg := Buf(b, key)[0];
         (b.(buffered := b.buffered[key := Buf(b, key)[1..]], delivered := b.delivered + [SendMsg(key, msg)]),
          Fire(BySend(i), Some(msg)))
       case None => (b, Pass(CheckTimers)))
    case CheckTimers =>
      (match FirstExpired(w.timers, now)
       case Some(j) => (b, TimerFires(w, j, now))
       case None => (b, Pass(TryCall)))
    case TryCall =>
      if HasCall(w.cases) && b.callers != [] then TakeCall(b, w.cases, TrySend) else (b, Pass(TrySend))
    case TrySend =>
      if b.sendCh != [] then TakeSend(b, w.cases, Fallback) else (b, Pass(Fallback))
    case Fallback =>
      match DefaultCase(w.cases)
      case Some(i) => (b, Fire(ByDefault(i), None))
      case None =>
        match Nearest(w.timers)
        case Some(j) => if w.timers[j].deadline <= now then (b, TimerFires(w, j, now)) else (b, Pass(Block))
        case None => (b, Pass(Block))
  }

  /** The alternatives of the blocking select. */
  datatype Choice = ChooseSend | ChooseCall | ChooseTimer

  predicate Ready<V>(b: Box<V>, w: Wait<V>, now: int, choice: Choice) {
    match choice
    case ChooseSend => b.sendCh != []
    case ChooseCall => b.callers != []
    case ChooseTimer => var n := Nearest(w.timers); n.Some? && w.timers[n.value].deadline <= now
  }

  function BlockStep<V>(b: Box<V>, w: Wait<V>, now: int, choice: Choice): (Box<V>, Progress<V>)
    requires Ready(b, w, now, choice)
  {
    match choice
    case ChooseSend => TakeSend(b, w.cases, Scan)
    case ChooseCall => TakeCall(b, w.cases, Scan)
    case ChooseTimer => (b, TimerFires(w, Nearest(w.timers).value, now))
  }

  // ----- What the steps keep -----

  function Msgs<V>(s: seq<SendMsg<V>>, key: string): seq<V> {
    if s == [] then []
    else (if s[0].key == key then [s[0].msg] else []) + Msgs(s[1..], key)
  }

  function Only<V>(s: seq<SendMsg<V>>, keys: set<string>): seq<SendMsg<V>> {
    if s == [] then []
    else (if s[0].key in keys then [s[0]] else []) + Only(s[1..], keys)
  }

  function Calls<V>(replies: seq<Reply<V>>): (calls: seq<nat>)
    ensures |calls| == |replies| && forall i :: 0 <= i < |replies| ==> calls[i] == replies[i].call
  {
    seq(|replies|, i requires 0 <= i < |replies| => replies[i].call)
  }

  lemma Associate<T>(x: seq<T>, y: seq<T>, z: seq<T>)
    ensures x + y + z == x + (y + z)
  {}

  lemma {:induction false} MsgsConcat<V>(a: seq<SendMsg<V>>, b: seq<SendMsg<V>>, key: string)
    ensures Msgs(a + b, key) == Msgs(a, key) + Msgs(b, key)
  {
    if a == [] {
      assert a + b == b;
    } else {
      assert (a + b)[1..] == a[1..] + b;
      MsgsConcat(a[1..], b, key);
      Associate(if a[0].key == key then [a[0].msg] else [], Msgs(a[1..], key), Msgs(b, key));
    }
  }

  lemma {:induction false} OnlyConcat<V>(a: seq<SendMsg<V>>, b: seq<SendMsg<V>>, keys: set<string>)
    ensures Only(a + b, keys) == Only(a, keys) + Only(b, keys)
  {
    if a == [] {
      assert a + b == b;
    } else {
      assert (a + b)[1..] == a[1..] + b;
      OnlyConcat(a[1..], b, keys);
      Associate(if a[0].key in keys then [a[0]] else [], Only(a[1..], keys), Only(b, keys));
    }
  }

  lemma OnlySnoc<V>(a: seq<SendMsg<V>>, m: SendMsg<V>, keys: set<string>)
    ensures Only(a + [m], keys) == Only(a, keys) + (if m.key in keys then [m] else [])
  {
    OnlyConcat(a, [m], keys);
  }

  lemma MsgsSnoc<V>(a: seq<SendMsg<V>>, m: SendMsg<V>, key: string)
    ensures Msgs(a + [m], key) == Msgs(a, key) + (if m.key == key then [m.msg] else [])
  {
    MsgsConcat(a, [m], key);
  }

  /** Per key, what was enqueued is what was delivered, then what is buffered, then what is still on
      the channel, in that order. */
  ghost predicate Conserved<V>(b: Box<V>) {
    forall key :: Msgs(b.sent, key) == Msgs(b.delivered, key) + Buf(b, key) + Msgs(b.sendCh, key)
  }

  /** Across the keys that were never buffered, delivery order is the order of enqueueing. */
  ghost predicate Ordered<V>(b: Box<V>) {
    && (forall key :: Buf(b, key) != [] ==> key in b.strays)
    && (forall keys: set<string> :: keys !! b.strays ==>
         Only(b.sent, keys) == Only(b.delivered, keys) + Only(b.sendCh, keys))
  }

  ghost predicate BoxInv<V>(b: Box<V>) {
    |b.origins| == |b.sent| && Conserved(b) && Ordered(b)
  }

  /** After the scan, and until the loop comes back to it, nothing is buffered under an awaited key. */
  ghost predicate WaitInv<V>(b: Box<V>, w: Wait<V>) {
    && w.timers == Deadlines(w.cases, w.entered)
    && (w.pc != Scan ==> forall i :: 0 <= i < |w.cases| && w.cases[i].sendName != "" ==>
         Buf(b, w.cases[i].handlerKey) == [])
  }

  /** A firing names a case of the list that really fired: a timer whose duration has passed since the
      wait began, a send or a call with its message, or a default. */
  ghost predicate Justified<V>(cases: seq<Case<V>>, firing: Firing, msg: Option<V>) {
    match firing
    case ByStart => false
    case ByTimer(i, entered, at) =>
      i < |cases| && cases[i].timer.Some? && at >= entered + cases[i].timer.value && msg.None?
    case BySend(i) => i < |cases| && cases[i].sendName != "" && msg.Some?
    case ByCall(i, call) => i < |cases| && cases[i].callName != "" && msg.Some?
    case ByDefault(i) => i < |cases| && cases[i].immediate && msg.None?
  }

  /** What a step adds to the deliveries when it fires. */
  function Delivery<V>(cases: seq<Case<V>>, p: Progress<V>): seq<SendMsg<V>> {
    match p
    case Fire(BySend(i), Some(msg)) => if i < |cases| then [SendMsg(cases[i].handlerKey, msg)] else []
    case _ => []
  }

  /** The call whose handler a step starts. */
  function Accepted<V>(p: Progress<V>): seq<nat> {
    match p
    case Fire(ByCall(_, call), _) => [call]
    case _ => []
  }

  /** What one step of the wait loop did. */
  ghost predicate GoodStep<V>(b: Box<V>, w: Wait<V>, now: int, b': Box<V>, p: Progress<V>) {
    && BoxInv(b')
    && b'.sent == b.sent && b'.origins == b.origins
    && b'.delivered == b.delivered + Delivery(w.cases, p)
    && b.taken <= b'.taken && b.replied <= b'.replied
    && b'.taken[|b.taken|..] == Calls(b'.replied[|b.replied|..]) + Accepted(p)
    && (forall i :: |b.replied| <= i < |b'.replied| ==> b'.replied[i].resp.Err?)
    && (forall key :: key in b'.strays && key !in b.strays ==>
         forall i :: 0 <= i < |w.cases| ==> !Awaits(w.cases[i], key))
    && match p
       case Pass(pc) => WaitInv(b', w.(pc := pc))
       case Fire(firing, msg) =>
         Justified(w.cases, firing, msg) && (firing.ByTimer? ==> firing.entered == w.entered && firing.at == now)
  }

  lemma EnqueueKeeps<V>(b: Box<V>, origin: Origin, m: SendMsg<V>)
    requires BoxInv(b)
    ensures BoxInv(Enqueue(b, origin, m))
  {
    var b' := Enqueue(b, origin, m);
    forall key ensures Msgs(b'.sent, key) == Msgs(b'.delivered, key) + Buf(b', key) + Msgs(b'.sendCh, key) {
      MsgsSnoc(b.sent, m, key);
      MsgsSnoc(b.sendCh, m, key);
      assert Msgs(b.sent, key) == Msgs(b.delivered, key) + Buf(b, key) + Msgs(b.sendCh, key);
    }
    forall keys: set<string> | keys !! b'.strays
      ensures Only(b'.sent, keys) == Only(b'.delivered, keys) + Only(b'.sendCh, keys)
    {
      OnlySnoc(b.sent, m, keys);
      OnlySnoc(b.sendCh, m, keys);
      assert Only(b.sent, keys) == Only(b.delivered, keys) + Only(b.sendCh, keys);
    }
  }

  /** An element moves from the front of the last part to the end of the first or the second part. */
  lemma Shift<T>(d: seq<T>, b: seq<T>, x: seq<T>, t: seq<T>)
    ensures d + b + (x + t) == d + (b + x) + t
    ensures b == [] ==> d + b + (x + t) == (d + x) + b + t
  {}

  lemma ReceiveKeeps<V>(b: Box<V>)
    requires BoxInv(b) && b.sendCh != [] && Buf(b, b.sendCh[0].key) == []
    ensures BoxInv(b.(sendCh := b.sendCh[1..], delivered := b.delivered + [b.sendCh[0]]))
  {
    var m, tail := b.sendCh[0], b.sendCh[1..];
    var b' := b.(sendCh := tail, delivered := b.delivered + [m]);
    forall key ensures Msgs(b'.sent, key) == Msgs(b'.delivered, key) + Buf(b', key) + Msgs(b'.sendCh, key) {
      assert Msgs(b.sent, key) == Msgs(b.delivered, key) + Buf(b, key) + Msgs(b.sendCh, key);
      MsgsSnoc(b.delivered, m, key);
      var x := if m.key == key then [m.msg] else [];
      assert Msgs(b.sendCh, key) == x + Msgs(tail, key);
      if m.key == key {
        Shift(Msgs(b.delivered, key), Buf(b, key), x, Msgs(tail, key));
      }
    }
    OrderedReceive(b, b');
    assert forall key :: Buf(b', key) == Buf(b, key);
  }

  lemma StrayKeeps<V>(b: Box<V>)
    requires BoxInv(b) && b.sendCh != []
    ensures var m := b.sendCh[0];
      BoxInv(b.(sendCh := b.sendCh[1..], buffered := b.buffered[m.key := Buf(b, m.key) + [m.msg]],
                strays := b.strays + {m.key}))
  {
    var m, tail := b.sendCh[0], b.sendCh[1..];
    var b' := b.(sendCh := tail, buffered := b.buffered[m.key := Buf(b, m.key) + [m.msg]],
                 strays := b.strays + {m.key});
    forall key ensures Msgs(b'.sent, key) == Msgs(b'.delivered, key) + Buf(b', key) + Msgs(b'.sendCh, key) {
      assert Msgs(b.sent, key) == Msgs(b.delivered, key) + Buf(b, key) + Msgs(b.sendCh, key);
      var x := if m.key == key then [m.msg] else [];
      assert Msgs(b.sendCh, key) == x + Msgs(tail, key);
      Shift(Msgs(b.delivered, key), Buf(b, key), x, Msgs(tail, key));
      assert Buf(b', key) == Buf(b, key) + x;
    }
    forall keys: set<string> | keys !! b'.strays
      ensures Only(b'.sent, keys) == Only(b'.delivered, keys) + Only(b'.sendCh, keys)
    {
      assert m.key in b'.strays;
      assert Only(b.sent, keys) == Only(b.delivered, keys) + Only(b.sendCh, keys);
      assert Only(b.sendCh, keys) == [] + Only(tail, keys);
    }
    forall key | Buf(b', key) != [] ensures key in b'.strays {
      assert key != m.key ==> Buf(b, key) != [];
    }
  }

  lemma OrderedReceive<V>(b: Box<V>, b': Box<V>)
    requires Ordered(b) && b.sendCh != []
    requires b' == b.(sendCh := b.sendCh[1..], delivered := b.delivered + [b.sendCh[0]])
    ensures forall keys: set<string> :: keys !! b'.strays ==>
      Only(b'.sent, keys) == Only(b'.delivered, keys) + Only(b'.sendCh, keys)
  {
    var m, tail := b.sendCh[0], b.sendCh[1..];
    forall keys: set<string> | keys !! b'.strays
      ensures Only(b'.sent, keys) == Only(b'.delivered, keys) + Only(b'.sendCh, keys)
    {
      assert Only(b.sent, keys) == Only(b.delivered, keys) + Only(b.sendCh, keys);
      var x := if m.key in keys then [m] else [];
      assert Only(b.sendCh, keys) == x + Only(tail, keys);
      OnlySnoc(b.delivered, m, keys);
      Associate(Only(b.delivered, keys), x, Only(tail, keys));
    }
  }

  lemma TakeSendKeeps<V>(b: Box<V>, w: Wait<V>, now: int, otherwise: Pc)
    requires BoxInv(b) && WaitInv(b, w) && w.pc != Scan && b.sendCh != []
    ensures GoodStep(b, w, now, TakeSend(b, w.cases, otherwise).0, TakeSend(b, w.cases, otherwise).1)
  {
    var m := b.sendCh[0];
    if SendCase(w.cases, m.key).Some? {
      ReceiveKeeps(b);
    } else {
      StrayKeeps(b);
      var (b', p) := TakeSend(b, w.cases, otherwise);
      assert forall i :: 0 <= i < |w.cases| && w.cases[i].sendName != "" ==> !Awaits(w.cases[i], m.key);
    }
  }

  lemma TakeCallKeeps<V>(b: Box<V>, w: Wait<V>, now: int, otherwise: Pc)
    requires BoxInv(b) && WaitInv(b, w) && w.pc != Scan && b.callers != []
    ensures GoodStep(b, w, now, TakeCall(b, w.cases, otherwise).0, TakeCall(b, w.cases, otherwise).1)
  {
    var req := b.callers[0];
    var (b', p) := TakeCall(b, w.cases, otherwise);
    SameMail(b, b');
    assert b'.taken[|b.taken|..] == [req.call];
  }

  /** The invariants look only at the mail fields. */
  lemma SameMail<V>(b: Box<V>, b': Box<V>)
    requires BoxInv(b)
    requires b' == b.(callers := b'.callers, taken := b'.taken, replied := b'.replied)
    ensures BoxInv(b')
  {
    forall key ensures Msgs(b'.sent, key) == Msgs(b'.delivered, key) + Buf(b', key) + Msgs(b'.sendCh, key) {
      assert Msgs(b.sent, key) == Msgs(b.delivered, key) + Buf(b, key) + Msgs(b.sendCh, key);
    }
    assert forall key :: Buf(b', key) == Buf(b, key);
  }

  lemma DeliverBufferedKeeps<V>(b: Box<V>, key: string)
    requires BoxInv(b) && Buf(b, key) != []
    ensures BoxInv(b.(buffered := b.buffered[key := Buf(b, key)[1..]],
                      delivered := b.delivered + [SendMsg(key, Buf(b, key)[0])]))
  {
    var m := SendMsg(key, Buf(b, key)[0]);
    var b' := b.(buffered := b.buffered[key := Buf(b, key)[1..]], delivered := b.delivered + [m]);
    forall k ensures Msgs(b'.sent, k) == Msgs(b'.delivered, k) + Buf(b', k) + Msgs(b'.sendCh, k) {
      assert Msgs(b.sent, k) == Msgs(b.delivered, k) + Buf(b, k) + Msgs(b.sendCh, k);
      MsgsSnoc(b.delivered, m, k);
      if k == key {
        assert Buf(b, key) == [m.msg] + Buf(b', key);
        Associate(Msgs(b.delivered, k), [m.msg], Buf(b', k));
      }
    }
    forall keys: set<string> | keys !! b'.strays
      ensures Only(b'.sent, keys) == Only(b'.delivered, keys) + Only(b'.sendCh, keys)
    {
      assert Only(b.sent, keys) == Only(b.delivered, keys) + Only(b.sendCh, keys);
      OnlySnoc(b.delivered, m, keys);
    }
    forall k | Buf(b', k) != [] ensures k in b'.strays {
      assert Buf(b, k) != [];
    }
  }

  /** Every deterministic step of the wait loop keeps the mailbox invariants, and a firing is justified. */
  lemma WaitStepKeeps<V>(b: Box<V>, w: Wait<V>, now: int)
    requires BoxInv(b) && WaitInv(b, w) && w.pc != Block
    ensures GoodStep(b, w, now, WaitStep(b, w, now).0, WaitStep(b, w, now).1)
  {
    var (b', p) := WaitStep(b, w, now);
    match w.pc {
      case Scan => ScanKeeps(b, w, now);
      case TryCall =>
        if HasCall(w.cases) && b.callers != [] {
          TakeCallKeeps(b, w, now, TrySend);
        } else {
          QuietStepKeeps(b, w, now, p);
        }
      case TrySend =>
        if b.sendCh != [] {
          TakeSendKeeps(b, w, now, Fallback);
        } else {
          QuietStepKeeps(b, w, now, p);
        }
      case CheckTimers => QuietStepKeeps(b, w, now, p);
      case Fallback => QuietStepKeeps(b, w, now, p);
    }
  }

  /** Steps that leave the mailbox alone. */
  lemma QuietStepKeeps<V>(b: Box<V>, w: Wait<V>, now: int, p: Progress<V>)
    requires BoxInv(b) && WaitInv(b, w)
    requires Accepted(p) == [] && Delivery(w.cases, p) == []
    requires p.Pass? ==> w.pc != Scan
    requires p.Fire? ==> Justified(w.cases, p.firing, p.msg)
    requires p.Fire? && p.firing.ByTimer? ==> p.firing.entered == w.entered && p.firing.at == now
    ensures GoodStep(b, w, now, b, p)
  {}

  lemma ScanKeeps<V>(b: Box<V>, w: Wait<V>, now: int)
    requires BoxInv(b) && WaitInv(b, w) && w.pc == Scan
    ensures GoodStep(b, w, now, WaitStep(b, w, now).0, WaitStep(b, w, now).1)
  {
    if BufferedCase(b, w.cases).Some? {
      DeliverBufferedKeeps(b, w.cases[BufferedCase(b, w.cases).value].handlerKey);
    }
  }

  /** So does every alternative of the blocking select. */
  lemma BlockStepKeeps<V>(b: Box<V>, w: Wait<V>, now: int, choice: Choice)
    requires BoxInv(b) && WaitInv(b, w) && w.pc == Block && Ready(b, w, now, choice)
    ensures GoodStep(b, w, now, BlockStep(b, w, now, choice).0, BlockStep(b, w, now, choice).1)
  {
    var (b', p) := BlockStep(b, w, now, choice);
    match choice
    case ChooseSend => TakeSendKeeps(b, w, now, Scan);
    case ChooseCall => TakeCallKeeps(b, w, now, Scan);
    case ChooseTimer =>
    }
}
