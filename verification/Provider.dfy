/** The provider routine (docs/howto/provider/provider.go): one long-lived instance that takes reservations of
    slots, bookings and expiries one at a time, and the timer routines it starts. The theorems are about every
    reachable state of the in-memory runtime in which an instance runs these handlers. */
module Provider {
  import opened Counting
  import opened Keys
  import opened Wrappers
  import opened Durable
  import opened Mailbox
  import opened InMemory
  import opened History
  import opened Routing
  import opened Reachable

  datatype Reservation = Reservation(userID: string, slotID: string)
  datatype Booking = Booking(userID: string, slotID: string, paymentID: string)
  datatype ProviderState = ProviderState(providerID: string, slots: seq<string>,
                                         reservations: map<string, Reservation>, booked: map<string, Booking>)

  /** The payloads. Foreign stands for those of other routines. */
  datatype Payload =
    | ProviderInput(providerID: string, slots: seq<string>)
    | State(state: ProviderState)
    | ReserveSlot(userID: string, slotID: string)
    | ReserveResp(status: string)
    | ConfirmAndPay(userID: string, slotID: string, paymentID: string)
    | ConfirmResp(status: string)
    | GoOffline
    | GoOfflineResp(booked: nat)
    | ExpireReservation(userID: string, slotID: string)
    | ProviderResult(status: string)
    | TimerInput(providerRoutineID: string, userID: string, slotID: string, timeout: int)
    | SendExpireInput(providerRoutineID: string, userID: string, slotID: string)
    | TimerResult
    | Foreign(data: string)

  // ----- Keys -----

  function InitKey(): string { HandlerKey("provider", "provider-result") }
  function ReserveKey(): string { CallKey("provider.state", "reserve-slot", "reserve-slot-resp", "provider-result") }
  function ConfirmKey(): string {
    CallKey("provider.state", "confirm-and-pay", "confirm-and-pay-resp", "provider-result")
  }
  function OfflineKey(): string { CallKey("provider.state", "go-offline", "go-offline-resp", "provider-result") }
  function ExpireKey(): string { SendKey("provider.state", "expire-reservation", "provider-result") }
  function TimerKey(): string { HandlerKey("reservation-timer", "reservation-timer-result") }
  function SendExpireKey(): string { HandlerKey("send-expire", "reservation-timer-result") }

  /** What RegisterHandlers puts in the worker: no handler has a recovery handler. */
  function Registered(): Recovery {
    map[InitKey() := "", ReserveKey() := "", ConfirmKey() := "", OfflineKey() := "", ExpireKey() := "",
        TimerKey() := "", SendExpireKey() := ""]
  }

  lemma KeysDiffer()
    ensures InitKey() != ReserveKey() && InitKey() != ConfirmKey() && InitKey() != OfflineKey()
    ensures InitKey() != ExpireKey()
    ensures ReserveKey() != ConfirmKey() && ReserveKey() != OfflineKey() && ConfirmKey() != OfflineKey()
    ensures ExpireKey() != ReserveKey() && ExpireKey() != ConfirmKey() && ExpireKey() != OfflineKey()
    ensures TimerKey() != SendExpireKey()
  {
    assert InitKey()[0] == 'h' && ExpireKey()[0] == 's' && ReserveKey()[0] == 'c' && ConfirmKey()[0] == 'c'
      && OfflineKey()[0] == 'c';
    assert ReserveKey()[20] == 'r' && ConfirmKey()[20] == 'c' && OfflineKey()[20] == 'g';
    assert TimerKey()[8] == 'r' && SendExpireKey()[8] == 's';
  }

  // ----- Handlers -----

  function SteadyState(st: ProviderState): RunOutput<Payload> {
    Select([ReceiveCall("provider.state", "reserve-slot", "reserve-slot-resp", "provider-result", State(st)),
            ReceiveCall("provider.state", "confirm-and-pay", "confirm-and-pay-resp", "provider-result", State(st)),
            ReceiveCall("provider.state", "go-offline", "go-offline-resp", "provider-result", State(st)),
            ReceiveSend("provider.state", "expire-reservation", "provider-result", State(st))])
  }

  function Answer(resp: Payload, out: RunOutput<Payload>): Outcome<Payload> {
    Returned(out.(callResponse := Some(resp)), NoEffects())
  }

  /** In nanoseconds. */
  const FIFTEEN_MINUTES := 900_000_000_000

  function Timeout(configured: int): int {
    if configured > 0 then configured else FIFTEEN_MINUTES
  }

  function TimerID(providerID: string, slotID: string): string {
    "reservation-" + providerID + "-" + slotID
  }

  function TimerEntry(configured: int, id: string, providerID: string, user: string, slot: string)
    : StartEntry<Payload>
  {
    StartEntry(TimerID(providerID, slot), "reservation-timer", "reservation-timer-result",
               TimerInput(id, user, slot, Timeout(configured)))
  }

  function Reserve(configured: int, id: string, st: ProviderState, user: string, slot: string): Outcome<Payload> {
    if slot in st.reservations then Answer(ReserveResp("rejected: already reserved"), SteadyState(st))
    else if slot in st.booked then Answer(ReserveResp("rejected: already booked"), SteadyState(st))
    else
      var timer := TimerEntry(configured, id, st.providerID, user, slot);
      var reserved := st.(reservations := st.reservations[slot := Reservation(user, slot)]);
      Answer(ReserveResp("reserved"), SteadyState(reserved))
        .(effects := Effects([], [timer], []))
  }

  function Confirm(st: ProviderState, user: string, slot: string, payment: string): Outcome<Payload> {
    if slot !in st.reservations || st.reservations[slot].userID != user then
      Answer(ConfirmResp("rejected: no matching reservation"), SteadyState(st))
    else
      Answer(ConfirmResp("confirmed"), SteadyState(st.(reservations := st.reservations - {slot},
                                                        booked := st.booked[slot := Booking(user, slot, payment)])))
  }

  function Expire(st: ProviderState, user: string, slot: string): Outcome<Payload> {
    if slot !in st.reservations || st.reservations[slot].userID != user then Returned(SteadyState(st), NoEffects())
    else Returned(SteadyState(st.(reservations := st.reservations - {slot})), NoEffects())
  }

  function TakeOffline(st: ProviderState): Outcome<Payload> {
    Answer(GoOfflineResp(|st.booked|), Done(ProviderResult("offline")))
  }

  function AwaitTimeout(provider: string, user: string, slot: string, timeout: int): Outcome<Payload> {
    Returned(Select([After(timeout, "send-expire", "reservation-timer-result", SendExpireInput(provider, user, slot))]),
             NoEffects())
  }

  function SendExpire(provider: string, user: string, slot: string): Outcome<Payload> {
    Returned(Done(TimerResult),
             Effects([], [], [SendEntry(provider, "provider.state", "expire-reservation", "provider-result",
                                        ExpireReservation(user, slot))]))
  }

  function Start(providerID: string, slots: seq<string>): Outcome<Payload> {
    Returned(SteadyState(ProviderState(providerID, slots, map[], map[])), NoEffects())
  }

  /** What the registered runner of `key` returns; payloads of another kind are not decoded. */
  function Invoke(configured: int, id: string, key: string, input: Payload, msg: Option<Payload>): Outcome<Payload> {
    if key == InitKey() && input.ProviderInput? then Start(input.providerID, input.slots)
    else if key == ReserveKey() && input.State? && msg.Some? && msg.value.ReserveSlot? then
      Reserve(configured, id, input.state, msg.value.userID, msg.value.slotID)
    else if key == ConfirmKey() && input.State? && msg.Some? && msg.value.ConfirmAndPay? then
      Confirm(input.state, msg.value.userID, msg.value.slotID, msg.value.paymentID)
    else if key == OfflineKey() && input.State? && msg.Some? && msg.value.GoOffline? then TakeOffline(input.state)
    else if key == ExpireKey() && input.State? && msg.Some? && msg.value.ExpireReservation? then
      Expire(input.state, msg.value.userID, msg.value.slotID)
    else if key == TimerKey() && input.TimerInput? then
      AwaitTimeout(input.providerRoutineID, input.userID, input.slotID, input.timeout)
    else if key == SendExpireKey() && input.SendExpireInput? then
      SendExpire(input.providerRoutineID, input.userID, input.slotID)
    else Failed("deserialize", NoEffects())
  }

  // ----- The handlers that update the decoded state in place -----

  /** The state that a handler gets, decoded for it alone. */
  class LiveState {
    const providerID: string
    const slots: seq<string>
    var reservations: map<string, Reservation>
    var booked: map<string, Booking>

    constructor (st: ProviderState)
      ensures Value() == st
    {
      providerID, slots, reservations, booked := st.providerID, st.slots, st.reservations, st.booked;
    }

    function Value(): ProviderState
      reads this
    {
      ProviderState(providerID, slots, reservations, booked)
    }
  }

  class ProviderService {
    const reservationTimeout: int

    constructor (timeout: int)
      ensures reservationTimeout == timeout
    {
      reservationTimeout := timeout;
    }

    method HandleReserve(ctx: Context<Payload>, state: LiveState, user: string, slot: string)
      returns (resp: Payload, cont: RunOutput<Payload>)
      requires ctx.Collected() == NoEffects()
      modifies ctx, state
      ensures Returned(cont.(callResponse := Some(resp)), ctx.Collected())
           == Reserve(reservationTimeout, ctx.routineID, old(state.Value()), user, slot)
      ensures cont == SteadyState(state.Value())
      ensures slot !in old(state.reservations) && slot !in old(state.booked) ==>
        && resp == ReserveResp("reserved")
        && state.reservations == old(state.reservations)[slot := Reservation(user, slot)]
        && ctx.startRequests == [StartEntry("reservation-" + state.providerID + "-" + slot, "reservation-timer",
             "reservation-timer-result", TimerInput(ctx.routineID, user, slot,
               if reservationTimeout > 0 then reservationTimeout else 900_000_000_000))]
    {
      if slot in state.reservations {
        return ReserveResp("rejected: already reserved"), SteadyState(state.Value());
      }
      if slot in state.booked {
        return ReserveResp("rejected: already booked"), SteadyState(state.Value());
      }
      state.reservations := state.reservations[slot := Reservation(user, slot)];
      ctx.BufferStart(StartEntry(TimerID(state.providerID, slot), "reservation-timer", "reservation-timer-result",
                                 TimerInput(ctx.routineID, user, slot, Timeout(reservationTimeout))));
      return ReserveResp("reserved"), SteadyState(state.Value());
    }

    method HandleConfirmAndPay(state: LiveState, user: string, slot: string, payment: string)
      returns (resp: Payload, cont: RunOutput<Payload>)
      modifies state
      ensures Answer(resp, cont) == Confirm(old(state.Value()), user, slot, payment)
      ensures cont == SteadyState(state.Value())
    {
      if slot !in state.reservations || state.reservations[slot].userID != user {
        return ConfirmResp("rejected: no matching reservation"), SteadyState(state.Value());
      }
      state.reservations := state.reservations - {slot};
      state.booked := state.booked[slot := Booking(user, slot, payment)];
      return ConfirmResp("confirmed"), SteadyState(state.Value());
    }

    method HandleExpire(state: LiveState, user: string, slot: string) returns (cont: RunOutput<Payload>)
      modifies state
      ensures Returned(cont, NoEffects()) == Expire(old(state.Value()), user, slot)
      ensures cont == SteadyState(state.Value())
    {
      if slot !in state.reservations || state.reservations[slot].userID != user {
        return SteadyState(state.Value());
      }
      state.reservations := state.reservations - {slot};
      return SteadyState(state.Value());
    }
  }

  // ----- Histories of a provider -----

  ghost predicate Registers(reg: Recovery) {
    forall key :: key in Registered() ==> key in reg && reg[key] == ""
  }

  /** The runs of an instance started with Init, whose handlers are those above. */
  ghost predicate Serves(reg: Recovery, configured: int, id: string, i: Inst<Payload>) {
    && Registers(reg) && i.key == InitKey() && i.input.ProviderInput?
    && forall j {:trigger i.runs[j]} :: 0 <= j < |i.runs| ==>
         i.runs[j].primary == Invoke(configured, id, i.runs[j].key, i.runs[j].input, i.runs[j].msg)
  }

  /** The state that a run leaves: the one its continuation carries, or its own if it ends the routine. */
  function Held(r: Run<Payload>): ProviderState {
    if r.primary.Returned? && |r.primary.output.cases| == 4 && r.primary.output.cases[0].input.State? then
      r.primary.output.cases[0].input.state
    else if r.input.State? then r.input.state
    else ProviderState("", [], map[], map[])
  }

  ghost predicate Continues(r: Run<Payload>) {
    r.primary.Returned? && !r.primary.output.done && r.primary.output.cases == SteadyState(Held(r)).cases
  }

  function EventKeys(): set<string> {
    {ReserveKey(), ConfirmKey(), OfflineKey(), ExpireKey()}
  }

  lemma PrimaryIsUsed(reg: Recovery, r: Run<Payload>)
    requires Registers(reg) && r.key in Registered()
    ensures UsedIn(reg, r) == r.primary
  {}

  /** An event handler that returns and does not end the routine returns the steady state. */
  lemma EventContinues(configured: int, id: string, r: Run<Payload>)
    requires r.primary == Invoke(configured, id, r.key, r.input, r.msg) && r.input.State?
    requires r.primary.Returned? && !r.primary.output.done
    ensures Continues(r)
  {}

  lemma InitContinues(configured: int, id: string, r: Run<Payload>)
    requires r.primary == Invoke(configured, id, r.key, r.input, r.msg) && r.key == InitKey() && r.input.ProviderInput?
    ensures Continues(r) && Held(r) == ProviderState(r.input.providerID, r.input.slots, map[], map[])
  {}

  lemma NextEvent(reg: Recovery, prev: Run<Payload>, r: Run<Payload>)
    requires UsedIn(reg, prev) == prev.primary && Continues(prev)
    requires Follows(reg, prev, r.firing, r.key, r.input, r.msg)
    ensures r.input == State(Held(prev)) && r.key in EventKeys()
  {}

  /** The first run sets up the empty state; every other one handles a message on the state that the run
      before it left. */
  lemma {:induction false} RunsChain(reg: Recovery, configured: int, id: string, i: Inst<Payload>, j: nat)
    requires Serves(reg, configured, id, i) && Legal(reg, i.key, i.input, i.runs) && j < |i.runs|
    ensures UsedIn(reg, i.runs[j]) == i.runs[j].primary
    ensures j == 0 ==>
      Continues(i.runs[0]) && Held(i.runs[0]) == ProviderState(i.input.providerID, i.input.slots, map[], map[])
    ensures j == 0 ==> i.runs[0].msg == None
    ensures j > 0 ==>
      Continues(i.runs[j - 1]) && i.runs[j].input == State(Held(i.runs[j - 1])) && i.runs[j].key in EventKeys()
  {
    var r := i.runs[j];
    LegalAt(reg, i.key, i.input, i.runs, j);
    if j > 0 {
      RunsChain(reg, configured, id, i, j - 1);
      if j > 1 {
        EventContinues(configured, id, i.runs[j - 1]);
      }
      NextEvent(reg, i.runs[j - 1], r);
    } else {
      InitContinues(configured, id, r);
    }
    PrimaryIsUsed(reg, r);
  }

  // ----- What the runs change -----

  datatype Change =
    | Accepted(userID: string, slotID: string)
    | Confirmed(userID: string, slotID: string, paymentID: string)
    | Expired(userID: string, slotID: string)
    | Nothing

  /** What a run did, as its caller sees it: reserved or confirmed according to the response. An expiry is
      effective if the user it names holds the reservation. */
  function ChangeOf(r: Run<Payload>): Change {
    if r.msg.None? || r.primary.Failed? then Nothing
    else
      match r.msg.value
      case ReserveSlot(user, slot) =>
        if r.primary.output.callResponse == Some(ReserveResp("reserved")) then Accepted(user, slot) else Nothing
      case ConfirmAndPay(user, slot, payment) =>
        if r.primary.output.callResponse == Some(ConfirmResp("confirmed")) then Confirmed(user, slot, payment)
        else Nothing
      case ExpireReservation(user, slot) =>
        if r.input.State? && slot in r.input.state.reservations && r.input.state.reservations[slot].userID == user then
          Expired(user, slot)
        else Nothing
      case _ => Nothing
  }

  function Applied(st: ProviderState, c: Change): ProviderState {
    match c
    case Accepted(user, slot) => st.(reservations := st.reservations[slot := Reservation(user, slot)])
    case Confirmed(user, slot, payment) =>
      st.(reservations := st.reservations - {slot}, booked := st.booked[slot := Booking(user, slot, payment)])
    case Expired(user, slot) => st.(reservations := st.reservations - {slot})
    case Nothing => st
  }

  ghost predicate Possible(st: ProviderState, c: Change) {
    match c
    case Accepted(user, slot) => slot !in st.reservations && slot !in st.booked
    case Confirmed(user, slot, payment) => slot in st.reservations && st.reservations[slot].userID == user
    case Expired(user, slot) => slot in st.reservations && st.reservations[slot].userID == user
    case Nothing => true
  }

  /** A run's effect on the state is what its caller sees, and it is possible in the state before. */
  lemma RunChanges(configured: int, id: string, r: Run<Payload>)
    requires r.primary == Invoke(configured, id, r.key, r.input, r.msg) && r.input.State? && r.key in EventKeys()
    ensures Held(r) == Applied(r.input.state, ChangeOf(r)) && Possible(r.input.state, ChangeOf(r))
  {
    KeysDiffer();
    assert "reserved" != "rejected: already reserved" && "reserved" != "rejected: already booked";
    assert "confirmed" != "rejected: no matching reservation";
  }

  // ----- The state is what the changes say -----

  predicate EndsReservation(c: Change, slot: string) {
    (c.Confirmed? || c.Expired?) && c.slotID == slot
  }

  /** Run `a` accepted a reservation that no run since, before the nth, has confirmed or let expire. */
  ghost predicate HeldSince(runs: seq<Run<Payload>>, n: nat, a: int, slot: string, user: string)
    requires n <= |runs|
  {
    && 0 <= a < n && ChangeOf(runs[a]) == Accepted(user, slot)
    && forall e :: a < e < n ==> !EndsReservation(ChangeOf(runs[e]), slot)
  }

  ghost predicate IsHeld(runs: seq<Run<Payload>>, n: nat, slot: string, user: string)
    requires n <= |runs|
  {
    exists a :: HeldSince(runs, n, a, slot, user)
  }

  ghost predicate IsBooked(runs: seq<Run<Payload>>, n: nat, slot: string, user: string, payment: string)
    requires n <= |runs|
  {
    exists c :: 0 <= c < n && ChangeOf(runs[c]) == Confirmed(user, slot, payment)
  }

  ghost predicate Tidy(st: ProviderState) {
    && st.reservations.Keys !! st.booked.Keys
    && (forall slot :: slot in st.reservations ==> st.reservations[slot].slotID == slot)
    && (forall slot :: slot in st.booked ==> st.booked[slot].slotID == slot)
  }

  ghost predicate Reserves(st: ProviderState, slot: string, user: string) {
    slot in st.reservations && st.reservations[slot].userID == user
  }

  ghost predicate Books(st: ProviderState, slot: string, user: string, payment: string) {
    slot in st.booked && st.booked[slot] == Booking(user, slot, payment)
  }

  lemma HeldNext(runs: seq<Run<Payload>>, n: nat, slot: string, user: string)
    requires n < |runs|
    ensures IsHeld(runs, n + 1, slot, user)
      <==> (ChangeOf(runs[n]) == Accepted(user, slot)
            || (IsHeld(runs, n, slot, user) && !EndsReservation(ChangeOf(runs[n]), slot)))
  {
    if ChangeOf(runs[n]) == Accepted(user, slot) {
      assert HeldSince(runs, n + 1, n, slot, user);
    }
    if IsHeld(runs, n, slot, user) && !EndsReservation(ChangeOf(runs[n]), slot) {
      var a :| HeldSince(runs, n, a, slot, user);
      assert HeldSince(runs, n + 1, a, slot, user);
    }
    if IsHeld(runs, n + 1, slot, user) {
      var a :| HeldSince(runs, n + 1, a, slot, user);
      assert a == n || HeldSince(runs, n, a, slot, user);
    }
  }

  lemma BookedNext(runs: seq<Run<Payload>>, n: nat, slot: string, user: string, payment: string)
    requires n < |runs|
    ensures IsBooked(runs, n + 1, slot, user, payment)
      <==> ChangeOf(runs[n]) == Confirmed(user, slot, payment) || IsBooked(runs, n, slot, user, payment)
  {
    if IsBooked(runs, n, slot, user, payment) {
      var c :| 0 <= c < n && ChangeOf(runs[c]) == Confirmed(user, slot, payment);
      assert 0 <= c < n + 1;
    }
    if ChangeOf(runs[n]) == Confirmed(user, slot, payment) {
      assert 0 <= n < n + 1;
    }
  }

  lemma AppliedReserves(st: ProviderState, c: Change, slot: string, user: string)
    requires Tidy(st) && Possible(st, c)
    ensures Tidy(Applied(st, c))
    ensures Reserves(Applied(st, c), slot, user)
      <==> c == Accepted(user, slot) || (Reserves(st, slot, user) && !EndsReservation(c, slot))
  {}

  lemma AppliedBooks(st: ProviderState, c: Change, slot: string, user: string, payment: string)
    requires Tidy(st) && Possible(st, c)
    ensures Books(Applied(st, c), slot, user, payment)
      <==> c == Confirmed(user, slot, payment) || Books(st, slot, user, payment)
  {}

  /** After any number of runs, a slot is reserved for a user exactly if a reservation was accepted for them
      and has been neither confirmed nor expired since, and booked exactly if a run confirmed it. */
  lemma {:induction false} StateIsHistory(reg: Recovery, configured: int, id: string, i: Inst<Payload>, n: nat)
    requires Serves(reg, configured, id, i) && Legal(reg, i.key, i.input, i.runs) && 0 < n <= |i.runs|
    ensures Tidy(Held(i.runs[n - 1]))
    ensures forall slot, user :: Reserves(Held(i.runs[n - 1]), slot, user) <==> IsHeld(i.runs, n, slot, user)
    ensures forall slot, user, payment ::
      Books(Held(i.runs[n - 1]), slot, user, payment) <==> IsBooked(i.runs, n, slot, user, payment)
  {
    RunsChain(reg, configured, id, i, n - 1);
    if n > 1 {
      StateIsHistory(reg, configured, id, i, n - 1);
      RunChanges(configured, id, i.runs[n - 1]);
      var st, c := Held(i.runs[n - 2]), ChangeOf(i.runs[n - 1]);
      AppliedReserves(st, c, "", "");
      forall slot, user ensures Reserves(Applied(st, c), slot, user) <==> IsHeld(i.runs, n, slot, user) {
        AppliedReserves(st, c, slot, user);
        HeldNext(i.runs, n - 1, slot, user);
      }
      forall slot, user, payment
        ensures Books(Applied(st, c), slot, user, payment) <==> IsBooked(i.runs, n, slot, user, payment)
      {
        AppliedBooks(st, c, slot, user, payment);
        BookedNext(i.runs, n - 1, slot, user, payment);
      }
    } else {
      assert ChangeOf(i.runs[0]) == Nothing;
    }
  }

  // ----- The theorems -----

  /** An instance of a reachable state that runs the provider's handlers. */
  ghost predicate Provides(reg: Recovery, now: int, labels: seq<Label<Payload>>, s: System<Payload>, id: string,
                           configured: int) {
    Reached(reg, now, labels, s) && id in s.insts && Serves(reg, configured, id, s.insts[id])
  }

  /** Exclusivity, after any number of runs of any run of the system: reserved and booked slots are disjoint
      and filed under their own names, and both are exactly what the accepted, confirmed and expired requests
      so far amount to. */
  lemma SlotsExclusive(reg: Recovery, now: int, labels: seq<Label<Payload>>, s: System<Payload>, id: string,
                       configured: int, n: nat)
    requires Provides(reg, now, labels, s, id, configured) && 0 < n <= |s.insts[id].runs|
    ensures var st := Held(s.insts[id].runs[n - 1]);
      && Tidy(st)
      && (forall slot, user :: Reserves(st, slot, user) <==> IsHeld(s.insts[id].runs, n, slot, user))
      && (forall slot, user, payment :: Books(st, slot, user, payment) <==>
           IsBooked(s.insts[id].runs, n, slot, user, payment))
    ensures n == |s.insts[id].runs| && s.insts[id].phase.Waiting? ==>
      s.insts[id].phase.wait.cases == SteadyState(Held(s.insts[id].runs[n - 1])).cases
  {
    RunsLegal(reg, now, labels, s, id);
    StateIsHistory(reg, configured, id, s.insts[id], n);
    RunsChain(reg, configured, id, s.insts[id], n - 1);
    if n > 1 && s.insts[id].phase.Waiting? && n == |s.insts[id].runs| {
      EventContinues(configured, id, s.insts[id].runs[n - 1]);
    }
  }

  ghost predicate TakesCall(cases: seq<Case<Payload>>, name: string, key: string, input: Payload) {
    && CallCase(cases, name).Some?
    && cases[CallCase(cases, name).value].handlerKey == key && cases[CallCase(cases, name).value].input == input
  }

  /** Cases that take every kind of request on this state. */
  ghost predicate TakesRequests(cases: seq<Case<Payload>>, st: ProviderState) {
    && TakesCall(cases, "reserve-slot", ReserveKey(), State(st))
    && TakesCall(cases, "confirm-and-pay", ConfirmKey(), State(st))
    && TakesCall(cases, "go-offline", OfflineKey(), State(st))
    && SendCase(cases, ExpireKey()).Some? && cases[SendCase(cases, ExpireKey()).value].input == State(st)
  }

  /** A provider that waits takes every kind of request, each on the state that its runs left. */
  lemma AwaitsRequests(reg: Recovery, now: int, labels: seq<Label<Payload>>, s: System<Payload>, id: string,
                       configured: int)
    requires Provides(reg, now, labels, s, id, configured) && s.insts[id].phase.Waiting?
    ensures var i := s.insts[id];
      i.runs != [] && TakesRequests(i.phase.wait.cases, Held(i.runs[|i.runs| - 1]))
  {
    RunsLegal(reg, now, labels, s, id);
    SteadyWait(reg, configured, id, s.insts[id]);
  }

  lemma SteadyWait(reg: Recovery, configured: int, id: string, i: Inst<Payload>)
    requires Serves(reg, configured, id, i) && Legal(reg, i.key, i.input, i.runs) && PhaseFits(reg, i)
    requires i.phase.Waiting?
    ensures i.runs != [] && TakesRequests(i.phase.wait.cases, Held(i.runs[|i.runs| - 1]))
  {
    RunsChain(reg, configured, id, i, |i.runs| - 1);
    if |i.runs| > 1 {
      EventContinues(configured, id, i.runs[|i.runs| - 1]);
    }
    SteadyTakes(Held(i.runs[|i.runs| - 1]));
  }

  lemma SteadyTakes(st: ProviderState)
    ensures TakesRequests(SteadyState(st).cases, st)
  {
    var cases := SteadyState(st).cases;
    KeysDiffer();
    assert "reserve-slot"[0] == 'r' && "confirm-and-pay"[0] == 'c' && "go-offline"[0] == 'g';
    assert cases[0].callName == "reserve-slot" && cases[1].callName == "confirm-and-pay";
    assert cases[2].callName == "go-offline" && cases[3].callName == "" && Awaits(cases[3], ExpireKey());
  }

  /** A request to reserve is answered by what the requests before it amount to: it is accepted exactly if the slot is
      neither held nor booked, and otherwise the answer says which. */
  lemma ReserveIsAnswered(reg: Recovery, now: int, labels: seq<Label<Payload>>, s: System<Payload>, id: string,
                          configured: int, n: nat, user: string, slot: string)
    requires Provides(reg, now, labels, s, id, configured) && n < |s.insts[id].runs|
    requires s.insts[id].runs[n].key == ReserveKey() && s.insts[id].runs[n].msg == Some(ReserveSlot(user, slot))
    ensures var runs := s.insts[id].runs;
      var status := if exists u :: IsHeld(runs, n, slot, u) then "rejected: already reserved"
                    else if exists u, p :: IsBooked(runs, n, slot, u, p) then "rejected: already booked"
                    else "reserved";
      && UsedIn(reg, runs[n]).Returned? && !UsedIn(reg, runs[n]).output.done
      && UsedIn(reg, runs[n]).output.callResponse == Some(ReserveResp(status))
  {
    RunsLegal(reg, now, labels, s, id);
    ReserveAnswer(reg, configured, id, s.insts[id], n, user, slot);
  }

  lemma ReserveAnswer(reg: Recovery, configured: int, id: string, i: Inst<Payload>, n: nat, user: string, slot: string)
    requires Serves(reg, configured, id, i) && Legal(reg, i.key, i.input, i.runs) && n < |i.runs|
    requires i.runs[n].key == ReserveKey() && i.runs[n].msg == Some(ReserveSlot(user, slot))
    ensures var runs := i.runs;
      var status := if exists u :: IsHeld(runs, n, slot, u) then "rejected: already reserved"
                    else if exists u, p :: IsBooked(runs, n, slot, u, p) then "rejected: already booked"
                    else "reserved";
      && UsedIn(reg, runs[n]).Returned? && !UsedIn(reg, runs[n]).output.done
      && UsedIn(reg, runs[n]).output.callResponse == Some(ReserveResp(status))
  {
    KeysDiffer();
    LegalAt(reg, i.key, i.input, i.runs, n);
    RunsChain(reg, configured, id, i, n);
    StateIsHistory(reg, configured, id, i, n);
    SlotIs(i.runs, Held(i.runs[n - 1]), n, slot);
  }

  /** A slot is in the state exactly if the history says so. */
  lemma SlotIs(runs: seq<Run<Payload>>, st: ProviderState, n: nat, slot: string)
    requires n <= |runs| && Tidy(st)
    requires forall slot, user :: Reserves(st, slot, user) <==> IsHeld(runs, n, slot, user)
    requires forall slot, user, payment :: Books(st, slot, user, payment) <==> IsBooked(runs, n, slot, user, payment)
    ensures slot in st.reservations <==> exists u :: IsHeld(runs, n, slot, u)
    ensures slot in st.booked <==> exists u, p :: IsBooked(runs, n, slot, u, p)
  {
    if slot in st.reservations {
      assert Reserves(st, slot, st.reservations[slot].userID);
    }
    if slot in st.booked {
      assert Books(st, slot, st.booked[slot].userID, st.booked[slot].paymentID);
    }
    if u :| IsHeld(runs, n, slot, u) {
      assert Reserves(st, slot, u);
    }
    if u, p :| IsBooked(runs, n, slot, u, p) {
      assert Books(st, slot, u, p);
    }
  }

  /** A request to confirm succeeds exactly if its user holds the slot. */
  lemma ConfirmIsAnswered(reg: Recovery, now: int, labels: seq<Label<Payload>>, s: System<Payload>, id: string,
                          configured: int, n: nat, user: string, slot: string, payment: string)
    requires Provides(reg, now, labels, s, id, configured) && n < |s.insts[id].runs|
    requires s.insts[id].runs[n].key == ConfirmKey()
    requires s.insts[id].runs[n].msg == Some(ConfirmAndPay(user, slot, payment))
    ensures var runs := s.insts[id].runs;
      var status := if IsHeld(runs, n, slot, user) then "confirmed" else "rejected: no matching reservation";
      && UsedIn(reg, runs[n]).Returned? && !UsedIn(reg, runs[n]).output.done
      && UsedIn(reg, runs[n]).output.callResponse == Some(ConfirmResp(status))
  {
    RunsLegal(reg, now, labels, s, id);
    ConfirmAnswer(reg, configured, id, s.insts[id], n, user, slot, payment);
  }

  lemma ConfirmAnswer(reg: Recovery, configured: int, id: string, i: Inst<Payload>, n: nat, user: string, slot: string,
                      payment: string)
    requires Serves(reg, configured, id, i) && Legal(reg, i.key, i.input, i.runs) && n < |i.runs|
    requires i.runs[n].key == ConfirmKey()
    requires i.runs[n].msg == Some(ConfirmAndPay(user, slot, payment))
    ensures var runs := i.runs;
      var status := if IsHeld(runs, n, slot, user) then "confirmed" else "rejected: no matching reservation";
      && UsedIn(reg, runs[n]).Returned? && !UsedIn(reg, runs[n]).output.done
      && UsedIn(reg, runs[n]).output.callResponse == Some(ConfirmResp(status))
  {
    KeysDiffer();
    LegalAt(reg, i.key, i.input, i.runs, n);
    RunsChain(reg, configured, id, i, n);
    StateIsHistory(reg, configured, id, i, n);
    assert Reserves(Held(i.runs[n - 1]), slot, user) <==> IsHeld(i.runs, n, slot, user);
  }

  /** A request to go offline ends the routine, with the number of confirmed requests as the answer. */
  lemma OfflineIsAnswered(reg: Recovery, now: int, labels: seq<Label<Payload>>, s: System<Payload>, id: string,
                          configured: int, n: nat)
    requires Provides(reg, now, labels, s, id, configured) && n < |s.insts[id].runs|
    requires s.insts[id].runs[n].key == OfflineKey() && s.insts[id].runs[n].msg == Some(GoOffline)
    ensures var runs := s.insts[id].runs;
      && n == |runs| - 1 && UsedIn(reg, runs[n]).Returned? && UsedIn(reg, runs[n]).output.done
      && UsedIn(reg, runs[n]).output.result == Some(ProviderResult("offline"))
      && UsedIn(reg, runs[n]).output.callResponse == Some(GoOfflineResp(Count(runs[..n], WasConfirmed)))
  {
    RunsLegal(reg, now, labels, s, id);
    OfflineAnswer(reg, configured, id, s.insts[id], n);
  }

  lemma OfflineAnswer(reg: Recovery, configured: int, id: string, i: Inst<Payload>, n: nat)
    requires Serves(reg, configured, id, i) && Legal(reg, i.key, i.input, i.runs) && n < |i.runs|
    requires i.runs[n].key == OfflineKey() && i.runs[n].msg == Some(GoOffline)
    ensures var runs := i.runs;
      && n == |runs| - 1 && UsedIn(reg, runs[n]).Returned? && UsedIn(reg, runs[n]).output.done
      && UsedIn(reg, runs[n]).output.result == Some(ProviderResult("offline"))
      && UsedIn(reg, runs[n]).output.callResponse == Some(GoOfflineResp(Count(runs[..n], WasConfirmed)))
  {
    KeysDiffer();
    LegalAt(reg, i.key, i.input, i.runs, n);
    RunsChain(reg, configured, id, i, n);
    ChangesConserve(reg, configured, id, i, n);
    if n < |i.runs| - 1 {
      LegalAt(reg, i.key, i.input, i.runs, n + 1);
    }
  }

  /** Every booking was reserved: a confirmed run follows an accepted reservation of the slot by the same user,
      with no effective expiry and no other confirmation of the slot in between; and no slot is confirmed twice. */
  lemma BookingsWereReserved(reg: Recovery, now: int, labels: seq<Label<Payload>>, s: System<Payload>, id: string,
                             configured: int, c: nat, user: string, slot: string, payment: string)
    requires Provides(reg, now, labels, s, id, configured) && c < |s.insts[id].runs|
    requires ChangeOf(s.insts[id].runs[c]) == Confirmed(user, slot, payment)
    ensures IsHeld(s.insts[id].runs, c, slot, user)
    ensures forall d :: 0 <= d < |s.insts[id].runs| && d != c ==>
      !(ChangeOf(s.insts[id].runs[d]).Confirmed? && ChangeOf(s.insts[id].runs[d]).slotID == slot)
  {
    RunsLegal(reg, now, labels, s, id);
    var i := s.insts[id];
    ConfirmsHeld(reg, configured, id, i, c);
    forall d | 0 <= d < |i.runs| && d != c
      ensures !(ChangeOf(i.runs[d]).Confirmed? && ChangeOf(i.runs[d]).slotID == slot)
    {
      if ChangeOf(i.runs[d]).Confirmed? && ChangeOf(i.runs[d]).slotID == slot {
        ConfirmedOnce(reg, configured, id, i, if c < d then c else d, if c < d then d else c, slot);
      }
    }
  }

  lemma ConfirmsHeld(reg: Recovery, configured: int, id: string, i: Inst<Payload>, c: nat)
    requires Serves(reg, configured, id, i) && Legal(reg, i.key, i.input, i.runs)
    requires c < |i.runs| && ChangeOf(i.runs[c]).Confirmed?
    ensures c > 0
    ensures var ch := ChangeOf(i.runs[c]);
      Reserves(Held(i.runs[c - 1]), ch.slotID, ch.userID) && IsHeld(i.runs, c, ch.slotID, ch.userID)
  {
    RunsChain(reg, configured, id, i, c);
    RunChanges(configured, id, i.runs[c]);
    StateIsHistory(reg, configured, id, i, c);
  }

  lemma ConfirmedOnce(reg: Recovery, configured: int, id: string, i: Inst<Payload>, c: nat, d: nat, slot: string)
    requires Serves(reg, configured, id, i) && Legal(reg, i.key, i.input, i.runs)
    requires c <= d < |i.runs| && ChangeOf(i.runs[c]).Confirmed? && ChangeOf(i.runs[c]).slotID == slot
    requires ChangeOf(i.runs[d]).Confirmed? && ChangeOf(i.runs[d]).slotID == slot
    ensures c == d
  {
    ConfirmsHeld(reg, configured, id, i, d);
    StateIsHistory(reg, configured, id, i, d);
    if c < d {
      var ch := ChangeOf(i.runs[c]);
      NotYetBooked(i.runs, Held(i.runs[d - 1]), d, c, slot, ch.userID, ch.paymentID);
    }
  }

  lemma NotYetBooked(runs: seq<Run<Payload>>, st: ProviderState, n: nat, c: nat, slot: string, user: string,
                     payment: string)
    requires n <= |runs| && Tidy(st) && slot in st.reservations
    requires Books(st, slot, user, payment) <==> IsBooked(runs, n, slot, user, payment)
    requires c < |runs| && ChangeOf(runs[c]) == Confirmed(user, slot, payment)
    ensures n <= c
  {}

  /** A booked slot keeps its owner and payment in every later state. */
  lemma BookingsStay(reg: Recovery, now: int, labels: seq<Label<Payload>>, s: System<Payload>, id: string,
                     configured: int, m: nat, n: nat, slot: string)
    requires Provides(reg, now, labels, s, id, configured) && 0 < m <= n <= |s.insts[id].runs|
    requires slot in Held(s.insts[id].runs[m - 1]).booked
    ensures slot in Held(s.insts[id].runs[n - 1]).booked
    ensures Held(s.insts[id].runs[n - 1]).booked[slot] == Held(s.insts[id].runs[m - 1]).booked[slot]
  {
    RunsLegal(reg, now, labels, s, id);
    BookedStays(reg, configured, id, s.insts[id], m, n, slot);
  }

  lemma BookedStays(reg: Recovery, configured: int, id: string, i: Inst<Payload>, m: nat, n: nat, slot: string)
    requires Serves(reg, configured, id, i) && Legal(reg, i.key, i.input, i.runs) && 0 < m <= n <= |i.runs|
    requires slot in Held(i.runs[m - 1]).booked
    ensures slot in Held(i.runs[n - 1]).booked && Held(i.runs[n - 1]).booked[slot] == Held(i.runs[m - 1]).booked[slot]
  {
    var b := Held(i.runs[m - 1]).booked[slot];
    assert IsBooked(i.runs, m, slot, b.userID, b.paymentID) by {
      StateIsHistory(reg, configured, id, i, m);
      assert Books(Held(i.runs[m - 1]), slot, b.userID, b.paymentID);
    }
    assert b.slotID == slot by {
      StateIsHistory(reg, configured, id, i, m);
    }
    assert IsBooked(i.runs, n, slot, b.userID, b.paymentID);
    StateIsHistory(reg, configured, id, i, n);
    assert Books(Held(i.runs[n - 1]), slot, b.userID, b.paymentID);
  }

  // ----- Conservation -----

  predicate WasAccepted(r: Run<Payload>) { ChangeOf(r).Accepted? }
  predicate WasConfirmed(r: Run<Payload>) { ChangeOf(r).Confirmed? }
  predicate WasExpired(r: Run<Payload>) { ChangeOf(r).Expired? }

  lemma AppliedSizes(st: ProviderState, c: Change)
    requires Tidy(st) && Possible(st, c)
    ensures |Applied(st, c).reservations|
      == |st.reservations| + (if c.Accepted? then 1 else 0) - (if c.Confirmed? || c.Expired? then 1 else 0)
    ensures |Applied(st, c).booked| == |st.booked| + (if c.Confirmed? then 1 else 0)
  {
    match c
    case Accepted(user, slot) => SizeOfInsert(st.reservations, slot, Reservation(user, slot));
    case Confirmed(user, slot, payment) =>
      SizeOfRemove(st.reservations, slot);
      SizeOfInsert(st.booked, slot, Booking(user, slot, payment));
    case Expired(user, slot) => SizeOfRemove(st.reservations, slot);
    case Nothing =>
  }

  ghost predicate Conserved(runs: seq<Run<Payload>>, st: ProviderState) {
    && Count(runs, WasAccepted) == |st.reservations| + |st.booked| + Count(runs, WasExpired)
    && Count(runs, WasConfirmed) == |st.booked|
  }

  lemma ConservedNext(runs: seq<Run<Payload>>, n: nat, st: ProviderState)
    requires n < |runs| && Conserved(runs[..n], st) && Tidy(st) && Possible(st, ChangeOf(runs[n]))
    ensures Conserved(runs[..n + 1], Applied(st, ChangeOf(runs[n])))
  {
    CountNext(runs, n, WasAccepted);
    CountNext(runs, n, WasExpired);
    CountNext(runs, n, WasConfirmed);
    AppliedSizes(st, ChangeOf(runs[n]));
  }

  lemma ConservedAtStart(runs: seq<Run<Payload>>, st: ProviderState)
    requires runs != [] && ChangeOf(runs[0]) == Nothing && st.reservations == map[] && st.booked == map[]
    ensures Conserved(runs[..1], st)
  {
    assert runs[..1][..0] == [] && runs[..1][0] == runs[0];
  }

  lemma {:induction false} ChangesConserve(reg: Recovery, configured: int, id: string, i: Inst<Payload>, n: nat)
    requires Serves(reg, configured, id, i) && Legal(reg, i.key, i.input, i.runs) && 0 < n <= |i.runs|
    ensures Conserved(i.runs[..n], Held(i.runs[n - 1]))
  {
    RunsChain(reg, configured, id, i, n - 1);
    if n > 1 {
      ChangesConserve(reg, configured, id, i, n - 1);
      StateIsHistory(reg, configured, id, i, n - 1);
      RunChanges(configured, id, i.runs[n - 1]);
      ConservedNext(i.runs, n - 1, Held(i.runs[n - 2]));
    } else {
      ConservedAtStart(i.runs, Held(i.runs[0]));
    }
  }

  /** Conservation: at every point, the reservations accepted so far are those still held, those booked and
      those that expired. */
  lemma ReservationsConserved(reg: Recovery, now: int, labels: seq<Label<Payload>>, s: System<Payload>, id: string,
                              configured: int, n: nat)
    requires Provides(reg, now, labels, s, id, configured) && 0 < n <= |s.insts[id].runs|
    ensures var st, runs := Held(s.insts[id].runs[n - 1]), s.insts[id].runs[..n];
      Count(runs, WasAccepted) == |st.reservations| + |st.booked| + Count(runs, WasExpired)
  {
    RunsLegal(reg, now, labels, s, id);
    ChangesConserve(reg, configured, id, s.insts[id], n);
  }

  /** A provider that has gone offline has told its caller the number of confirmed requests. */
  lemma OfflineReportsBookings(reg: Recovery, now: int, labels: seq<Label<Payload>>, s: System<Payload>, id: string,
                               configured: int)
    requires Provides(reg, now, labels, s, id, configured)
    requires s.insts[id].phase.Finished? && s.insts[id].phase.outcome.Success?
    ensures s.insts[id].runs != []
    ensures var i := s.insts[id];
      var last := i.runs[|i.runs| - 1];
      && last.key == OfflineKey() && last.firing.ByCall?
      && i.phase.outcome == Success(Some(ProviderResult("offline")))
      && Reply(last.firing.call, Ok(Some(GoOfflineResp(Count(i.runs, WasConfirmed))))) in i.box.replied
  {
    RunsLegal(reg, now, labels, s, id);
    var i := s.insts[id];
    var n := |i.runs|;
    RunsChain(reg, configured, id, i, n - 1);
    ChangesConserve(reg, configured, id, i, n);
    assert i.runs[..n] == i.runs;
    OfflineByCall(reg, configured, id, i);
    ReplyIsTheRuns(reg, now, labels, s, id, n - 1);
  }

  lemma OfflineByCall(reg: Recovery, configured: int, id: string, i: Inst<Payload>)
    requires Serves(reg, configured, id, i) && Legal(reg, i.key, i.input, i.runs) && i.runs != []
    requires var r := i.runs[|i.runs| - 1]; r.primary.Returned? && r.primary.output.done
    ensures var r := i.runs[|i.runs| - 1];
      && r.key == OfflineKey() && r.firing.ByCall?
      && r.primary == TakeOffline(Held(r))
  {
    var n := |i.runs| - 1;
    RunsChain(reg, configured, id, i, n);
    LegalAt(reg, i.key, i.input, i.runs, n);
    DoneIsOffline(configured, id, i.runs[n]);
    FiredByCall(reg, i.runs[n - 1], i.runs[n]);
  }

  lemma DoneIsOffline(configured: int, id: string, r: Run<Payload>)
    requires r.primary == Invoke(configured, id, r.key, r.input, r.msg) && r.key in EventKeys() && r.input.State?
    requires r.primary.Returned? && r.primary.output.done
    ensures r.key == OfflineKey() && r.primary == TakeOffline(Held(r))
  {
    KeysDiffer();
  }

  /** Only the last of the provider's cases is a send. */
  lemma FiredByCall(reg: Recovery, prev: Run<Payload>, r: Run<Payload>)
    requires UsedIn(reg, prev) == prev.primary && Continues(prev)
    requires Follows(reg, prev, r.firing, r.key, r.input, r.msg) && r.key == OfflineKey()
    ensures r.firing.ByCall?
  {
    KeysDiffer();
  }
}
