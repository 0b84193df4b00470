/** The provider's timer routines (docs/howto/provider/provider.go): which expiries reach the provider, how often,
    and when. */
module ProviderTimers {
  import opened Keys
  import opened Wrappers
  import opened Durable
  import opened Mailbox
  import opened InMemory
  import opened History
  import opened Routing
  import opened Reachable
  import opened Families
  import opened Clock
  import opened Provider

  // ----- The timer routine -----

  ghost predicate Times(reg: Recovery, configured: int, id: string, i: Inst<Payload>) {
    && Registers(reg) && i.key == TimerKey() && i.input.TimerInput?
    && forall j {:trigger i.runs[j]} :: 0 <= j < |i.runs| ==>
         i.runs[j].primary == Invoke(configured, id, i.runs[j].key, i.runs[j].input, i.runs[j].msg)
  }

  lemma TimerRuns(reg: Recovery, configured: int, id: string, i: Inst<Payload>)
    requires Times(reg, configured, id, i) && Legal(reg, i.key, i.input, i.runs)
    ensures |i.runs| <= 2
    ensures |i.runs| > 0 ==>
      UsedIn(reg, i.runs[0]) == AwaitTimeout(i.input.providerRoutineID, i.input.userID, i.input.slotID, i.input.timeout)
    ensures |i.runs| > 1 ==>
      && UsedIn(reg, i.runs[1]) == SendExpire(i.input.providerRoutineID, i.input.userID, i.input.slotID)
      && i.runs[1].firing.ByTimer?
  {
    KeysDiffer();
    if |i.runs| > 0 {
      LegalAt(reg, i.key, i.input, i.runs, 0);
      PrimaryIsUsed(reg, i.runs[0]);
    }
    if |i.runs| > 1 {
      LegalAt(reg, i.key, i.input, i.runs, 1);
      PrimaryIsUsed(reg, i.runs[1]);
    }
    if |i.runs| > 2 {
      LegalAt(reg, i.key, i.input, i.runs, 2);
      assert false;
    }
  }

  /** A timer routine asks for nothing to be sent before its timer has fired, and then for exactly one message: that
      the reservation it was started for has expired. */
  lemma TimerExpiresOnce(reg: Recovery, now: int, labels: seq<Label<Payload>>, s: System<Payload>, id: string,
                         configured: int)
    requires Reached(reg, now, labels, s) && id in s.insts && Times(reg, configured, id, s.insts[id])
    ensures var i := s.insts[id];
      var asked := Requests(reg, i.runs, i.input.providerRoutineID);
      if |i.runs| < 2 then asked == []
      else
        && |i.runs| == 2 && i.runs[1].firing.ByTimer?
        && asked == [SendMsg(ExpireKey(), ExpireReservation(i.input.userID, i.input.slotID))]
  {
    RunsLegal(reg, now, labels, s, id);
    var i := s.insts[id];
    TimerRuns(reg, configured, id, i);
    RequestsOfFew(reg, i.runs, i.input.providerRoutineID);
  }

  /** The timeout really passes: from any state in which the timer routine has yet to begin its wait to any later
      one in which it has asked for the message, the clock advances by the timeout at least. */
  lemma TimerWaitsOut(reg: Recovery, now: int, before: seq<Label<Payload>>, s0: System<Payload>,
                      after: seq<Label<Payload>>, s: System<Payload>, id: string, configured: int)
    requires Reached(reg, now, before, s0) && Exec(reg, s0, after) == Some(s)
    requires id in s.insts && Times(reg, configured, id, s.insts[id])
    requires FirstLater(s0.insts, id) <= 1 && |s.insts[id].runs| >= 2
    ensures s.now >= s0.now + s.insts[id].input.timeout
  {
    ExecConcat(reg, EmptySystem(now), before, after);
    RunsLegal(reg, now, before + after, s, id);
    TimerRuns(reg, configured, id, s.insts[id]);
    TimersTakeTime(reg, now, before, s0, after, s, id, 1);
  }

  // ----- Expiries and the timers that send them -----

  /** A provider's run starts something exactly if it accepts a reservation: a timer for that user and slot. */
  lemma AcceptingStartsTimer(configured: int, id: string, r: Run<Payload>)
    requires r.primary == Invoke(configured, id, r.key, r.input, r.msg) && r.primary.Returned?
    requires r.input.ProviderInput? || (r.input.State? && r.key in EventKeys())
    ensures r.primary.effects.starts
      == if r.input.State? && ChangeOf(r).Accepted? then
           [TimerEntry(configured, id, r.input.state.providerID, ChangeOf(r).userID, ChangeOf(r).slotID)]
         else []
  {
    KeysDiffer();
    assert "reserved" != "rejected: already reserved" && "reserved" != "rejected: already booked";
  }

  /** The timer routine `c` of a provider: which accepted reservation it was started for. */
  lemma TimerFor(reg: Recovery, now: int, labels: seq<Label<Payload>>, s: System<Payload>, id: string,
                 configured: int, c: string) returns (a: nat)
    requires Provides(reg, now, labels, s, id, configured) && c in s.insts && s.insts[c].parent == Routine(id)
    ensures a < |s.insts[id].runs| && ChangeOf(s.insts[id].runs[a]).Accepted? && s.insts[id].runs[a].input.State?
    ensures var r := s.insts[id].runs[a];
      var e := TimerEntry(configured, id, s.insts[id].input.providerID, ChangeOf(r).userID, ChangeOf(r).slotID);
      c == e.routineID && s.insts[c].key == TimerKey() && s.insts[c].input == e.input
  {
    var k;
    a, k := StartedBy(reg, now, labels, s, c, id);
    RunsLegal(reg, now, labels, s, id);
    EntryIsTimer(reg, configured, id, s.insts[id], a, k);
    ProviderIDStays(reg, configured, id, s.insts[id], a);
  }

  lemma {:induction false} ProviderIDStays(reg: Recovery, configured: int, id: string, i: Inst<Payload>, n: nat)
    requires Serves(reg, configured, id, i) && Legal(reg, i.key, i.input, i.runs) && 0 < n < |i.runs|
    ensures i.runs[n].input.State? && i.runs[n].input.state.providerID == i.input.providerID
  {
    RunsChain(reg, configured, id, i, n);
    RunsChain(reg, configured, id, i, n - 1);
    if n > 1 {
      ProviderIDStays(reg, configured, id, i, n - 1);
      RunChanges(configured, id, i.runs[n - 1]);
    }
  }

  lemma EntryIsTimer(reg: Recovery, configured: int, id: string, i: Inst<Payload>, a: nat, k: nat)
    requires Serves(reg, configured, id, i) && Legal(reg, i.key, i.input, i.runs) && a < |i.runs|
    requires k < |EffectsOf(reg, i.runs[a]).starts|
    ensures ChangeOf(i.runs[a]).Accepted? && i.runs[a].input.State?
    ensures EffectsOf(reg, i.runs[a]).starts[k]
      == TimerEntry(configured, id, i.runs[a].input.state.providerID, ChangeOf(i.runs[a]).userID,
                    ChangeOf(i.runs[a]).slotID)
  {
    LegalAt(reg, i.key, i.input, i.runs, a);
    RunsChain(reg, configured, id, i, a);
    AcceptingStartsTimer(configured, id, i.runs[a]);
  }

  /** All expiries sent to the provider come from timer routines that it started itself. */
  ghost predicate OnlyTimersExpire(reg: Recovery, configured: int, s: System<Payload>, id: string)
    requires id in s.insts
  {
    var b := s.insts[id].box;
    forall k :: 0 <= k < |b.sent| && k < |b.origins| && b.sent[k].key == ExpireKey() ==>
      && b.origins[k].Routine? && b.origins[k].id in s.insts
      && s.insts[b.origins[k].id].parent == Routine(id)
      && Times(reg, configured, b.origins[k].id, s.insts[b.origins[k].id])
  }

  /** What a timer routine sent to its provider. */
  lemma SentByTimer(reg: Recovery, now: int, labels: seq<Label<Payload>>, s: System<Payload>, id: string, c: string,
                    configured: int, k: nat)
    requires Reached(reg, now, labels, s) && id in s.insts && c in s.insts && Times(reg, configured, c, s.insts[c])
    requires s.insts[c].input.providerRoutineID == id
    requires k < |s.insts[id].box.sent| && |s.insts[id].box.origins| == |s.insts[id].box.sent|
    requires s.insts[id].box.origins[k] == Routine(c)
    ensures var t, m := s.insts[c], s.insts[id].box.sent[k];
      && m == SendMsg(ExpireKey(), ExpireReservation(t.input.userID, t.input.slotID))
      && |t.runs| >= 2
  {
    var b := s.insts[id].box;
    FromHas(b.sent, b.origins, Routine(c), k);
    SendsRouted(reg, now, labels, s, c, id);
    TimerExpiresOnce(reg, now, labels, s, c, configured);
    assert b.sent[k] in Requests(reg, s.insts[c].runs, id);
  }

  /** Every effective expiry in the system: the timer that sent it. */
  lemma ExpirySender(reg: Recovery, now: int, labels: seq<Label<Payload>>, s: System<Payload>, id: string,
                     configured: int, e: nat, k: nat) returns (c: string)
    requires Provides(reg, now, labels, s, id, configured) && OnlyTimersExpire(reg, configured, s, id)
    requires e < |s.insts[id].runs| && ChangeOf(s.insts[id].runs[e]).Expired?
    requires k < |s.insts[id].box.sent| && |s.insts[id].box.origins| == |s.insts[id].box.sent|
    requires s.insts[id].runs[e].msg.Some?
    requires s.insts[id].box.sent[k] == SendMsg(ExpireKey(), s.insts[id].runs[e].msg.value)
    ensures var ch := ChangeOf(s.insts[id].runs[e]);
      && s.insts[id].box.origins[k] == Routine(c)
      && c == TimerID(s.insts[id].input.providerID, ch.slotID)
      && c in s.insts && s.insts[c].parent == Routine(id) && Times(reg, configured, c, s.insts[c])
      && s.insts[c].input == TimerInput(id, ch.userID, ch.slotID, Timeout(configured))
      && |s.insts[c].runs| >= 2
  {
    c := s.insts[id].box.origins[k].id;
    var a := TimerFor(reg, now, labels, s, id, configured, c);
    SentByTimer(reg, now, labels, s, id, c, configured, k);
  }

  /** Every effective expiry was sent by the timer that the provider started for that slot and user, after the
      timer's whole timeout, and it ends a reservation that was accepted for that user. */
  lemma ExpiriesAreTimed(reg: Recovery, now: int, labels: seq<Label<Payload>>, s: System<Payload>, id: string,
                         configured: int, e: nat) returns (c: string)
    requires Provides(reg, now, labels, s, id, configured) && OnlyTimersExpire(reg, configured, s, id)
    requires e < |s.insts[id].runs| && ChangeOf(s.insts[id].runs[e]).Expired?
    ensures var ch := ChangeOf(s.insts[id].runs[e]);
      && IsHeld(s.insts[id].runs, e, ch.slotID, ch.userID)
      && c == TimerID(s.insts[id].input.providerID, ch.slotID)
      && c in s.insts && s.insts[c].parent == Routine(id) && Times(reg, configured, c, s.insts[c])
      && s.insts[c].input == TimerInput(id, ch.userID, ch.slotID, Timeout(configured))
      && |s.insts[c].runs| >= 2
  {
    RunsLegal(reg, now, labels, s, id);
    ExpiredBySend(reg, configured, id, s.insts[id], e);
    ExpiryEndsReservation(reg, configured, id, s.insts[id], e);
    var k := HandledWasSent(reg, now, labels, s, id, e);
    c := ExpirySender(reg, now, labels, s, id, configured, e, k);
  }

  lemma ExpiryEndsReservation(reg: Recovery, configured: int, id: string, i: Inst<Payload>, e: nat)
    requires Serves(reg, configured, id, i) && Legal(reg, i.key, i.input, i.runs)
    requires e < |i.runs| && ChangeOf(i.runs[e]).Expired?
    ensures IsHeld(i.runs, e, ChangeOf(i.runs[e]).slotID, ChangeOf(i.runs[e]).userID)
  {
    RunsChain(reg, configured, id, i, e);
    RunChanges(configured, id, i.runs[e]);
    StateIsHistory(reg, configured, id, i, e);
  }

  /** A slot's reservation expires at most once in the provider's life: the timer is never started again. */
  lemma SlotExpiresOnce(reg: Recovery, now: int, labels: seq<Label<Payload>>, s: System<Payload>, id: string,
                        configured: int, x: nat, e: nat)
    requires Provides(reg, now, labels, s, id, configured) && OnlyTimersExpire(reg, configured, s, id)
    requires x <= e < |s.insts[id].runs|
    requires ChangeOf(s.insts[id].runs[x]).Expired? && ChangeOf(s.insts[id].runs[e]).Expired?
    requires ChangeOf(s.insts[id].runs[x]).slotID == ChangeOf(s.insts[id].runs[e]).slotID
    ensures x == e
  {
    if x < e {
      var i := s.insts[id];
      RunsLegal(reg, now, labels, s, id);
      ExpiredBySend(reg, configured, id, i, x);
      ExpiredBySend(reg, configured, id, i, e);
      SentPaired(reg, now, labels, s, id);
      var kx, ke := HandledInTurn(reg, now, labels, s, id, x, e);
      var c := ExpirySender(reg, now, labels, s, id, configured, x, kx);
      var c' := ExpirySender(reg, now, labels, s, id, configured, e, ke);
      SendsOnce(reg, now, labels, s, id, c, configured);
      FromTwice(i.box.sent, i.box.origins, Routine(c), kx, ke);
    }
  }

  lemma SendsOnce(reg: Recovery, now: int, labels: seq<Label<Payload>>, s: System<Payload>, id: string, c: string,
                  configured: int)
    requires Reached(reg, now, labels, s) && id in s.insts && c in s.insts && Times(reg, configured, c, s.insts[c])
    requires s.insts[c].input.providerRoutineID == id
    ensures |From(s.insts[id].box.sent, s.insts[id].box.origins, Routine(c))| <= 1
  {
    SendsRouted(reg, now, labels, s, c, id);
    TimerExpiresOnce(reg, now, labels, s, c, configured);
  }

  /** Between two accepted reservations of a slot, an earlier one expired. */
  lemma AcceptedAgain(reg: Recovery, configured: int, id: string, i: Inst<Payload>, a: nat, b: nat, slot: string)
    returns (x: nat)
    requires Serves(reg, configured, id, i) && Legal(reg, i.key, i.input, i.runs) && a < b < |i.runs|
    requires ChangeOf(i.runs[a]).Accepted? && ChangeOf(i.runs[a]).slotID == slot
    requires ChangeOf(i.runs[b]).Accepted? && ChangeOf(i.runs[b]).slotID == slot
    ensures a < x < b && ChangeOf(i.runs[x]).Expired? && ChangeOf(i.runs[x]).slotID == slot
  {
    RunsChain(reg, configured, id, i, b);
    RunChanges(configured, id, i.runs[b]);
    StateIsHistory(reg, configured, id, i, b);
    var user := ChangeOf(i.runs[a]).userID;
    assert !IsHeld(i.runs, b, slot, user) by {
      assert !Reserves(Held(i.runs[b - 1]), slot, user);
    }
    assert !HeldSince(i.runs, b, a, slot, user);
    x :| a < x < b && EndsReservation(ChangeOf(i.runs[x]), slot);
    var ch := ChangeOf(i.runs[x]);
    if ch.Confirmed? {
      ConfirmedIsBooked(i.runs, Held(i.runs[b - 1]), b, x);
    }
  }

  lemma ConfirmedIsBooked(runs: seq<Run<Payload>>, st: ProviderState, n: nat, x: nat)
    requires x < n <= |runs| && ChangeOf(runs[x]).Confirmed?
    requires forall slot, user, payment :: Books(st, slot, user, payment) <==> IsBooked(runs, n, slot, user, payment)
    ensures ChangeOf(runs[x]).slotID in st.booked
  {
    var ch := ChangeOf(runs[x]);
    assert IsBooked(runs, n, ch.slotID, ch.userID, ch.paymentID);
    assert Books(st, ch.slotID, ch.userID, ch.paymentID);
  }

  /** Earlier in the same run, before the reservation that expires was accepted, its timer did not exist. */
  lemma TimerNotYet(reg: Recovery, now: int, before: seq<Label<Payload>>, s0: System<Payload>,
                    after: seq<Label<Payload>>, s: System<Payload>, id: string, configured: int, a: nat, e: nat,
                    c: string)
    requires Reached(reg, now, before, s0) && Exec(reg, s0, after) == Some(s)
    requires Provides(reg, now, before + after, s, id, configured) && OnlyTimersExpire(reg, configured, s, id)
    requires e < |s.insts[id].runs| && ChangeOf(s.insts[id].runs[e]).Expired?
    requires var ch := ChangeOf(s.insts[id].runs[e]); HeldSince(s.insts[id].runs, e, a, ch.slotID, ch.userID)
    requires id in s0.insts ==> |s0.insts[id].runs| <= a
    requires c in s.insts && s.insts[c].parent == Routine(id)
    requires s.insts[c].input.TimerInput? && s.insts[c].input.slotID == ChangeOf(s.insts[id].runs[e]).slotID
    ensures c !in s0.insts
  {
    ReachedKeeps(reg, now, before, s0);
    ExecKeeps(reg, s0, after);
    if c in s0.insts {
      var a0 := EarlierTimer(reg, now, before, s0, s, id, configured, c);
      RunsLegal(reg, now, before + after, s, id);
      var x := AcceptedAgain(reg, configured, id, s.insts[id], a0, a, ChangeOf(s.insts[id].runs[e]).slotID);
      SlotExpiresOnce(reg, now, before + after, s, id, configured, x, e);
    }
  }

  /** A timer that exists in an earlier state was started by a run made by then. */
  lemma EarlierTimer(reg: Recovery, now: int, before: seq<Label<Payload>>, s0: System<Payload>, s: System<Payload>,
                     id: string, configured: int, c: string) returns (a: nat)
    requires Reached(reg, now, before, s0) && Grows(s0.insts, s.insts)
    requires id in s.insts && Serves(reg, configured, id, s.insts[id])
    requires c in s0.insts && s.insts[c].parent == Routine(id) && s.insts[c].input.TimerInput?
    ensures id in s0.insts && a < |s0.insts[id].runs| <= |s.insts[id].runs|
    ensures ChangeOf(s.insts[id].runs[a]).Accepted? && ChangeOf(s.insts[id].runs[a]).slotID == s.insts[c].input.slotID
  {
    var k;
    a, k := StartedBy(reg, now, before, s0, c, id);
    ServedBefore(reg, configured, id, s0.insts[id], s.insts[id]);
    a := TimerFor(reg, now, before, s0, id, configured, c);
    assert s0.insts[id].runs[a] == s.insts[id].runs[a];
  }

  lemma ServedBefore(reg: Recovery, configured: int, id: string, i: Inst<Payload>, i': Inst<Payload>)
    requires Serves(reg, configured, id, i') && i.key == i'.key && i.input == i'.input && i.runs <= i'.runs
    ensures Serves(reg, configured, id, i)
  {
    forall j {:trigger i.runs[j]} | 0 <= j < |i.runs|
      ensures i.runs[j].primary == Invoke(configured, id, i.runs[j].key, i.runs[j].input, i.runs[j].msg)
    {
      assert i.runs[j] == i'.runs[j];
    }
  }

  /** No reservation expires early. Take any state in which a reservation has not been accepted yet, and any later
      one in which it has expired: the clock has advanced by the reservation timeout at least. */
  lemma NoEarlyExpiry(reg: Recovery, now: int, before: seq<Label<Payload>>, s0: System<Payload>,
                      after: seq<Label<Payload>>, s: System<Payload>, id: string, configured: int, a: nat, e: nat)
    requires Reached(reg, now, before, s0) && Exec(reg, s0, after) == Some(s)
    requires Provides(reg, now, before + after, s, id, configured) && OnlyTimersExpire(reg, configured, s, id)
    requires e < |s.insts[id].runs| && ChangeOf(s.insts[id].runs[e]).Expired?
    requires var ch := ChangeOf(s.insts[id].runs[e]); HeldSince(s.insts[id].runs, e, a, ch.slotID, ch.userID)
    requires id in s0.insts ==> |s0.insts[id].runs| <= a
    ensures s.now >= s0.now + if configured > 0 then configured else 900_000_000_000
  {
    var c := ExpiriesAreTimed(reg, now, before + after, s, id, configured, e);
    TimerNotYet(reg, now, before, s0, after, s, id, configured, a, e, c);
    TimerWaitsOut(reg, now, before, s0, after, s, c, configured);
  }

  lemma ExpiredBySend(reg: Recovery, configured: int, id: string, i: Inst<Payload>, e: nat)
    requires Serves(reg, configured, id, i) && Legal(reg, i.key, i.input, i.runs)
    requires e < |i.runs| && ChangeOf(i.runs[e]).Expired?
    ensures i.runs[e].firing.BySend? && i.runs[e].key == ExpireKey()
    ensures i.runs[e].msg == Some(ExpireReservation(ChangeOf(i.runs[e]).userID, ChangeOf(i.runs[e]).slotID))
  {
    RunsChain(reg, configured, id, i, e);
    LegalAt(reg, i.key, i.input, i.runs, e);
    ExpiryKey(reg, i.runs[e - 1], i.runs[e], configured, id);
  }

  lemma ExpiryKey(reg: Recovery, prev: Run<Payload>, r: Run<Payload>, configured: int, id: string)
    requires UsedIn(reg, prev) == prev.primary && Continues(prev)
    requires Follows(reg, prev, r.firing, r.key, r.input, r.msg) && ChangeOf(r).Expired?
    requires r.primary == Invoke(configured, id, r.key, r.input, r.msg)
    ensures r.firing.BySend? && r.key == ExpireKey()
  {
    KeysDiffer();
  }

  // ----- Every reservation gets its timer -----

  /** Different slots of one provider have different timers. */
  lemma TimerIDUnique(providerID: string, a: string, b: string)
    requires TimerID(providerID, a) == TimerID(providerID, b)
    ensures a == b
  {
    var n := |"reservation-" + providerID + "-"|;
    assert TimerID(providerID, a)[n..] == a && TimerID(providerID, b)[n..] == b;
  }

  /** Run `a` is the first to accept a reservation of its slot. */
  ghost predicate FirstAccepted(runs: seq<Run<Payload>>, a: nat) {
    && a < |runs| && ChangeOf(runs[a]).Accepted?
    && forall e :: 0 <= e < a ==>
         !(ChangeOf(runs[e]).Accepted? && ChangeOf(runs[e]).slotID == ChangeOf(runs[a]).slotID)
  }

  ghost predicate StartsPending(i: Inst<Payload>, a: nat) {
    a == |i.runs| - 1 && i.phase.Applying? && i.phase.starts != []
  }

  /** The routine `c` times this reservation of the provider. */
  ghost predicate TimesReservation(insts: map<string, Inst<Payload>>, c: string, id: string, configured: int,
                                   user: string, slot: string) {
    && c in insts && insts[c].parent == Routine(id)
    && insts[c].key == HandlerKey("reservation-timer", "reservation-timer-result")
    && insts[c].input == TimerInput(id, user, slot, if configured > 0 then configured else 900_000_000_000)
  }

  /** The acceptance is the provider's last run. */
  lemma LastAccepted(reg: Recovery, now: int, labels: seq<Label<Payload>>, s: System<Payload>, id: string,
                     configured: int)
    requires Provides(reg, now, labels, s, id, configured) && s.insts[id].runs != []
    requires var a := |s.insts[id].runs| - 1; FirstAccepted(s.insts[id].runs, a) && !StartsPending(s.insts[id], a)
    requires var c := TimerID(s.insts[id].input.providerID, ChangeOf(s.insts[id].runs[|s.insts[id].runs| - 1]).slotID);
      c in s.insts ==> s.insts[c].parent == Routine(id)
    ensures var ch := ChangeOf(s.insts[id].runs[|s.insts[id].runs| - 1]);
      TimesReservation(s.insts, TimerID(s.insts[id].input.providerID, ch.slotID), id, configured, ch.userID, ch.slotID)
  {
    var i := s.insts[id];
    var a := |i.runs| - 1;
    var c := TimerID(i.input.providerID, ChangeOf(i.runs[a]).slotID);
    RunsLegal(reg, now, labels, s, id);
    AcceptanceStarts(reg, configured, id, i, a);
    ReachedKeeps(reg, now, labels, s);
    assert StartsApplied(reg, s.insts, i);
    assert EffectsOf(reg, i.runs[a]).starts[0].routineID == c;
    var a' := TimerFor(reg, now, labels, s, id, configured, c);
    TimerIDUnique(i.input.providerID, ChangeOf(i.runs[a]).slotID, ChangeOf(i.runs[a']).slotID);
    assert a' == a;
  }

  /** What an accepting run starts. */
  lemma AcceptanceStarts(reg: Recovery, configured: int, id: string, i: Inst<Payload>, a: nat)
    requires Serves(reg, configured, id, i) && Legal(reg, i.key, i.input, i.runs) && a < |i.runs|
    requires ChangeOf(i.runs[a]).Accepted?
    ensures EffectsOf(reg, i.runs[a]).starts
      == [TimerEntry(configured, id, i.input.providerID, ChangeOf(i.runs[a]).userID, ChangeOf(i.runs[a]).slotID)]
  {
    RunsChain(reg, configured, id, i, a);
    LegalAt(reg, i.key, i.input, i.runs, a);
    ProviderIDStays(reg, configured, id, i, a);
    AcceptingStartsTimer(configured, id, i.runs[a]);
  }

  lemma RunsStep(reg: Recovery, s: System<Payload>, l: Label<Payload>, id: string)
    requires Step(reg, s, l).Some? && id in Step(reg, s, l).value.insts
    ensures var i' := Step(reg, s, l).value.insts[id];
      if id !in s.insts then i'.runs == []
      else i'.runs == s.insts[id].runs || (|i'.runs| == |s.insts[id].runs| + 1 && s.insts[id].phase.Handling?)
  {
    if !(l.Act? && l.id == id) {
      Spared(reg, s, l, id);
    }
  }

  lemma StepBefore(reg: Recovery, now: int, labels: seq<Label<Payload>>, s: System<Payload>)
    returns (s0: System<Payload>)
    requires Reached(reg, now, labels, s) && labels != []
    ensures Reached(reg, now, labels[..|labels| - 1], s0) && Step(reg, s0, labels[|labels| - 1]) == Some(s)
    ensures Grows(s0.insts, s.insts)
  {
    s0 := Exec(reg, EmptySystem(now), labels[..|labels| - 1]).value;
    ReachedKeeps(reg, now, labels[..|labels| - 1], s0);
    StepKeeps(reg, s0, labels[|labels| - 1]);
  }

  lemma {:induction false} AcceptedIsTimed(reg: Recovery, now: int, labels: seq<Label<Payload>>, s: System<Payload>,
                                           id: string, configured: int, a: nat)
    requires Provides(reg, now, labels, s, id, configured)
    requires FirstAccepted(s.insts[id].runs, a) && !StartsPending(s.insts[id], a)
    requires var c := TimerID(s.insts[id].input.providerID, ChangeOf(s.insts[id].runs[a]).slotID);
      c in s.insts ==> s.insts[c].parent == Routine(id)
    ensures var ch := ChangeOf(s.insts[id].runs[a]);
      TimesReservation(s.insts, TimerID(s.insts[id].input.providerID, ch.slotID), id, configured, ch.userID, ch.slotID)
    decreases |labels|
  {
    var i := s.insts[id];
    if a == |i.runs| - 1 {
      LastAccepted(reg, now, labels, s, id, configured);
    } else {
      var s0 := StepBefore(reg, now, labels, s);
      RunsStep(reg, s0, labels[|labels| - 1], id);
      var i0 := s0.insts[id];
      assert i0.runs <= i.runs;
      assert forall j :: 0 <= j < |i0.runs| ==> i0.runs[j] == i.runs[j];
      ServedBefore(reg, configured, id, i0, i);
      AcceptedIsTimed(reg, now, labels[..|labels| - 1], s0, id, configured, a);
    }
  }

  /** No reservation goes without its timer: once the run that is the first to accept a reservation of a slot has
      applied its effects, the timer of that slot is there, for that user and slot and with the configured timeout or
      fifteen minutes, unless some other routine has taken its id. */
  lemma ReservationIsTimed(reg: Recovery, now: int, labels: seq<Label<Payload>>, s: System<Payload>, id: string,
                           configured: int, a: nat)
    requires Provides(reg, now, labels, s, id, configured)
    requires FirstAccepted(s.insts[id].runs, a) && !StartsPending(s.insts[id], a)
    requires var c := "reservation-" + s.insts[id].input.providerID + "-" + ChangeOf(s.insts[id].runs[a]).slotID;
      c in s.insts ==> s.insts[c].parent == Routine(id)
    ensures var ch := ChangeOf(s.insts[id].runs[a]);
      TimesReservation(s.insts, "reservation-" + s.insts[id].input.providerID + "-" + ch.slotID, id, configured,
                       ch.userID, ch.slotID)
  {
    AcceptedIsTimed(reg, now, labels, s, id, configured, a);
  }
}
