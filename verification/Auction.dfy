/** The auction routine (docs/howto/auction/auction.go): bids come as calls until a timer closes the auction; a bid
    whose handler fails is answered by a recovery handler. The theorems are about every reachable state of the
    in-memory runtime in which an instance runs these handlers. Amounts are reals; every invocation reads the
    clock, and what it reads is arbitrary. */
module Auction {
  import opened Keys
  import opened Wrappers
  import opened Queries
  import opened Durable
  import opened Mailbox
  import opened InMemory
  import opened History
  import opened Reachable
  import Timing = Clock

  datatype BiddingInput = BiddingInput(itemName: string, deadline: int, highestBid: real, leader: string, bidCount: int)

  /** The payloads. Foreign stands for those of other routines. */
  datatype Payload =
    | AuctionInput(itemName: string, startingBid: real, duration: int)
    | Bidding(state: BiddingInput)
    | PlaceBidReq(bidderID: string, amount: real)
    | PlaceBidResp(accepted: bool, highestBid: real, message: string)
    | Status(itemName: string, highestBid: real, leader: string, bidCount: int)
    | AuctionResult(itemName: string, winner: string, amount: real, bidCount: int)
    | Foreign(data: string)

  function OpenKey(): string { HandlerKey("auction", "auction-result") }
  function PlaceKey(): string { CallKey("auction.bidding", "place-bid", "place-bid-resp", "auction-result") }
  function CloseKey(): string { HandlerKey("auction.bidding", "auction-result") }

  lemma KeysDiffer()
    ensures PlaceKey() != OpenKey() && PlaceKey() != CloseKey()
  {
    assert OpenKey()[0] == 'h' && PlaceKey()[0] == 'c' && CloseKey()[0] == 'h';
  }

  /** Placing a bid has a recovery handler; opening and closing have none. */
  ghost predicate Registers(reg: Recovery) {
    && OpenKey() in reg && reg[OpenKey()] == "" && CloseKey() in reg && reg[CloseKey()] == ""
    && PlaceKey() in reg && reg[PlaceKey()] == ErrorKey(PlaceKey()) && ErrorKey(PlaceKey()) in reg
  }

  // ----- Handlers -----

  /** What an invocation reads from the clock: first time.Now, then time.Until. */
  datatype Clock = Clock(now: int, until: int)

  function StatusOf(b: BiddingInput): Payload {
    Status(b.itemName, b.highestBid, b.leader, b.bidCount)
  }

  function Bids(b: BiddingInput, t: Clock): RunOutput<Payload> {
    Select([ReceiveCall("auction.bidding", "place-bid", "place-bid-resp", "auction-result", Bidding(b)),
            After(b.deadline - t.until, "auction.bidding", "auction-result", Bidding(b))])
  }

  function Publish(b: BiddingInput): Effects<Payload> {
    Effects([QueryEntry("auction-status", StatusOf(b))], [], [])
  }

  function Open(t: Clock, item: string, start: real, duration: int): Outcome<Payload> {
    var b := BiddingInput(item, t.now + duration, start, "", 0);
    Returned(Bids(b, t), Publish(b))
  }

  function Place(t: Clock, b: BiddingInput, bidder: string, amount: real): Outcome<Payload> {
    if amount <= b.highestBid then
      Returned(Bids(b, t).(callResponse := Some(PlaceBidResp(false, b.highestBid, "bid too low"))), NoEffects())
    else
      var b' := b.(highestBid := amount, leader := bidder, bidCount := b.bidCount + 1);
      var accepted := PlaceBidResp(true, amount, "bid accepted, you are the highest bidder");
      Returned(Bids(b', t).(callResponse := Some(accepted)),
               Publish(b'))
  }

  function Close(b: BiddingInput): Outcome<Payload> {
    Returned(Done(AuctionResult(b.itemName, b.leader, b.highestBid, b.bidCount)), NoEffects())
  }

  /** What the registered runner of `key` returns; payloads of another kind are not decoded. */
  function Invoke(t: Clock, key: string, input: Payload, msg: Option<Payload>): Outcome<Payload> {
    if key == OpenKey() && input.AuctionInput? then Open(t, input.itemName, input.startingBid, input.duration)
    else if key == PlaceKey() && input.Bidding? && msg.Some? && msg.value.PlaceBidReq? then
      Place(t, input.state, msg.value.bidderID, msg.value.amount)
    else if key == CloseKey() && input.Bidding? then Close(input.state)
    else Failed("deserialize", NoEffects())
  }

  /** The recovery handler of placing a bid. */
  function BidFailed(t: Clock, input: Payload, msg: Option<Payload>, err: string): Outcome<Payload> {
    if input.Bidding? && msg.Some? && msg.value.PlaceBidReq? then
      var refused := PlaceBidResp(false, 0.0, "bid processing failed: " + err);
      Returned(Bids(input.state, t).(callResponse := Some(refused)), NoEffects())
    else Failed("deserialize", NoEffects())
  }

  method OpenAuction(ctx: Context<Payload>, t: Clock, item: string, start: real, duration: int)
    returns (cont: RunOutput<Payload>)
    requires ctx.Collected() == NoEffects()
    modifies ctx
    ensures Returned(cont, ctx.Collected()) == Invoke(t, OpenKey(), AuctionInput(item, start, duration), None)
  {
    var bidding := BiddingInput(item, t.now + duration, start, "", 0);
    ctx.SetQueryResult(QueryEntry("auction-status", Status(bidding.itemName, bidding.highestBid, "", 0)));
    cont := Bids(bidding, t);
  }

  /** `input` is a copy; an accepted bid updates it. */
  method PlaceBid(ctx: Context<Payload>, t: Clock, input: BiddingInput, bidder: string, amount: real)
    returns (resp: Payload, cont: RunOutput<Payload>)
    requires ctx.Collected() == NoEffects()
    modifies ctx
    ensures Returned(cont.(callResponse := Some(resp)), ctx.Collected())
         == Invoke(t, PlaceKey(), Bidding(input), Some(PlaceBidReq(bidder, amount)))
  {
    KeysDiffer();
    if amount <= input.highestBid {
      return PlaceBidResp(false, input.highestBid, "bid too low"), Bids(input, t);
    }
    var bidding := input;
    bidding := bidding.(highestBid := amount);
    bidding := bidding.(leader := bidder);
    bidding := bidding.(bidCount := bidding.bidCount + 1);
    ctx.SetQueryResult(QueryEntry("auction-status", StatusOf(bidding)));
    return PlaceBidResp(true, bidding.highestBid, "bid accepted, you are the highest bidder"), Bids(bidding, t);
  }

  // ----- The result that bids should have -----

  datatype Bid = Bid(bidder: string, amount: real)

  /** The kth bid is higher than the starting bid and every bid before it. */
  ghost predicate NewMaximum(start: real, bids: seq<Bid>, k: nat)
    requires k < |bids|
  {
    bids[k].amount > start && forall m :: 0 <= m < k ==> bids[m].amount < bids[k].amount
  }

  ghost function NewMaxima(start: real, bids: seq<Bid>): nat {
    if bids == [] then 0
    else NewMaxima(start, bids[..|bids| - 1]) + (if NewMaximum(start, bids, |bids| - 1) then 1 else 0)
  }

  /** The kth bid is the earliest to reach the highest amount. */
  ghost predicate Wins(start: real, bids: seq<Bid>, k: nat)
    requires k < |bids|
  {
    NewMaximum(start, bids, k) && forall m :: 0 <= m < |bids| ==> bids[m].amount <= bids[k].amount
  }

  /** The highest amount, who bid it first, and how many bids raised it. */
  ghost predicate ResultOfBids(start: real, bids: seq<Bid>, highest: real, leader: string, count: int) {
    && count == NewMaxima(start, bids)
    && if forall k :: 0 <= k < |bids| ==> bids[k].amount <= start then highest == start && leader == ""
       else exists k: nat :: k < |bids| && Wins(start, bids, k) && highest == bids[k].amount && leader == bids[k].bidder
  }

  lemma HighestBounds(start: real, bids: seq<Bid>, highest: real, leader: string, count: int)
    requires ResultOfBids(start, bids, highest, leader, count)
    ensures highest >= start && forall k :: 0 <= k < |bids| ==> bids[k].amount <= highest
    ensures highest == start || exists k :: 0 <= k < |bids| && bids[k].amount == highest
  {}

  /** One more bid. */
  lemma ResultNext(start: real, bids: seq<Bid>, highest: real, leader: string, count: int, bid: Bid)
    requires ResultOfBids(start, bids, highest, leader, count)
    ensures NewMaximum(start, bids + [bid], |bids|) <==> bid.amount > highest
    ensures if bid.amount > highest then ResultOfBids(start, bids + [bid], bid.amount, bid.bidder, count + 1)
            else ResultOfBids(start, bids + [bid], highest, leader, count)
  {
    var all, n := bids + [bid], |bids|;
    HighestBounds(start, bids, highest, leader, count);
    assert all[..n] == bids && all[n] == bid;
    assert forall m :: 0 <= m < n ==> all[m] == bids[m];
    if bid.amount > highest {
      assert Wins(start, all, n);
    } else if !(forall k :: 0 <= k < n ==> bids[k].amount <= start) {
      var k: nat :| k < n && Wins(start, bids, k) && highest == bids[k].amount && leader == bids[k].bidder;
      assert Wins(start, all, k);
      assert !(all[k].amount <= start);
    }
  }

  // ----- The runs of an auction -----

  /** The runs of an instance started with OpenAuction: each handler did what is written above on what its
      invocation read from the clock, or failed. */
  ghost predicate Serves(reg: Recovery, clock: nat -> Clock, i: Inst<Payload>) {
    && Registers(reg) && i.key == OpenKey() && i.input.AuctionInput?
    && forall j {:trigger i.runs[j]} :: 0 <= j < |i.runs| ==> Handled(reg, clock(j), i.runs[j])
  }

  ghost predicate Handled(reg: Recovery, t: Clock, r: Run<Payload>) {
    && (r.primary.Failed? || r.primary == Invoke(t, r.key, r.input, r.msg))
    && (r.recovery.Failed? || (Recovers(reg, r.key, r.primary) ==>
          r.recovery == BidFailed(t, r.input, r.msg, Attempt(reg, r.key, r.primary).error)))
  }

  /** A bid that was processed: its handler did not fail. */
  predicate IsBid(r: Run<Payload>) {
    r.firing.ByCall? && r.primary.Returned? && r.msg.Some? && r.msg.value.PlaceBidReq?
  }

  function BidsOf(runs: seq<Run<Payload>>): seq<Bid> {
    if runs == [] then []
    else
      var r := runs[|runs| - 1];
      BidsOf(runs[..|runs| - 1]) + (if IsBid(r) then [Bid(r.msg.value.bidderID, r.msg.value.amount)] else [])
  }

  /** The caller was told whether the bid was accepted. */
  ghost predicate Answers(used: Outcome<Payload>, accepted: bool) {
    && used.Returned? && used.output.callResponse.Some? && used.output.callResponse.value.PlaceBidResp?
    && used.output.callResponse.value.accepted == accepted
  }

  /** The run went from state `b` to `b2`, and awaits bids on it or has closed the auction. */
  ghost predicate Moves(t: Clock, b: BiddingInput, r: Run<Payload>, used: Outcome<Payload>, b2: BiddingInput) {
    && used.Returned?
    && (if IsBid(r) && r.msg.value.amount > b.highestBid then
          && b2 == b.(highestBid := r.msg.value.amount, leader := r.msg.value.bidderID, bidCount := b.bidCount + 1)
          && used.effects == Publish(b2)
        else b2 == b && used.effects == NoEffects())
    && (IsBid(r) ==>
          Answers(used, r.msg.value.amount > b.highestBid)
          && used.output.callResponse.value.highestBid == b2.highestBid)
    && if used.output.done then r.firing.ByTimer? && used == Close(b2)
       else used.output.cases == Bids(b2, t).cases
  }

  /** The state that a run leaves. */
  function Held(reg: Recovery, r: Run<Payload>): BiddingInput {
    var used := UsedIn(reg, r);
    if used.Returned? && |used.output.cases| == 2 && used.output.cases[0].input.Bidding? then
      used.output.cases[0].input.state
    else if r.input.Bidding? then r.input.state
    else BiddingInput("", 0, 0.0, "", 0)
  }

  lemma OpeningRun(reg: Recovery, t: Clock, r: Run<Payload>)
    requires Registers(reg) && Handled(reg, t, r) && r.key == OpenKey() && r.input.AuctionInput? && r.firing == ByStart
    requires UsedIn(reg, r).Returned?
    ensures var b := BiddingInput(r.input.itemName, t.now + r.input.duration, r.input.startingBid, "", 0);
      && Held(reg, r) == b && UsedIn(reg, r).effects == Publish(b)
      && !UsedIn(reg, r).output.done && UsedIn(reg, r).output.cases == Bids(b, t).cases
  {}

  /** A bid or the timer comes next, on the state that the run before left. */
  lemma NextEvent(reg: Recovery, t: Clock, prev: Run<Payload>, b: BiddingInput, r: Run<Payload>)
    requires UsedIn(reg, prev).Returned? && UsedIn(reg, prev).output.cases == Bids(b, t).cases
    requires Follows(reg, prev, r.firing, r.key, r.input, r.msg)
    ensures r.input == Bidding(b)
    ensures || (r.firing.ByCall? && r.key == PlaceKey() && r.msg.Some?)
            || (r.firing.ByTimer? && r.firing.idx == 1 && r.key == CloseKey() && r.msg.None?)
  {}

  lemma RunMoves(reg: Recovery, t: Clock, b: BiddingInput, r: Run<Payload>)
    requires Registers(reg) && Handled(reg, t, r) && r.input == Bidding(b) && UsedIn(reg, r).Returned?
    requires || (r.firing.ByCall? && r.key == PlaceKey() && r.msg.Some?)
             || (r.firing.ByTimer? && r.key == CloseKey() && r.msg.None?)
    ensures Moves(t, b, r, UsedIn(reg, r), Held(reg, r))
  {
    KeysDiffer();
    if r.firing.ByTimer? {
      CloseMoves(reg, t, b, r);
    } else if r.primary.Returned? {
      BidMoves(reg, t, b, r);
    } else {
      FailureMoves(reg, t, b, r);
    }
  }

  lemma CloseMoves(reg: Recovery, t: Clock, b: BiddingInput, r: Run<Payload>)
    requires Registers(reg) && Handled(reg, t, r) && r.input == Bidding(b) && UsedIn(reg, r).Returned?
    requires r.firing.ByTimer? && r.key == CloseKey() && r.msg.None?
    ensures Moves(t, b, r, UsedIn(reg, r), Held(reg, r))
  {}

  lemma BidMoves(reg: Recovery, t: Clock, b: BiddingInput, r: Run<Payload>)
    requires Registers(reg) && Handled(reg, t, r) && r.input == Bidding(b) && r.primary.Returned?
    requires r.firing.ByCall? && r.key == PlaceKey() && r.msg.Some? && PlaceKey() != CloseKey()
    requires PlaceKey() != OpenKey()
    ensures Moves(t, b, r, UsedIn(reg, r), Held(reg, r))
  {}

  lemma FailureMoves(reg: Recovery, t: Clock, b: BiddingInput, r: Run<Payload>)
    requires Registers(reg) && Handled(reg, t, r) && r.input == Bidding(b) && UsedIn(reg, r).Returned?
    requires r.firing.ByCall? && r.key == PlaceKey() && r.msg.Some? && r.primary.Failed?
    ensures Moves(t, b, r, UsedIn(reg, r), Held(reg, r))
  {}

  /** What holds after a run. */
  ghost predicate Agrees(reg: Recovery, clock: nat -> Clock, i: Inst<Payload>, j: nat)
    requires j < |i.runs| && i.input.AuctionInput?
  {
    var b, used := Held(reg, i.runs[j]), UsedIn(reg, i.runs[j]);
    && (if used.Returned? && !used.output.done then used.output.cases == Bids(b, clock(j)).cases
        else used.Returned? && i.runs[j].firing.ByTimer? && used == Close(b))
    && b.itemName == i.input.itemName && b.deadline == clock(0).now + i.input.duration
    && ResultOfBids(i.input.startingBid, BidsOf(i.runs[..j + 1]), b.highestBid, b.leader, b.bidCount)
    && Find(QueriesAfter(reg, i.runs[..j + 1]), "auction-status") == Some(StatusOf(b))
  }

  lemma HistoryNext(reg: Recovery, runs: seq<Run<Payload>>, j: nat)
    requires j < |runs|
    ensures BidsOf(runs[..j + 1]) == BidsOf(runs[..j])
      + (if IsBid(runs[j]) then [Bid(runs[j].msg.value.bidderID, runs[j].msg.value.amount)] else [])
    ensures QueriesAfter(reg, runs[..j + 1]) == WriteAll(QueriesAfter(reg, runs[..j]), EffectsOf(reg, runs[j]).queries)
  {
    assert runs[..j + 1][..j] == runs[..j];
  }

  lemma PublishShows(m: map<string, Payload>, b: BiddingInput)
    ensures Find(WriteAll(m, Publish(b).queries), "auction-status") == Some(StatusOf(b))
    ensures WriteAll(m, NoEffects<Payload>().queries) == m
  {
    assert Publish(b).queries[1..] == [];
  }

  lemma {:induction false} RunsAgree(reg: Recovery, clock: nat -> Clock, i: Inst<Payload>, j: nat)
    requires Serves(reg, clock, i) && Legal(reg, i.key, i.input, i.runs) && j < |i.runs|
    requires UsedIn(reg, i.runs[j]).Returned?
    ensures Agrees(reg, clock, i, j)
  {
    LegalAt(reg, i.key, i.input, i.runs, j);
    HistoryNext(reg, i.runs, j);
    if j == 0 {
      OpeningRun(reg, clock(0), i.runs[0]);
      PublishShows(QueriesAfter(reg, i.runs[..0]), Held(reg, i.runs[0]));
      assert i.runs[..0] == [] && BidsOf(i.runs[..1]) == [];
    } else {
      RunsAgree(reg, clock, i, j - 1);
      NextEvent(reg, clock(j - 1), i.runs[j - 1], Held(reg, i.runs[j - 1]), i.runs[j]);
      RunMoves(reg, clock(j), Held(reg, i.runs[j - 1]), i.runs[j]);
      StillAgrees(reg, clock, i, j);
    }
  }

  lemma StillAgrees(reg: Recovery, clock: nat -> Clock, i: Inst<Payload>, j: nat)
    requires 0 < j < |i.runs| && i.input.AuctionInput? && Agrees(reg, clock, i, j - 1)
    requires Moves(clock(j), Held(reg, i.runs[j - 1]), i.runs[j], UsedIn(reg, i.runs[j]), Held(reg, i.runs[j]))
    ensures Agrees(reg, clock, i, j)
  {
    var r, b, b2 := i.runs[j], Held(reg, i.runs[j - 1]), Held(reg, i.runs[j]);
    HistoryNext(reg, i.runs, j);
    PublishShows(QueriesAfter(reg, i.runs[..j]), b2);
    if IsBid(r) {
      ResultNext(i.input.startingBid, BidsOf(i.runs[..j]), b.highestBid, b.leader, b.bidCount,
                 Bid(r.msg.value.bidderID, r.msg.value.amount));
    } else {
      assert BidsOf(i.runs[..j]) + [] == BidsOf(i.runs[..j]);
    }
  }

  // ----- The theorems -----

  /** An instance of a reachable state that runs the auction's handlers. */
  ghost predicate Auctions(reg: Recovery, now: int, labels: seq<Label<Payload>>, s: System<Payload>, id: string,
                           clock: nat -> Clock) {
    Reached(reg, now, labels, s) && id in s.insts && Serves(reg, clock, s.insts[id])
  }

  /** An auction that closed did so with the highest of the starting bid and the bids processed, the earliest
      bidder to reach it, and the number of bids that raised it, whatever bids failed in between. */
  lemma WinnerIsHighest(reg: Recovery, now: int, labels: seq<Label<Payload>>, s: System<Payload>, id: string,
                        clock: nat -> Clock)
    requires Auctions(reg, now, labels, s, id, clock)
    requires s.insts[id].phase.Finished? && s.insts[id].phase.outcome.Success?
    ensures var i := s.insts[id];
      var result := i.phase.outcome.result;
      && result.Some? && result.value.AuctionResult? && result.value.itemName == i.input.itemName
      && ResultOfBids(i.input.startingBid, BidsOf(i.runs), result.value.amount, result.value.winner,
                      result.value.bidCount)
  {
    RunsLegal(reg, now, labels, s, id);
    var i := s.insts[id];
    var j := |i.runs| - 1;
    assert i.runs[..j + 1] == i.runs;
    RunsAgree(reg, clock, i, j);
  }

  /** A wait that takes bids, and whose timer is due `left` after it began. */
  ghost predicate TakesBids(w: Wait<Payload>, left: int) {
    && |w.cases| == 2 && CallCase(w.cases, "place-bid") == Some(0)
    && w.cases[0].handlerKey == PlaceKey() && w.cases[1].handlerKey == CloseKey()
    && w.timers == [Timer(1, w.entered + left)]
  }

  /** An auction that is open takes bids, and its timer is due once the time that was left when its last handler read
      the clock has passed. */
  lemma AwaitsBids(reg: Recovery, now: int, labels: seq<Label<Payload>>, s: System<Payload>, id: string,
                   clock: nat -> Clock)
    requires Auctions(reg, now, labels, s, id, clock) && s.insts[id].phase.Waiting?
    ensures OpenFor(s.insts[id], clock)
  {
    var b := StateIsShown(reg, now, labels, s, id, clock);
    WaitIsEntered(reg, now, labels, s, id);
    InstTakesBids(s.insts[id], clock, b);
  }

  ghost predicate OpenFor(i: Inst<Payload>, clock: nat -> Clock)
    requires i.phase.Waiting? && i.input.AuctionInput?
  {
    i.runs != [] && TakesBids(i.phase.wait, clock(0).now + i.input.duration - clock(|i.runs| - 1).until)
  }

  lemma InstTakesBids(i: Inst<Payload>, clock: nat -> Clock, b: BiddingInput)
    requires i.phase.Waiting? && i.input.AuctionInput? && i.runs != []
    requires b.deadline == clock(0).now + i.input.duration
    requires i.phase.wait.cases == Bids(b, clock(|i.runs| - 1)).cases
    requires Entered(i.phase.wait)
    ensures OpenFor(i, clock)
  {
    BidsTaken(b, clock(|i.runs| - 1), i.phase.wait, clock(0).now + i.input.duration - clock(|i.runs| - 1).until);
  }

  ghost predicate Entered(w: Wait<Payload>) {
    w.timers == Deadlines(w.cases, w.entered)
  }

  lemma WaitIsEntered(reg: Recovery, now: int, labels: seq<Label<Payload>>, s: System<Payload>, id: string)
    requires Reached(reg, now, labels, s) && id in s.insts && s.insts[id].phase.Waiting?
    ensures Entered(s.insts[id].phase.wait)
  {
    RunsLegal(reg, now, labels, s, id);
  }

  lemma BidsTaken(b: BiddingInput, t: Clock, w: Wait<Payload>, left: int)
    requires w.cases == Bids(b, t).cases && Entered(w) && left == b.deadline - t.until
    ensures TakesBids(w, left)
  {
    assert w.cases[0].callName == "place-bid" && w.cases[0].timer.None?;
    assert w.cases[..1] == [w.cases[0]] && w.cases[..1][..0] == [];
    assert Deadlines(w.cases[..1], w.entered) == Deadlines<Payload>([], w.entered) == [];
  }

  /** The timer closes the auction: a run that it fired ended the routine, unless its handler failed. */
  lemma TimerCloses(reg: Recovery, now: int, labels: seq<Label<Payload>>, s: System<Payload>, id: string,
                    clock: nat -> Clock, j: nat)
    requires Auctions(reg, now, labels, s, id, clock) && j < |s.insts[id].runs|
    requires s.insts[id].runs[j].firing.ByTimer? && s.insts[id].runs[j].primary.Returned?
    ensures j == |s.insts[id].runs| - 1 && UsedIn(reg, s.insts[id].runs[j]).Returned?
    ensures UsedIn(reg, s.insts[id].runs[j]).output.done
  {
    RunsLegal(reg, now, labels, s, id);
    var i := s.insts[id];
    LegalAt(reg, i.key, i.input, i.runs, j);
    Before(reg, clock, i, j);
    NextEvent(reg, clock(j - 1), i.runs[j - 1], Held(reg, i.runs[j - 1]), i.runs[j]);
    KeysDiffer();
    if j < |i.runs| - 1 {
      LegalAt(reg, i.key, i.input, i.runs, j + 1);
    }
  }

  /** As long as an auction is open, its state is the result of the bids so far, its deadline is the one set when it
      opened, and what a query shows is its state. */
  lemma StateIsShown(reg: Recovery, now: int, labels: seq<Label<Payload>>, s: System<Payload>, id: string,
                     clock: nat -> Clock) returns (b: BiddingInput)
    requires Auctions(reg, now, labels, s, id, clock) && s.insts[id].phase.Waiting?
    ensures var i := s.insts[id];
      && i.runs != [] && i.phase.wait.cases == Bids(b, clock(|i.runs| - 1)).cases
      && ResultOfBids(i.input.startingBid, BidsOf(i.runs), b.highestBid, b.leader, b.bidCount)
      && b.deadline == clock(0).now + i.input.duration
      && b.itemName == i.input.itemName
      && Find(i.queries, "auction-status") == Some(Status(b.itemName, b.highestBid, b.leader, b.bidCount))
  {
    RunsLegal(reg, now, labels, s, id);
    ReachedKeeps(reg, now, labels, s);
    var i := s.insts[id];
    assert InstInv(reg, i);
    var j := |i.runs| - 1;
    assert i.runs[..j + 1] == i.runs;
    b := Held(reg, i.runs[j]);
    RunsAgree(reg, clock, i, j);
  }

  /** A processed bid was accepted exactly if it is higher than the starting bid and all bids processed before. */
  lemma AcceptedIfHigher(reg: Recovery, now: int, labels: seq<Label<Payload>>, s: System<Payload>, id: string,
                         clock: nat -> Clock, j: nat)
    requires Auctions(reg, now, labels, s, id, clock) && j < |s.insts[id].runs| && IsBid(s.insts[id].runs[j])
    ensures var runs := s.insts[id].runs;
      var bids := BidsOf(runs[..j + 1]);
      && bids != []
      && Answers(UsedIn(reg, runs[j]), NewMaximum(s.insts[id].input.startingBid, bids, |bids| - 1))
  {
    RunsLegal(reg, now, labels, s, id);
    BidAccepted(reg, clock, s.insts[id], j);
  }

  /** The highest of the starting bid and these bids. */
  ghost predicate IsHighest(start: real, bids: seq<Bid>, amount: real) {
    && amount >= start && (forall k :: 0 <= k < |bids| ==> bids[k].amount <= amount)
    && (amount == start || exists k :: 0 <= k < |bids| && bids[k].amount == amount)
  }

  /** Whoever places a bid is told the highest amount so far, this bid included. */
  lemma BidderIsTold(reg: Recovery, now: int, labels: seq<Label<Payload>>, s: System<Payload>, id: string,
                     clock: nat -> Clock, j: nat) returns (resp: Payload)
    requires Auctions(reg, now, labels, s, id, clock) && j < |s.insts[id].runs| && IsBid(s.insts[id].runs[j])
    ensures UsedIn(reg, s.insts[id].runs[j]).Returned? && resp.PlaceBidResp?
    ensures UsedIn(reg, s.insts[id].runs[j]).output.callResponse == Some(resp)
    ensures IsHighest(s.insts[id].input.startingBid, BidsOf(s.insts[id].runs[..j + 1]), resp.highestBid)
  {
    RunsLegal(reg, now, labels, s, id);
    var i := s.insts[id];
    BidMade(reg, clock, i, j);
    BidTold(i.input.startingBid, BidsOf(i.runs[..j]), Held(reg, i.runs[j - 1]), i.runs[j], Held(reg, i.runs[j]));
    resp := UsedIn(reg, i.runs[j]).output.callResponse.value;
  }

  lemma BidMade(reg: Recovery, clock: nat -> Clock, i: Inst<Payload>, j: nat)
    requires Serves(reg, clock, i) && Legal(reg, i.key, i.input, i.runs) && j < |i.runs| && IsBid(i.runs[j])
    ensures j > 0
    ensures var r, b := i.runs[j], Held(reg, i.runs[j - 1]);
      && Moves(clock(j), b, r, UsedIn(reg, r), Held(reg, r))
      && ResultOfBids(i.input.startingBid, BidsOf(i.runs[..j]), b.highestBid, b.leader, b.bidCount)
      && BidsOf(i.runs[..j + 1]) == BidsOf(i.runs[..j]) + [Bid(r.msg.value.bidderID, r.msg.value.amount)]
  {
    Before(reg, clock, i, j);
    var b := Held(reg, i.runs[j - 1]);
    NextEvent(reg, clock(j - 1), i.runs[j - 1], b, i.runs[j]);
    RunMoves(reg, clock(j), b, i.runs[j]);
    HistoryNext(reg, i.runs, j);
  }

  lemma BidAccepted(reg: Recovery, clock: nat -> Clock, i: Inst<Payload>, j: nat)
    requires Serves(reg, clock, i) && Legal(reg, i.key, i.input, i.runs) && j < |i.runs| && IsBid(i.runs[j])
    ensures var bids := BidsOf(i.runs[..j + 1]);
      bids != [] && Answers(UsedIn(reg, i.runs[j]), NewMaximum(i.input.startingBid, bids, |bids| - 1))
  {
    BidMade(reg, clock, i, j);
    var r, b := i.runs[j], Held(reg, i.runs[j - 1]);
    ResultNext(i.input.startingBid, BidsOf(i.runs[..j]), b.highestBid, b.leader, b.bidCount,
               Bid(r.msg.value.bidderID, r.msg.value.amount));
  }

  lemma BidTold(start: real, bids: seq<Bid>, b: BiddingInput, r: Run<Payload>, b2: BiddingInput)
    requires IsBid(r) && ResultOfBids(start, bids, b.highestBid, b.leader, b.bidCount)
    requires b2.highestBid == if r.msg.value.amount > b.highestBid then r.msg.value.amount else b.highestBid
    ensures IsHighest(start, bids + [Bid(r.msg.value.bidderID, r.msg.value.amount)], b2.highestBid)
  {
    var bid := Bid(r.msg.value.bidderID, r.msg.value.amount);
    HighestBounds(start, bids, b.highestBid, b.leader, b.bidCount);
    var all := bids + [bid];
    assert all[|bids|] == bid && forall k :: 0 <= k < |bids| ==> all[k] == bids[k];
  }

  /** A bid whose handler failed, but not the recovery handler, was refused with the error, and its caller told so. */
  lemma FailedBidsRefused(reg: Recovery, now: int, labels: seq<Label<Payload>>, s: System<Payload>, id: string,
                          clock: nat -> Clock, j: nat)
    requires Auctions(reg, now, labels, s, id, clock) && j < |s.insts[id].runs|
    requires var r := s.insts[id].runs[j];
      r.firing.ByCall? && r.primary.Failed? && r.recovery.Returned? && r.msg.Some? && r.msg.value.PlaceBidReq?
    requires j < |s.insts[id].runs| - 1 || !s.insts[id].phase.Applying?
    ensures var r := s.insts[id].runs[j];
      Reply(r.firing.call, Ok(Some(PlaceBidResp(false, 0.0, "bid processing failed: " + r.primary.error))))
        in s.insts[id].box.replied
  {
    RunsLegal(reg, now, labels, s, id);
    var i := s.insts[id];
    Before(reg, clock, i, j);
    NextEvent(reg, clock(j - 1), i.runs[j - 1], Held(reg, i.runs[j - 1]), i.runs[j]);
    ReplyIsTheRuns(reg, now, labels, s, id, j);
  }

  /** What a run after the first finds. */
  lemma Before(reg: Recovery, clock: nat -> Clock, i: Inst<Payload>, j: nat)
    requires Serves(reg, clock, i) && Legal(reg, i.key, i.input, i.runs) && j < |i.runs| && i.runs[j].firing != ByStart
    ensures j > 0 && Handled(reg, clock(j), i.runs[j])
    ensures var prev, r := i.runs[j - 1], i.runs[j];
      var b := Held(reg, prev);
      && Follows(reg, prev, r.firing, r.key, r.input, r.msg)
      && UsedIn(reg, prev).Returned? && UsedIn(reg, prev).output.cases == Bids(b, clock(j - 1)).cases
      && b.deadline == clock(0).now + i.input.duration
      && ResultOfBids(i.input.startingBid, BidsOf(i.runs[..j]), b.highestBid, b.leader, b.bidCount)
  {
    LegalAt(reg, i.key, i.input, i.runs, j);
    RunsAgree(reg, clock, i, j - 1);
  }

  /** No auction closes before its deadline, if handlers' clocks do not run ahead of the runtime's. Take any state
      in which the run that the closing timer follows has been made and its wait has not begun, and any later one in
      which the auction has closed: the clock shows the deadline or more. */
  lemma NeverClosesEarly(reg: Recovery, now: int, before: seq<Label<Payload>>, s0: System<Payload>,
                         after: seq<Label<Payload>>, s: System<Payload>, id: string, clock: nat -> Clock, j: nat)
    requires Reached(reg, now, before, s0) && Exec(reg, s0, after) == Some(s)
    requires Auctions(reg, now, before + after, s, id, clock)
    requires 0 < j < |s.insts[id].runs| && s.insts[id].runs[j].firing.ByTimer?
    requires id in s0.insts && s0.insts[id].phase.Applying? && |s0.insts[id].runs| == j && clock(j - 1).until <= s0.now
    ensures s.now >= clock(0).now + s.insts[id].input.duration
  {
    RunsLegal(reg, now, before + after, s, id);
    var i := s.insts[id];
    Before(reg, clock, i, j);
    Timing.TimersTakeTime(reg, now, before, s0, after, s, id, j);
    ClosingTimer(reg, clock(j - 1), i.runs[j - 1], Held(reg, i.runs[j - 1]), i.runs[j]);
  }

  lemma ClosingTimer(reg: Recovery, t: Clock, prev: Run<Payload>, b: BiddingInput, r: Run<Payload>)
    requires UsedIn(reg, prev).Returned? && UsedIn(reg, prev).output.cases == Bids(b, t).cases
    requires Follows(reg, prev, r.firing, r.key, r.input, r.msg) && r.firing.ByTimer?
    ensures UsedIn(reg, prev).output.cases[r.firing.idx].timer == Some(b.deadline - t.until)
  {}
}
