/** Runs from the first request on that show what the conditions of TransferOnce.AtMostOneCompletion are for. */
module TransferOverlaps {
  import opened Common
  import opened TransferService
  import opened TransferFlow
  import opened TransferRank
  import opened TransferSlips
  import opened TransferOnce

  lemma ApartSnoc(steps: seq<Step>, step: Step, buyers: bool, sellers: bool)
    requires ApartRun(steps, buyers, sellers) && Apart(Run(INIT, steps), step, buyers, sellers)
    ensures ApartRun(steps + [step], buyers, sellers)
    ensures Run(INIT, steps + [step]) == Next(Run(INIT, steps), step)
  {
    assert (steps + [step])[..|steps|] == steps;
  }

  /** Moves never break the rule. */
  lemma {:induction false} ApartPlay(steps: seq<Step>, id: FlightId, replies: seq<Reply>, buyers: bool, sellers: bool)
    returns (longer: seq<Step>)
    requires ApartRun(steps, buyers, sellers)
    ensures ApartRun(longer, buyers, sellers) && Run(INIT, longer) == Play(Run(INIT, steps), id, replies)
    decreases |replies|
  {
    longer := steps;
    if replies != [] {
      ApartSnoc(steps, Move(id, replies[0]), buyers, sellers);
      longer := ApartPlay(steps + [Move(id, replies[0])], id, replies[1..], buyers, sellers);
    }
  }

  /** A request from its GET on. */
  lemma Visit(before: seq<Step>, id: FlightId, handler: Handler, user: UserId, replies: seq<Reply>, buyers: bool, sellers: bool)
    returns (steps: seq<Step>)
    requires ApartRun(before, buyers, sellers)
    requires Apart(Run(INIT, before), Start(id, handler, user, Ok, 0), buyers, sellers)
    ensures ApartRun(steps, buyers, sellers)
    ensures Run(INIT, steps) == Play(Next(Run(INIT, before), Start(id, handler, user, Ok, 0)), id, replies)
  {
    ApartSnoc(before, Start(id, handler, user, Ok, 0), buyers, sellers);
    steps := ApartPlay(before + [Start(id, handler, user, Ok, 0)], id, replies, buyers, sellers);
  }

  const BUYER := "buyer"
  const SELLER := "seller"
  const SID := "sid"
  const YES := Reply(Ok, Go, SID, 0)
  const LOST := Reply(Err(false), Go, SID, 0)

  /** A transfer that waits for the buyer's code. */
  function Opened(): Transfer {
    Created("listing", BUYER, SELLER, 0.0, 0).(status := PendingBuyerOtp, buyerSid := Some(SID))
  }

  /** The same once the buyer's code is in. */
  function Offered(): Transfer {
    Opened().(status := PendingSellerOtp, buyerOtp := true, sellerSid := Some(SID))
  }

  /** A flight moved to `pc`. */
  function At(s: State, id: FlightId, pc: Pc): State
    requires id in s.flights
  {
    s.(flights := s.flights[id := s.flights[id].(pc := pc)])
  }

  lemma Starts(s: State, id: FlightId, handler: Handler, user: UserId)
    requires s.record.Some? && id !in s.flights && s.record.value.expiresAt >= 0
    ensures Next(s, Start(id, handler, user, Ok, 0))
      == s.(flights := s.flights[id := Flight(user, 0, Guard(s.record.value, handler, user))])
  {
  }

  lemma OpenedRun(buyers: bool, sellers: bool) returns (steps: seq<Step>)
    ensures ApartRun(steps, buyers, sellers)
    ensures Run(INIT, steps) == State(Some(Opened()), map[0 := Flight(BUYER, 0, Finished)], [])
  {
    var init := Initiate(0, "listing", BUYER, SELLER, 0.0, 0.0, 0);
    ApartSnoc([], init, buyers, sellers);
    steps := [] + [init];
    AnsweredCalls(Created("listing", BUYER, SELLER, 0.0, 0), SID, 0);
    ApartSnoc(steps, Move(0, YES), buyers, sellers);
    steps := steps + [Move(0, YES)];
    assert map[0 := Flight(BUYER, 0, InitPatch)][0 := Flight(BUYER, 0, Finished)] == map[0 := Flight(BUYER, 0, Finished)];
  }

  // What single requests do.

  const LINGERING := [YES] + ([LOST] + [YES])
  const BUYING := [YES] + ([YES] + ([YES] + [YES]))

  /** buyer_verify up to its last PATCH, its first PATCH lost. */
  lemma BuyerLingers(s: State, id: FlightId)
    requires s.record.Some? && id in s.flights && s.flights[id].pc.BuyerCode?
    ensures Play(s, id, LINGERING) == At(s, id, BuyerPatch).(log := s.log + [BuyerAccepted])
  {
    PlayFirst(s, id, YES, [LOST] + [YES]);
    var s1 := At(s, id, BuyerFlag).(log := s.log + [BuyerAccepted]);
    assert Next(s, Move(id, YES)) == s1;
    PlayFirst(s1, id, LOST, [YES]);
    var s2 := At(s1, id, SellerSend);
    assert Next(s1, Move(id, LOST)) == s2;
    PlayFirst(s2, id, YES, []);
    assert Next(s2, Move(id, YES)) == At(s2, id, BuyerPatch);
  }

  /** buyer_verify with every call answered. */
  lemma BuyerPasses(s: State, id: FlightId)
    requires s.record == Some(Opened()) && id in s.flights && s.flights[id].pc.BuyerCode?
    ensures Play(s, id, BUYING) == At(s, id, Finished).(record := Some(Offered()), log := s.log + [BuyerAccepted])
  {
    PlayFirst(s, id, YES, [YES] + ([YES] + [YES]));
    var s1 := At(s, id, BuyerFlag).(log := s.log + [BuyerAccepted]);
    assert Next(s, Move(id, YES)) == s1;
    PlayFirst(s1, id, YES, [YES] + [YES]);
    AnsweredCalls(Opened(), SID, 0);
    var t := Opened().(buyerOtp := true);
    AnsweredCalls(t, SID, 0);
    var s2 := At(s1, id, SellerSend).(record := Some(t));
    assert Next(s1, Move(id, YES)) == s2;
    PlayFirst(s2, id, YES, [YES]);
    var s3 := At(s2, id, BuyerPatch);
    assert Next(s2, Move(id, YES)) == s3;
    PlayFirst(s3, id, YES, []);
  }

  function Selling(flag: Reply): seq<Reply> {
    [YES] + ([flag] + ([YES] + ([YES] + [YES])))
  }

  predicate Awaits(t: Transfer) {
    Guard(t, SellerVerify, SELLER).SellerCode? && t.expiresAt >= 0
  }

  /** seller_verify that completes the transfer, its first PATCH answered or lost. */
  lemma SellerPasses(s: State, id: FlightId, flag: Reply)
    requires s.record.Some? && Awaits(s.record.value) && id in s.flights && s.flights[id].pc.SellerCode? && flag in {YES, LOST}
    ensures
      var e := Play(s, id, Selling(flag));
      && e.record == Some(s.record.value.(status := Completed, completedAt := Some(0), sellerOtp := flag == YES))
      && e.flights == s.flights[id := s.flights[id].(pc := Finished)]
      && e.log == s.log + [SellerAccepted] + [TransferDone]
  {
    PlayFirst(s, id, YES, [flag] + ([YES] + ([YES] + [YES])));
    var s1 := At(s, id, SellerFlag).(log := s.log + [SellerAccepted]);
    assert Next(s, Move(id, YES)) == s1;
    PlayFirst(s1, id, flag, [YES] + ([YES] + [YES]));
    SellerFlags(s1, id, flag);
    SellerCloses(At(s1, id, Funds).(record := Some(s.record.value.(sellerOtp := flag == YES))), id);
  }

  lemma SellerFlags(s: State, id: FlightId, flag: Reply)
    requires s.record.Some? && Awaits(s.record.value) && id in s.flights && s.flights[id].pc.SellerFlag? && flag in {YES, LOST}
    ensures Next(s, Move(id, flag)) == At(s, id, Funds).(record := Some(s.record.value.(sellerOtp := flag == YES)))
  {
    SetOne(s.record.value, SetSellerOtp(true));
  }

  lemma SellerCloses(s: State, id: FlightId)
    requires s.record.Some? && s.record.value.status == PendingSellerOtp && s.record.value.expiresAt >= 0
    requires id in s.flights && s.flights[id].pc.Funds?
    ensures
      var e := Play(s, id, [YES] + ([YES] + [YES]));
      && e.record == Some(s.record.value.(status := Completed, completedAt := Some(0)))
      && e.flights == s.flights[id := s.flights[id].(pc := Finished)]
      && e.log == s.log + [TransferDone]
  {
    PlayFirst(s, id, YES, [YES] + [YES]);
    var s1 := At(s, id, Saga);
    assert Next(s, Move(id, YES)) == s1;
    PlayFirst(s1, id, YES, [YES]);
    var s2 := At(s1, id, Complete);
    assert Next(s1, Move(id, YES)) == s2;
    PlayFirst(s2, id, YES, []);
    CompleteStep(s2, id, YES);
  }

  // Two buyer_verify requests.

  /** The first one lingers before its last PATCH, the second one goes through. */
  lemma TwoBuyers() returns (steps: seq<Step>)
    ensures ApartRun(steps, false, true)
    ensures
      var s := Run(INIT, steps);
      && s.record == Some(Offered()) && s.flights.Keys == {0, 1, 2} && s.log == [BuyerAccepted, BuyerAccepted]
      && s.flights[0].pc.Finished? && s.flights[1].pc.BuyerPatch? && s.flights[2].pc.Finished?
  {
    steps := OpenedRun(false, true);
    var s := Run(INIT, steps);
    Starts(s, 1, BuyerVerify, BUYER);
    BuyerLingers(Next(s, Start(1, BuyerVerify, BUYER, Ok, 0)), 1);
    steps := Visit(steps, 1, BuyerVerify, BUYER, LINGERING, false, true);
    SecondBuyer(Run(INIT, steps));
    steps := Visit(steps, 2, BuyerVerify, BUYER, BUYING, false, true);
  }

  lemma SecondBuyer(s: State)
    requires s.record == Some(Opened()) && s.flights.Keys == {0, 1}
    ensures
      var e := Play(Next(s, Start(2, BuyerVerify, BUYER, Ok, 0)), 2, BUYING);
      && e.record == Some(Offered()) && e.log == s.log + [BuyerAccepted]
      && e.flights == s.flights[2 := Flight(BUYER, 0, Finished)]
  {
    Starts(s, 2, BuyerVerify, BUYER);
    BuyerPasses(Next(s, Start(2, BuyerVerify, BUYER, Ok, 0)), 2);
  }

  lemma SellerVisit(s: State, id: FlightId, flag: Reply)
    requires s.record.Some? && Awaits(s.record.value) && id !in s.flights && flag in {YES, LOST}
    ensures
      var e := Play(Next(s, Start(id, SellerVerify, SELLER, Ok, 0)), id, Selling(flag));
      && e.record == Some(s.record.value.(status := Completed, completedAt := Some(0), sellerOtp := flag == YES))
      && e.flights == s.flights[id := Flight(SELLER, 0, Finished)]
      && e.log == s.log + [SellerAccepted] + [TransferDone]
  {
    Starts(s, id, SellerVerify, SELLER);
    SellerPasses(Next(s, Start(id, SellerVerify, SELLER, Ok, 0)), id, flag);
  }

  /** The lingering PATCH of buyer_verify takes a completed transfer back to the seller's turn. */
  lemma LatePatch(s: State, id: FlightId)
    requires s.record.Some? && s.record.value.status == Completed && id in s.flights && s.flights[id].pc.BuyerPatch?
    ensures Next(s, Move(id, YES)) == At(s, id, Finished).(
      record := Some(s.record.value.(buyerOtp := true, sellerSid := Some(SID), status := PendingSellerOtp)))
  {
    BuyerCalls(s.record.value, YES);
  }

  lemma OneMore(log: seq<Event>)
    ensures Completions(log + [SellerAccepted] + [TransferDone]) == Completions(log) + 1
  {
    LogCount(log, SellerAccepted);
    LogCount(log + [SellerAccepted], TransferDone);
  }

  /** A seller_verify that completes the transfer and is over, begun while none is at work. */
  lemma Sale(before: seq<Step>, id: FlightId, flag: Reply) returns (steps: seq<Step>)
    requires ApartRun(before, false, true) && flag in {YES, LOST}
    requires
      var s := Run(INIT, before);
      s.record.Some? && Awaits(s.record.value) && id !in s.flights && NoSeller(s)
    ensures ApartRun(steps, false, true)
    ensures
      var s := Run(INIT, before);
      var e := Run(INIT, steps);
      && e.record == Some(s.record.value.(status := Completed, completedAt := Some(0), sellerOtp := flag == YES))
      && e.flights == s.flights[id := Flight(SELLER, 0, Finished)]
      && Completions(e.log) == Completions(s.log) + 1
  {
    SellerVisit(Run(INIT, before), id, flag);
    OneMore(Run(INIT, before).log);
    steps := Visit(before, id, SellerVerify, SELLER, Selling(flag), false, true);
  }

  lemma TwoAccepted()
    ensures Completions([BuyerAccepted, BuyerAccepted]) == 0
  {
    LogCount([], BuyerAccepted);
    LogCount([BuyerAccepted], BuyerAccepted);
    assert [] + [BuyerAccepted] == [BuyerAccepted] && [BuyerAccepted] + [BuyerAccepted] == [BuyerAccepted, BuyerAccepted];
  }

  /** The first sale, with the seller's first PATCH lost, and the lingering PATCH after it. */
  lemma Reopened() returns (steps: seq<Step>)
    ensures ApartRun(steps, false, true)
    ensures
      var s := Run(INIT, steps);
      && s.record.Some? && Awaits(s.record.value) && s.flights.Keys == {0, 1, 2, 3} && NoSeller(s)
      && Completions(s.log) == 1
  {
    var before := TwoBuyers();
    TwoAccepted();
    steps := Sale(before, 3, LOST);
    LatePatch(Run(INIT, steps), 1);
    ApartSnoc(steps, Move(1, YES), false, true);
    steps := steps + [Move(1, YES)];
  }

  /** A run from the start in which no two seller_verify requests overlap, and yet two sagas complete: of two
      overlapping buyer_verify requests the late one reopens the completed transfer. */
  lemma OverlappingBuyersCompleteTwice() returns (steps: seq<Step>)
    ensures ApartRun(steps, false, true) && Completions(Run(INIT, steps).log) == 2
  {
    var before := Reopened();
    steps := Sale(before, 4, YES);
  }

  // Two seller_verify requests.

  lemma DriveIsPlay(s: State, id: FlightId, now: Time)
    ensures
      var y := Reply(Ok, Go, "", now);
      Drive(s, id, now) == Play(s, id, [y] + ([y] + ([y] + [y])))
  {
    var y := Reply(Ok, Go, "", now);
    PlayFirst(s, id, y, [y] + ([y] + [y]));
    PlayFirst(Next(s, Move(id, y)), id, y, [y] + [y]);
    PlayFirst(Next(Next(s, Move(id, y)), Move(id, y)), id, y, [y]);
    PlayFirst(Next(Next(Next(s, Move(id, y)), Move(id, y)), Move(id, y)), id, y, []);
  }

  /** A run from the start in which no two buyer_verify requests overlap, and two overlapping seller_verify requests
      both complete the transfer. */
  lemma OverlappingSellersCompleteTwice() returns (steps: seq<Step>)
    ensures ApartRun(steps, true, false) && Completions(Run(INIT, steps).log) == 2
  {
    steps := OpenedRun(true, false);
    var s := Run(INIT, steps);
    Starts(s, 1, BuyerVerify, BUYER);
    BuyerPasses(Next(s, Start(1, BuyerVerify, BUYER, Ok, 0)), 1);
    steps := Visit(steps, 1, BuyerVerify, BUYER, BUYING, true, false);
    s := Run(INIT, steps);
    OverlappingSellerVerifyCompletesTwice(s, 2, 3, SELLER, 0);
    steps := BothSell(steps);
    LogCount([], BuyerAccepted);
    assert [] + [BuyerAccepted] == [BuyerAccepted];
  }

  lemma BothSell(before: seq<Step>) returns (steps: seq<Step>)
    requires ApartRun(before, true, false)
    ensures ApartRun(steps, true, false)
    ensures
      var y := Reply(Ok, Go, "", 0);
      var s := Run(INIT, before);
      var both := Next(Next(s, Start(2, SellerVerify, SELLER, Ok, 0)), Start(3, SellerVerify, SELLER, Ok, 0));
      Run(INIT, steps) == Next(Next(Drive(Drive(both, 2, 0), 3, 0), Move(2, y)), Move(3, y))
  {
    var y := Reply(Ok, Go, "", 0);
    var four := [y] + ([y] + ([y] + [y]));
    ApartSnoc(before, Start(2, SellerVerify, SELLER, Ok, 0), true, false);
    steps := before + [Start(2, SellerVerify, SELLER, Ok, 0)];
    ApartSnoc(steps, Start(3, SellerVerify, SELLER, Ok, 0), true, false);
    steps := steps + [Start(3, SellerVerify, SELLER, Ok, 0)];
    DriveIsPlay(Run(INIT, steps), 2, 0);
    steps := ApartPlay(steps, 2, four, true, false);
    DriveIsPlay(Run(INIT, steps), 3, 0);
    steps := ApartPlay(steps, 3, four, true, false);
    ApartSnoc(steps, Move(2, y), true, false);
    steps := steps + [Move(2, y)];
    ApartSnoc(steps, Move(3, y), true, false);
    steps := steps + [Move(3, y)];
  }

  /** Neither condition of TransferOnce.AtMostOneCompletion can be dropped. */
  lemma BothConditionsAreNeeded()
    ensures exists steps :: ApartRun(steps, false, true) && Completions(Run(INIT, steps).log) == 2
    ensures exists steps :: ApartRun(steps, true, false) && Completions(Run(INIT, steps).log) == 2
  {
    var a := OverlappingBuyersCompleteTwice();
    var b := OverlappingSellersCompleteTwice();
  }
}
