/** Transfers handled one request at a time by services whose clocks do not go back: the status changes at most
    seven times, and a run that slips attains that. */
module TransferClock {
  import opened Common
  import opened TransferService
  import opened TransferFlow
  import opened TransferRank
  import opened TransferSlips
  import opened TransferOverlaps

  function Clock(step: Step): Option<Time> {
    match step
    case Initiate(_, _, _, _, _, _, now) => Some(now)
    case Start(_, _, _, _, now) => Some(now)
    case Move(_, r) => Some(r.now)
    case ServiceCancel => None
  }

  /** The last clock reading of a run. */
  function Latest(steps: seq<Step>): Option<Time> {
    if steps == [] then None
    else if Clock(steps[|steps| - 1]).Some? then Clock(steps[|steps| - 1])
    else Latest(steps[..|steps| - 1])
  }

  predicate InOrder(latest: Option<Time>, step: Step) {
    latest.Some? && Clock(step).Some? ==> latest.value <= Clock(step).value
  }

  predicate OrderedRun(steps: seq<Step>) {
    steps == []
    || (OrderedRun(steps[..|steps| - 1]) && InOrder(Latest(steps[..|steps| - 1]), steps[|steps| - 1]))
  }

  function After(latest: Option<Time>, step: Step): Option<Time> {
    if Clock(step).Some? then Clock(step) else latest
  }

  // The bound.

  predicate Late(t: Transfer, latest: Option<Time>) {
    latest.Some? && latest.value > t.expiresAt
  }

  /** A record is expired only when the clock has passed its deadline. */
  predicate ExpiredLate(s: State, latest: Option<Time>) {
    s.record.Some? && s.record.value.status == Expired ==> Late(s.record.value, latest)
  }

  /** An upper bound on the changes still to come, if a flight at `pc` is the only one that may be running. */
  function Left(status: Status, pc: Pc, late: bool): nat {
    match status
    case PendingSellerAcceptance => 7
    case PendingBuyerOtp => 6
    case PendingSellerOtp => if !late || SellerSide(pc) then 5 else 2
    case Failed => 2
    case Expired => if pc in {SellerSend, BuyerPatch} then 3 else if pc in {Funds, Saga, Complete, MarkFailed} then 4 else 1
    case Completed => if pc.MarkFailed? then 3 else 0
    case Cancelled => 0
  }

  lemma ActLeft(t: Transfer, pc: Pc, r: Reply, latest: Option<Time>)
    requires Fits(t.status, pc) && (t.status == Expired ==> Late(t, latest))
    requires latest.Some? ==> latest.value <= r.now
    ensures
      var e := Act(t, pc, r);
      && Left(t.status, pc, Late(t, latest))
         >= Left(e.record.status, e.pc, Late(e.record, Some(r.now))) + (if e.record.status != t.status then 1 else 0)
      && (e.record.status == Expired ==> Late(e.record, Some(r.now)))
  {
    ActStatus(t, pc, r);
  }

  /** The flight that is running, if one is. */
  predicate Lone(s: State, pc: Pc) {
    if Idle(s) then pc.Finished?
    else exists id :: id in s.flights && s.flights[id].pc == pc && !pc.Finished?
  }

  predicate LeftIn(s: State, latest: Option<Time>, n: nat) {
    if s.record.None? then n == 7
    else exists pc :: Lone(s, pc) && n == Left(s.record.value.status, pc, Late(s.record.value, latest))
  }

  lemma LoneIs(s: State, id: FlightId)
    requires OneAtATime(s) && id in s.flights && !s.flights[id].pc.Finished?
    ensures Lone(s, s.flights[id].pc)
    ensures forall pc :: Lone(s, pc) ==> pc == s.flights[id].pc
  {
  }

  /** Time alone never adds to the bound. */
  lemma Waits(s: State, latest: Option<Time>, later: Option<Time>, n: nat) returns (m: nat)
    requires LeftIn(s, latest, n) && ExpiredLate(s, latest)
    requires latest.Some? ==> later.Some? && latest.value <= later.value
    ensures LeftIn(s, later, m) && m <= n && ExpiredLate(s, later)
  {
    m := n;
    if s.record.Some? {
      var t := s.record.value;
      var pc :| Lone(s, pc) && n == Left(t.status, pc, Late(t, latest));
      m := Left(t.status, pc, Late(t, later));
    }
  }

  lemma MoveLeft(s: State, id: FlightId, r: Reply, latest: Option<Time>, n: nat) returns (m: nat)
    requires OneAtATime(s) && ExpiredLate(s, latest) && LeftIn(s, latest, n) && (latest.Some? ==> latest.value <= r.now)
    requires s.record.Some? && id in s.flights && !s.flights[id].pc.Finished?
    ensures
      var t := Next(s, Move(id, r));
      && LeftIn(t, Some(r.now), m) && ExpiredLate(t, Some(r.now))
      && n >= m + if Changed(StatusOf(s), StatusOf(t)) then 1 else 0
  {
    var t, pc := s.record.value, s.flights[id].pc;
    var e := Act(t, pc, r);
    LoneIs(s, id);
    ActLeft(t, pc, r, latest);
    StepClimbsExactly(s, Move(id, r));
    var u := Next(s, Move(id, r));
    m := Left(e.record.status, e.pc, Late(e.record, Some(r.now)));
    if e.pc.Finished? {
      assert Idle(u) && Lone(u, Finished);
    } else {
      LoneIs(u, id);
    }
  }

  lemma StartLeft(s: State, step: Step, latest: Option<Time>, n: nat) returns (m: nat)
    requires OneAtATime(s) && Idle(s) && ExpiredLate(s, latest) && InOrder(latest, step) && LeftIn(s, latest, n)
    requires step.Start? && s.record.Some? && step.id !in s.flights && step.net.Applied()
    ensures
      var t := Next(s, step);
      && LeftIn(t, Some(step.now), m) && ExpiredLate(t, Some(step.now))
      && n >= m + if Changed(StatusOf(s), StatusOf(t)) then 1 else 0
  {
    var t := Lookup(s.record.value, step.now);
    var u := Next(s, step);
    var pc := u.flights[step.id].pc;
    StepClimbsExactly(s, step);
    m := Left(t.status, pc, Late(t, Some(step.now)));
    assert Lone(s, Finished);
    if pc.Finished? {
      assert Idle(u) && Lone(u, Finished);
    } else {
      LoneIs(u, step.id);
    }
  }

  /** A step either leaves everything as it was, or is one of those above. */
  lemma StepLeft(s: State, step: Step, latest: Option<Time>, n: nat) returns (m: nat)
    requires OneAtATime(s) && Solo(s, step) && ExpiredLate(s, latest) && InOrder(latest, step) && LeftIn(s, latest, n)
    ensures LeftIn(Next(s, step), After(latest, step), m) && ExpiredLate(Next(s, step), After(latest, step))
    ensures n >= m + if Changed(StatusOf(s), StatusOf(Next(s, step))) then 1 else 0
  {
    var u := Next(s, step);
    if step.Move? && s.record.Some? && step.id in s.flights && !s.flights[step.id].pc.Finished? {
      m := MoveLeft(s, step.id, step.reply, latest, n);
    } else if step.Start? && s.record.Some? && step.id !in s.flights && step.net.Applied() {
      m := StartLeft(s, step, latest, n);
    } else if step.Initiate? && u != s {
      m := 7;
      assert Lone(u, InitPatch) by {
        assert step.id in u.flights && u.flights[step.id].pc == InitPatch;
      }
    } else if step.ServiceCancel? && u != s {
      m := 0;
      assert Lone(u, Finished);
    } else {
      if step.Move? {
        OverMoves(s, step.id, step.reply);
      }
      assert u == s;
      m := Waits(s, latest, After(latest, step), n);
    }
  }

  lemma TrailSnoc(steps: seq<Step>, step: Step)
    ensures Changes(Trail(steps + [step]))
      == Changes(Trail(steps)) + if Changed(StatusOf(Run(INIT, steps)), StatusOf(Next(Run(INIT, steps), step))) then 1 else 0
  {
    var more := steps + [step];
    assert more[..|more|] == more && more[..|steps|] == steps && steps[..|steps|] == steps;
    assert Trail(more)[..|steps| + 1] == Trail(steps) by {
      assert forall i :: 0 <= i <= |steps| ==> more[..i] == steps[..i];
    }
  }

  lemma {:induction false} ChangesLeft(steps: seq<Step>) returns (n: nat)
    requires SoloRun(steps) && OrderedRun(steps)
    ensures LeftIn(Run(INIT, steps), Latest(steps), n) && ExpiredLate(Run(INIT, steps), Latest(steps))
    ensures Changes(Trail(steps)) + n <= 7
  {
    n := 7;
    if steps != [] {
      var k := |steps| - 1;
      PrefixSolo(steps, k);
      var before := ChangesLeft(steps[..k]);
      OneAtATimeRun(steps[..k]);
      n := StepLeft(Run(INIT, steps[..k]), steps[k], Latest(steps[..k]), before);
      TrailSnoc(steps[..k], steps[k]);
      assert steps[..k] + [steps[k]] == steps;
    }
  }

  /** With requests one at a time and clocks in order the status changes at most seven times, whatever fails. */
  lemma AtMostSevenChanges(steps: seq<Step>)
    requires SoloRun(steps) && OrderedRun(steps)
    ensures Changes(Trail(steps)) <= 7
  {
    var n := ChangesLeft(steps);
  }

  // A run that attains the bound.

  /** A state, how often the status has changed on the way to it, and the time. */
  datatype Tally = Tally(state: State, changes: nat, now: Time)

  predicate Allows(x: Tally, step: Step) {
    Solo(x.state, step) && Clock(step).Some? && x.now <= Clock(step).value
  }

  function Advance(x: Tally, step: Step): Tally
    requires Allows(x, step)
  {
    var t := Next(x.state, step);
    Tally(t, x.changes + (if Changed(StatusOf(x.state), StatusOf(t)) then 1 else 0), Clock(step).value)
  }

  /** `steps` leads to `x` with requests one at a time and clocks in order. */
  predicate Reaches(steps: seq<Step>, x: Tally) {
    && SoloRun(steps) && OrderedRun(steps)
    && Run(INIT, steps) == x.state && Changes(Trail(steps)) == x.changes && Latest(steps) == Some(x.now)
  }

  lemma SoloSnoc(steps: seq<Step>, step: Step)
    requires SoloRun(steps) && Solo(Run(INIT, steps), step)
    ensures SoloRun(steps + [step])
  {
    var more := steps + [step];
    assert more[..|steps|] == steps;
    assert forall i :: 0 <= i < |steps| ==> more[..i] == steps[..i] && more[i] == steps[i];
  }

  lemma ReachesSnoc(steps: seq<Step>, x: Tally, step: Step)
    requires Reaches(steps, x) && Allows(x, step)
    ensures Reaches(steps + [step], Advance(x, step))
  {
    SoloSnoc(steps, step);
    TrailSnoc(steps, step);
    RunSnoc(INIT, steps, step);
    assert (steps + [step])[..|steps|] == steps;
  }

  /** `path` leads from `x` to `y`. */
  predicate Leads(x: Tally, path: seq<Step>, y: Tally)
    decreases |path|
  {
    if path == [] then x == y else Allows(x, path[0]) && Leads(Advance(x, path[0]), path[1..], y)
  }

  lemma LeadsFirst(x: Tally, step: Step, path: seq<Step>, y: Tally)
    requires Allows(x, step) && Leads(Advance(x, step), path, y)
    ensures Leads(x, [step] + path, y)
  {
    assert ([step] + path)[1..] == path;
  }

  lemma {:induction false} ReachesFar(steps: seq<Step>, x: Tally, path: seq<Step>, y: Tally) returns (longer: seq<Step>)
    requires Reaches(steps, x) && Leads(x, path, y)
    ensures Reaches(longer, y)
    decreases |path|
  {
    longer := steps;
    if path != [] {
      ReachesSnoc(steps, x, path[0]);
      longer := ReachesFar(steps + [path[0]], Advance(x, path[0]), path[1..], y);
    }
  }

  const DUE: Time := LIFETIME + 1
  const LATE := Reply(Ok, Go, SID, DUE)

  function NewRecord(): Transfer {
    Created("listing", BUYER, SELLER, 0.0, 0)
  }

  function Buyers(pc: Pc): map<FlightId, Flight> {
    map[0 := Flight(BUYER, 0, Finished), 1 := Flight(BUYER, 0, pc)]
  }

  function Sellers(pc: Pc): map<FlightId, Flight> {
    Buyers(Finished)[2 := Flight(SELLER, 0, pc)]
  }

  lemma Initiated() returns (steps: seq<Step>)
    ensures Reaches(steps, Tally(State(Some(NewRecord()), map[0 := Flight(BUYER, 0, InitPatch)], []), 0, 0))
  {
    var step := Initiate(0, "listing", BUYER, SELLER, 0.0, 0.0, 0);
    SoloSnoc([], step);
    TrailSnoc([], step);
    RunSnoc(INIT, [], step);
    steps := [] + [step];
    assert steps[..|steps| - 1] == [] && steps[|steps| - 1] == step;
    assert OrderedRun([]) && Latest([]) == None;
  }

  /** The PATCH of initiate and buyer_verify up to its first PATCH. */
  lemma OpeningLeads() returns (path: seq<Step>)
    ensures Leads(Tally(State(Some(NewRecord()), map[0 := Flight(BUYER, 0, InitPatch)], []), 0, 0), path,
                  Tally(State(Some(Opened()), Buyers(BuyerFlag), [BuyerAccepted]), 1, 0))
  {
    var x0 := Tally(State(Some(NewRecord()), map[0 := Flight(BUYER, 0, InitPatch)], []), 0, 0);
    var x1 := Tally(State(Some(Opened()), map[0 := Flight(BUYER, 0, Finished)], []), 1, 0);
    var x2 := Tally(State(Some(Opened()), Buyers(BuyerCode), []), 1, 0);
    var x3 := Tally(State(Some(Opened()), Buyers(BuyerFlag), [BuyerAccepted]), 1, 0);
    AnsweredCalls(NewRecord(), SID, 0);
    assert Advance(x0, Move(0, YES)) == x1;
    assert Advance(x1, Start(1, BuyerVerify, BUYER, Ok, 0)) == x2;
    assert Advance(x2, Move(1, YES)) == x3;
    LeadsFirst(x2, Move(1, YES), [], x3);
    LeadsFirst(x1, Start(1, BuyerVerify, BUYER, Ok, 0), [Move(1, YES)] + [], x3);
    path := [Move(0, YES)] + ([Start(1, BuyerVerify, BUYER, Ok, 0)] + ([Move(1, YES)] + []));
    LeadsFirst(x0, Move(0, YES), path[1..], x3);
  }

  /** The rest of buyer_verify, in time. */
  lemma OfferingLeads() returns (path: seq<Step>)
    ensures Leads(Tally(State(Some(Opened()), Buyers(BuyerFlag), [BuyerAccepted]), 1, 0), path,
                  Tally(State(Some(Offered()), Buyers(Finished), [BuyerAccepted]), 2, 0))
  {
    var t := Opened().(buyerOtp := true);
    var x0 := Tally(State(Some(Opened()), Buyers(BuyerFlag), [BuyerAccepted]), 1, 0);
    var x1 := Tally(State(Some(t), Buyers(SellerSend), [BuyerAccepted]), 1, 0);
    var x2 := Tally(State(Some(t), Buyers(BuyerPatch), [BuyerAccepted]), 1, 0);
    var x3 := Tally(State(Some(Offered()), Buyers(Finished), [BuyerAccepted]), 2, 0);
    AnsweredCalls(Opened(), SID, 0);
    AnsweredCalls(t, SID, 0);
    assert Advance(x0, Move(1, YES)) == x1;
    assert Advance(x1, Move(1, YES)) == x2;
    assert Advance(x2, Move(1, YES)) == x3;
    LeadsFirst(x2, Move(1, YES), [], x3);
    LeadsFirst(x1, Move(1, YES), [Move(1, YES)] + [], x3);
    path := [Move(1, YES)] + ([Move(1, YES)] + ([Move(1, YES)] + []));
    LeadsFirst(x0, Move(1, YES), path[1..], x3);
  }

  function LogSold(): seq<Event> {
    [BuyerAccepted, SellerAccepted]
  }

  /** seller_verify, whose first PATCH finds the deadline passed. */
  lemma SellingLeads() returns (path: seq<Step>)
    ensures Leads(Tally(State(Some(Offered()), Buyers(Finished), [BuyerAccepted]), 2, 0), path,
                  Tally(State(Some(Offered().(status := Expired)), Sellers(Funds), LogSold()), 3, DUE))
  {
    var x0 := Tally(State(Some(Offered()), Buyers(Finished), [BuyerAccepted]), 2, 0);
    var x1 := Tally(State(Some(Offered()), Sellers(SellerCode), [BuyerAccepted]), 2, 0);
    var x2 := Tally(State(Some(Offered()), Sellers(SellerFlag), LogSold()), 2, 0);
    var x3 := Tally(State(Some(Offered().(status := Expired)), Sellers(Funds), LogSold()), 3, DUE);
    MarkCalls(Offered(), LATE);
    assert Advance(x0, Start(2, SellerVerify, SELLER, Ok, 0)) == x1;
    assert Advance(x1, Move(2, YES)) == x2;
    assert Advance(x2, Move(2, LATE)) == x3;
    LeadsFirst(x2, Move(2, LATE), [], x3);
    LeadsFirst(x1, Move(2, YES), [Move(2, LATE)] + [], x3);
    path := [Start(2, SellerVerify, SELLER, Ok, 0)] + ([Move(2, YES)] + ([Move(2, LATE)] + []));
    LeadsFirst(x0, Start(2, SellerVerify, SELLER, Ok, 0), path[1..], x3);
  }

  function Sold(): Transfer {
    Offered().(status := Completed, completedAt := Some(DUE))
  }

  /** Its completing PATCH goes through all the same, but the reply is lost. */
  lemma CompletingLeads() returns (path: seq<Step>)
    ensures Leads(Tally(State(Some(Offered().(status := Expired)), Sellers(Funds), LogSold()), 3, DUE), path,
                  Tally(State(Some(Sold()), Sellers(MarkFailed), LogDone()), 4, DUE))
  {
    var t := Offered().(status := Expired);
    var unheard := Reply(Err(true), Go, SID, DUE);
    var x0 := Tally(State(Some(t), Sellers(Funds), LogSold()), 3, DUE);
    var x1 := Tally(State(Some(t), Sellers(Saga), LogSold()), 3, DUE);
    var x2 := Tally(State(Some(t), Sellers(Complete), LogSold()), 3, DUE);
    var x3 := Tally(State(Some(Sold()), Sellers(MarkFailed), LogDone()), 4, DUE);
    CompleteStep(x2.state, 2, unheard);
    assert Sellers(Complete)[2 := Flight(SELLER, 0, MarkFailed)] == Sellers(MarkFailed);
    assert Advance(x0, Move(2, LATE)) == x1;
    assert Advance(x1, Move(2, LATE)) == x2;
    assert Advance(x2, Move(2, unheard)) == x3;
    LeadsFirst(x2, Move(2, unheard), [], x3);
    LeadsFirst(x1, Move(2, LATE), [Move(2, unheard)] + [], x3);
    path := [Move(2, LATE)] + ([Move(2, LATE)] + ([Move(2, unheard)] + []));
    LeadsFirst(x0, Move(2, LATE), path[1..], x3);
  }

  function Polled(): map<FlightId, Flight> {
    Sellers(Finished)[3 := Flight(BUYER, DUE, Finished)]
  }

  function Cancelling(pc: Pc): map<FlightId, Flight> {
    Polled()[4 := Flight(BUYER, DUE, pc)]
  }

  function LogDone(): seq<Event> {
    LogSold() + [TransferDone]
  }

  /** The failure mark. */
  lemma FailingLeads() returns (path: seq<Step>)
    ensures Leads(Tally(State(Some(Sold()), Sellers(MarkFailed), LogDone()), 4, DUE), path,
                  Tally(State(Some(Sold().(status := Failed)), Sellers(Finished), LogDone()), 5, DUE))
  {
    var x0 := Tally(State(Some(Sold()), Sellers(MarkFailed), LogDone()), 4, DUE);
    var x1 := Tally(State(Some(Sold().(status := Failed)), Sellers(Finished), LogDone()), 5, DUE);
    MarkCalls(Sold(), LATE);
    assert Sellers(MarkFailed)[2 := Flight(SELLER, 0, Finished)] == Sellers(Finished);
    assert Advance(x0, Move(2, LATE)) == x1;
    path := [Move(2, LATE)] + [];
    LeadsFirst(x0, Move(2, LATE), [], x1);
  }

  /** A look at the failed transfer. */
  lemma PollingLeads() returns (path: seq<Step>)
    ensures Leads(Tally(State(Some(Sold().(status := Failed)), Sellers(Finished), LogDone()), 5, DUE), path,
                  Tally(State(Some(Sold().(status := Expired)), Polled(), LogDone()), 6, DUE))
  {
    var x0 := Tally(State(Some(Sold().(status := Failed)), Sellers(Finished), LogDone()), 5, DUE);
    var x1 := Tally(State(Some(Sold().(status := Expired)), Polled(), LogDone()), 6, DUE);
    var poll := Start(3, Poll, BUYER, Ok, DUE);
    assert Advance(x0, poll) == x1;
    path := [poll] + [];
    LeadsFirst(x0, poll, [], x1);
  }

  /** cancel_transfer on the expired transfer. */
  lemma CancellingLeads() returns (path: seq<Step>)
    ensures Leads(Tally(State(Some(Sold().(status := Expired)), Polled(), LogDone()), 6, DUE), path,
                  Tally(State(Some(Sold().(status := Cancelled)), Cancelling(Finished), LogDone()), 7, DUE))
  {
    var t := Sold().(status := Expired);
    var x0 := Tally(State(Some(t), Polled(), LogDone()), 6, DUE);
    var x1 := Tally(State(Some(t), Cancelling(CancelPatch), LogDone()), 6, DUE);
    var x2 := Tally(State(Some(Sold().(status := Cancelled)), Cancelling(Finished), LogDone()), 7, DUE);
    var start := Start(4, Cancel, BUYER, Ok, DUE);
    SetOne(t, SetStatus(Cancelled));
    assert Advance(x0, start) == x1;
    assert Cancelling(CancelPatch)[4 := Flight(BUYER, DUE, Finished)] == Cancelling(Finished);
    assert Advance(x1, Move(4, LATE)) == x2;
    LeadsFirst(x1, Move(4, LATE), [], x2);
    path := [start] + ([Move(4, LATE)] + []);
    LeadsFirst(x0, start, path[1..], x2);
  }

  /** From the first request to the expiry under seller_verify. */
  lemma FirstHalf() returns (steps: seq<Step>)
    ensures Reaches(steps, Tally(State(Some(Offered().(status := Expired)), Sellers(Funds), LogSold()), 3, DUE))
  {
    steps := Initiated();
    var path := OpeningLeads();
    steps := ReachesFar(steps, Tally(State(Some(NewRecord()), map[0 := Flight(BUYER, 0, InitPatch)], []), 0, 0), path,
                        Tally(State(Some(Opened()), Buyers(BuyerFlag), [BuyerAccepted]), 1, 0));
    path := OfferingLeads();
    steps := ReachesFar(steps, Tally(State(Some(Opened()), Buyers(BuyerFlag), [BuyerAccepted]), 1, 0), path,
                        Tally(State(Some(Offered()), Buyers(Finished), [BuyerAccepted]), 2, 0));
    path := SellingLeads();
    steps := ReachesFar(steps, Tally(State(Some(Offered()), Buyers(Finished), [BuyerAccepted]), 2, 0), path,
                        Tally(State(Some(Offered().(status := Expired)), Sellers(Funds), LogSold()), 3, DUE));
  }

  lemma SecondHalf() returns (steps: seq<Step>)
    ensures Reaches(steps, Tally(State(Some(Sold().(status := Cancelled)), Cancelling(Finished), LogDone()), 7, DUE))
  {
    steps := FirstHalf();
    var path := CompletingLeads();
    steps := ReachesFar(steps, Tally(State(Some(Offered().(status := Expired)), Sellers(Funds), LogSold()), 3, DUE), path,
                        Tally(State(Some(Sold()), Sellers(MarkFailed), LogDone()), 4, DUE));
    path := FailingLeads();
    steps := ReachesFar(steps, Tally(State(Some(Sold()), Sellers(MarkFailed), LogDone()), 4, DUE), path,
                        Tally(State(Some(Sold().(status := Failed)), Sellers(Finished), LogDone()), 5, DUE));
    path := PollingLeads();
    steps := ReachesFar(steps, Tally(State(Some(Sold().(status := Failed)), Sellers(Finished), LogDone()), 5, DUE), path,
                        Tally(State(Some(Sold().(status := Expired)), Polled(), LogDone()), 6, DUE));
    path := CancellingLeads();
    steps := ReachesFar(steps, Tally(State(Some(Sold().(status := Expired)), Polled(), LogDone()), 6, DUE), path,
                        Tally(State(Some(Sold().(status := Cancelled)), Cancelling(Finished), LogDone()), 7, DUE));
  }

  /** Seven changes do happen: a run from the first request on, one request at a time and with clocks in order, in
      which the status slips, a completed transfer is marked failed, and it ends up cancelled. */
  lemma SevenChangesAttained()
    ensures exists steps ::
      && SoloRun(steps) && OrderedRun(steps) && Changes(Trail(steps)) == 7
      && !NoSlip(steps) && !Climbing(Trail(steps))
      && Completions(Run(INIT, steps).log) == 1 && StatusOf(Run(INIT, steps)) == Some(Cancelled)
  {
    var steps := SecondHalf();
    if NoSlip(steps) {
      AtMostFiveChanges(steps);
    }
    ClimbsExactlyWithoutSlips(steps);
    OneDone();
  }

  lemma OneDone()
    ensures Completions(LogDone()) == 1
  {
    LogCount([], BuyerAccepted);
    LogCount([BuyerAccepted], SellerAccepted);
    assert [] + [BuyerAccepted] == [BuyerAccepted] && [BuyerAccepted] + [SellerAccepted] == LogSold();
    LogCount(LogSold(), TransferDone);
  }
}
