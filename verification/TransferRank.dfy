/** Transfers handled one request at a time: the status climbs at every call except the few that slip.
    Nothing is assumed about deadlines, clocks or lost replies. */
module TransferRank {
  import opened Common
  import opened TransferService
  import opened TransferFlow

  function Rank(status: Status): nat {
    match status
    case PendingSellerAcceptance => 0 case PendingBuyerOtp => 1 case PendingSellerOtp => 2
    case Failed => 3 case Expired => 4 case Cancelled => 5 case Completed => 5
  }

  predicate Climbs(a: Status, b: Status) {
    a == b || Rank(a) < Rank(b)
  }

  predicate Idle(s: State) {
    forall id :: id in s.flights ==> s.flights[id].pc.Finished?
  }

  /** A request is begun only when no other one is running. */
  predicate Solo(s: State, step: Step) {
    step.Move? || Idle(s)
  }

  predicate SoloRun(steps: seq<Step>) {
    forall i :: 0 <= i < |steps| ==> Solo(Run(INIT, steps[..i]), steps[i])
  }

  /** The calls that take the status back, as they can be told from the record before the call: the PATCH to
      pending_seller_otp that finds the transfer expired, and the failure mark that finds it expired or completed. */
  predicate SlipsAt(t: Transfer, pc: Pc, r: Reply) {
    && r.net.Applied()
    && ((pc.BuyerPatch? && t.status == Expired) || (pc.MarkFailed? && t.status in {Expired, Completed}))
  }

  predicate Slips(s: State, step: Step) {
    step.Move? && s.record.Some? && step.id in s.flights && SlipsAt(s.record.value, s.flights[step.id].pc, step.reply)
  }

  predicate SlipsIn(steps: seq<Step>, n: nat)
    requires n < |steps|
  {
    Slips(Run(INIT, steps[..n]), steps[n])
  }

  /** Where the calls of a run slip. */
  function Marks(steps: seq<Step>): seq<bool> {
    seq(|steps|, n requires 0 <= n < |steps| => SlipsIn(steps, n))
  }

  predicate Unmarked(marks: seq<bool>, i: nat, j: nat)
    requires j <= |marks|
  {
    forall n :: i <= n < j ==> !marks[n]
  }

  predicate NoSlip(steps: seq<Step>) {
    Unmarked(Marks(steps), 0, |steps|)
  }

  /** What a running handler knows of the status. */
  predicate Fits(status: Status, pc: Pc) {
    match pc
    case InitPatch => status == PendingSellerAcceptance
    case AcceptPatch => status == PendingSellerAcceptance
    case RejectPatch => status == PendingSellerAcceptance
    case BuyerCode => status == PendingBuyerOtp
    case BuyerFlag => status == PendingBuyerOtp
    case SellerSend => status in {PendingBuyerOtp, Expired}
    case BuyerPatch => status in {PendingBuyerOtp, Expired}
    case SellerCode => status == PendingSellerOtp
    case SellerFlag => status == PendingSellerOtp
    case MarkFailed => status in {PendingSellerOtp, Expired, Completed}
    case Funds => status in {PendingSellerOtp, Expired}
    case Saga => status in {PendingSellerOtp, Expired}
    case Complete => status in {PendingSellerOtp, Expired}
    case CancelPatch => status !in {Completed, Cancelled, Failed}
    case _ => true
  }

  /** At most one handler is running, and the record is as that handler left it. */
  predicate OneAtATime(s: State) {
    && (forall i, j :: i in s.flights && j in s.flights && !s.flights[i].pc.Finished? && !s.flights[j].pc.Finished? ==> i == j)
    && (s.record.Some? ==> forall i :: i in s.flights ==> Fits(s.record.value.status, s.flights[i].pc))
    && (s.record.None? ==> s.flights == map[])
  }

  /** The status that one call leaves behind. */
  function StatusAfter(t: Transfer, pc: Pc, r: Reply): Status {
    var sends := r.net.Applied() && (pc in {InitPatch, AcceptPatch, ResendBuyer, ResendSeller} ==> r.verdict.Go?);
    if !sends || pc in {BuyerCode, SellerSend, SellerCode, Funds, Saga, TimeoutPatch, Finished} then t.status
    else if Expires(t, r.now) then Expired
    else match pc
      case InitPatch => PendingBuyerOtp
      case AcceptPatch => PendingBuyerOtp
      case BuyerPatch => PendingSellerOtp
      case RejectPatch => Cancelled
      case CancelPatch => Cancelled
      case Complete => Completed
      case MarkFailed => Failed
      case _ => t.status
  }

  predicate SellerSide(pc: Pc) {
    pc in {SellerCode, SellerFlag, Funds, Saga, Complete, MarkFailed}
  }

  lemma SellerActStatus(t: Transfer, pc: Pc, r: Reply)
    requires SellerSide(pc)
    ensures Act(t, pc, r).record.status == StatusAfter(t, pc, r) && Act(t, pc, r).record.expiresAt == t.expiresAt
    ensures Act(t, pc, r).event == Some(TransferDone) <==> pc.Complete? && r.net.Applied() && !Expires(t, r.now)
    ensures pc.Complete? ==> Act(t, pc, r).pc == if r.net.Ok? && !Expires(t, r.now) then Finished else MarkFailed
  {
    PatchEffects(t, r.sid, r.now);
  }

  predicate BuyerSide(pc: Pc) {
    pc in {InitPatch, AcceptPatch, BuyerCode, BuyerFlag, SellerSend, BuyerPatch}
  }

  lemma BuyerActStatus(t: Transfer, pc: Pc, r: Reply)
    requires BuyerSide(pc)
    ensures Act(t, pc, r).record.status == StatusAfter(t, pc, r) && Act(t, pc, r).record.expiresAt == t.expiresAt
    ensures Act(t, pc, r).event != Some(TransferDone)
  {
    PatchEffects(t, r.sid, r.now);
  }

  lemma OtherActStatus(t: Transfer, pc: Pc, r: Reply)
    requires !SellerSide(pc) && !BuyerSide(pc)
    ensures Act(t, pc, r).record.status == StatusAfter(t, pc, r) && Act(t, pc, r).record.expiresAt == t.expiresAt
    ensures Act(t, pc, r).event != Some(TransferDone)
  {
    if pc.TimeoutPatch? {
      TimeoutPatchIsRefused(t, r.now);
    } else {
      SetOne(t, SetStatus(Cancelled));
      SetOne(t, SetBuyerSid(r.sid));
      SetOne(t, SetSellerSid(r.sid));
    }
  }

  lemma ActStatus(t: Transfer, pc: Pc, r: Reply)
    ensures Act(t, pc, r).record.status == StatusAfter(t, pc, r) && Act(t, pc, r).record.expiresAt == t.expiresAt
    ensures Act(t, pc, r).event == Some(TransferDone) <==> pc.Complete? && r.net.Applied() && !Expires(t, r.now)
    ensures pc.Complete? ==> Act(t, pc, r).pc == if r.net.Ok? && !Expires(t, r.now) then Finished else MarkFailed
  {
    if SellerSide(pc) {
      SellerActStatus(t, pc, r);
    } else if BuyerSide(pc) {
      BuyerActStatus(t, pc, r);
    } else {
      OtherActStatus(t, pc, r);
    }
  }

  /** A call climbs exactly unless it slips. */
  lemma ActClimbsExactly(t: Transfer, pc: Pc, r: Reply)
    requires Fits(t.status, pc)
    ensures Climbs(t.status, Act(t, pc, r).record.status) <==> !SlipsAt(t, pc, r)
    ensures Fits(Act(t, pc, r).record.status, Act(t, pc, r).pc)
  {
    ActStatus(t, pc, r);
  }

  lemma LookupClimbs(t: Transfer, handler: Handler, user: UserId, now: Time)
    ensures Climbs(t.status, Lookup(t, now).status)
    ensures Fits(Lookup(t, now).status, Guard(Lookup(t, now), handler, user))
  {
  }

  lemma OneMoved(s: State, id: FlightId, t: Transfer, pc: Pc, log: seq<Event>)
    requires OneAtATime(s) && id in s.flights && !s.flights[id].pc.Finished?
    requires Fits(t.status, pc)
    ensures OneAtATime(State(Some(t), s.flights[id := s.flights[id].(pc := pc)], log))
  {
    assert forall i :: i in s.flights && i != id ==> s.flights[i].pc.Finished?;
  }

  lemma OverMoves(s: State, id: FlightId, r: Reply)
    requires s.record.None? || id !in s.flights || s.flights[id].pc.Finished?
    ensures Next(s, Move(id, r)) == s
  {
    if s.record.Some? && id in s.flights {
      assert s.flights[id := s.flights[id]] == s.flights;
    }
  }

  /** Handled one at a time, every step keeps or raises the status exactly unless it slips. */
  lemma StepClimbsExactly(s: State, step: Step)
    requires OneAtATime(s) && Solo(s, step)
    ensures OneAtATime(Next(s, step))
    ensures s.record.Some? ==>
      && Next(s, step).record.Some?
      && (Climbs(s.record.value.status, Next(s, step).record.value.status) <==> !Slips(s, step))
  {
    match step
    case Move(id, r) =>
      if s.record.None? || id !in s.flights || s.flights[id].pc.Finished? {
        OverMoves(s, id, r);
      } else {
        var e := Act(s.record.value, s.flights[id].pc, r);
        ActClimbsExactly(s.record.value, s.flights[id].pc, r);
        OneMoved(s, id, e.record, e.pc, Next(s, step).log);
      }
    case Start(id, handler, user, net, now) =>
      if s.record.Some? {
        LookupClimbs(s.record.value, handler, user, now);
      }
    case _ =>
  }

  // Whole runs.

  lemma {:induction false} PrefixSolo(steps: seq<Step>, i: nat)
    requires SoloRun(steps) && i <= |steps|
    ensures SoloRun(steps[..i])
  {
    assert forall j :: 0 <= j < i ==> steps[..i][..j] == steps[..j] && steps[..i][j] == steps[j];
  }

  lemma {:induction false} OneAtATimeRun(steps: seq<Step>)
    requires SoloRun(steps)
    ensures OneAtATime(Run(INIT, steps))
  {
    if steps != [] {
      var n := |steps| - 1;
      PrefixSolo(steps, n);
      OneAtATimeRun(steps[..n]);
      StepClimbsExactly(Run(INIT, steps[..n]), steps[n]);
    }
  }

  lemma SoloAt(steps: seq<Step>, n: nat)
    requires SoloRun(steps) && n < |steps|
    ensures OneAtATime(Run(INIT, steps[..n])) && Solo(Run(INIT, steps[..n]), steps[n])
    ensures Run(INIT, steps[..n + 1]) == Next(Run(INIT, steps[..n]), steps[n])
  {
    PrefixSolo(steps, n);
    OneAtATimeRun(steps[..n]);
    assert steps[..n + 1][..n] == steps[..n];
  }

  function StatusOf(s: State): Option<Status> {
    if s.record.Some? then Some(s.record.value.status) else None
  }

  /** The status of the record after the first `i` steps. */
  function StatusAt(steps: seq<Step>, i: nat): Option<Status>
    requires i <= |steps|
  {
    StatusOf(Run(INIT, steps[..i]))
  }

  /** The statuses that a run leaves behind, prefix by prefix. */
  function Trail(steps: seq<Step>): seq<Option<Status>> {
    seq(|steps| + 1, i requires 0 <= i <= |steps| => StatusAt(steps, i))
  }

  predicate ClimbsTo(a: Option<Status>, b: Option<Status>) {
    a.Some? ==> b.Some? && Climbs(a.value, b.value)
  }

  predicate Climbing(trail: seq<Option<Status>>) {
    forall i :: 0 < i < |trail| ==> ClimbsTo(trail[i - 1], trail[i])
  }

  lemma StepOfRun(steps: seq<Step>, n: nat)
    requires SoloRun(steps) && n < |steps|
    ensures ClimbsTo(StatusAt(steps, n), StatusAt(steps, n + 1)) <==> !SlipsIn(steps, n)
  {
    SoloAt(steps, n);
    StepClimbsExactly(Run(INIT, steps[..n]), steps[n]);
  }

  lemma StepOfTrail(steps: seq<Step>, n: nat)
    requires SoloRun(steps) && n < |steps|
    ensures ClimbsTo(Trail(steps)[n], Trail(steps)[n + 1]) <==> !Marks(steps)[n]
  {
    StepOfRun(steps, n);
  }

  /** A trail whose every step climbs exactly where it is not marked. */
  predicate MarkedTrail(trail: seq<Option<Status>>, marks: seq<bool>) {
    && |trail| == |marks| + 1
    && forall n :: 0 <= n < |marks| ==> (ClimbsTo(trail[n], trail[n + 1]) <==> !marks[n])
  }

  lemma RunIsMarked(steps: seq<Step>)
    requires SoloRun(steps)
    ensures MarkedTrail(Trail(steps), Marks(steps))
  {
    forall n | 0 <= n < |steps|
      ensures ClimbsTo(Trail(steps)[n], Trail(steps)[n + 1]) <==> !Marks(steps)[n]
    {
      StepOfTrail(steps, n);
    }
  }

  lemma ClimbingIffUnmarked(trail: seq<Option<Status>>, marks: seq<bool>)
    requires MarkedTrail(trail, marks)
    ensures Climbing(trail) <==> Unmarked(marks, 0, |marks|)
  {
    if Climbing(trail) {
      forall n | 0 <= n < |marks|
        ensures !marks[n]
      {
        var i := n + 1;
        assert ClimbsTo(trail[i - 1], trail[i]);
      }
    }
  }

  /** In every run of requests one at a time, the status climbs all the way exactly if no call slips. */
  lemma ClimbsExactlyWithoutSlips(steps: seq<Step>)
    requires SoloRun(steps)
    ensures Climbing(Trail(steps)) <==> NoSlip(steps)
  {
    RunIsMarked(steps);
    ClimbingIffUnmarked(Trail(steps), Marks(steps));
  }

  lemma {:induction false} ClimbingFar(trail: seq<Option<Status>>, i: nat, j: nat)
    requires Climbing(trail) && i <= j < |trail|
    ensures ClimbsTo(trail[i], trail[j])
    decreases j
  {
    if i < j {
      ClimbingFar(trail, i, j - 1);
      assert ClimbsTo(trail[j - 1], trail[j]);
    }
  }

  /** Between any two points of a run without slips the status stays or climbs strictly. */
  lemma StatusOnlyClimbs(steps: seq<Step>, i: nat, j: nat)
    requires SoloRun(steps) && NoSlip(steps) && i <= j <= |steps|
    ensures ClimbsTo(Trail(steps)[i], Trail(steps)[j])
  {
    ClimbsExactlyWithoutSlips(steps);
    ClimbingFar(Trail(steps), i, j);
  }

  // How often the status can change.

  predicate Changed(a: Option<Status>, b: Option<Status>) {
    a.Some? && a != b
  }

  function Changes(trail: seq<Option<Status>>): nat {
    if |trail| < 2 then 0
    else Changes(trail[..|trail| - 1]) + if Changed(trail[|trail| - 2], trail[|trail| - 1]) then 1 else 0
  }

  lemma {:induction false} ChangesBounded(trail: seq<Option<Status>>)
    requires Climbing(trail) && trail != []
    ensures Changes(trail) <= if trail[|trail| - 1].Some? then Rank(trail[|trail| - 1].value) else 0
  {
    if |trail| >= 2 {
      var n := |trail| - 1;
      ChangesBounded(trail[..n]);
      assert trail[..n][n - 1] == trail[n - 1];
      assert ClimbsTo(trail[n - 1], trail[n]);
    }
  }

  /** A run without slips changes the status at most five times. */
  lemma AtMostFiveChanges(steps: seq<Step>)
    requires SoloRun(steps) && NoSlip(steps)
    ensures Changes(Trail(steps)) <= 5
  {
    ClimbsExactlyWithoutSlips(steps);
    ChangesBounded(Trail(steps));
  }

  predicate Running(s: State, pcs: set<Pc>) {
    exists id :: id in s.flights && s.flights[id].pc in pcs
  }

  /** An upper bound on the changes still to come, slips included. */
  function Ahead(s: State): nat {
    if s.record.None? then 8
    else match s.record.value.status
      case PendingSellerAcceptance => 8
      case PendingBuyerOtp => 7
      case PendingSellerOtp => 5
      case Failed => 2
      case Expired =>
        if Running(s, {SellerSend, BuyerPatch}) then 6 else if Running(s, {Funds, Saga, Complete, MarkFailed}) then 4 else 1
      case Completed => if Running(s, {MarkFailed}) then 3 else 0
      case Cancelled => 0
  }

  /** The bound of a lone running handler, told from its pc. */
  function AheadAt(status: Status, pc: Pc): nat {
    match status
    case PendingSellerAcceptance => 8
    case PendingBuyerOtp => 7
    case PendingSellerOtp => 5
    case Failed => 2
    case Expired => if pc in {SellerSend, BuyerPatch} then 6 else if pc in {Funds, Saga, Complete, MarkFailed} then 4 else 1
    case Completed => if pc.MarkFailed? then 3 else 0
    case Cancelled => 0
  }

  lemma ActAhead(t: Transfer, pc: Pc, r: Reply)
    requires Fits(t.status, pc)
    ensures
      var e := Act(t, pc, r);
      AheadAt(t.status, pc) >= AheadAt(e.record.status, e.pc) + if e.record.status != t.status then 1 else 0
  {
    ActStatus(t, pc, r);
  }

  /** `Ahead` is `AheadAt` of the one flight that may be running. */
  lemma AheadOf(s: State, id: FlightId)
    requires s.record.Some? && id in s.flights
    requires forall i :: i in s.flights && i != id ==> s.flights[i].pc.Finished?
    ensures Ahead(s) == AheadAt(s.record.value.status, s.flights[id].pc)
  {
    assert forall pcs :: Finished !in pcs ==> (Running(s, pcs) <==> s.flights[id].pc in pcs);
  }

  lemma StepAhead(s: State, step: Step)
    requires OneAtATime(s) && Solo(s, step)
    ensures Ahead(s) >= Ahead(Next(s, step)) + if Changed(StatusOf(s), StatusOf(Next(s, step))) then 1 else 0
  {
    match step
    case Move(id, r) =>
      if s.record.None? || id !in s.flights || s.flights[id].pc.Finished? {
        OverMoves(s, id, r);
      } else {
        ActAhead(s.record.value, s.flights[id].pc, r);
        AheadOf(s, id);
        AheadOf(Next(s, step), id);
      }
    case Start(id, handler, user, net, now) =>
      if s.record.Some? && id !in s.flights && net.Applied() {
        AheadOf(Next(s, step), id);
      }
    case _ =>
  }

  lemma AheadOfRun(steps: seq<Step>, n: nat)
    requires SoloRun(steps) && n < |steps|
    ensures AheadIn(steps, n) >= AheadIn(steps, n + 1) + if Changed(StatusAt(steps, n), StatusAt(steps, n + 1)) then 1 else 0
  {
    SoloAt(steps, n);
    StepAhead(Run(INIT, steps[..n]), steps[n]);
  }

  function AheadIn(steps: seq<Step>, n: nat): nat
    requires n <= |steps|
  {
    Ahead(Run(INIT, steps[..n]))
  }

  /** The bound after each prefix. */
  function Bounds(steps: seq<Step>): seq<nat> {
    seq(|steps| + 1, n requires 0 <= n <= |steps| => AheadIn(steps, n))
  }

  predicate Consumes(trail: seq<Option<Status>>, bounds: seq<nat>) {
    && |trail| == |bounds|
    && forall n :: 0 < n < |trail| ==> bounds[n - 1] >= bounds[n] + if Changed(trail[n - 1], trail[n]) then 1 else 0
  }

  lemma {:induction false} ChangesConsumed(trail: seq<Option<Status>>, bounds: seq<nat>)
    requires Consumes(trail, bounds) && trail != []
    ensures Changes(trail) + bounds[|bounds| - 1] <= bounds[0]
  {
    if |trail| >= 2 {
      var n := |trail| - 1;
      ChangesConsumed(trail[..n], bounds[..n]);
      assert bounds[n - 1] >= bounds[n] + if Changed(trail[n - 1], trail[n]) then 1 else 0;
    }
  }

  lemma RunConsumes(steps: seq<Step>)
    requires SoloRun(steps)
    ensures Consumes(Trail(steps), Bounds(steps))
  {
    var trail, bounds := Trail(steps), Bounds(steps);
    forall n | 0 < n < |trail|
      ensures bounds[n - 1] >= bounds[n] + if Changed(trail[n - 1], trail[n]) then 1 else 0
    {
      AheadOfRun(steps, n - 1);
    }
  }

  /** Even with slips, whatever fails and whenever the deadline passes, the status changes at most eight times. */
  lemma AtMostEightChanges(steps: seq<Step>)
    requires SoloRun(steps)
    ensures Changes(Trail(steps)) <= 8
  {
    RunConsumes(steps);
    ChangesConsumed(Trail(steps), Bounds(steps));
    assert steps[..0] == [];
    assert Bounds(steps)[0] == 8;
  }

  // Completion.

  function Completions(log: seq<Event>): nat {
    if log == [] then 0 else Completions(log[..|log| - 1]) + if log[|log| - 1] == TransferDone then 1 else 0
  }

  predicate IsCompleted(s: State) {
    s.record.Some? && s.record.value.status == Completed
  }

  /** After a completion the transfer is out of reach of another one. */
  predicate Settled(s: State) {
    && s.record.Some? && s.record.value.status in {Completed, Failed, Expired, Cancelled}
    && forall id :: id in s.flights ==> s.flights[id].pc in {Finished, MarkFailed, CancelPatch}
  }

  predicate CountedOnce(s: State) {
    && (Completions(s.log) == 0 ==> !IsCompleted(s))
    && (Completions(s.log) > 0 ==> Completions(s.log) == 1 && Settled(s))
  }

  /** A step adds to the count exactly by turning the status to completed. */
  lemma StepCounts(s: State, step: Step)
    requires OneAtATime(s) && Solo(s, step)
    ensures Completions(Next(s, step).log)
      == Completions(s.log) + if IsCompleted(Next(s, step)) && !IsCompleted(s) then 1 else 0
  {
    if step.Move? && s.record.Some? && step.id in s.flights {
      var e := Act(s.record.value, s.flights[step.id].pc, step.reply);
      ActStatus(s.record.value, s.flights[step.id].pc, step.reply);
      if e.event.Some? {
        assert (s.log + [e.event.value])[..|s.log|] == s.log;
      }
    }
  }

  lemma SettledStays(s: State, step: Step)
    requires OneAtATime(s) && Solo(s, step) && Settled(s)
    ensures Settled(Next(s, step)) && Next(s, step).log == s.log
  {
    if step.Move? && step.id in s.flights {
      ActStatus(s.record.value, s.flights[step.id].pc, step.reply);
    }
  }

  lemma CountedOnceStep(s: State, step: Step)
    requires OneAtATime(s) && Solo(s, step) && CountedOnce(s)
    ensures CountedOnce(Next(s, step))
  {
    StepCounts(s, step);
    if Completions(s.log) > 0 {
      SettledStays(s, step);
    } else if IsCompleted(Next(s, step)) {
      ActStatus(s.record.value, s.flights[step.id].pc, step.reply);
      assert forall i :: i in s.flights && i != step.id ==> s.flights[i].pc.Finished?;
    }
  }

  lemma {:induction false} CountedOnceRun(steps: seq<Step>)
    requires SoloRun(steps)
    ensures CountedOnce(Run(INIT, steps))
  {
    if steps != [] {
      var n := |steps| - 1;
      PrefixSolo(steps, n);
      CountedOnceRun(steps[..n]);
      SoloAt(steps, n);
      CountedOnceStep(Run(INIT, steps[..n]), steps[n]);
    }
  }

  /** A saga has completed the transfer. */
  predicate Counted(s: State) {
    CountedOnce(s) && Completions(s.log) > 0
  }

  lemma StepAfterCompletion(s: State, step: Step)
    requires OneAtATime(s) && Solo(s, step) && Counted(s)
    ensures Counted(Next(s, step))
    ensures !IsCompleted(s) ==> !IsCompleted(Next(s, step))
  {
    StepCounts(s, step);
    CountedOnceStep(s, step);
  }

  lemma CountedAt(steps: seq<Step>, i: nat)
    requires SoloRun(steps) && i <= |steps| && StatusAt(steps, i) == Some(Completed)
    ensures Counted(Run(INIT, steps[..i]))
  {
    PrefixSolo(steps, i);
    CountedOnceRun(steps[..i]);
  }

  lemma CountedStep(steps: seq<Step>, n: nat)
    requires SoloRun(steps) && n < |steps| && Counted(Run(INIT, steps[..n]))
    ensures Counted(Run(INIT, steps[..n + 1]))
    ensures StatusAt(steps, n) != Some(Completed) ==> StatusAt(steps, n + 1) != Some(Completed)
  {
    SoloAt(steps, n);
    StepAfterCompletion(Run(INIT, steps[..n]), steps[n]);
  }

  /** After which prefixes a saga has completed the transfer. */
  function CountedTrail(steps: seq<Step>): seq<bool> {
    seq(|steps| + 1, n requires 0 <= n <= |steps| => Counted(Run(INIT, steps[..n])))
  }

  lemma {:induction false} StaysSet(flags: seq<bool>, i: nat, j: nat)
    requires i <= j < |flags| && flags[i]
    requires forall n :: 0 < n < |flags| && flags[n - 1] ==> flags[n]
    ensures flags[j]
    decreases j
  {
    if i < j {
      StaysSet(flags, i, j - 1);
    }
  }

  lemma StillCounted(steps: seq<Step>, i: nat, j: nat)
    requires SoloRun(steps) && i <= j <= |steps| && CountedTrail(steps)[i]
    ensures CountedTrail(steps)[j]
  {
    var flags := CountedTrail(steps);
    forall n | 0 < n < |flags| && flags[n - 1]
      ensures flags[n]
    {
      CountedStep(steps, n - 1);
    }
    StaysSet(flags, i, j);
  }

  /** A transfer that was completed and is not any more is never completed again. */
  lemma NoReturnToCompleted(steps: seq<Step>, i: nat, n: nat)
    requires SoloRun(steps) && i <= n < |steps|
    requires StatusAt(steps, i) == Some(Completed) && StatusAt(steps, n) != Some(Completed)
    ensures StatusAt(steps, n + 1) != Some(Completed)
  {
    CountedAt(steps, i);
    StillCounted(steps, i, n);
    assert CountedTrail(steps)[n];
    CountedStep(steps, n);
  }

  /** A status that a trail leaves exactly where it is marked, and never takes up again. */
  predicate LeftWhereMarked(trail: seq<Option<Status>>, marks: seq<bool>, status: Status, i: nat) {
    && |trail| == |marks| + 1
    && forall n :: i <= n < |marks| ==> (trail[n + 1] == Some(status) <==> trail[n] == Some(status) && !marks[n])
  }

  lemma {:induction false} KeptUntilMarked(trail: seq<Option<Status>>, marks: seq<bool>, status: Status, i: nat, j: nat)
    requires LeftWhereMarked(trail, marks, status, i) && i <= j < |trail| && trail[i] == Some(status)
    ensures trail[j] == Some(status) <==> Unmarked(marks, i, j)
    decreases j
  {
    if i < j {
      KeptUntilMarked(trail, marks, status, i, j - 1);
      var n := j - 1;
      assert trail[n + 1] == Some(status) <==> trail[n] == Some(status) && !marks[n];
    }
  }

  lemma {:induction false} Kept(trail: seq<Option<Status>>, marks: seq<bool>, i: nat, j: nat)
    requires MarkedTrail(trail, marks) && i <= j < |trail| && trail[i] == Some(Cancelled)
    requires forall n :: 0 <= n < |marks| && trail[n] == Some(Cancelled) ==> !marks[n]
    ensures trail[j] == Some(Cancelled)
    decreases j
  {
    if i < j {
      Kept(trail, marks, i, j - 1);
      var n := j - 1;
      assert ClimbsTo(trail[n], trail[n + 1]);
    }
  }

  lemma CancelledNeverSlips(steps: seq<Step>, n: nat)
    requires n < |steps| && Trail(steps)[n] == Some(Cancelled)
    ensures !Marks(steps)[n]
  {
  }

  /** Cancelled is final in every run of requests one at a time. */
  lemma CancelledIsFinal(steps: seq<Step>, i: nat, j: nat)
    requires SoloRun(steps) && i <= j <= |steps| && Trail(steps)[i] == Some(Cancelled)
    ensures Trail(steps)[j] == Some(Cancelled)
  {
    RunIsMarked(steps);
    forall n | 0 <= n < |steps| && Trail(steps)[n] == Some(Cancelled)
      ensures !Marks(steps)[n]
    {
      CancelledNeverSlips(steps, n);
    }
    Kept(Trail(steps), Marks(steps), i, j);
  }

  lemma CompletedStep(steps: seq<Step>, i: nat, n: nat)
    requires SoloRun(steps) && i <= n < |steps| && Trail(steps)[i] == Some(Completed)
    ensures Trail(steps)[n + 1] == Some(Completed) <==> Trail(steps)[n] == Some(Completed) && !Marks(steps)[n]
  {
    if StatusAt(steps, n) == Some(Completed) {
      StepOfTrail(steps, n);
    } else {
      NoReturnToCompleted(steps, i, n);
    }
  }

  /** A completed transfer stays completed exactly as long as no failure mark lands on it. */
  lemma CompletedIsFinalExactly(steps: seq<Step>, i: nat, j: nat)
    requires SoloRun(steps) && i <= j <= |steps| && Trail(steps)[i] == Some(Completed)
    ensures Trail(steps)[j] == Some(Completed) <==> Unmarked(Marks(steps), i, j)
  {
    var trail, marks := Trail(steps), Marks(steps);
    forall n | i <= n < |marks|
      ensures trail[n + 1] == Some(Completed) <==> trail[n] == Some(Completed) && !marks[n]
    {
      CompletedStep(steps, i, n);
    }
    KeptUntilMarked(trail, marks, Completed, i, j);
  }

  /** Cancelled and completed are final in every run without slips. */
  lemma EndIsFinal(steps: seq<Step>, i: nat, j: nat)
    requires SoloRun(steps) && NoSlip(steps) && i <= j <= |steps|
    requires Trail(steps)[i] in {Some(Cancelled), Some(Completed)}
    ensures Trail(steps)[j] == Trail(steps)[i]
  {
    StatusOnlyClimbs(steps, i, j);
  }

  // A condition on clocks and replies alone that rules slips out.

  /** The deadline does not pass between a handler's GET and its calls, and the completing reply is not lost. */
  predicate InTime(t: Transfer, f: Flight, r: Reply) {
    && (f.began <= t.expiresAt ==> r.now <= t.expiresAt)
    && (f.pc.Complete? ==> r.net.Ok? || !r.net.Applied())
  }

  predicate Careful(s: State, step: Step) {
    && Solo(s, step)
    && (step.Move? && s.record.Some? && step.id in s.flights ==> InTime(s.record.value, s.flights[step.id], step.reply))
  }

  predicate CarefulRun(steps: seq<Step>) {
    forall i :: 0 <= i < |steps| ==> Careful(Run(INIT, steps[..i]), steps[i])
  }

  /** The record has neither expired nor been completed under the handler. */
  predicate Punctual(t: Transfer, f: Flight) {
    f.pc in {Finished, CancelPatch, TimeoutPatch} || (f.began <= t.expiresAt && t.status !in {Expired, Completed})
  }

  predicate AllPunctual(s: State) {
    s.record.Some? ==> forall id :: id in s.flights ==> Punctual(s.record.value, s.flights[id])
  }

  lemma ActPunctual(t: Transfer, f: Flight, r: Reply)
    requires Punctual(t, f) && InTime(t, f, r)
    ensures Punctual(Act(t, f.pc, r).record, f.(pc := Act(t, f.pc, r).pc)) && !SlipsAt(t, f.pc, r)
  {
    ActStatus(t, f.pc, r);
  }

  lemma PunctualStep(s: State, step: Step)
    requires OneAtATime(s) && AllPunctual(s) && Careful(s, step)
    ensures AllPunctual(Next(s, step)) && !Slips(s, step)
  {
    if step.Move? && s.record.Some? && step.id in s.flights {
      if s.flights[step.id].pc.Finished? {
        OverMoves(s, step.id, step.reply);
      } else {
        ActPunctual(s.record.value, s.flights[step.id], step.reply);
        assert forall i :: i in s.flights && i != step.id ==> s.flights[i].pc.Finished?;
      }
    }
  }

  lemma CarefulPrefix(steps: seq<Step>, n: nat)
    requires CarefulRun(steps) && n <= |steps|
    ensures CarefulRun(steps[..n]) && SoloRun(steps[..n])
  {
    assert forall i :: 0 <= i < n ==> steps[..n][..i] == steps[..i] && steps[..n][i] == steps[i];
  }

  lemma {:induction false} CarefulRunIsPunctual(steps: seq<Step>)
    requires CarefulRun(steps)
    ensures AllPunctual(Run(INIT, steps))
  {
    if steps != [] {
      var n := |steps| - 1;
      CarefulPrefix(steps, n);
      CarefulRunIsPunctual(steps[..n]);
      OneAtATimeRun(steps[..n]);
      PunctualStep(Run(INIT, steps[..n]), steps[n]);
    }
  }

  lemma CarefulRunsDoNotSlip(steps: seq<Step>)
    requires CarefulRun(steps)
    ensures SoloRun(steps) && NoSlip(steps)
  {
    forall n | 0 <= n < |steps|
      ensures !Marks(steps)[n]
    {
      CarefulPrefix(steps, n);
      CarefulRunIsPunctual(steps[..n]);
      OneAtATimeRun(steps[..n]);
      PunctualStep(Run(INIT, steps[..n]), steps[n]);
    }
  }

  /** In a careful run the status therefore only climbs. */
  lemma CarefulRunClimbs(steps: seq<Step>)
    requires CarefulRun(steps)
    ensures Climbing(Trail(steps)) && Changes(Trail(steps)) <= 5
  {
    CarefulRunsDoNotSlip(steps);
    ClimbsExactlyWithoutSlips(steps);
    AtMostFiveChanges(steps);
  }
}
