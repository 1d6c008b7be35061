/** The life of one transfer: every handler that touches its record, interleaved call by call. */
module TransferFlow {
  import opened Common
  import opened TransferService

  type FlightId = nat

  datatype Handler = BuyerVerify | SellerAccept | SellerReject | SellerVerify | ResendOtp | Cancel | Timeout | Poll

  /** The call a running handler makes next. */
  datatype Pc =
    | InitPatch
    | BuyerCode | BuyerFlag | SellerSend | BuyerPatch
    | AcceptPatch | RejectPatch
    | SellerCode | SellerFlag | Funds | Saga | Complete | MarkFailed
    | ResendBuyer | ResendSeller | CancelPatch | TimeoutPatch
    | Finished

  /** A running request of `user`; `began` is the clock at its first look at the record. */
  datatype Flight = Flight(user: UserId, began: Time, pc: Pc)

  datatype Event = BuyerAccepted | SellerAccepted | TransferDone

  datatype State = State(record: Option<Transfer>, flights: map<FlightId, Flight>, log: seq<Event>)

  datatype Verdict = Go | Fail | Stop

  /** What one call meets: the network, the answer, a session id, the transfer service's clock. */
  datatype Reply = Reply(net: Net, verdict: Verdict, sid: string, now: Time)

  datatype Step =
    | Initiate(id: FlightId, listing: string, buyer: UserId, seller: UserId, amount: Money, balance: Money, now: Time)
    | Start(id: FlightId, handler: Handler, user: UserId, net: Net, now: Time)
    | Move(id: FlightId, reply: Reply)
    | ServiceCancel

  predicate HasSid(sid: Option<string>) {
    sid.Some? && sid.value != ""
  }

  /** The guard of each handler on the record that its GET returned. */
  function Guard(t: Transfer, handler: Handler, user: UserId): Pc {
    match handler
    case BuyerVerify =>
      if t.buyer == user && t.status == PendingBuyerOtp && !t.buyerOtp && HasSid(t.buyerSid) then BuyerCode else Finished
    case SellerAccept => if t.seller == user && t.status == PendingSellerAcceptance then AcceptPatch else Finished
    case SellerReject => if t.seller == user && t.status == PendingSellerAcceptance then RejectPatch else Finished
    case SellerVerify =>
      if t.seller == user && t.status == PendingSellerOtp && !t.sellerOtp && t.buyerOtp && HasSid(t.sellerSid)
      then SellerCode else Finished
    case ResendOtp =>
      if t.status == PendingBuyerOtp && t.buyer == user then ResendBuyer
      else if t.status == PendingSellerOtp && t.seller == user then ResendSeller
      else Finished
    case Cancel =>
      if user in {t.buyer, t.seller} && t.status !in {Completed, Cancelled, Failed} then CancelPatch else Finished
    case Timeout =>
      if t.status in {PendingSellerAcceptance, PendingBuyerOtp, PendingSellerOtp} then TimeoutPatch else Finished
    case Poll => Finished
  }

  datatype Effect = Effect(record: Transfer, pc: Pc, event: Option<Event>)

  /** A PATCH through the network, its answer ignored unless the handler looks at it. */
  function Send(t: Transfer, body: seq<Field>, r: Reply): Transfer {
    if r.net.Applied() then Patched(t, body, r.now) else t
  }

  function Act(t: Transfer, pc: Pc, r: Reply): Effect {
    match pc
    case InitPatch =>
      Effect(if r.verdict.Go? then Send(t, [SetBuyerSid(r.sid), SetStatus(PendingBuyerOtp)], r) else t, Finished, None)
    case BuyerCode =>
      var accepted := r.net.Ok? && r.verdict.Go?;
      Effect(t, if accepted then BuyerFlag else Finished, if accepted then Some(BuyerAccepted) else None)
    case BuyerFlag => Effect(Send(t, [SetBuyerOtp(true)], r), if r.net.Raise? then Finished else SellerSend, None)
    case SellerSend => Effect(t, if r.verdict.Go? then BuyerPatch else Finished, None)
    case BuyerPatch =>
      Effect(Send(t, [SetBuyerOtp(true), SetSellerSid(r.sid), SetStatus(PendingSellerOtp)], r), Finished, None)
    case AcceptPatch =>
      Effect(if r.verdict.Go? then Send(t, [SetBuyerSid(r.sid), SetStatus(PendingBuyerOtp)], r) else t, Finished, None)
    case RejectPatch => Effect(Send(t, [SetStatus(Cancelled)], r), Finished, None)
    case SellerCode =>
      var accepted := r.net.Ok? && r.verdict.Go?;
      Effect(t, if accepted then SellerFlag else Finished, if accepted then Some(SellerAccepted) else None)
    case SellerFlag => Effect(Send(t, [SetSellerOtp(true)], r), if r.net.Raise? then Finished else Funds, None)
    case Funds => Effect(t, match r.verdict case Go => Saga case Fail => MarkFailed case Stop => Finished, None)
    case Saga => Effect(t, if r.verdict.Go? then Complete else MarkFailed, None)
    case Complete =>
      var body := [SetStatus(Completed), SetCompletedAt(At(r.now))];
      var accepted := Accepts(t, body, r.now);
      Effect(Send(t, body, r),
             if r.net.Ok? && accepted then Finished else MarkFailed,
             if r.net.Applied() && accepted then Some(TransferDone) else None)
    case MarkFailed => Effect(Send(t, [SetStatus(Failed)], r), Finished, None)
    case ResendBuyer => Effect(if r.verdict.Go? then Send(t, [SetBuyerSid(r.sid)], r) else t, Finished, None)
    case ResendSeller => Effect(if r.verdict.Go? then Send(t, [SetSellerSid(r.sid)], r) else t, Finished, None)
    case CancelPatch => Effect(Send(t, [SetStatus(Cancelled)], r), Finished, None)
    case TimeoutPatch =>
      Effect(Send(t, [SetStatus(Cancelled), Foreign("cancelledAt"), Foreign("cancelReason")], r), Finished, None)
    case Finished => Effect(t, Finished, None)
  }

  function Next(s: State, step: Step): State {
    match step
    case Initiate(id, listing, buyer, seller, amount, balance, now) =>
      if s.record.Some? || id in s.flights || seller == buyer || balance < amount then s
      else s.(record := Some(Created(listing, buyer, seller, amount, now)),
              flights := s.flights[id := Flight(buyer, now, InitPatch)])
    case Start(id, handler, user, net, now) =>
      if s.record.None? || id in s.flights || !net.Applied() then s
      else
        var t := Lookup(s.record.value, now);
        s.(record := Some(t),
           flights := s.flights[id := Flight(user, now, if net.Ok? then Guard(t, handler, user) else Finished)])
    case Move(id, reply) =>
      if s.record.None? || id !in s.flights then s
      else
        var e := Act(s.record.value, s.flights[id].pc, reply);
        State(Some(e.record), s.flights[id := s.flights[id].(pc := e.pc)],
              if e.event.Some? then s.log + [e.event.value] else s.log)
    case ServiceCancel =>
      if s.record.None? || s.record.value.status in {Completed, Cancelled, Expired} then s
      else s.(record := Some(s.record.value.(status := Cancelled)))
  }

  const INIT := State(None, map[], [])

  function Run(s: State, steps: seq<Step>): State {
    if steps == [] then s else Next(Run(s, steps[..|steps| - 1]), steps[|steps| - 1])
  }

  lemma RunSnoc(s: State, steps: seq<Step>, step: Step)
    ensures Run(s, steps + [step]) == Next(Run(s, steps), step)
  {
    assert (steps + [step])[..|steps|] == steps;
  }

  // One handler on its own: the replies that its calls meet decide everything it does.

  /** A flight meets the given replies, one call after the other. A finished flight makes no more calls. */
  function Play(s: State, id: FlightId, replies: seq<Reply>): State
    decreases |replies|
  {
    if replies == [] then s else Play(Next(s, Move(id, replies[0])), id, replies[1..])
  }

  function Moves(id: FlightId, replies: seq<Reply>): (steps: seq<Step>)
    ensures |steps| == |replies| && forall i :: 0 <= i < |steps| ==> steps[i] == Move(id, replies[i])
  {
    if replies == [] then [] else Moves(id, replies[..|replies| - 1]) + [Move(id, replies[|replies| - 1])]
  }

  lemma {:induction false} PlaySnoc(s: State, id: FlightId, replies: seq<Reply>, r: Reply)
    ensures Play(s, id, replies + [r]) == Next(Play(s, id, replies), Move(id, r))
    decreases |replies|
  {
    if replies == [] {
      assert [] + [r] == [r] && [r][1..] == [];
    } else {
      assert (replies + [r])[1..] == replies[1..] + [r];
      PlaySnoc(Next(s, Move(id, replies[0])), id, replies[1..], r);
    }
  }

  /** What a handler does on its own is a run of the interleaved system, made of its own moves only. */
  lemma {:induction false} PlayIsRun(s: State, id: FlightId, replies: seq<Reply>)
    ensures Play(s, id, replies) == Run(s, Moves(id, replies))
  {
    if replies != [] {
      var n := |replies| - 1;
      PlayIsRun(s, id, replies[..n]);
      PlaySnoc(s, id, replies[..n], replies[n]);
      assert replies[..n] + [replies[n]] == replies;
      RunSnoc(s, Moves(id, replies[..n]), Move(id, replies[n]));
    }
  }

  lemma {:induction false} PlayOver(s: State, id: FlightId, replies: seq<Reply>)
    requires s.record.None? || id !in s.flights || s.flights[id].pc.Finished?
    ensures Play(s, id, replies) == s
  {
    if replies != [] {
      if s.record.Some? && id in s.flights {
        assert s.flights[id := s.flights[id]] == s.flights;
      }
      assert Next(s, Move(id, replies[0])) == s;
      PlayOver(s, id, replies[1..]);
    }
  }

  lemma PlayFirst(s: State, id: FlightId, r: Reply, rest: seq<Reply>)
    ensures Play(s, id, [r] + rest) == Play(Next(s, Move(id, r)), id, rest)
  {
    assert ([r] + rest)[1..] == rest;
  }

  /** What the calls of the verify handlers meet. */
  datatype BuyerReplies = BuyerReplies(code: Reply, flag: Reply, send: Reply, patch: Reply)
  datatype SellerReplies = SellerReplies(code: Reply, flag: Reply, funds: Reply, saga: Reply, complete: Reply, mark: Reply)

  function BuyerScript(r: BuyerReplies): seq<Reply> {
    [r.code] + ([r.flag] + ([r.send] + [r.patch]))
  }

  /** The last PATCHes of seller_verify: to completed unless the goods could not be moved, then to failed. */
  function CloseScript(r: SellerReplies, failed: bool): seq<Reply> {
    if failed then [r.mark] else [r.complete] + [r.mark]
  }

  /** From the balance check on: give up, mark the transfer failed, or run the saga. */
  function TransactScript(r: SellerReplies): seq<Reply> {
    [r.funds] + match r.funds.verdict
      case Stop => []
      case Fail => CloseScript(r, true)
      case Go => [r.saga] + CloseScript(r, !r.saga.verdict.Go?)
  }

  function SellerScript(r: SellerReplies): seq<Reply> {
    [r.code] + ([r.flag] + TransactScript(r))
  }

  // Both codes come first, in every interleaving and whatever fails.

  /** The OTP service accepted the buyer's code and, later, the seller's. */
  predicate BothAccepted(log: seq<Event>) {
    exists j :: 0 <= j < |log| && log[j] == SellerAccepted && BuyerAccepted in log[..j]
  }

  predicate Backed(t: Transfer, log: seq<Event>) {
    && t.buyer != t.seller
    && (t.buyerOtp ==> BuyerAccepted in log)
    && (t.status == Completed ==> BothAccepted(log))
  }

  predicate Cleared(pc: Pc, log: seq<Event>) {
    && (pc in {BuyerFlag, SellerSend, BuyerPatch, SellerCode} ==> BuyerAccepted in log)
    && (pc in {SellerFlag, Funds, Saga, Complete, MarkFailed} ==> BothAccepted(log))
  }

  predicate DoneBacked(log: seq<Event>) {
    forall k :: 0 <= k < |log| && log[k] == TransferDone ==> BothAccepted(log[..k])
  }

  predicate Gated(s: State) {
    && (s.record.Some? ==> Backed(s.record.value, s.log))
    && (forall id :: id in s.flights ==> Cleared(s.flights[id].pc, s.log))
    && DoneBacked(s.log)
  }

  /** How the bodies that the handlers send change a record. */
  lemma PatchEffects(t: Transfer, sid: string, now: Time)
    ensures SetAll(t, [SetBuyerSid(sid), SetStatus(PendingBuyerOtp)]) == t.(buyerSid := Some(sid), status := PendingBuyerOtp)
    ensures SetAll(t, [SetBuyerOtp(true), SetSellerSid(sid), SetStatus(PendingSellerOtp)])
      == t.(buyerOtp := true, sellerSid := Some(sid), status := PendingSellerOtp)
    ensures SetAll(t, [SetStatus(Completed), SetCompletedAt(At(now))]) == t.(status := Completed, completedAt := Some(now))
    ensures forall f :: SetAll(t, [f]) == SetField(t, f)
  {
    SetTwo(t, SetBuyerSid(sid), SetStatus(PendingBuyerOtp));
    SetTwo(t, SetStatus(Completed), SetCompletedAt(At(now)));
    var body := [SetBuyerOtp(true), SetSellerSid(sid), SetStatus(PendingSellerOtp)];
    assert body[..2] == [SetBuyerOtp(true), SetSellerSid(sid)];
    SetTwo(t, SetBuyerOtp(true), SetSellerSid(sid));
  }

  lemma SetOne(t: Transfer, f: Field)
    ensures SetAll(t, [f]) == SetField(t, f)
  {
    assert [f][..0] == [];
  }

  lemma SetTwo(t: Transfer, f: Field, g: Field)
    ensures SetAll(t, [f, g]) == SetField(SetField(t, f), g)
  {
    assert [f, g][..1] == [f] && [f][..0] == [];
    assert SetAll(t, [f]) == SetField(t, f);
  }

  lemma LogGrows(log: seq<Event>, e: Event)
    ensures forall x :: x in log ==> x in log + [e]
    ensures BothAccepted(log) ==> BothAccepted(log + [e])
    ensures e == SellerAccepted && BuyerAccepted in log ==> BothAccepted(log + [e])
    ensures DoneBacked(log) && (e == TransferDone ==> BothAccepted(log)) ==> DoneBacked(log + [e])
  {
    var l := log + [e];
    assert l[..|log|] == log;
    assert forall k :: 0 <= k <= |log| ==> l[..k] == log[..k];
    if BothAccepted(log) {
      var j :| 0 <= j < |log| && log[j] == SellerAccepted && BuyerAccepted in log[..j];
      assert l[j] == SellerAccepted && BuyerAccepted in l[..j];
    }
    if e == SellerAccepted && BuyerAccepted in log {
      assert l[|log|] == SellerAccepted && BuyerAccepted in l[..|log|];
    }
  }

  lemma ActBacked(t: Transfer, pc: Pc, r: Reply, log: seq<Event>)
    requires Backed(t, log) && Cleared(pc, log)
    ensures Backed(Act(t, pc, r).record, log)
  {
    PatchEffects(t, r.sid, r.now);
  }

  lemma ActCleared(t: Transfer, pc: Pc, r: Reply, log: seq<Event>)
    requires Cleared(pc, log) && DoneBacked(log)
    ensures
      var e := Act(t, pc, r);
      var l := if e.event.Some? then log + [e.event.value] else log;
      Cleared(e.pc, l) && DoneBacked(l)
  {
    var e := Act(t, pc, r);
    if e.event.Some? {
      LogGrows(log, e.event.value);
    }
  }

  lemma GatedStep(s: State, step: Step)
    requires Gated(s)
    ensures Gated(Next(s, step))
  {
    if step.Move? && s.record.Some? && step.id in s.flights {
      ActBacked(s.record.value, s.flights[step.id].pc, step.reply, s.log);
      ActCleared(s.record.value, s.flights[step.id].pc, step.reply, s.log);
      var e := Act(s.record.value, s.flights[step.id].pc, step.reply);
      if e.event.Some? {
        LogGrows(s.log, e.event.value);
      }
    }
  }

  lemma {:induction false} GatedRun(steps: seq<Step>)
    ensures Gated(Run(INIT, steps))
  {
    if steps != [] {
      GatedRun(steps[..|steps| - 1]);
      GatedStep(Run(INIT, steps[..|steps| - 1]), steps[|steps| - 1]);
    }
  }

  /** No transfer is completed unless the OTP service accepted the buyer's code and then the seller's,
      in every interleaving, whichever calls fail or are lost; the two parties always differ. */
  lemma NoCompletionWithoutBothCodes(steps: seq<Step>)
    ensures
      var s := Run(INIT, steps);
      && (s.record.Some? && s.record.value.status == Completed ==> BothAccepted(s.log))
      && (s.record.Some? ==> s.record.value.buyer != s.record.value.seller)
      && forall k :: 0 <= k < |s.log| && s.log[k] == TransferDone ==> BothAccepted(s.log[..k])
  {
    GatedRun(steps);
  }
}
