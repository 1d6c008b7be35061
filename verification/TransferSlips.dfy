/** The verify handlers from start to end, for every pattern of replies: what they leave behind, and exactly
    when they take the status of a transfer back. */
module TransferSlips {
  import opened Common
  import opened TransferService
  import opened TransferFlow
  import opened TransferRank
  import TransferSaga

  /** The status stays or climbs at each call of a handler that meets the given replies. */
  predicate PlayClimbs(s: State, id: FlightId, replies: seq<Reply>)
    decreases |replies|
  {
    replies == []
    || (&& ClimbsTo(StatusOf(s), StatusOf(Next(s, Move(id, replies[0]))))
        && PlayClimbs(Next(s, Move(id, replies[0])), id, replies[1..]))
  }

  lemma ClimbFirst(s: State, id: FlightId, r: Reply, rest: seq<Reply>)
    ensures PlayClimbs(s, id, [r] + rest)
      <==> ClimbsTo(StatusOf(s), StatusOf(Next(s, Move(id, r)))) && PlayClimbs(Next(s, Move(id, r)), id, rest)
    ensures Play(s, id, [r] + rest) == Play(Next(s, Move(id, r)), id, rest)
  {
    assert ([r] + rest)[1..] == rest;
  }

  lemma {:induction false} ClimbOver(s: State, id: FlightId, replies: seq<Reply>)
    requires id in s.flights && s.flights[id].pc.Finished?
    ensures PlayClimbs(s, id, replies) && Play(s, id, replies) == s
    decreases |replies|
  {
    PlayOver(s, id, replies);
    if replies != [] {
      OverMoves(s, id, replies[0]);
      ClimbOver(s, id, replies[1..]);
    }
  }

  /** The record after one PATCH, told from the record before it. */
  function Written(t: Transfer, r: Reply, to: Transfer): Transfer {
    if !r.net.Applied() then t else if Expires(t, r.now) then t.(status := Expired) else to
  }

  lemma BuyerCalls(t: Transfer, r: Reply)
    ensures Act(t, BuyerFlag, r).record == Written(t, r, t.(buyerOtp := true))
    ensures Act(t, BuyerPatch, r).record
      == Written(t, r, t.(buyerOtp := true, sellerSid := Some(r.sid), status := PendingSellerOtp))
  {
    PatchEffects(t, r.sid, r.now);
  }

  lemma MarkCalls(t: Transfer, r: Reply)
    ensures Act(t, SellerFlag, r).record == Written(t, r, t.(sellerOtp := true))
    ensures Act(t, MarkFailed, r).record == Written(t, r, t.(status := Failed))
  {
    SetOne(t, SetSellerOtp(true));
    SetOne(t, SetStatus(Failed));
  }

  lemma CompleteCall(t: Transfer, r: Reply)
    ensures Act(t, Complete, r).record == Written(t, r, t.(status := Completed, completedAt := Some(r.now)))
  {
    SetTwo(t, SetStatus(Completed), SetCompletedAt(At(r.now)));
  }

  // buyer_verify.

  /** From the seller's OTP on. */
  lemma AwaitOutcome(s: State, id: FlightId, send: Reply, patch: Reply)
    requires s.record.Some? && s.record.value.status in {PendingBuyerOtp, Expired}
    requires id in s.flights && s.flights[id].pc.SellerSend?
    ensures
      var t := s.record.value;
      var sent := send.verdict.Go? && patch.net.Applied();
      var e := Play(s, id, [send] + [patch]);
      && e.log == s.log
      && e.record == Some(
           if !sent then t
           else if t.status != Expired && patch.now > t.expiresAt then t.(status := Expired)
           else t.(buyerOtp := true, sellerSid := Some(patch.sid), status := PendingSellerOtp))
      && (PlayClimbs(s, id, [send] + [patch]) <==> !(sent && t.status == Expired))
  {
    ClimbFirst(s, id, send, [patch]);
    var s1 := Next(s, Move(id, send));
    BuyerCalls(s.record.value, patch);
    if send.verdict.Go? {
      ClimbFirst(s1, id, patch, []);
      assert [patch] + [] == [patch];
    } else {
      ClimbOver(s1, id, [patch]);
    }
  }

  lemma NotifyOutcome(s: State, id: FlightId, r: BuyerReplies)
    requires s.record.Some? && s.record.value.status == PendingBuyerOtp && !s.record.value.buyerOtp
    requires id in s.flights && s.flights[id].pc.BuyerFlag?
    ensures
      var t := s.record.value;
      var late := r.flag.net.Applied() && r.flag.now > t.expiresAt;
      var sent := !r.flag.net.Raise? && r.send.verdict.Go? && r.patch.net.Applied();
      var script := [r.flag] + ([r.send] + [r.patch]);
      var e := Play(s, id, script);
      && e.log == s.log
      && e.record == Some(
           if sent && (late || r.patch.now <= t.expiresAt)
           then t.(buyerOtp := true, sellerSid := Some(r.patch.sid), status := PendingSellerOtp)
           else t.(buyerOtp := r.flag.net.Applied() && !late, status := if late || sent then Expired else PendingBuyerOtp))
      && (PlayClimbs(s, id, script) <==> !(late && sent))
  {
    ClimbFirst(s, id, r.flag, [r.send] + [r.patch]);
    BuyerCalls(s.record.value, r.flag);
    var s1 := Next(s, Move(id, r.flag));
    if r.flag.net.Raise? {
      ClimbOver(s1, id, [r.send] + [r.patch]);
    } else {
      AwaitOutcome(s1, id, r.send, r.patch);
    }
  }

  /** buyer_verify past its guard, for all replies: the record and the log afterwards, and exactly when the status
      slips from expired back to pending_seller_otp, told from the replies, the clocks and the deadline. */
  lemma BuyerVerifySlipsExactlyWhen(s: State, id: FlightId, user: UserId, now: Time, r: BuyerReplies)
    requires s.record.Some? && id !in s.flights
    requires Guard(Lookup(s.record.value, now), BuyerVerify, user).BuyerCode?
    ensures
      var t := s.record.value;
      var accepted := r.code.net.Ok? && r.code.verdict.Go?;
      var late := accepted && r.flag.net.Applied() && r.flag.now > t.expiresAt;
      var sent := accepted && !r.flag.net.Raise? && r.send.verdict.Go? && r.patch.net.Applied();
      var begun := Next(s, Start(id, BuyerVerify, user, Ok, now));
      var e := Play(begun, id, BuyerScript(r));
      && e.log == s.log + (if accepted then [BuyerAccepted] else [])
      && e.record == Some(
           if sent && (late || r.patch.now <= t.expiresAt)
           then t.(buyerOtp := true, sellerSid := Some(r.patch.sid), status := PendingSellerOtp)
           else t.(buyerOtp := accepted && r.flag.net.Applied() && !late, status := if late || sent then Expired else PendingBuyerOtp))
      && (PlayClimbs(begun, id, BuyerScript(r)) <==> !(late && sent))
  {
    var begun := Next(s, Start(id, BuyerVerify, user, Ok, now));
    var rest := [r.flag] + ([r.send] + [r.patch]);
    assert begun.record == s.record;
    ClimbFirst(begun, id, r.code, rest);
    var s1 := Next(begun, Move(id, r.code));
    if r.code.net.Ok? && r.code.verdict.Go? {
      NotifyOutcome(s1, id, r);
    } else {
      ClimbOver(s1, id, rest);
    }
  }

  // seller_verify.

  /** The completing PATCH goes through: at the deadline at the latest, or on a record that has expired already. */
  predicate Completes(t: Transfer, r: SellerReplies) {
    r.complete.net.Applied() && (t.status == Expired || r.complete.now <= t.expiresAt)
  }

  /** The record that the last PATCHes leave of `t`. */
  function Closed(t: Transfer, r: SellerReplies, failed: bool): Transfer {
    var completes := !failed && Completes(t, r);
    var status :=
      if completes then Completed
      else if t.status == Expired || (!failed && r.complete.net.Applied()) then Expired
      else PendingSellerOtp;
    t.(completedAt := if completes then Some(r.complete.now) else t.completedAt,
       status := if (completes && r.complete.net.Ok?) || !r.mark.net.Applied() then status
                 else if status == PendingSellerOtp && r.mark.now > t.expiresAt then Expired
                 else Failed)
  }

  /** The failure mark lands on a record that is expired or completed. */
  predicate MarkSlips(t: Transfer, r: SellerReplies, failed: bool) {
    && r.mark.net.Applied()
    && !(!failed && Completes(t, r) && r.complete.net.Ok?)
    && (t.status == Expired || (!failed && r.complete.net.Applied()))
  }

  lemma MarkOutcome(s: State, id: FlightId, r: Reply)
    requires s.record.Some? && id in s.flights && s.flights[id].pc.MarkFailed?
    requires s.record.value.status in {PendingSellerOtp, Expired, Completed}
    ensures
      var t := s.record.value;
      var e := Play(s, id, [r]);
      && e.log == s.log
      && e.record == Some(if !r.net.Applied() then t
                          else if t.status == PendingSellerOtp && r.now > t.expiresAt then t.(status := Expired)
                          else t.(status := Failed))
      && (PlayClimbs(s, id, [r]) <==> !(r.net.Applied() && t.status != PendingSellerOtp))
  {
    MarkCalls(s.record.value, r);
    ClimbFirst(s, id, r, []);
    assert [r] + [] == [r];
  }

  /** The completing PATCH as one step. */
  lemma CompleteStep(s: State, id: FlightId, r: Reply)
    requires s.record.Some? && s.record.value.status in {PendingSellerOtp, Expired}
    requires id in s.flights && s.flights[id].pc.Complete?
    ensures
      var t := s.record.value;
      var completes := r.net.Applied() && (t.status == Expired || r.now <= t.expiresAt);
      var u :=
        if completes then t.(status := Completed, completedAt := Some(r.now))
        else if r.net.Applied() then t.(status := Expired) else t;
      var pc := if completes && r.net.Ok? then Finished else MarkFailed;
      Next(s, Move(id, r))
      == State(Some(u), s.flights[id := s.flights[id].(pc := pc)], s.log + if completes then [TransferDone] else [])
  {
    CompleteCall(s.record.value, r);
    ActStatus(s.record.value, Complete, r);
    assert s.log + [] == s.log;
  }

  lemma CloseOutcome(s: State, id: FlightId, r: SellerReplies, failed: bool)
    requires s.record.Some? && s.record.value.status in {PendingSellerOtp, Expired}
    requires id in s.flights && s.flights[id].pc == if failed then MarkFailed else Complete
    ensures
      var t := s.record.value;
      var e := Play(s, id, CloseScript(r, failed));
      && e.log == s.log + (if !failed && Completes(t, r) then [TransferDone] else [])
      && e.record == Some(Closed(t, r, failed))
      && (PlayClimbs(s, id, CloseScript(r, failed)) <==> !MarkSlips(t, r, failed))
  {
    if failed {
      MarkOutcome(s, id, r.mark);
    } else {
      CompleteStep(s, id, r.complete);
      ClimbFirst(s, id, r.complete, [r.mark]);
      var s1 := Next(s, Move(id, r.complete));
      assert ClimbsTo(StatusOf(s), StatusOf(s1));
      AfterComplete(s, s1, id, r);
    }
  }

  lemma AfterComplete(s: State, s1: State, id: FlightId, r: SellerReplies)
    requires s.record.Some? && s.record.value.status in {PendingSellerOtp, Expired}
    requires
      var t := s.record.value;
      && s1.record == Some(if Completes(t, r) then t.(status := Completed, completedAt := Some(r.complete.now))
                           else if r.complete.net.Applied() then t.(status := Expired) else t)
      && id in s1.flights
      && s1.flights[id].pc == if Completes(t, r) && r.complete.net.Ok? then Finished else MarkFailed
    ensures Play(s1, id, [r.mark]).log == s1.log
    ensures Play(s1, id, [r.mark]).record == Some(Closed(s.record.value, r, false))
    ensures PlayClimbs(s1, id, [r.mark]) <==> !MarkSlips(s.record.value, r, false)
  {
    if s1.flights[id].pc.Finished? {
      ClimbOver(s1, id, [r.mark]);
    } else {
      MarkOutcome(s1, id, r.mark);
    }
  }

  lemma SagaOutcome(s: State, id: FlightId, r: SellerReplies)
    requires s.record.Some? && s.record.value.status in {PendingSellerOtp, Expired}
    requires id in s.flights && s.flights[id].pc.Saga?
    ensures
      var t := s.record.value;
      var failed := !r.saga.verdict.Go?;
      var script := [r.saga] + CloseScript(r, failed);
      && Play(s, id, script).log == s.log + (if !failed && Completes(t, r) then [TransferDone] else [])
      && Play(s, id, script).record == Some(Closed(t, r, failed))
      && (PlayClimbs(s, id, script) <==> !MarkSlips(t, r, failed))
  {
    var failed := !r.saga.verdict.Go?;
    ClimbFirst(s, id, r.saga, CloseScript(r, failed));
    var s1 := Next(s, Move(id, r.saga));
    assert s1 == s.(flights := s.flights[id := s.flights[id].(pc := if failed then MarkFailed else Complete)]);
    CloseOutcome(s1, id, r, failed);
  }

  /** Neither the balance check nor the first six saga calls write to the record. */
  lemma TransactOutcome(s: State, id: FlightId, r: SellerReplies)
    requires s.record.Some? && s.record.value.status in {PendingSellerOtp, Expired}
    requires id in s.flights && s.flights[id].pc.Funds?
    ensures
      var t := s.record.value;
      var failed := r.funds.verdict.Fail? || !r.saga.verdict.Go?;
      var e := Play(s, id, TransactScript(r));
      && e.log == s.log + (if !r.funds.verdict.Stop? && !failed && Completes(t, r) then [TransferDone] else [])
      && e.record == Some(if r.funds.verdict.Stop? then t else Closed(t, r, failed))
      && (PlayClimbs(s, id, TransactScript(r)) <==> r.funds.verdict.Stop? || !MarkSlips(t, r, failed))
  {
    var s1 := Next(s, Move(id, r.funds));
    ClimbFirst(s, id, r.funds, TransactScript(r)[1..]);
    FundsStep(s, id, r.funds);
    match r.funds.verdict
    case Stop => ClimbOver(s1, id, []);
    case Fail => CloseOutcome(s1, id, r, true);
    case Go => SagaOutcome(s1, id, r);
  }

  lemma FundsStep(s: State, id: FlightId, r: Reply)
    requires s.record.Some? && id in s.flights && s.flights[id].pc.Funds?
    ensures Next(s, Move(id, r)) == s.(flights := s.flights[id := s.flights[id].(
      pc := match r.verdict case Go => Saga case Fail => MarkFailed case Stop => Finished)])
  {
  }

  /** What a saga that meets the replies `r` looks like from its transfer record: the verdict on its first six calls,
      the completing PATCH and the failure mark. */
  function SeenFromRecord(w: TransferSaga.World, r: TransferSaga.Replies): SellerReplies
    requires r.Complete()
  {
    var yes := Reply(Ok, Go, "", r.doneAt);
    SellerReplies(yes, yes, yes,
                  Reply(Ok, if TransferSaga.Progress(w, r, 0) >= 6 then Go else Fail, "", r.doneAt),
                  Reply(r.forward[6], Go, "", r.doneAt), Reply(r.mark, Go, "", r.markAt))
  }

  lemma CompletionAccepted(t: Transfer, r: TransferSaga.Replies)
    requires r.Complete() && t.status in {PendingSellerOtp, Expired}
    ensures Accepts(t, TransferSaga.Completion(r), r.doneAt) <==> t.status == Expired || r.doneAt <= t.expiresAt
    ensures Patched(t, TransferSaga.Completion(r), r.doneAt)
      == if t.status == Expired || r.doneAt <= t.expiresAt then t.(status := Completed, completedAt := Some(r.doneAt))
         else t.(status := Expired)
  {
    SetTwo(t, SetStatus(Completed), SetCompletedAt(At(r.doneAt)));
  }

  lemma SagaLeavesClosed(w: TransferSaga.World, q: TransferSaga.Request, r: TransferSaga.Replies)
    requires r.Complete() && w.transfer.status in {PendingSellerOtp, Expired}
    ensures
      var n := TransferSaga.Progress(w, r, 0);
      && TransferSaga.After(w, q, r).transfer == Closed(w.transfer, SeenFromRecord(w, r), n < 6)
      && (n == 7 <==> n >= 6 && Completes(w.transfer, SeenFromRecord(w, r)) && r.forward[6].Ok?)
  {
    var t := w.transfer;
    CompletionAccepted(t, r);
    SetOne(t, SetStatus(Failed));
    SetOne(Patched(t, TransferSaga.Completion(r), r.doneAt), SetStatus(Failed));
  }

  /** The saga's flight and the saga itself agree: meeting the same replies, the flight leaves the transfer record
      that TransferOrchestrator.ExecuteSaga leaves. */
  lemma FlightMatchesSaga(s: State, id: FlightId, w: TransferSaga.World, q: TransferSaga.Request, r: TransferSaga.Replies)
    requires r.Complete() && s.record == Some(w.transfer) && w.transfer.status in {PendingSellerOtp, Expired}
    requires id in s.flights && s.flights[id].pc.Saga?
    ensures
      var seen := SeenFromRecord(w, r);
      Play(s, id, [seen.saga] + CloseScript(seen, !seen.saga.verdict.Go?)).record == Some(TransferSaga.After(w, q, r).transfer)
  {
    SagaLeavesClosed(w, q, r);
    SagaOutcome(s, id, SeenFromRecord(w, r));
  }

  /** The record after the PATCH that records the seller's code. */
  function Flagged(t: Transfer, r: SellerReplies): Transfer {
    if !r.flag.net.Applied() then t
    else if r.flag.now > t.expiresAt then t.(status := Expired)
    else t.(sellerOtp := true)
  }

  lemma FlagStep(s: State, id: FlightId, r: SellerReplies)
    requires s.record.Some? && s.record.value.status == PendingSellerOtp
    requires id in s.flights && s.flights[id].pc.SellerFlag?
    ensures Next(s, Move(id, r.flag))
      == s.(record := Some(Flagged(s.record.value, r)),
            flights := s.flights[id := s.flights[id].(pc := if r.flag.net.Raise? then Finished else Funds)])
  {
    MarkCalls(s.record.value, r.flag);
  }

  lemma SettleOutcome(s: State, id: FlightId, r: SellerReplies)
    requires s.record.Some? && s.record.value.status == PendingSellerOtp
    requires id in s.flights && s.flights[id].pc.SellerFlag?
    ensures
      var t := Flagged(s.record.value, r);
      var failed := r.funds.verdict.Fail? || !r.saga.verdict.Go?;
      var stops := r.flag.net.Raise? || r.funds.verdict.Stop?;
      var script := [r.flag] + TransactScript(r);
      var e := Play(s, id, script);
      && e.log == s.log + (if !stops && !failed && Completes(t, r) then [TransferDone] else [])
      && e.record == Some(if stops then t else Closed(t, r, failed))
      && (PlayClimbs(s, id, script) <==> stops || !MarkSlips(t, r, failed))
  {
    FlagStep(s, id, r);
    ClimbFirst(s, id, r.flag, TransactScript(r));
    var s1 := Next(s, Move(id, r.flag));
    assert ClimbsTo(StatusOf(s), StatusOf(s1));
    if r.flag.net.Raise? {
      ClimbOver(s1, id, TransactScript(r));
    } else {
      TransactOutcome(s1, id, r);
    }
  }

  /** seller_verify past its guard, for all replies, whether it gives up, finds too little credit, fails in the saga
      or gets to the completing PATCH: the record and the log afterwards, exactly when it completes the transfer,
      and exactly when the status slips, told from the replies, the clocks and the deadline. */
  lemma SellerVerifySlipsExactlyWhen(s: State, id: FlightId, user: UserId, now: Time, r: SellerReplies)
    requires s.record.Some? && id !in s.flights
    requires Guard(Lookup(s.record.value, now), SellerVerify, user).SellerCode?
    ensures
      var deadline := s.record.value.expiresAt;
      var t := Flagged(s.record.value, r);
      var late := r.flag.net.Applied() && r.flag.now > deadline;
      var accepted := r.code.net.Ok? && r.code.verdict.Go?;
      var transacts := accepted && !r.flag.net.Raise? && !r.funds.verdict.Stop?;
      var moved := r.funds.verdict.Go? && r.saga.verdict.Go?;
      var completes := transacts && moved && r.complete.net.Applied() && (late || r.complete.now <= deadline);
      var begun := Next(s, Start(id, SellerVerify, user, Ok, now));
      var e := Play(begun, id, SellerScript(r));
      && e.log == s.log + (if accepted then [SellerAccepted] else []) + (if completes then [TransferDone] else [])
      && e.record == Some(if !accepted then s.record.value else if !transacts then t else Closed(t, r, !moved))
      && (PlayClimbs(begun, id, SellerScript(r)) <==>
          !(&& transacts && r.mark.net.Applied()
            && (late || (moved && r.complete.net.Applied()))
            && !(completes && r.complete.net.Ok?)))
  {
    var begun := Next(s, Start(id, SellerVerify, user, Ok, now));
    var rest := [r.flag] + TransactScript(r);
    assert begun.record == s.record;
    ClimbFirst(begun, id, r.code, rest);
    var s1 := Next(begun, Move(id, r.code));
    if r.code.net.Ok? && r.code.verdict.Go? {
      SettleOutcome(s1, id, r);
    } else {
      ClimbOver(s1, id, rest);
    }
  }

  /** A handler whose guard refuses, or whose GET fails, does nothing but the lazy expiry of that GET. */
  lemma GuardedOut(s: State, id: FlightId, handler: Handler, user: UserId, net: Net, now: Time, replies: seq<Reply>)
    requires s.record.Some? && id !in s.flights
    requires !net.Ok? || Guard(Lookup(s.record.value, now), handler, user).Finished?
    ensures
      var e := Play(Next(s, Start(id, handler, user, net, now)), id, replies);
      && e.record == Some(if net.Applied() then Lookup(s.record.value, now) else s.record.value)
      && e.log == s.log
  {
    PlayOver(Next(s, Start(id, handler, user, net, now)), id, replies);
  }

  /** seller_verify with every call answered, up to the completing PATCH. */
  function Drive(s: State, id: FlightId, now: Time): State {
    var yes := Reply(Ok, Go, "", now);
    Next(Next(Next(Next(s, Move(id, yes)), Move(id, yes)), Move(id, yes)), Move(id, yes))
  }

  lemma DriveReachesCompletion(s: State, id: FlightId, now: Time)
    requires s.record.Some? && s.record.value.status == PendingSellerOtp && now <= s.record.value.expiresAt
    requires id in s.flights && s.flights[id].pc.SellerCode?
    ensures
      var d := Drive(s, id, now);
      && d.record == Some(s.record.value.(sellerOtp := true))
      && d.flights == s.flights[id := s.flights[id].(pc := Complete)]
      && d.log == s.log + [SellerAccepted]
  {
    var yes := Reply(Ok, Go, "", now);
    PatchEffects(s.record.value, "", now);
    var s1 := Next(s, Move(id, yes));
    assert s1.record == s.record && s1.flights[id].pc == SellerFlag;
    var s2 := Next(s1, Move(id, yes));
    assert s2.record == Some(s.record.value.(sellerOtp := true)) && s2.flights[id].pc == Funds;
    var s3 := Next(s2, Move(id, yes));
    assert s3.record == s2.record && s3.flights[id].pc == Saga;
  }

  lemma CompleteAgain(s: State, id: FlightId, now: Time)
    requires s.record.Some? && s.record.value.status in {PendingSellerOtp, Completed} && now <= s.record.value.expiresAt
    requires id in s.flights && s.flights[id].pc.Complete?
    ensures
      var d := Next(s, Move(id, Reply(Ok, Go, "", now)));
      d.record.Some? && d.record.value.status == Completed && d.log == s.log + [TransferDone]
      && d.record.value.expiresAt == s.record.value.expiresAt
      && d.flights == s.flights[id := s.flights[id].(pc := Finished)]
  {
    PatchEffects(s.record.value, "", now);
  }

  /** Why one handler at a time matters: two overlapping seller_verify requests both run the saga
      of the same transfer to its end. */
  lemma OverlappingSellerVerifyCompletesTwice(s: State, i: FlightId, j: FlightId, user: UserId, now: Time)
    requires s.record.Some? && now <= s.record.value.expiresAt
    requires Guard(s.record.value, SellerVerify, user).SellerCode?
    requires i != j && i !in s.flights && j !in s.flights
    ensures
      var both := Next(Next(s, Start(i, SellerVerify, user, Ok, now)), Start(j, SellerVerify, user, Ok, now));
      var driven := Drive(Drive(both, i, now), j, now);
      var done := Next(Next(driven, Move(i, Reply(Ok, Go, "", now))), Move(j, Reply(Ok, Go, "", now)));
      Completions(done.log) == Completions(s.log) + 2
  {
    var both := Next(Next(s, Start(i, SellerVerify, user, Ok, now)), Start(j, SellerVerify, user, Ok, now));
    assert both.record == s.record && both.log == s.log;
    assert both.flights[i].pc.SellerCode? && both.flights[j].pc.SellerCode?;
    DriveReachesCompletion(both, i, now);
    var one := Drive(both, i, now);
    DriveReachesCompletion(one, j, now);
    var two := Drive(one, j, now);
    CompleteAgain(two, i, now);
    var three := Next(two, Move(i, Reply(Ok, Go, "", now)));
    CompleteAgain(three, j, now);
    LogCount(s.log, SellerAccepted);
    LogCount(s.log + [SellerAccepted], SellerAccepted);
    LogCount(two.log, TransferDone);
    LogCount(three.log, TransferDone);
  }

  lemma LogCount(log: seq<Event>, e: Event)
    ensures Completions(log + [e]) == Completions(log) + if e == TransferDone then 1 else 0
  {
    assert (log + [e])[..|log|] == log;
  }

  /** With every call answered in time, a transfer gets from initiate to completed, with both codes recorded. */
  lemma HappyPathCompletes(listing: string, buyer: UserId, seller: UserId, amount: Money, sid: string, now: Time)
    requires buyer != seller && sid != ""
    ensures
      var yes := Reply(Ok, Go, sid, now);
      var t1 := Act(Created(listing, buyer, seller, amount, now), InitPatch, yes).record;
      var t2 := Act(Act(t1, BuyerFlag, yes).record, BuyerPatch, yes).record;
      var t3 := Act(Act(t2, SellerFlag, yes).record, Complete, yes);
      && Guard(t1, BuyerVerify, buyer) == BuyerCode
      && Guard(t2, SellerVerify, seller) == SellerCode
      && t3.record.status == Completed && t3.record.buyerOtp && t3.record.sellerOtp && t3.event == Some(TransferDone)
      && forall h, u :: h in {BuyerVerify, SellerAccept, SellerReject, SellerVerify, ResendOtp, Cancel, Timeout} ==>
           Guard(t3.record, h, u) == Finished
  {
    var t0 := Created(listing, buyer, seller, amount, now);
    AnsweredCalls(t0, sid, now);
    var t1 := t0.(buyerSid := Some(sid), status := PendingBuyerOtp);
    AnsweredCalls(t1, sid, now);
    AnsweredCalls(t1.(buyerOtp := true), sid, now);
    var t2 := t1.(buyerOtp := true, sellerSid := Some(sid), status := PendingSellerOtp);
    AnsweredCalls(t2, sid, now);
    AnsweredCalls(t2.(sellerOtp := true), sid, now);
  }

  /** The PATCHes of the happy path on a record that is not expired. */
  lemma AnsweredCalls(t: Transfer, sid: string, now: Time)
    requires now <= t.expiresAt
    ensures
      var yes := Reply(Ok, Go, sid, now);
      && Act(t, InitPatch, yes).record == t.(buyerSid := Some(sid), status := PendingBuyerOtp)
      && Act(t, BuyerFlag, yes).record == t.(buyerOtp := true)
      && Act(t, BuyerPatch, yes).record == t.(buyerOtp := true, sellerSid := Some(sid), status := PendingSellerOtp)
      && Act(t, SellerFlag, yes).record == t.(sellerOtp := true)
      && Act(t, Complete, yes).record == t.(status := Completed, completedAt := Some(now))
      && Act(t, Complete, yes).event == Some(TransferDone)
  {
    PatchEffects(t, sid, now);
  }
}
