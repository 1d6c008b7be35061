/** What each transfer handler does to the record and the log, from its GET to its last call, for every record, user
    and reply. Who may act, in which state, and what is then written. */
module TransferOutcomes {
  import opened Common
  import opened TransferService
  import opened TransferFlow
  import opened TransferRank
  import opened TransferSlips

  /** The GET that opens every handler. */
  lemma Looked(s: State, id: FlightId, handler: Handler, user: UserId, net: Net, now: Time)
    requires s.record.Some? && id !in s.flights
    ensures
      var t := s.record.value;
      var late := net.Applied() && now > t.expiresAt && t.status !in {Completed, Cancelled, Expired};
      var u := if late then t.(status := Expired) else t;
      var e := Next(s, Start(id, handler, user, net, now));
      && e.record == Some(u) && e.log == s.log
      && (net.Ok? ==> id in e.flights && e.flights[id] == Flight(user, now, Guard(u, handler, user)))
      && (!net.Ok? ==> id in e.flights ==> e.flights[id].pc.Finished?)
  {
  }

  lemma OneCall(s: State, id: FlightId, r: Reply)
    requires s.record.Some? && id in s.flights
    ensures
      var e := Act(s.record.value, s.flights[id].pc, r);
      Play(s, id, [r]).record == Some(e.record)
      && Play(s, id, [r]).log == if e.event.Some? then s.log + [e.event.value] else s.log
  {
    PlayFirst(s, id, r, []);
    assert [r] + [] == [r];
  }

  /** initiate: not one's own listing, enough credit; the transfer then lasts for a day. */
  lemma InitiateOutcome(s: State, id: FlightId, listing: string, buyer: UserId, seller: UserId, amount: Money, balance: Money,
                        now: Time, r: Reply)
    requires s.record.None? && id !in s.flights
    ensures
      var e := Play(Next(s, Initiate(id, listing, buyer, seller, amount, balance, now)), id, [r]);
      var deadline := now + 86400;
      var t := Transfer(listing, buyer, seller, amount, PendingSellerAcceptance, false, false, None, None, None, deadline);
      && e.log == s.log
      && e.record ==
           if buyer == seller || balance < amount then None
           else if !(r.verdict.Go? && r.net.Applied()) then Some(t)
           else if r.now > deadline then Some(t.(status := Expired))
           else Some(t.(status := PendingBuyerOtp, buyerSid := Some(r.sid)))
  {
    var s1 := Next(s, Initiate(id, listing, buyer, seller, amount, balance, now));
    if buyer == seller || balance < amount {
      PlayOver(s1, id, [r]);
    } else {
      OneCall(s1, id, r);
      PatchEffects(s1.record.value, r.sid, r.now);
    }
  }

  /** seller_accept: the seller, while the transfer waits for acceptance. */
  lemma AcceptOutcome(s: State, id: FlightId, user: UserId, net: Net, now: Time, r: Reply)
    requires s.record.Some? && id !in s.flights
    ensures
      var t := Next(s, Start(id, SellerAccept, user, net, now)).record.value;
      var e := Play(Next(s, Start(id, SellerAccept, user, net, now)), id, [r]);
      && e.log == s.log
      && e.record == Some(
           if !(net.Ok? && t.seller == user && t.status == PendingSellerAcceptance && r.verdict.Go? && r.net.Applied()) then t
           else if r.now > t.expiresAt then t.(status := Expired)
           else t.(status := PendingBuyerOtp, buyerSid := Some(r.sid)))
  {
    Looked(s, id, SellerAccept, user, net, now);
    var s1 := Next(s, Start(id, SellerAccept, user, net, now));
    var t := s1.record.value;
    if net.Ok? && t.seller == user && t.status == PendingSellerAcceptance {
      OneCall(s1, id, r);
      PatchEffects(t, r.sid, r.now);
    } else {
      PlayOver(s1, id, [r]);
    }
  }

  /** seller_reject: the seller, while the transfer waits for acceptance. */
  lemma RejectOutcome(s: State, id: FlightId, user: UserId, net: Net, now: Time, r: Reply)
    requires s.record.Some? && id !in s.flights
    ensures
      var t := Next(s, Start(id, SellerReject, user, net, now)).record.value;
      var e := Play(Next(s, Start(id, SellerReject, user, net, now)), id, [r]);
      && e.log == s.log
      && e.record == Some(
           if !(net.Ok? && t.seller == user && t.status == PendingSellerAcceptance && r.net.Applied()) then t
           else if r.now > t.expiresAt then t.(status := Expired)
           else t.(status := Cancelled))
  {
    Looked(s, id, SellerReject, user, net, now);
    var s1 := Next(s, Start(id, SellerReject, user, net, now));
    var t := s1.record.value;
    if net.Ok? && t.seller == user && t.status == PendingSellerAcceptance {
      OneCall(s1, id, r);
      SetOne(t, SetStatus(Cancelled));
    } else {
      PlayOver(s1, id, [r]);
    }
  }

  /** cancel_transfer: either party, unless the transfer is completed, cancelled or failed. */
  lemma CancelOutcome(s: State, id: FlightId, user: UserId, net: Net, now: Time, r: Reply)
    requires s.record.Some? && id !in s.flights
    ensures
      var t := Next(s, Start(id, Cancel, user, net, now)).record.value;
      var e := Play(Next(s, Start(id, Cancel, user, net, now)), id, [r]);
      var may := (user == t.buyer || user == t.seller) && t.status !in {Completed, Cancelled, Failed};
      && e.log == s.log
      && e.record == Some(
           if !(net.Ok? && may && r.net.Applied()) then t
           else if t.status != Expired && r.now > t.expiresAt then t.(status := Expired)
           else t.(status := Cancelled))
  {
    Looked(s, id, Cancel, user, net, now);
    var s1 := Next(s, Start(id, Cancel, user, net, now));
    var t := s1.record.value;
    if net.Ok? && (user == t.buyer || user == t.seller) && t.status !in {Completed, Cancelled, Failed} {
      OneCall(s1, id, r);
      SetOne(t, SetStatus(Cancelled));
    } else {
      PlayOver(s1, id, [r]);
    }
  }

  /** resend_otp: whoever's code is due gets a new session, and nothing else changes. */
  lemma ResendOutcome(s: State, id: FlightId, user: UserId, net: Net, now: Time, r: Reply)
    requires s.record.Some? && id !in s.flights
    ensures
      var t := Next(s, Start(id, ResendOtp, user, net, now)).record.value;
      var e := Play(Next(s, Start(id, ResendOtp, user, net, now)), id, [r]);
      var toBuyer := t.status == PendingBuyerOtp && t.buyer == user;
      var toSeller := t.status == PendingSellerOtp && t.seller == user;
      && e.log == s.log
      && e.record == Some(
           if !(net.Ok? && (toBuyer || toSeller) && r.verdict.Go? && r.net.Applied()) then t
           else if r.now > t.expiresAt then t.(status := Expired)
           else if toBuyer then t.(buyerSid := Some(r.sid))
           else t.(sellerSid := Some(r.sid)))
  {
    Looked(s, id, ResendOtp, user, net, now);
    var s1 := Next(s, Start(id, ResendOtp, user, net, now));
    var t := s1.record.value;
    if net.Ok? && ((t.status == PendingBuyerOtp && t.buyer == user) || (t.status == PendingSellerOtp && t.seller == user)) {
      OneCall(s1, id, r);
      SetOne(t, SetBuyerSid(r.sid));
      SetOne(t, SetSellerSid(r.sid));
    } else {
      PlayOver(s1, id, [r]);
    }
  }

  /** The timeout consumer leaves nothing but the lazy expiry of its look. */
  lemma TimeoutOutcome(s: State, id: FlightId, user: UserId, net: Net, now: Time, r: Reply)
    requires s.record.Some? && id !in s.flights
    ensures
      var e := Play(Next(s, Start(id, Timeout, user, net, now)), id, [r]);
      e.log == s.log && e.record == Next(s, Start(id, Timeout, user, net, now)).record
  {
    Looked(s, id, Timeout, user, net, now);
    var s1 := Next(s, Start(id, Timeout, user, net, now));
    if id in s1.flights && !s1.flights[id].pc.Finished? {
      OneCall(s1, id, r);
      TimeoutPatchIsRefused(s1.record.value, r.now);
    } else {
      PlayOver(s1, id, [r]);
    }
  }

  /** The transfer service's own cancel route asks nobody's name and refuses completed, cancelled and expired transfers. */
  lemma ServiceCancelOutcome(s: State)
    requires s.record.Some?
    ensures
      var t := s.record.value;
      Next(s, ServiceCancel) == s.(record := Some(if t.status in {Completed, Cancelled, Expired} then t else t.(status := Cancelled)))
  {
  }

  /** buyer_verify: the buyer, while the buyer's code is due and a session is open. */
  lemma BuyerVerifyOutcome(s: State, id: FlightId, user: UserId, net: Net, now: Time, r: BuyerReplies)
    requires s.record.Some? && id !in s.flights
    ensures
      var t := Next(s, Start(id, BuyerVerify, user, net, now)).record.value;
      var may := t.buyer == user && t.status == PendingBuyerOtp && !t.buyerOtp && t.buyerSid.Some? && t.buyerSid.value != "";
      var accepted := net.Ok? && may && r.code.net.Ok? && r.code.verdict.Go?;
      var late := accepted && r.flag.net.Applied() && r.flag.now > t.expiresAt;
      var sent := accepted && !r.flag.net.Raise? && r.send.verdict.Go? && r.patch.net.Applied();
      var e := Play(Next(s, Start(id, BuyerVerify, user, net, now)), id, BuyerScript(r));
      && e.log == s.log + (if accepted then [BuyerAccepted] else [])
      && e.record == Some(
           if !accepted then t
           else if sent && (late || r.patch.now <= t.expiresAt)
           then t.(buyerOtp := true, sellerSid := Some(r.patch.sid), status := PendingSellerOtp)
           else t.(buyerOtp := r.flag.net.Applied() && !late, status := if late || sent then Expired else PendingBuyerOtp))
  {
    Looked(s, id, BuyerVerify, user, net, now);
    var s1 := Next(s, Start(id, BuyerVerify, user, net, now));
    var t := s1.record.value;
    if net.Ok? && t.buyer == user && t.status == PendingBuyerOtp && !t.buyerOtp && t.buyerSid.Some? && t.buyerSid.value != "" {
      BuyerVerifySlipsExactlyWhen(s, id, user, now, r);
    } else {
      PlayOver(s1, id, BuyerScript(r));
    }
  }

  /** seller_verify: the seller, while the seller's code is due, the buyer's is in and a session is open. */
  lemma SellerVerifyOutcome(s: State, id: FlightId, user: UserId, net: Net, now: Time, r: SellerReplies)
    requires s.record.Some? && id !in s.flights
    ensures
      var t := Next(s, Start(id, SellerVerify, user, net, now)).record.value;
      var may :=
        && t.seller == user && t.status == PendingSellerOtp && !t.sellerOtp && t.buyerOtp
        && t.sellerSid.Some? && t.sellerSid.value != "";
      var accepted := net.Ok? && may && r.code.net.Ok? && r.code.verdict.Go?;
      var late := accepted && r.flag.net.Applied() && r.flag.now > t.expiresAt;
      var transacts := accepted && !r.flag.net.Raise? && !r.funds.verdict.Stop?;
      var tries := transacts && r.funds.verdict.Go? && r.saga.verdict.Go? && r.complete.net.Applied();
      var completes := tries && (late || r.complete.now <= t.expiresAt);
      var marks := transacts && r.mark.net.Applied() && !(completes && r.complete.net.Ok?);
      var before := if completes then Completed else if late || tries then Expired else PendingSellerOtp;
      var e := Play(Next(s, Start(id, SellerVerify, user, net, now)), id, SellerScript(r));
      && e.log == s.log + (if accepted then [SellerAccepted] else []) + (if completes then [TransferDone] else [])
      && e.record == Some(
           if !accepted then t
           else t.(sellerOtp := r.flag.net.Applied() && !late,
                   completedAt := if completes then Some(r.complete.now) else t.completedAt,
                   status := if !marks then before
                             else if before == PendingSellerOtp && r.mark.now > t.expiresAt then Expired
                             else Failed))
  {
    Looked(s, id, SellerVerify, user, net, now);
    var s1 := Next(s, Start(id, SellerVerify, user, net, now));
    var t := s1.record.value;
    if net.Ok? && t.seller == user && t.status == PendingSellerOtp && !t.sellerOtp && t.buyerOtp
       && t.sellerSid.Some? && t.sellerSid.value != "" {
      SellerVerifySlipsExactlyWhen(s, id, user, now, r);
    } else {
      PlayOver(s1, id, SellerScript(r));
    }
  }

  // Who is at work, over every run.

  /** Every request at work belongs to the party whose turn it is. */
  predicate PartiesOnly(s: State) {
    && (s.record.None? ==> s.flights == map[])
    && (s.record.Some? ==> forall id :: id in s.flights ==>
          var f, t := s.flights[id], s.record.value;
          && (f.pc in {InitPatch, BuyerCode, BuyerFlag, SellerSend, BuyerPatch, ResendBuyer} ==> f.user == t.buyer)
          && (f.pc in {AcceptPatch, RejectPatch, SellerCode, SellerFlag, Funds, Saga, Complete, MarkFailed, ResendSeller} ==>
                f.user == t.seller)
          && (f.pc.CancelPatch? ==> f.user == t.buyer || f.user == t.seller))
  }

  lemma ActKeepsParties(t: Transfer, pc: Pc, r: Reply)
    ensures Act(t, pc, r).record.buyer == t.buyer && Act(t, pc, r).record.seller == t.seller
  {
    forall body
      ensures Patched(t, body, r.now).buyer == t.buyer && Patched(t, body, r.now).seller == t.seller
    {
      PatchKeepsTerms(t, body, r.now);
    }
  }

  lemma PartiesStep(s: State, step: Step)
    requires PartiesOnly(s)
    ensures PartiesOnly(Next(s, step))
  {
    if step.Move? && s.record.Some? && step.id in s.flights {
      ActKeepsParties(s.record.value, s.flights[step.id].pc, step.reply);
    }
  }

  /** In every interleaving, whatever fails, nobody but the buyer is past the guard of buyer_verify, nobody but the
      seller past those of accept, reject and seller_verify, and nobody but the two past that of cancel. */
  lemma {:induction false} OnlyPartiesAct(steps: seq<Step>)
    ensures PartiesOnly(Run(INIT, steps))
  {
    if steps != [] {
      OnlyPartiesAct(steps[..|steps| - 1]);
      PartiesStep(Run(INIT, steps[..|steps| - 1]), steps[|steps| - 1]);
    }
  }
}
