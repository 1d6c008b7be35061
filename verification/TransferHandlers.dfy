/** The transfer handlers as the orchestrator runs them against the transfer service. Left alone, each does
    what its flight does in module TransferFlow when it meets the same replies, and touches no other record. */
module TransferHandlers {
  import opened Common
  import opened TransferService
  import opened TransferFlow

  class TransferDesk {
    const store: TransferStore
    const key: string
    ghost var log: seq<Event>
    ghost var flights: map<FlightId, Flight>

    constructor (store: TransferStore, key: string)
      ensures this.store == store && this.key == key && log == [] && flights == map[]
    {
      this.store, this.key := store, key;
      log, flights := [], map[];
    }

    ghost function Machine(): State
      reads this, store
    {
      State(if key in store.rows then Some(store.rows[key]) else None, flights, log)
    }

    /** The records of all other transfers. */
    ghost function Others(): map<string, Transfer>
      reads this, store
    {
      store.rows - {key}
    }

    /** The handler has nothing more to do. */
    ghost predicate Over(id: FlightId)
      reads this
    {
      id in flights ==> flights[id].pc.Finished?
    }

    /** A PATCH whose answer the handler may look at. */
    method Send(body: seq<Field>, r: Reply) returns (accepted: bool)
      requires key in store.rows
      modifies store
      ensures store.rows == old(store.rows)[key := TransferFlow.Send(old(store.rows)[key], body, r)]
      ensures accepted <==> r.net.Applied() && Accepts(old(store.rows)[key], body, r.now)
    {
      accepted := false;
      if r.net.Applied() {
        var reply := store.Patch(key, body, r.now);
        accepted := reply.Found?;
      }
    }

    /** The GET that opens a handler; None if it fails, which ends the handler. */
    method Open(id: FlightId, ghost handler: Handler, user: UserId, net: Net, now: Time) returns (t: Option<Transfer>)
      requires id !in flights
      modifies store, this`flights
      ensures Machine() == Next(old(Machine()), Start(id, handler, user, net, now)) && Others() == old(Others())
      ensures t.Some? <==> key in old(store.rows) && net.Ok?
      ensures key in old(store.rows) ==>
        store.rows == old(store.rows)[key := if net.Applied() then Lookup(old(store.rows)[key], now) else old(store.rows)[key]]
      ensures t.Some? ==>
        && store.rows == old(store.rows)[key := t.value] && t.value == Lookup(old(store.rows)[key], now)
        && id in flights && flights[id] == Flight(user, now, Guard(t.value, handler, user))
      ensures t.None? && id in flights ==> flights[id].pc.Finished?
    {
      t := None;
      if !net.Applied() {
        return;
      }
      var reply := store.Get(key, now);
      if reply.Found? {
        t := if net.Ok? then Some(reply.transfer) else None;
        flights := flights[id := Flight(user, now, if net.Ok? then Guard(reply.transfer, handler, user) else Finished)];
      }
    }

    /** A PATCH sent by a flight, which then moves on to `next`. */
    method SendAndMove(id: FlightId, body: seq<Field>, r: Reply, ghost next: Pc) returns (accepted: bool)
      requires id in flights && key in store.rows
      modifies store, this`flights
      ensures store.rows == old(store.rows)[key := TransferFlow.Send(old(store.rows)[key], body, r)]
      ensures flights == old(flights)[id := old(flights)[id].(pc := next)]
      ensures accepted <==> r.net.Applied() && Accepts(old(store.rows)[key], body, r.now)
    {
      accepted := Send(body, r);
      flights := flights[id := flights[id].(pc := next)];
    }

    /** A step of a flight that writes nothing. */
    ghost method Advance(id: FlightId, next: Pc)
      requires id in flights
      modifies this`flights
      ensures flights == old(flights)[id := old(flights)[id].(pc := next)]
    {
      flights := flights[id := flights[id].(pc := next)];
    }

    /** initiate: not one's own listing, enough credit, then the record and the buyer's OTP. */
    method InitiateHandler(id: FlightId, listing: string, buyer: UserId, seller: UserId, amount: Money, balance: Money,
                           now: Time, r: Reply)
      requires id !in flights && key !in store.rows
      modifies store, this`flights
      ensures Machine() == Play(Next(old(Machine()), Initiate(id, listing, buyer, seller, amount, balance, now)), id, [r])
      ensures Over(id) && Others() == old(Others())
      ensures key in store.rows <==> buyer != seller && balance >= amount
    {
      ghost var s := Next(Machine(), Initiate(id, listing, buyer, seller, amount, balance, now));
      if seller == buyer || balance < amount {
        PlayOver(s, id, [r]);
        return;
      }
      store.Create(key, listing, buyer, seller, amount, now);
      flights := flights[id := Flight(buyer, now, InitPatch)];
      OfferCode(id, r);
    }

    /** The buyer's OTP and, once it is out, the PATCH that waits for the buyer's code. */
    method OfferCode(id: FlightId, r: Reply)
      requires id in flights && key in store.rows && flights[id].pc in {InitPatch, AcceptPatch}
      modifies store, this`flights
      ensures Machine() == Play(old(Machine()), id, [r])
      ensures Over(id) && Others() == old(Others()) && key in store.rows
    {
      if r.verdict.Go? {
        var _ := SendAndMove(id, [SetBuyerSid(r.sid), SetStatus(PendingBuyerOtp)], r, Finished);
      } else {
        Advance(id, Finished);
      }
      PlayFirst(old(Machine()), id, r, []);
    }

    /** seller_accept: an OTP to the buyer, then one PATCH. */
    method SellerAcceptHandler(id: FlightId, user: UserId, net: Net, now: Time, r: Reply)
      requires id !in flights
      modifies store, this`flights
      ensures Machine() == Play(Next(old(Machine()), Start(id, SellerAccept, user, net, now)), id, [r])
      ensures Over(id) && Others() == old(Others())
      // nobody but the seller gets further than the look at the record
      ensures key in old(store.rows) && user != old(store.rows)[key].seller ==>
        log == old(log) && store.rows == old(store.rows)[key := if net.Applied() then Lookup(old(store.rows)[key], now) else old(store.rows)[key]]
    {
      var t := Open(id, SellerAccept, user, net, now);
      if t.None? || t.value.seller != user || t.value.status != PendingSellerAcceptance {
        PlayOver(Machine(), id, [r]);
        return;
      }
      OfferCode(id, r);
    }

    method CancelRecord(id: FlightId, r: Reply)
      requires id in flights && key in store.rows && flights[id].pc in {RejectPatch, CancelPatch}
      modifies store, this`flights
      ensures Machine() == Next(old(Machine()), Move(id, r))
      ensures Over(id) && Others() == old(Others())
      ensures r.net.Applied() && !Expires(old(store.rows)[key], r.now) ==>
        store.rows == old(store.rows)[key := old(store.rows)[key].(status := Cancelled)]
    {
      PatchEffects(store.rows[key], r.sid, r.now);
      var _ := SendAndMove(id, [SetStatus(Cancelled)], r, Finished);
    }

    /** seller_reject and cancel_transfer: one PATCH to cancelled behind different guards. */
    method CancelHandler(id: FlightId, user: UserId, byRejection: bool, net: Net, now: Time, r: Reply)
      requires id !in flights
      modifies store, this`flights
      ensures
        var handler := if byRejection then SellerReject else Cancel;
        Machine() == Play(Next(old(Machine()), Start(id, handler, user, net, now)), id, [r])
      ensures Over(id) && Others() == old(Others())
      // nobody but the seller rejects and nobody but the two parties cancels; anyone else never gets further than the look at the record
      ensures key in old(store.rows) && (user !in {old(store.rows)[key].buyer, old(store.rows)[key].seller} || (byRejection && user != old(store.rows)[key].seller)) ==>
        log == old(log) && store.rows == old(store.rows)[key := if net.Applied() then Lookup(old(store.rows)[key], now) else old(store.rows)[key]]
    {
      ghost var handler := if byRejection then SellerReject else Cancel;
      var t := Open(id, handler, user, net, now);
      ghost var s := Machine();
      if t.None? {
        PlayOver(s, id, [r]);
        return;
      }
      if byRejection && (t.value.seller != user || t.value.status != PendingSellerAcceptance) {
        PlayOver(s, id, [r]);
        return;
      }
      if !byRejection && (user !in {t.value.buyer, t.value.seller} || t.value.status in {Completed, Cancelled, Failed}) {
        PlayOver(s, id, [r]);
        return;
      }
      CancelRecord(id, r);
      PlayFirst(s, id, r, []);
    }

    /** resend_otp: a new session id for whoever is due, and no change of status. */
    method ResendHandler(id: FlightId, user: UserId, net: Net, now: Time, r: Reply)
      requires id !in flights
      modifies store, this`flights
      ensures Machine() == Play(Next(old(Machine()), Start(id, ResendOtp, user, net, now)), id, [r])
      ensures Over(id) && Others() == old(Others())
      // nobody but the two parties gets further than the look at the record
      ensures key in old(store.rows) && user !in {old(store.rows)[key].buyer, old(store.rows)[key].seller} ==>
        log == old(log) && store.rows == old(store.rows)[key := if net.Applied() then Lookup(old(store.rows)[key], now) else old(store.rows)[key]]
    {
      var t := Open(id, ResendOtp, user, net, now);
      ghost var s := Machine();
      if t.None? {
        PlayOver(s, id, [r]);
        return;
      }
      var toBuyer := t.value.status == PendingBuyerOtp && t.value.buyer == user;
      var toSeller := t.value.status == PendingSellerOtp && t.value.seller == user;
      if toBuyer || toSeller {
        Resend(id, toBuyer, r);
        PlayFirst(s, id, r, []);
      } else {
        PlayOver(s, id, [r]);
      }
    }

    method Resend(id: FlightId, toBuyer: bool, r: Reply)
      requires id in flights && key in store.rows && flights[id].pc == if toBuyer then ResendBuyer else ResendSeller
      modifies store, this`flights
      ensures Machine() == Next(old(Machine()), Move(id, r))
      ensures Over(id) && Others() == old(Others())
    {
      if r.verdict.Go? {
        var _ := SendAndMove(id, if toBuyer then [SetBuyerSid(r.sid)] else [SetSellerSid(r.sid)], r, Finished);
      } else {
        Advance(id, Finished);
      }
    }

    /** The code check that buyer_verify and seller_verify share. */
    method CheckCode(id: FlightId, r: Reply) returns (accepted: bool)
      requires id in flights && key in store.rows && flights[id].pc in {BuyerCode, SellerCode}
      modifies this`log, this`flights
      ensures Machine() == Next(old(Machine()), Move(id, r))
      ensures accepted <==> r.net.Ok? && r.verdict.Go?
      ensures id in flights
      ensures !accepted ==> flights[id].pc.Finished?
      ensures accepted ==>
        flights[id] == old(flights)[id].(pc := if old(flights)[id].pc.BuyerCode? then BuyerFlag else SellerFlag)
    {
      accepted := r.net.Ok? && r.verdict.Go?;
      ghost var buyer := flights[id].pc.BuyerCode?;
      flights := flights[id := flights[id].(pc := if !accepted then Finished else if buyer then BuyerFlag else SellerFlag)];
      if accepted {
        log := log + [if old(flights)[id].pc.BuyerCode? then BuyerAccepted else SellerAccepted];
      }
    }

    /** The first PATCH of a verify handler, which records the accepted code. */
    method RaiseFlag(id: FlightId, buyer: bool, r: Reply)
      requires id in flights && key in store.rows && flights[id].pc == if buyer then BuyerFlag else SellerFlag
      modifies store, this`flights
      ensures key in store.rows && Others() == old(Others())
      ensures Machine() == Next(old(Machine()), Move(id, r))
      ensures id in flights && flights[id].pc == if r.net.Raise? then Finished else if buyer then SellerSend else Funds
    {
      var _ := SendAndMove(id, [if buyer then SetBuyerOtp(true) else SetSellerOtp(true)], r,
                           if r.net.Raise? then Finished else if buyer then SellerSend else Funds);
    }

    /** buyer_verify. */
    method BuyerVerifyHandler(id: FlightId, user: UserId, net: Net, now: Time, r: BuyerReplies)
      requires id !in flights
      modifies store, this`flights, this`log
      ensures Machine() == Play(Next(old(Machine()), Start(id, BuyerVerify, user, net, now)), id, BuyerScript(r))
      ensures Over(id) && Others() == old(Others())
      // nobody but the buyer gets further than the look at the record
      ensures key in old(store.rows) && user != old(store.rows)[key].buyer ==>
        log == old(log) && store.rows == old(store.rows)[key := if net.Applied() then Lookup(old(store.rows)[key], now) else old(store.rows)[key]]
    {
      var t := Open(id, BuyerVerify, user, net, now);
      ghost var s := Machine();
      if t.None? || t.value.buyer != user || t.value.status != PendingBuyerOtp || t.value.buyerOtp || !HasSid(t.value.buyerSid) {
        PlayOver(s, id, BuyerScript(r));
        return;
      }
      var accepted := CheckCode(id, r.code);
      ghost var rest := [r.flag] + ([r.send] + [r.patch]);
      PlayFirst(s, id, r.code, rest);
      if accepted {
        NotifySeller(id, r);
      } else {
        PlayOver(Machine(), id, rest);
      }
    }

    /** The rest of buyer_verify once the code is accepted. */
    method NotifySeller(id: FlightId, r: BuyerReplies)
      requires id in flights && key in store.rows && flights[id].pc.BuyerFlag?
      modifies store, this`flights
      ensures Machine() == Play(old(Machine()), id, [r.flag] + ([r.send] + [r.patch]))
      ensures Over(id) && Others() == old(Others())
    {
      ghost var s := Machine();
      RaiseFlag(id, true, r.flag);
      PlayFirst(s, id, r.flag, [r.send] + [r.patch]);
      if r.flag.net.Raise? {
        PlayOver(Machine(), id, [r.send] + [r.patch]);
      } else {
        AwaitSeller(id, r.send, r.patch);
      }
    }

    /** The seller's OTP and, once it is out, the PATCH that waits for the seller's code. */
    method AwaitSeller(id: FlightId, send: Reply, patch: Reply)
      requires id in flights && key in store.rows && flights[id].pc.SellerSend?
      modifies store, this`flights
      ensures Machine() == Play(old(Machine()), id, [send] + [patch])
      ensures Over(id) && Others() == old(Others())
    {
      ghost var s := Machine();
      Advance(id, if send.verdict.Go? then BuyerPatch else Finished);
      PlayFirst(s, id, send, [patch]);
      ghost var s1 := Machine();
      assert s1 == Next(s, Move(id, send));
      if send.verdict.Go? {
        var _ := SendAndMove(id, [SetBuyerOtp(true), SetSellerSid(patch.sid), SetStatus(PendingSellerOtp)], patch, Finished);
        PlayFirst(s1, id, patch, []);
      } else {
        PlayOver(s1, id, [patch]);
      }
    }

    /** seller_verify. */
    method SellerVerifyHandler(id: FlightId, user: UserId, net: Net, now: Time, r: SellerReplies)
      requires id !in flights
      modifies store, this`flights, this`log
      ensures Machine() == Play(Next(old(Machine()), Start(id, SellerVerify, user, net, now)), id, SellerScript(r))
      ensures Over(id) && Others() == old(Others())
      // nobody but the seller gets further than the look at the record
      ensures key in old(store.rows) && user != old(store.rows)[key].seller ==>
        log == old(log) && store.rows == old(store.rows)[key := if net.Applied() then Lookup(old(store.rows)[key], now) else old(store.rows)[key]]
    {
      var t := Open(id, SellerVerify, user, net, now);
      ghost var s := Machine();
      if t.None? || t.value.seller != user || t.value.status != PendingSellerOtp || t.value.sellerOtp
         || !t.value.buyerOtp || !HasSid(t.value.sellerSid) {
        PlayOver(s, id, SellerScript(r));
        return;
      }
      var accepted := CheckCode(id, r.code);
      ghost var rest := [r.flag] + TransactScript(r);
      PlayFirst(s, id, r.code, rest);
      if accepted {
        Settle(id, r);
      } else {
        PlayOver(Machine(), id, rest);
      }
    }

    /** The rest of seller_verify once the code is accepted. */
    method Settle(id: FlightId, r: SellerReplies)
      requires id in flights && key in store.rows && flights[id].pc.SellerFlag?
      modifies store, this`flights, this`log
      ensures Machine() == Play(old(Machine()), id, [r.flag] + TransactScript(r))
      ensures Over(id) && Others() == old(Others())
    {
      ghost var s := Machine();
      RaiseFlag(id, false, r.flag);
      PlayFirst(s, id, r.flag, TransactScript(r));
      if r.flag.net.Raise? {
        PlayOver(Machine(), id, TransactScript(r));
      } else {
        Transact(id, r);
      }
    }

    /** The balances decide: go on, give up, or mark the transfer failed. */
    method Transact(id: FlightId, r: SellerReplies)
      requires id in flights && key in store.rows && flights[id].pc.Funds?
      modifies store, this`flights, this`log
      ensures Machine() == Play(old(Machine()), id, TransactScript(r))
      ensures Over(id) && Others() == old(Others())
    {
      ghost var s := Machine();
      Advance(id, match r.funds.verdict case Go => Saga case Fail => MarkFailed case Stop => Finished);
      assert Machine() == Next(s, Move(id, r.funds));
      PlayFirst(s, id, r.funds, TransactScript(r)[1..]);
      match r.funds.verdict {
        case Stop => PlayOver(Machine(), id, []);
        case Go => RunSaga(id, r);
        case Fail => Close(id, true, r);
      }
    }

    /** The first six steps of the saga, which either all succeed or leave the transfer to be marked failed. */
    method RunSaga(id: FlightId, r: SellerReplies)
      requires id in flights && key in store.rows && flights[id].pc.Saga?
      modifies store, this`flights, this`log
      ensures Machine() == Play(old(Machine()), id, [r.saga] + CloseScript(r, !r.saga.verdict.Go?))
      ensures Over(id) && Others() == old(Others())
    {
      ghost var s := Machine();
      var failed := !r.saga.verdict.Go?;
      Advance(id, if failed then MarkFailed else Complete);
      assert Machine() == Next(s, Move(id, r.saga));
      PlayFirst(s, id, r.saga, CloseScript(r, failed));
      Close(id, failed, r);
    }

    /** Step 7 of the saga. */
    method TryComplete(id: FlightId, r: Reply) returns (confirmed: bool)
      requires id in flights && key in store.rows && flights[id].pc.Complete?
      modifies store, this`flights, this`log
      ensures key in store.rows && Others() == old(Others())
      ensures Machine() == Next(old(Machine()), Move(id, r))
      ensures id in flights && flights[id].pc == if confirmed then Finished else MarkFailed
    {
      var body := [SetStatus(Completed), SetCompletedAt(At(r.now))];
      ghost var willAccept := Accepts(store.rows[key], body, r.now);
      var accepted := SendAndMove(id, body, r, if r.net.Ok? && willAccept then Finished else MarkFailed);
      if accepted {
        log := log + [TransferDone];
      }
      return r.net.Ok? && accepted;
    }

    /** The last PATCHes: to completed and, unless that is confirmed, to failed. */
    method Close(id: FlightId, failed: bool, r: SellerReplies)
      requires id in flights && key in store.rows && flights[id].pc == if failed then MarkFailed else Complete
      modifies store, this`flights, this`log
      ensures Machine() == Play(old(Machine()), id, CloseScript(r, failed))
      ensures Over(id) && Others() == old(Others())
    {
      ghost var s := Machine();
      if !failed {
        var confirmed := TryComplete(id, r.complete);
        PlayFirst(s, id, r.complete, [r.mark]);
        s := Machine();
        if confirmed {
          PlayOver(s, id, [r.mark]);
          return;
        }
      }
      var _ := SendAndMove(id, [SetStatus(Failed)], r.mark, Finished);
      PlayFirst(s, id, r.mark, []);
    }

    /** The transfer service's own cancel route. */
    method CancelRoute()
      modifies store
      ensures Machine() == Next(old(Machine()), ServiceCancel) && Others() == old(Others())
    {
      var _ := store.Cancel(key);
    }

    /** The timeout consumer: it looks, it tries to cancel, and its PATCH is refused. */
    method TimeoutConsumer(id: FlightId, user: UserId, net: Net, now: Time, r: Reply)
      requires id !in flights
      modifies store, this`flights
      ensures Machine() == Play(Next(old(Machine()), Start(id, Timeout, user, net, now)), id, [r])
      ensures Over(id) && Others() == old(Others())
      ensures key in old(store.rows) && net.Ok? ==> key in store.rows && store.rows[key] == Lookup(old(store.rows)[key], now)
    {
      var t := Open(id, Timeout, user, net, now);
      ghost var s := Machine();
      if t.None? || t.value.status !in {PendingSellerAcceptance, PendingBuyerOtp, PendingSellerOtp} {
        PlayOver(s, id, [r]);
        return;
      }
      TimeoutPatchIsRefused(t.value, r.now);
      var _ := SendAndMove(id, [SetStatus(Cancelled), Foreign("cancelledAt"), Foreign("cancelReason")], r, Finished);
      PlayFirst(s, id, r, []);
    }
  }
}
