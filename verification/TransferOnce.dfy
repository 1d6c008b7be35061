/** When a transfer can be completed more than once: exactly if two buyer_verify requests or two seller_verify
    requests for it may overlap. Everything else may overlap freely. */
module TransferOnce {
  import opened Common
  import opened TransferService
  import opened TransferFlow
  import opened TransferRank
  import opened TransferSlips

  predicate BuyerVerifying(pc: Pc) {
    pc in {BuyerCode, BuyerFlag, SellerSend, BuyerPatch}
  }

  predicate SellerVerifying(pc: Pc) {
    pc in {SellerCode, SellerFlag, Funds, Saga, Complete, MarkFailed}
  }

  predicate NoBuyer(s: State) {
    forall id :: id in s.flights ==> !BuyerVerifying(s.flights[id].pc)
  }

  predicate NoSeller(s: State) {
    forall id :: id in s.flights ==> !SellerVerifying(s.flights[id].pc)
  }

  /** With `buyers`, no buyer_verify starts while another one is at work; with `sellers`, no seller_verify does. */
  predicate Apart(s: State, step: Step, buyers: bool, sellers: bool) {
    step.Start? ==>
      && (buyers && step.handler.BuyerVerify? ==> NoBuyer(s))
      && (sellers && step.handler.SellerVerify? ==> NoSeller(s))
  }

  predicate ApartRun(steps: seq<Step>, buyers: bool, sellers: bool) {
    steps == []
    || (&& ApartRun(steps[..|steps| - 1], buyers, sellers)
        && Apart(Run(INIT, steps[..|steps| - 1]), steps[|steps| - 1], buyers, sellers))
  }

  // At most one completion.

  /** The seller has had, has or may have a turn. */
  predicate SellersTurn(s: State) {
    || (s.record.Some? && s.record.value.status == PendingSellerOtp)
    || !NoSeller(s)
    || Completions(s.log) > 0
  }

  predicate Lone(s: State) {
    && (forall i, j :: i in s.flights && j in s.flights && BuyerVerifying(s.flights[i].pc) && BuyerVerifying(s.flights[j].pc) ==> i == j)
    && (forall i, j :: i in s.flights && j in s.flights && SellerVerifying(s.flights[i].pc) && SellerVerifying(s.flights[j].pc) ==> i == j)
  }

  /** From the seller's turn on, the buyer's code stays recorded and no buyer_verify is at work. */
  predicate TurnKept(s: State) {
    SellersTurn(s) ==> s.record.Some? && s.record.value.buyerOtp && NoBuyer(s)
  }

  /** After a completion the transfer does not wait for the seller again, and at most a failure mark is pending. */
  predicate DoneOnce(s: State) {
    && (Completions(s.log) == 0 ==> !IsCompleted(s))
    && (Completions(s.log) > 0 ==>
          && Completions(s.log) == 1 && s.record.Some? && s.record.value.status != PendingSellerOtp
          && forall id :: id in s.flights && SellerVerifying(s.flights[id].pc) ==> s.flights[id].pc.MarkFailed?)
  }

  predicate Inv(s: State) {
    Lone(s) && TurnKept(s) && DoneOnce(s) && (s.record.None? ==> s.flights == map[] && s.log == [])
  }

  /** What one call can do to the fields that matter here. */
  lemma ActFacts(t: Transfer, pc: Pc, r: Reply)
    ensures
      var e := Act(t, pc, r);
      && (BuyerVerifying(e.pc) ==> BuyerVerifying(pc) && !pc.BuyerPatch?)
      && (SellerVerifying(e.pc) ==> SellerVerifying(pc) && !pc.MarkFailed?)
      && (e.event == Some(TransferDone) ==> pc.Complete? && e.pc in {Finished, MarkFailed})
      && (pc.Complete? ==> e.pc in {Finished, MarkFailed})
  {
  }

  lemma ActStatusFacts(t: Transfer, pc: Pc, r: Reply)
    ensures
      var e := Act(t, pc, r);
      && (e.record.status == PendingSellerOtp && t.status != PendingSellerOtp ==> pc.BuyerPatch?)
      && (e.record.status == Completed && t.status != Completed ==> e.event == Some(TransferDone))
      && (e.event == Some(TransferDone) ==> e.record.status == Completed)
  {
    ActStatus(t, pc, r);
  }

  lemma ActKeepsCode(t: Transfer, pc: Pc, r: Reply)
    ensures t.buyerOtp ==> Act(t, pc, r).record.buyerOtp
    ensures pc.BuyerPatch? && Act(t, pc, r).record.status == PendingSellerOtp && t.status != PendingSellerOtp ==>
      Act(t, pc, r).record.buyerOtp
  {
    PatchEffects(t, r.sid, r.now);
    if pc.TimeoutPatch? {
      TimeoutPatchIsRefused(t, r.now);
    }
  }

  lemma MoveKeepsLone(s: State, id: FlightId, r: Reply)
    requires Lone(s) && s.record.Some? && id in s.flights
    ensures Lone(Next(s, Move(id, r)))
    ensures NoBuyer(s) ==> NoBuyer(Next(s, Move(id, r)))
    ensures NoSeller(s) ==> NoSeller(Next(s, Move(id, r)))
    ensures s.flights[id].pc.BuyerPatch? ==> NoBuyer(Next(s, Move(id, r)))
  {
    ActFacts(s.record.value, s.flights[id].pc, r);
  }

  lemma MoveInv(s: State, id: FlightId, r: Reply)
    requires Inv(s) && s.record.Some? && id in s.flights
    ensures Inv(Next(s, Move(id, r)))
  {
    var t, pc := s.record.value, s.flights[id].pc;
    var e := Act(t, pc, r);
    MoveKeepsLone(s, id, r);
    ActFacts(t, pc, r);
    ActStatusFacts(t, pc, r);
    ActKeepsCode(t, pc, r);
    if e.event.Some? {
      LogCount(s.log, e.event.value);
    }
    if e.event == Some(TransferDone) {
      assert !NoSeller(s);
    }
  }

  lemma GuardFacts(t: Transfer, handler: Handler, user: UserId)
    ensures BuyerVerifying(Guard(t, handler, user)) ==> handler.BuyerVerify? && !t.buyerOtp && t.status != PendingSellerOtp
    ensures SellerVerifying(Guard(t, handler, user)) ==> handler.SellerVerify? && t.buyerOtp && t.status == PendingSellerOtp
  {
  }

  /** A new flight, and a record that has at most expired. */
  lemma NewFlight(s: State, id: FlightId, f: Flight, t: Transfer)
    requires Inv(s) && s.record.Some? && id !in s.flights
    requires t == s.record.value || t == s.record.value.(status := Expired)
    requires BuyerVerifying(f.pc) ==> NoBuyer(s) && !t.buyerOtp && t.status != PendingSellerOtp
    requires SellerVerifying(f.pc) ==> NoSeller(s) && t.buyerOtp && t.status == PendingSellerOtp
    ensures Inv(s.(record := Some(t), flights := s.flights[id := f]))
  {
    var n := s.(record := Some(t), flights := s.flights[id := f]);
    assert forall i :: i in n.flights && i != id ==> n.flights[i] == s.flights[i];
    if SellerVerifying(f.pc) {
      assert SellersTurn(s);
    }
  }

  lemma StartInv(s: State, step: Step)
    requires Inv(s) && Apart(s, step, true, true) && step.Start?
    ensures Inv(Next(s, step))
  {
    if s.record.Some? && step.id !in s.flights && step.net.Applied() {
      var t := Lookup(s.record.value, step.now);
      GuardFacts(t, step.handler, step.user);
      NewFlight(s, step.id, Flight(step.user, step.now, if step.net.Ok? then Guard(t, step.handler, step.user) else Finished), t);
    }
  }

  lemma InvStep(s: State, step: Step)
    requires Inv(s) && Apart(s, step, true, true)
    ensures Inv(Next(s, step))
  {
    match step
    case Move(id, r) =>
      if s.record.Some? && id in s.flights {
        MoveInv(s, id, r);
      }
    case Start(_, _, _, _, _) => StartInv(s, step);
    case _ =>
  }

  lemma {:induction false} InvRun(steps: seq<Step>)
    requires ApartRun(steps, true, true)
    ensures Inv(Run(INIT, steps))
  {
    if steps != [] {
      InvRun(steps[..|steps| - 1]);
      InvStep(Run(INIT, steps[..|steps| - 1]), steps[|steps| - 1]);
    }
  }

  /** At most one saga completes a transfer, and a completed transfer was completed by one, in every interleaving
      in which neither two buyer_verify nor two seller_verify requests overlap. */
  lemma AtMostOneCompletion(steps: seq<Step>)
    requires ApartRun(steps, true, true)
    ensures Completions(Run(INIT, steps).log) <= 1
    ensures IsCompleted(Run(INIT, steps)) ==> Completions(Run(INIT, steps).log) == 1
  {
    InvRun(steps);
  }

  /** Requests one at a time are a special case. */
  lemma {:induction false} SoloIsApart(steps: seq<Step>)
    requires SoloRun(steps)
    ensures ApartRun(steps, true, true)
  {
    if steps != [] {
      var n := |steps| - 1;
      PrefixSolo(steps, n);
      SoloIsApart(steps[..n]);
      assert Solo(Run(INIT, steps[..n]), steps[n]);
    }
  }
}
