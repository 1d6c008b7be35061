/** _execute_saga as the orchestrator runs it, one call after the other, on the records themselves. */
module TransferSagaHandler {
  import opened Common
  import opened TransferService
  import opened TransferSaga

  /** The records after the forward calls, before any compensation. */
  function Midway(w: World, q: Request, r: Replies, n: nat): World
    requires r.Complete() && n <= 7
  {
    var b1 := if Lands(r, n, 0) then w.balances[q.buyer := q.buyerBalance - q.amount] else w.balances;
    World(
      if Lands(r, n, 1) then b1[q.seller := q.sellerBalance + q.amount] else b1,
      Ledger(w.ledger, q, r, n),
      if Lands(r, n, 4) then Ticket(q.buyer, "active") else w.ticket,
      if Lands(r, n, 5) then "completed" else w.listing,
      if Lands(r, n, 6) then Patched(w.transfer, Completion(r), r.doneAt) else w.transfer)
  }

  class TransferOrchestrator {
    var balances: map<UserId, Money>
    var ledger: seq<Txn>
    var ticket: Ticket
    var listing: string
    var transfer: Transfer

    constructor (w: World)
      ensures Records() == w
    {
      balances, ledger, ticket, listing, transfer := w.balances, w.ledger, w.ticket, w.listing, w.transfer;
    }

    ghost function Records(): World
      reads this
    {
      World(balances, ledger, ticket, listing, transfer)
    }

    method WriteBalance(user: UserId, value: Money, net: Net)
      modifies this`balances
      ensures balances == if net.Applied() then old(balances)[user := value] else old(balances)
    {
      if net.Applied() {
        balances := balances[user := value];
      }
    }

    method PostTxn(txn: Txn, net: Net)
      modifies this`ledger
      ensures ledger == if net.Applied() then old(ledger) + [txn] else old(ledger)
    {
      if net.Applied() {
        ledger := ledger + [txn];
      }
    }

    /** Steps 1 to 4: money and ledger. The list of completed steps is all that compensation will know. */
    method MoveMoney(q: Request, r: Replies) returns (completed: seq<Step>)
      requires r.Complete()
      modifies this`balances, this`ledger
      ensures
        var n := Progress(old(Records()), r, 0);
        var m := if n < 4 then n else 4;
        && completed == STEPS[..m]
        && balances == Midway(old(Records()), q, r, n).balances
        && ledger == Midway(old(Records()), q, r, n).ledger
    {
      ghost var n := Progress(Records(), r, 0);
      completed := [];
      WriteBalance(q.buyer, q.buyerBalance - q.amount, r.forward[0]);
      if !r.forward[0].Ok? {
        return;
      }
      completed := completed + [BuyerDeducted];
      WriteBalance(q.seller, q.sellerBalance + q.amount, r.forward[1]);
      if !r.forward[1].Ok? {
        return;
      }
      completed := completed + [SellerCredited];
      PostTxn(BuyerTxn(q), r.forward[2]);
      if !r.forward[2].Ok? {
        return;
      }
      completed := completed + [BuyerTxnLogged];
      PostTxn(SellerTxn(q), r.forward[3]);
      if !r.forward[3].Ok? {
        return;
      }
      completed := completed + [SellerTxnLogged];
    }

    /** Steps 5 to 7: ticket, listing and transfer record. */
    method MoveTicket(q: Request, r: Replies) returns (completed: seq<Step>)
      requires r.Complete() && Progress(Records(), r, 0) >= 4
      modifies this`ticket, this`listing, this`transfer
      ensures
        var n := Progress(old(Records()), r, 0);
        && completed == STEPS[4..n]
        && ticket == Midway(old(Records()), q, r, n).ticket
        && listing == Midway(old(Records()), q, r, n).listing
        && transfer == Midway(old(Records()), q, r, n).transfer
    {
      completed := [];
      if r.forward[4].Applied() {
        ticket := Ticket(q.buyer, "active");
      }
      if !r.forward[4].Ok? {
        return;
      }
      completed := completed + [TicketTransferred];
      if r.forward[5].Applied() {
        listing := "completed";
      }
      if !r.forward[5].Ok? {
        return;
      }
      completed := completed + [ListingCompleted];
      var accepted := Accepts(transfer, Completion(r), r.doneAt);
      if r.forward[6].Applied() {
        transfer := Patched(transfer, Completion(r), r.doneAt);
      }
      if !r.forward[6].Ok? || !accepted {
        return;
      }
      completed := completed + [TransferCompleted];
    }

    /** What a compensating call does when it arrives. */
    method ApplyUndo(undo: Undo, q: Request)
      modifies this`balances, this`listing
      ensures listing == if undo.RevertListing? then "active" else old(listing)
      ensures balances == if undo.RestoreSeller? then old(balances)[q.seller := q.sellerBalance]
                          else if undo.RestoreBuyer? then old(balances)[q.buyer := q.buyerBalance]
                          else old(balances)
    {
      match undo
      case RevertListing => listing := "active";
      case RestoreSeller => balances := balances[q.seller := q.sellerBalance];
      case RestoreBuyer => balances := balances[q.buyer := q.buyerBalance];
      case _ =>  // refused by the ticket service and by the ledger
    }

    /** One compensating call, made if its step had completed. */
    method TryUndo(k: nat, completed: seq<Step>, q: Request, r: Replies, errors: seq<Undo>)
      returns (more: seq<Undo>, raised: bool)
      requires r.Complete() && k < 6 && |completed| < 7 && completed == STEPS[..|completed|]
      modifies this`balances, this`listing
      ensures raised <==> |completed| >= Needs(k) && r.undo[k].Raise?
      ensures raised ==> more == errors + ErrorsFrom(r, |completed|, k)
      ensures !raised ==> more + ErrorsFrom(r, |completed|, k + 1) == errors + ErrorsFrom(r, |completed|, k)
      ensures
        var lands := |completed| >= Needs(k) && r.undo[k].Applied();
        && listing == (if lands && k == 0 then "active" else old(listing))
        && balances == if lands && k == 2 then old(balances)[q.seller := q.sellerBalance]
                       else if lands && k == 3 then old(balances)[q.buyer := q.buyerBalance]
                       else old(balances)
    {
      if STEPS[Needs(k) - 1] !in completed {
        return errors, false;
      }
      if r.undo[k].Applied() {
        ApplyUndo(UNDOS[k], q);
      }
      if r.undo[k].Ok? && UNDOS[k] in {RevertListing, RestoreSeller, RestoreBuyer} {
        return errors, false;
      }
      return errors + [UNDOS[k]], r.undo[k].Raise?;
    }

    /** The ledger part of the compensation, which the ledger has no route for. */
    method ReverseTxns(completed: seq<Step>, q: Request, r: Replies, errors: seq<Undo>) returns (more: seq<Undo>)
      requires r.Complete() && |completed| < 7 && completed == STEPS[..|completed|]
      modifies this`balances, this`listing
      ensures more == errors + ErrorsFrom(r, |completed|, 4)
      ensures balances == old(balances) && listing == old(listing)
    {
      var raised;
      more, raised := TryUndo(4, completed, q, r, errors);
      if raised {
        return;
      }
      more, raised := TryUndo(5, completed, q, r, more);
      assert ErrorsFrom(r, |completed|, 6) == [] && more + [] == more;
    }

    /** Reverse compensation. An exception in one undo skips the remaining ones. */
    method Compensate(completed: seq<Step>, q: Request, r: Replies) returns (errors: seq<Undo>)
      requires r.Complete() && |completed| < 7 && completed == STEPS[..|completed|]
      modifies this`balances, this`listing
      ensures errors == ErrorsFrom(r, |completed|, 0)
      ensures listing == if UndoLands(r, |completed|, 0) then "active" else old(listing)
      ensures
        var b := if UndoLands(r, |completed|, 2) then old(balances)[q.seller := q.sellerBalance] else old(balances);
        balances == if UndoLands(r, |completed|, 3) then b[q.buyer := q.buyerBalance] else b
    {
      ghost var n := |completed|;
      assert Needs(0) == 6 && Needs(1) == 5 && Needs(2) == 2 && Needs(3) == 1;
      var raised;
      errors, raised := TryUndo(0, completed, q, r, []);
      if raised {
        assert !Attempted(r, n, 2) && !Attempted(r, n, 3);
        return;
      }
      errors, raised := TryUndo(1, completed, q, r, errors);
      if raised {
        assert !Attempted(r, n, 2) && !Attempted(r, n, 3);
        return;
      }
      errors, raised := TryUndo(2, completed, q, r, errors);
      if raised {
        assert !Attempted(r, n, 3);
        return;
      }
      errors, raised := TryUndo(3, completed, q, r, errors);
      if raised {
        return;
      }
      errors := ReverseTxns(completed, q, r, errors);
    }

    /** The whole saga: it meets the closed form of module TransferSaga on every reply pattern. */
    method ExecuteSaga(q: Request, r: Replies) returns (outcome: Outcome)
      requires r.Complete()
      modifies this
      ensures outcome == End(old(Records()), r)
      ensures Records() == After(old(Records()), q, r)
    {
      ghost var w := Records();
      ghost var n := Progress(w, r, 0);
      var completed := MoveMoney(q, r);
      if |completed| == 4 {
        ghost var mid := Records();
        ProgressFrame(w, mid, r, 0);
        var more := MoveTicket(q, r);
        assert STEPS[..4] + STEPS[4..n] == STEPS[..n];
        completed := completed + more;
      }
      assert completed == STEPS[..n];
      assert Records() == Midway(w, q, r, n);
      if |completed| == 7 {
        return Finished;
      }
      var errors := Compensate(completed, q, r);
      if r.mark.Applied() {
        transfer := Patched(transfer, [SetStatus(Failed)], r.markAt);
      }
      return Raised(errors);
    }
  }

  lemma {:induction false} ProgressFrame(w: World, v: World, r: Replies, k: nat)
    requires r.Complete() && k <= 7 && w.transfer == v.transfer
    ensures Progress(w, r, k) == Progress(v, r, k)
    decreases 7 - k
  {
    if k < 7 {
      ProgressFrame(w, v, r, k + 1);
    }
  }
}
