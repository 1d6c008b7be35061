/** The transfer saga: seven writes to five services, undone in reverse when one fails. Every call may
    fail with an error code or an exception, and a failed call may have been carried out all the same. */
module TransferSaga {
  import opened Common
  import opened TransferService

  datatype Txn = Txn(user: UserId, delta: Money, reason: string, reference: string)
  datatype Ticket = Ticket(owner: UserId, status: string)

  /** The records that one transfer touches. */
  datatype World = World(
    balances: map<UserId, Money>, ledger: seq<Txn>, ticket: Ticket, listing: string, transfer: Transfer)

  datatype Request = Request(
    id: string, buyer: UserId, seller: UserId, amount: Money, buyerBalance: Money, sellerBalance: Money)

  /** What the seven forward calls, the six compensating calls and the final PATCH meet,
      and the clock of the transfer service at the two transfer PATCHes. */
  datatype Replies = Replies(forward: seq<Net>, undo: seq<Net>, mark: Net, doneAt: Time, markAt: Time) {
    predicate Complete() {
      |forward| == 7 && |undo| == 6
    }
  }

  datatype Step =
    | BuyerDeducted | SellerCredited | BuyerTxnLogged | SellerTxnLogged
    | TicketTransferred | ListingCompleted | TransferCompleted

  const STEPS: seq<Step> :=
    [BuyerDeducted, SellerCredited, BuyerTxnLogged, SellerTxnLogged, TicketTransferred, ListingCompleted, TransferCompleted]

  datatype Undo = RevertListing | RevertTicket | RestoreSeller | RestoreBuyer | ReverseSellerTxn | ReverseBuyerTxn

  const UNDOS: seq<Undo> :=
    [RevertListing, RevertTicket, RestoreSeller, RestoreBuyer, ReverseSellerTxn, ReverseBuyerTxn]

  /** The number of completed steps from which on an undo is called for. */
  function Needs(k: nat): nat
    requires k < 6
  {
    [6, 5, 2, 1, 4, 3][k]
  }

  /** The ticket service refuses status `sold` and the ledger has no PATCH route,
      so three of the six undos are refused by their service. */
  predicate Supported(k: nat) {
    k in {0, 2, 3}
  }

  function Completion(r: Replies): seq<Field> {
    [SetStatus(Completed), SetCompletedAt(At(r.doneAt))]
  }

  predicate StepOk(w: World, r: Replies, k: nat)
    requires r.Complete() && k < 7
  {
    r.forward[k].Ok? && (k == 6 ==> Accepts(w.transfer, Completion(r), r.doneAt))
  }

  /** How many forward steps complete. */
  function Progress(w: World, r: Replies, k: nat): (n: nat)
    requires r.Complete() && k <= 7
    ensures k <= n <= 7
    ensures forall i :: k <= i < n ==> StepOk(w, r, i)
    ensures n < 7 ==> !StepOk(w, r, n)
    decreases 7 - k
  {
    if k == 7 || !StepOk(w, r, k) then k else Progress(w, r, k + 1)
  }

  /** The write of step k reached its service, completed or not. */
  predicate Lands(r: Replies, n: nat, k: nat)
    requires r.Complete() && n <= 7
  {
    k < n || (k == n < 7 && r.forward[n].Applied())
  }

  /** Undo k is attempted: it is called for, and no earlier undo raised. */
  predicate Attempted(r: Replies, n: nat, k: nat)
    requires r.Complete() && k < 6
  {
    n >= Needs(k) && forall j :: 0 <= j < k && n >= Needs(j) ==> !r.undo[j].Raise?
  }

  predicate UndoLands(r: Replies, n: nat, k: nat)
    requires r.Complete() && k < 6
  {
    Attempted(r, n, k) && Supported(k) && r.undo[k].Applied()
  }

  predicate UndoOk(r: Replies, k: nat)
    requires r.Complete() && k < 6
  {
    Supported(k) && r.undo[k].Ok?
  }

  /** The compensation errors from undo k on. */
  function ErrorsFrom(r: Replies, n: nat, k: nat): seq<Undo>
    requires r.Complete() && k <= 6
    decreases 6 - k
  {
    if k == 6 then []
    else if n < Needs(k) || UndoOk(r, k) then ErrorsFrom(r, n, k + 1)
    else if r.undo[k].Raise? then [UNDOS[k]]
    else [UNDOS[k]] + ErrorsFrom(r, n, k + 1)
  }

  function Balances(b: map<UserId, Money>, q: Request, r: Replies, n: nat): map<UserId, Money>
    requires r.Complete() && n <= 7
  {
    var b1 := if Lands(r, n, 0) then b[q.buyer := q.buyerBalance - q.amount] else b;
    var b2 := if Lands(r, n, 1) then b1[q.seller := q.sellerBalance + q.amount] else b1;
    var b3 := if n < 7 && UndoLands(r, n, 2) then b2[q.seller := q.sellerBalance] else b2;
    if n < 7 && UndoLands(r, n, 3) then b3[q.buyer := q.buyerBalance] else b3
  }

  function BuyerTxn(q: Request): Txn { Txn(q.buyer, -q.amount, "p2p_sent", q.id) }
  function SellerTxn(q: Request): Txn { Txn(q.seller, q.amount, "p2p_received", q.id) }

  function Ledger(ledger: seq<Txn>, q: Request, r: Replies, n: nat): seq<Txn>
    requires r.Complete() && n <= 7
  {
    var l := if Lands(r, n, 2) then ledger + [BuyerTxn(q)] else ledger;
    if Lands(r, n, 3) then l + [SellerTxn(q)] else l
  }

  function TransferAfter(t: Transfer, r: Replies, n: nat): Transfer
    requires r.Complete() && n <= 7
  {
    var t1 := if Lands(r, n, 6) then Patched(t, Completion(r), r.doneAt) else t;
    if n < 7 && r.mark.Applied() then Patched(t1, [SetStatus(Failed)], r.markAt) else t1
  }

  /** The records after the saga, read off the reply pattern. */
  function After(w: World, q: Request, r: Replies): World
    requires r.Complete()
  {
    var n := Progress(w, r, 0);
    World(
      Balances(w.balances, q, r, n),
      Ledger(w.ledger, q, r, n),
      if Lands(r, n, 4) then Ticket(q.buyer, "active") else w.ticket,
      if !Lands(r, n, 5) then w.listing else if n < 7 && UndoLands(r, n, 0) then "active" else "completed",
      TransferAfter(w.transfer, r, n))
  }

  datatype Outcome = Finished | Raised(errors: seq<Undo>)

  function End(w: World, r: Replies): Outcome
    requires r.Complete()
  {
    var n := Progress(w, r, 0);
    if n == 7 then Finished else Raised(ErrorsFrom(r, n, 0))
  }

  // The three ways to end.

  predicate AllDone(w: World, q: Request, v: World) {
    && v.balances == w.balances[q.buyer := q.buyerBalance - q.amount][q.seller := q.sellerBalance + q.amount]
    && v.ledger == w.ledger + [Txn(q.buyer, -q.amount, "p2p_sent", q.id), Txn(q.seller, q.amount, "p2p_received", q.id)]
    && v.ticket == Ticket(q.buyer, "active")
    && v.listing == "completed"
    && v.transfer.status == Completed
  }

  predicate Untouched(w: World, v: World) {
    v.balances == w.balances && v.ledger == w.ledger && v.ticket == w.ticket && v.listing == w.listing
  }

  predicate EndsWell(w: World, q: Request, r: Replies)
    requires r.Complete()
  {
    match End(w, r)
    case Finished => AllDone(w, q, After(w, q, r))
    case Raised(errors) => errors != [] || Untouched(w, After(w, q, r))
  }

  /** The balances in the request are the current ones, of two different users. */
  predicate Current(w: World, q: Request) {
    && q.buyer != q.seller && q.buyer in w.balances && q.seller in w.balances
    && w.balances[q.buyer] == q.buyerBalance && w.balances[q.seller] == q.sellerBalance
  }

  /** Compensation reports nothing exactly when at most two steps had completed and their restores succeed. */
  lemma CleanExactlyWhen(r: Replies, n: nat)
    requires r.Complete() && n < 7
    ensures ErrorsFrom(r, n, 0) == []
      <==> n <= 2 && (n >= 2 ==> r.undo[2].Ok?) && (n >= 1 ==> r.undo[3].Ok?)
  {
    ErrorsNone(r, n, 0);
    assert Needs(0) == 6 && Needs(1) == 5 && Needs(2) == 2 && Needs(3) == 1 && Needs(4) == 4 && Needs(5) == 3;
    if n >= 3 {
      assert !UndoOk(r, 5);
    }
  }

  lemma {:induction false} ErrorsNone(r: Replies, n: nat, k: nat)
    requires r.Complete() && k <= 6
    ensures ErrorsFrom(r, n, k) == [] <==> forall j :: k <= j < 6 && n >= Needs(j) ==> UndoOk(r, j)
    decreases 6 - k
  {
    if k < 6 {
      ErrorsNone(r, n, k + 1);
    }
  }

  /** The call that stopped the saga was carried out all the same, and the saga does not know. */
  predicate SilentLoss(w: World, q: Request, r: Replies)
    requires r.Complete()
  {
    var n := Progress(w, r, 0);
    && n <= 2 && r.forward[n].Applied()
    && (n >= 2 ==> r.undo[2].Ok?) && (n >= 1 ==> r.undo[3].Ok?)
    && (n == 2 || q.amount != 0.0)
  }

  lemma FinishedIsAllDone(w: World, q: Request, r: Replies)
    requires r.Complete() && Progress(w, r, 0) == 7
    ensures AllDone(w, q, After(w, q, r))
  {
    var body := Completion(r);
    assert StepOk(w, r, 6);
    assert body[..1] == [SetStatus(Completed)] && body[..1][..0] == [];
    assert SetAll(w.transfer, body[..1]).status == Completed;
    assert After(w, q, r).ledger == w.ledger + [BuyerTxn(q), SellerTxn(q)];
  }

  lemma CleanIsUntouched(w: World, q: Request, r: Replies)
    requires r.Complete() && Current(w, q) && End(w, r) == Raised([])
    ensures Untouched(w, After(w, q, r)) <==> !SilentLoss(w, q, r)
  {
    var n := Progress(w, r, 0);
    CleanExactlyWhen(r, n);
    assert Needs(0) == 6 && Needs(1) == 5 && Needs(2) == 2 && Needs(3) == 1;
    var v := After(w, q, r);
    assert v.ticket == w.ticket && v.listing == w.listing;
    if n == 2 {
      assert UndoLands(r, n, 2) && UndoLands(r, n, 3);
      assert v.balances == w.balances;
      assert v.ledger == w.ledger <==> !r.forward[2].Applied();
    } else if n == 1 {
      assert UndoLands(r, n, 3) && !UndoLands(r, n, 2);
      assert v.ledger == w.ledger;
      assert v.balances[q.seller] == if r.forward[1].Applied() then q.sellerBalance + q.amount else q.sellerBalance;
      assert v.balances == w.balances[q.seller := v.balances[q.seller]];
    } else {
      assert v.ledger == w.ledger;
      assert v.balances[q.buyer] == if r.forward[0].Applied() then q.buyerBalance - q.amount else q.buyerBalance;
      assert v.balances == w.balances[q.buyer := v.balances[q.buyer]];
    }
  }

  /** For every pattern of failures the saga has done all seven steps, or left balances, ledger, ticket
      and listing alone, or reported compensation errors, exactly unless a call among the first three
      failed although its write went through. */
  lemma SagaEndsInThreeWays(w: World, q: Request, r: Replies)
    requires r.Complete() && Current(w, q)
    ensures EndsWell(w, q, r) <==> !SilentLoss(w, q, r)
  {
    var n := Progress(w, r, 0);
    if n == 7 {
      FinishedIsAllDone(w, q, r);
    } else {
      CleanExactlyWhen(r, n);
      if End(w, r) == Raised([]) {
        CleanIsUntouched(w, q, r);
      }
    }
  }

  /** What a failed saga leaves behind and reports when no undo raises, for every point of failure n: of the six undos
      those of the ticket and of the ledger rows always fail, the others as their calls do. */
  lemma CompensationOutcome(w: World, q: Request, r: Replies)
    requires r.Complete() && Progress(w, r, 0) < 7 && Current(w, q)
    requires forall k :: 0 <= k < 6 ==> !r.undo[k].Raise?
    ensures
      var n := Progress(w, r, 0);
      var v := After(w, q, r);
      var buyerPaid := n >= 1 || r.forward[0].Applied();
      var sellerPaid := n >= 2 || (n == 1 && r.forward[1].Applied());
      var completed := n == 6 || (n == 5 && r.forward[5].Applied());
      && v.balances[q.buyer] == (if buyerPaid && !(n >= 1 && r.undo[3].Applied()) then q.buyerBalance - q.amount else q.buyerBalance)
      && v.balances[q.seller] == (if sellerPaid && !(n >= 2 && r.undo[2].Applied()) then q.sellerBalance + q.amount else q.sellerBalance)
      && v.ledger == w.ledger
           + (if n >= 3 || (n == 2 && r.forward[2].Applied()) then [Txn(q.buyer, -q.amount, "p2p_sent", q.id)] else [])
           + (if n >= 4 || (n == 3 && r.forward[3].Applied()) then [Txn(q.seller, q.amount, "p2p_received", q.id)] else [])
      && v.ticket == (if n >= 5 || (n == 4 && r.forward[4].Applied()) then Ticket(q.buyer, "active") else w.ticket)
      && v.listing == (if !completed then w.listing else if n == 6 && r.undo[0].Applied() then "active" else "completed")
      && End(w, r) == Raised(
           (if n == 6 && !r.undo[0].Ok? then [RevertListing] else [])
           + ((if n >= 5 then [RevertTicket] else [])
           + ((if n >= 2 && !r.undo[2].Ok? then [RestoreSeller] else [])
           + ((if n >= 1 && !r.undo[3].Ok? then [RestoreBuyer] else [])
           + ((if n >= 4 then [ReverseSellerTxn] else [])
           + (if n >= 3 then [ReverseBuyerTxn] else []))))))
  {
    var n := Progress(w, r, 0);
    assert Needs(0) == 6 && Needs(1) == 5 && Needs(2) == 2 && Needs(3) == 1 && Needs(4) == 4 && Needs(5) == 3;
    assert UNDOS[0] == RevertListing && UNDOS[1] == RevertTicket && UNDOS[2] == RestoreSeller;
    assert UNDOS[3] == RestoreBuyer && UNDOS[4] == ReverseSellerTxn && UNDOS[5] == ReverseBuyerTxn;
    ErrorsUnraised(r, n);
  }

  lemma ErrorsStep(r: Replies, n: nat, k: nat)
    requires r.Complete() && k < 6 && !r.undo[k].Raise?
    ensures ErrorsFrom(r, n, k) == (if n >= Needs(k) && !UndoOk(r, k) then [UNDOS[k]] else []) + ErrorsFrom(r, n, k + 1)
  {
  }

  lemma ErrorsUnraised(r: Replies, n: nat)
    requires r.Complete() && n < 7 && forall k :: 0 <= k < 6 ==> !r.undo[k].Raise?
    ensures ErrorsFrom(r, n, 0) ==
      (if n == 6 && !r.undo[0].Ok? then [RevertListing] else [])
      + ((if n >= 5 then [RevertTicket] else [])
      + ((if n >= 2 && !r.undo[2].Ok? then [RestoreSeller] else [])
      + ((if n >= 1 && !r.undo[3].Ok? then [RestoreBuyer] else [])
      + ((if n >= 4 then [ReverseSellerTxn] else [])
      + (if n >= 3 then [ReverseBuyerTxn] else [])))))
  {
    assert Needs(0) == 6 && Needs(1) == 5 && Needs(2) == 2 && Needs(3) == 1 && Needs(4) == 4 && Needs(5) == 3;
    ErrorsStep(r, n, 0);
    ErrorsStep(r, n, 1);
    ErrorsStep(r, n, 2);
    ErrorsStep(r, n, 3);
    ErrorsStep(r, n, 4);
    ErrorsStep(r, n, 5);
    assert ErrorsFrom(r, n, 6) == [];
    assert ErrorsFrom(r, n, 5) == if n >= 3 then [ReverseBuyerTxn] else [];
  }

  /** An undo that raises is reported, and none after it is made. */
  lemma {:induction false} RaiseEndsCompensation(r: Replies, n: nat, k: nat)
    requires r.Complete() && k < 6 && Attempted(r, n, k) && r.undo[k].Raise?
    ensures ErrorsFrom(r, n, 0) != [] && ErrorsFrom(r, n, 0)[|ErrorsFrom(r, n, 0)| - 1] == UNDOS[k]
    ensures forall j :: k < j < 6 ==> !UndoLands(r, n, j)
  {
    RaiseEndsFrom(r, n, k, 0);
  }

  lemma {:induction false} RaiseEndsFrom(r: Replies, n: nat, k: nat, from: nat)
    requires r.Complete() && from <= k < 6 && Attempted(r, n, k) && r.undo[k].Raise?
    ensures ErrorsFrom(r, n, from) != [] && ErrorsFrom(r, n, from)[|ErrorsFrom(r, n, from)| - 1] == UNDOS[k]
    decreases k - from
  {
    if from < k {
      RaiseEndsFrom(r, n, k, from + 1);
    }
  }

  /** A failure after the third step is never clean, and from the sixth step on the buyer keeps the
      ticket even when both balances are restored. */
  lemma LateFailureIsNeverClean(w: World, q: Request, r: Replies)
    requires r.Complete() && 3 <= Progress(w, r, 0) < 7
    ensures End(w, r).errors != []
    ensures Progress(w, r, 0) >= 5 ==> After(w, q, r).ticket == Ticket(q.buyer, "active")
    ensures After(w, q, r).ledger != w.ledger
  {
    CleanExactlyWhen(r, Progress(w, r, 0));
    assert |After(w, q, r).ledger| > |w.ledger|;
  }
}
