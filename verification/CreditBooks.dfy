/** Credit movement as a whole: top-ups, purchases and transfers write balances and post to the ledger.
    Each handler runs undisturbed by other writers of the same balances. */
module CreditBooks {
  import opened Common
  import opened TransferService
  import opened TransferSaga
  import opened TopUp

  datatype Job =
    | CreditJob(notice: Notice, delivery: Delivery)
    /** A confirm request; `sold` says that seat and ticket were obtained. */
    | PurchaseJob(user: UserId, price: Money, ticket: string, sold: bool, deduct: Net, post: Net)
    /** A seller_verify request up to and including the saga; `known` says that both balances could be read. */
    | TransferJob(id: string, buyer: UserId, seller: UserId, amount: Money, record: Transfer, known: bool, replies: Replies)

  predicate Sane(j: Job) {
    match j
    case CreditJob(n, _) => CreditsOf(n) >= 0
    case PurchaseJob(_, price, _, _, _, _) => price >= 0.0
    case TransferJob(_, buyer, seller, amount, _, _, r) => amount >= 0.0 && buyer != seller && r.Complete()
  }

  // Purchase.

  predicate PurchaseReaches(b: Books, user: UserId, price: Money, sold: bool) {
    sold && BalanceOf(b, user) >= price
  }

  function PurchaseTxn(user: UserId, price: Money, ticket: string): Txn {
    Txn(user, -price, "ticket_purchase", ticket)
  }

  /** The charge and its ledger post; the new balance is computed from the `balance` read before. */
  function Charge(b: Books, user: UserId, balance: Money, price: Money, ticket: string, deduct: Net, post: Net): Books {
    Books(
      if deduct.Applied() then b.balances[user := balance - price] else b.balances,
      if deduct.Ok? && post.Applied() then b.ledger + [PurchaseTxn(user, price, ticket)] else b.ledger)
  }

  /** What PurchaseOrchestrator.ConfirmPurchase does to the books when the balance it read is the current one. */
  function Purchase(b: Books, user: UserId, price: Money, ticket: string, sold: bool, deduct: Net, post: Net): Books {
    if !PurchaseReaches(b, user, price, sold) then b
    else Charge(b, user, BalanceOf(b, user), price, ticket, deduct, post)
  }

  // Transfer.

  function SagaWorld(b: Books, record: Transfer): World {
    World(b.balances, b.ledger, Ticket("", ""), "", record)
  }

  function SagaRequest(b: Books, id: string, buyer: UserId, seller: UserId, amount: Money): Request {
    Request(id, buyer, seller, amount, BalanceOf(b, buyer), BalanceOf(b, seller))
  }

  predicate TransferReaches(b: Books, buyer: UserId, amount: Money, known: bool) {
    known && BalanceOf(b, buyer) >= amount
  }

  function Work(b: Books, j: Job): Books
    requires Sane(j)
  {
    match j
    case CreditJob(n, d) => Deliver(b, n, d)
    case PurchaseJob(user, price, ticket, sold, deduct, post) => Purchase(b, user, price, ticket, sold, deduct, post)
    case TransferJob(id, buyer, seller, amount, record, known, r) =>
      if !TransferReaches(b, buyer, amount, known) then b
      else
        var v := After(SagaWorld(b, record), SagaRequest(b, id, buyer, seller, amount), r);
        Books(v.balances, v.ledger)
  }

  function WorkAll(b: Books, jobs: seq<Job>): Books
    requires forall i :: 0 <= i < |jobs| ==> Sane(jobs[i])
  {
    if jobs == [] then b else Work(WorkAll(b, jobs[..|jobs| - 1]), jobs[|jobs| - 1])
  }

  function LedgerSum(ledger: seq<Txn>, user: UserId): Money {
    if ledger == [] then 0.0
    else LedgerSum(ledger[..|ledger| - 1], user) + if ledger[|ledger| - 1].user == user then ledger[|ledger| - 1].delta else 0.0
  }

  lemma {:induction false} SumSnoc(ledger: seq<Txn>, t: Txn, user: UserId)
    ensures LedgerSum(ledger + [t], user) == LedgerSum(ledger, user) + if t.user == user then t.delta else 0.0
  {
    assert (ledger + [t])[..|ledger|] == ledger;
  }

  // What a job moves without booking it, or books without moving it, read off its reply pattern.

  function If(c: bool, m: Money): Money {
    if c then m else 0.0
  }

  function Gap(b: Books, j: Job, user: UserId): Money
    requires Sane(j)
  {
    match j
    case CreditJob(n, d) =>
      var c := CreditsOf(n) as real;
      if user != n.userId || !Reaches(b, n, d) then 0.0
      else If(d.patch.Applied(), c) - If(d.patch.Ok? && d.post.Applied(), c)
    case PurchaseJob(payer, price, _, sold, deduct, post) =>
      if user != payer || !PurchaseReaches(b, payer, price, sold) then 0.0
      else If(deduct.Applied(), -price) - If(deduct.Ok? && post.Applied(), -price)
    case TransferJob(_, buyer, seller, amount, record, known, r) =>
      if !TransferReaches(b, buyer, amount, known) then 0.0
      else
        var n := Progress(SagaWorld(b, record), r, 0);
        if user == buyer then
          If(Lands(r, n, 0) && !(n < 7 && UndoLands(r, n, 3)), -amount) - If(Lands(r, n, 2), -amount)
        else if user == seller then
          If(Lands(r, n, 1) && !(n < 7 && UndoLands(r, n, 2)), amount) - If(Lands(r, n, 3), amount)
        else 0.0
  }

  function Gaps(b: Books, jobs: seq<Job>, user: UserId): Money
    requires forall i :: 0 <= i < |jobs| ==> Sane(jobs[i])
  {
    if jobs == [] then 0.0
    else
      var k := |jobs| - 1;
      Gaps(b, jobs[..k], user) + Gap(WorkAll(b, jobs[..k]), jobs[k], user)
  }

  /** The job was booked faithfully: every credit write that went through was confirmed and posted, and a
      transfer was finished or cleanly undone. */
  predicate Faithful(b: Books, j: Job)
    requires Sane(j)
  {
    match j
    case CreditJob(n, d) => d.patch.Applied() ==> d.patch.Ok? && d.post.Applied()
    case PurchaseJob(_, _, _, _, deduct, post) => deduct.Applied() ==> deduct.Ok? && post.Applied()
    case TransferJob(id, buyer, seller, amount, record, _, r) =>
      var w := SagaWorld(b, record);
      && End(w, r) in {Finished, Raised([])}
      && !SilentLoss(w, SagaRequest(b, id, buyer, seller, amount), r)
  }

  /** Gaps come from nothing but unposted or unconfirmed writes and from reported or silent saga failures. */
  lemma FaithfulHasNoGap(b: Books, j: Job, user: UserId)
    requires Sane(j) && Faithful(b, j)
    ensures Gap(b, j, user) == 0.0
  {
    if j.TransferJob? && TransferReaches(b, j.buyer, j.amount, j.known) {
      var n := Progress(SagaWorld(b, j.record), j.replies, 0);
      if n < 7 {
        CleanExactlyWhen(j.replies, n);
        assert Needs(0) == 6 && Needs(1) == 5 && Needs(2) == 2 && Needs(3) == 1;
      }
    }
  }

  lemma TransferBalances(b: Books, j: Job, user: UserId)
    requires j.TransferJob? && Sane(j) && TransferReaches(b, j.buyer, j.amount, j.known)
    ensures
      var r := j.replies;
      var n := Progress(SagaWorld(b, j.record), r, 0);
      BalanceOf(Work(b, j), user) - BalanceOf(b, user) ==
        if user == j.buyer then If(Lands(r, n, 0) && !(n < 7 && UndoLands(r, n, 3)), -j.amount)
        else if user == j.seller then If(Lands(r, n, 1) && !(n < 7 && UndoLands(r, n, 2)), j.amount)
        else 0.0
  {
    var r := j.replies;
    var n := Progress(SagaWorld(b, j.record), r, 0);
    assert Needs(2) == 2 && Needs(3) == 1;
  }

  lemma {:induction false} TransferLedger(b: Books, j: Job, user: UserId)
    requires j.TransferJob? && Sane(j) && TransferReaches(b, j.buyer, j.amount, j.known)
    ensures
      var r := j.replies;
      var n := Progress(SagaWorld(b, j.record), r, 0);
      LedgerSum(Work(b, j).ledger, user) - LedgerSum(b.ledger, user) ==
        if user == j.buyer then If(Lands(r, n, 2), -j.amount)
        else if user == j.seller then If(Lands(r, n, 3), j.amount)
        else 0.0
  {
    var q := SagaRequest(b, j.id, j.buyer, j.seller, j.amount);
    SumSnoc(b.ledger, BuyerTxn(q), user);
    SumSnoc(b.ledger, SellerTxn(q), user);
    SumSnoc(b.ledger + [BuyerTxn(q)], SellerTxn(q), user);
  }

  lemma {:induction false} CreditBalance(b: Books, n: Notice, d: Delivery, user: UserId)
    requires Sane(CreditJob(n, d))
    ensures BalanceOf(Deliver(b, n, d), user) - BalanceOf(b, user)
      == LedgerSum(Deliver(b, n, d).ledger, user) - LedgerSum(b.ledger, user) + Gap(b, CreditJob(n, d), user)
  {
    SumSnoc(b.ledger, CreditTxn(n, d), user);
  }

  lemma {:induction false} PurchaseMoves(b: Books, payer: UserId, price: Money, ticket: string, deduct: Net, post: Net, user: UserId)
    requires PurchaseReaches(b, payer, price, true)
    ensures
      var e := Purchase(b, payer, price, ticket, true, deduct, post);
      && BalanceOf(e, user) - BalanceOf(b, user) == If(user == payer && deduct.Applied(), -price)
      && LedgerSum(e.ledger, user) - LedgerSum(b.ledger, user) == If(user == payer && deduct.Ok? && post.Applied(), -price)
  {
    SumSnoc(b.ledger, PurchaseTxn(payer, price, ticket), user);
  }

  /** One job moves a balance by what it books plus its gap. */
  lemma JobBalance(b: Books, j: Job, user: UserId)
    requires Sane(j)
    ensures BalanceOf(Work(b, j), user) - BalanceOf(b, user)
      == LedgerSum(Work(b, j).ledger, user) - LedgerSum(b.ledger, user) + Gap(b, j, user)
  {
    if j.CreditJob? {
      CreditBalance(b, j.notice, j.delivery, user);
    } else if j.PurchaseJob? {
      if PurchaseReaches(b, j.user, j.price, j.sold) {
        PurchaseMoves(b, j.user, j.price, j.ticket, j.deduct, j.post, user);
      }
    } else if TransferReaches(b, j.buyer, j.amount, j.known) {
      TransferBalances(b, j, user);
      TransferLedger(b, j, user);
    }
  }

  // How large a gap is and exactly when there is one.

  /** The credit that a job is about. */
  function Amount(j: Job): Money {
    match j
    case CreditJob(n, _) => CreditsOf(n) as real
    case PurchaseJob(_, price, _, _, _, _) => price
    case TransferJob(_, _, _, amount, _, _, _) => amount
  }

  predicate Concerns(j: Job, user: UserId) {
    match j
    case CreditJob(n, _) => user == n.userId
    case PurchaseJob(payer, _, _, _, _, _) => user == payer
    case TransferJob(_, buyer, seller, _, _, _, _) => user in {buyer, seller}
  }

  /** The job gets as far as writing a balance. */
  predicate Reached(b: Books, j: Job) {
    match j
    case CreditJob(n, d) => Reaches(b, n, d)
    case PurchaseJob(user, price, _, sold, _, _) => PurchaseReaches(b, user, price, sold)
    case TransferJob(_, buyer, _, amount, _, known, _) => TransferReaches(b, buyer, amount, known)
  }

  /** A gap is the whole amount, one way or the other, or nothing. */
  lemma GapIsAllOrNothing(b: Books, j: Job, user: UserId)
    requires Sane(j)
    ensures Gap(b, j, user) in {-Amount(j), 0.0, Amount(j)}
    ensures Gap(b, j, user) != 0.0 ==> Concerns(j, user) && Reached(b, j) && !Faithful(b, j)
  {
    if Faithful(b, j) {
      FaithfulHasNoGap(b, j, user);
    }
  }

  /** Top-up and purchase leave a gap exactly when they were reached and not booked faithfully. */
  lemma GapExactlyWhenUnfaithful(b: Books, j: Job, user: UserId)
    requires Sane(j) && !j.TransferJob?
    ensures Gap(b, j, user) != 0.0 <==> Concerns(j, user) && Reached(b, j) && Amount(j) != 0.0 && !Faithful(b, j)
  {
  }

  /** The job left a new ledger row of the user. */
  predicate Posted(b: Books, j: Job, user: UserId)
    requires Sane(j)
  {
    exists k :: |b.ledger| <= k < |Work(b, j).ledger| && Work(b, j).ledger[k].user == user
  }

  lemma TransferPosts(b: Books, j: Job)
    requires j.TransferJob? && Sane(j) && Reached(b, j)
    ensures
      var n := Progress(SagaWorld(b, j.record), j.replies, 0);
      && (Posted(b, j, j.buyer) <==> Lands(j.replies, n, 2))
      && (Posted(b, j, j.seller) <==> Lands(j.replies, n, 3))
  {
    var n := Progress(SagaWorld(b, j.record), j.replies, 0);
    var q := SagaRequest(b, j.id, j.buyer, j.seller, j.amount);
    var ledger := Work(b, j).ledger;
    var k := |b.ledger|;
    if Lands(j.replies, n, 3) {
      assert ledger == b.ledger + [BuyerTxn(q), SellerTxn(q)];
      assert ledger[k].user == j.buyer && ledger[k + 1].user == j.seller;
    } else if Lands(j.replies, n, 2) {
      assert ledger == b.ledger + [BuyerTxn(q)];
      assert ledger[k].user == j.buyer;
    } else {
      assert ledger == b.ledger;
    }
  }

  /** A transfer leaves no gap for a party exactly when it left that party's balance changed if and only if it
      left that party a ledger row. */
  lemma TransferGapExactlyWhen(b: Books, j: Job, user: UserId)
    requires j.TransferJob? && Sane(j) && Reached(b, j) && j.amount != 0.0 && user in {j.buyer, j.seller}
    ensures Gap(b, j, user) == 0.0 <==> (BalanceOf(Work(b, j), user) != BalanceOf(b, user) <==> Posted(b, j, user))
  {
    TransferBalances(b, j, user);
    TransferPosts(b, j);
  }

  /** The same for both parties at once, told from the point of failure and the replies: a failed transfer is booked
      right exactly when what was restored is what was not posted. */
  lemma TransferGapFreeExactlyWhen(b: Books, j: Job)
    requires j.TransferJob? && Sane(j) && Reached(b, j) && j.amount != 0.0
    ensures
      var r := j.replies;
      var n := Progress(SagaWorld(b, j.record), r, 0);
      (Gap(b, j, j.buyer) == 0.0 && Gap(b, j, j.seller) == 0.0)
      <==> (match n
            case 0 => !r.forward[0].Applied()
            case 1 => !r.forward[1].Applied() && UndoLands(r, n, 3)
            case 2 => UndoLands(r, n, 2) && (UndoLands(r, n, 3) <==> !r.forward[2].Applied())
            case 3 => !UndoLands(r, n, 3) && (UndoLands(r, n, 2) <==> !r.forward[3].Applied())
            case 7 => true
            case _ => !UndoLands(r, n, 2) && !UndoLands(r, n, 3))
  {
    assert Needs(2) == 2 && Needs(3) == 1;
  }

  /** Over every sequence of handlers and every pattern of failures, each user's balance has moved by the sum
      of the user's ledger entries plus exactly the gaps. */
  lemma {:induction false} BalancesFollowLedger(b: Books, jobs: seq<Job>, user: UserId)
    requires forall i :: 0 <= i < |jobs| ==> Sane(jobs[i])
    ensures
      var e := WorkAll(b, jobs);
      BalanceOf(e, user) - BalanceOf(b, user) == LedgerSum(e.ledger, user) - LedgerSum(b.ledger, user) + Gaps(b, jobs, user)
  {
    if jobs != [] {
      var k := |jobs| - 1;
      BalancesFollowLedger(b, jobs[..k], user);
      JobBalance(WorkAll(b, jobs[..k]), jobs[k], user);
    }
  }

  /** If every job was booked faithfully, balance and ledger agree to the cent. */
  lemma {:induction false} FaithfulRunBalances(b: Books, jobs: seq<Job>, user: UserId)
    requires forall i :: 0 <= i < |jobs| ==> Sane(jobs[i])
    requires forall i :: 0 <= i < |jobs| ==> Faithful(WorkAll(b, jobs[..i]), jobs[i])
    ensures Gaps(b, jobs, user) == 0.0
    ensures BalanceOf(WorkAll(b, jobs), user) - BalanceOf(b, user)
      == LedgerSum(WorkAll(b, jobs).ledger, user) - LedgerSum(b.ledger, user)
  {
    if jobs != [] {
      var k := |jobs| - 1;
      assert forall i :: 0 <= i < k ==> jobs[..k][..i] == jobs[..i];
      FaithfulRunBalances(b, jobs[..k], user);
      FaithfulHasNoGap(WorkAll(b, jobs[..k]), jobs[k], user);
    }
    BalancesFollowLedger(b, jobs, user);
  }

  predicate Solvent(b: Books) {
    forall u :: u in b.balances ==> b.balances[u] >= 0.0
  }

  lemma TransferSolvent(b: Books, j: Job)
    requires j.TransferJob? && Sane(j) && Solvent(b)
    ensures Solvent(Work(b, j))
  {
    if TransferReaches(b, j.buyer, j.amount, j.known) {
      forall u | u in Work(b, j).balances
        ensures Work(b, j).balances[u] >= 0.0
      {
        TransferBalances(b, j, u);
      }
    }
  }

  /** No balance goes negative, whatever fails. */
  lemma {:induction false} NeverNegative(b: Books, jobs: seq<Job>)
    requires Solvent(b) && forall i :: 0 <= i < |jobs| ==> Sane(jobs[i])
    ensures Solvent(WorkAll(b, jobs))
  {
    if jobs != [] {
      var k := |jobs| - 1;
      NeverNegative(b, jobs[..k]);
      var last := jobs[k];
      if last.TransferJob? {
        TransferSolvent(WorkAll(b, jobs[..k]), last);
      }
    }
  }

  /** A finished transfer moves credit from buyer to seller and makes none. */
  lemma FinishedTransferConserves(b: Books, j: Job)
    requires j.TransferJob? && Sane(j) && TransferReaches(b, j.buyer, j.amount, j.known)
    requires End(SagaWorld(b, j.record), j.replies).Finished?
    ensures BalanceOf(Work(b, j), j.buyer) + BalanceOf(Work(b, j), j.seller) == BalanceOf(b, j.buyer) + BalanceOf(b, j.seller)
    ensures BalanceOf(Work(b, j), j.seller) == BalanceOf(b, j.seller) + j.amount
  {
    TransferBalances(b, j, j.buyer);
    TransferBalances(b, j, j.seller);
  }

  /** A reply of the credit service: the balance under one of three field names, or missing. */
  datatype CreditReply = CreditReply(creditBalance: Option<Money>, upperCase: Option<Money>, plain: Option<Money>)

  function PurchaseReads(r: CreditReply): Money {
    if r.creditBalance.Some? then r.creditBalance.value
    else if r.upperCase.Some? then r.upperCase.value
    else if r.plain.Some? then r.plain.value
    else 0.0
  }

  function TopUpReads(r: CreditReply): Money {
    if r.creditBalance.Some? then r.creditBalance.value else 0.0
  }

  /** The handlers read the same balance exactly unless it comes, non-zero, under a name that top-up does not
      know; then top-up overwrites it as if it had been zero. */
  lemma HandlersReadAlike(r: CreditReply)
    ensures TopUpReads(r) == PurchaseReads(r)
      <==> (r.creditBalance.Some?
            || (r.upperCase.Some? && r.upperCase.value == 0.0)
            || (r.upperCase.None? && (r.plain.None? || r.plain.value == 0.0)))
  {
  }
}
