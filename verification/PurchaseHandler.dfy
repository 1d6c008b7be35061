/** confirm_purchase as one handler calling the services in turn. Run on its own it makes
    exactly the calls that a saga of module Purchase makes. */
module PurchaseHandler {
  import opened Common
  import opened SeatInventory
  import opened SeatRuns
  import opened ConfirmRules
  import opened Purchase
  import TransferSaga
  import TopUp
  import CreditBooks

  /** What each remote call of one confirm request meets. */
  datatype Replies = Replies(
    cached: Option<CachedHold>, status: Net, served: Time, now: Time,
    price: Option<Money>, balance: Option<Money>,
    sell: Net, ticket: Net, ticketId: string, deduct: Net, mark: Net, free: Net, post: Net,
    releaseCached: bool, tries: seq<bool>)

  /** The error that stops a request before the sale, if any. */
  function Refusal(row: Option<SeatRow>, user: UserId, token: Token, r: Replies): Option<Code> {
    var hold :=
      if r.cached.Some? then CheckCached(r.cached.value, user, token, r.now)
      else if !r.status.Ok? then Some(ServiceUnavailable)
      else if row.None? then ValidateHoldState("not_found", Blank, r.now)
      else CheckStatus(ReadRow(row.value, r.served), r.now);
    if hold.Some? then hold else CheckFunds(r.price, r.balance)
  }

  lemma RefusalNone(row: Option<SeatRow>, user: UserId, token: Token, r: Replies)
    requires Refusal(row, user, token, r).None?
    ensures r.price.Some? && r.balance.Some?
    ensures r.cached.None? && row.Some? && row.value.status.Held? && row.value.heldUntil.Some? ==> r.served < row.value.heldUntil.value
  {
    FundsVerdict(r.price, r.balance);
    if r.cached.None? && row.Some? {
      RowVerdict(row.value, r.served, r.now);
    }
  }

  /** The answer to a confirm request. */
  function Answer(row: Option<SeatRow>, user: UserId, token: Token, hasEvent: bool, r: Replies): Code {
    var refusal := Refusal(row, user, token, r);
    if !hasEvent then ValidationError
    else if refusal.Some? then refusal.value
    else if !r.sell.Ok? then ServiceUnavailable
    else if row.None? || !HeldBy(row.value, user, token) then SeatUnavailable
    else if !r.ticket.Ok? then InternalError
    else match r.deduct
      case Ok => if r.post.Raise? then InternalError else Created
      case Err(_) => DeductionFailed
      case Raise(_) => InternalError
  }

  /** Exactly when each code before the ticket is answered if Redis has an entry, mirrored by the row or not: a non-empty
      holder must be the caller, and two non-empty tokens must agree. */
  lemma AnswerFromCache(row: Option<SeatRow>, user: UserId, token: Token, hasEvent: bool, r: Replies)
    requires r.cached.Some?
    ensures
      var hold := r.cached.value;
      var foreign :=
        || (hold.heldByUserId != "" && hold.heldByUserId != user)
        || (token != "" && hold.holdToken != "" && hold.holdToken != token);
      var passed := hold.heldUntil.At? && hold.heldUntil.time < r.now;
      var held := !foreign && hold.status == "held" && !passed;
      var expired := !foreign && (hold.status == "available" || (hold.status == "held" && passed));
      var unavailable := foreign || hold.status !in {"held", "available"};
      var funded := held && r.price.Some? && r.balance.Some? && r.price.value <= r.balance.value;
      var mine := row.Some? && row.value.status.Held? && row.value.heldByUserId == Some(user) && row.value.holdToken == Some(token);
      var code := Answer(row, user, token, hasEvent, r);
      && (code == ValidationError <==> !hasEvent)
      && (code == HoldExpired <==> hasEvent && expired)
      && (code == InsufficientCredits <==> hasEvent && held && r.price.Some? && r.balance.Some? && r.balance.value < r.price.value)
      && (code == ServiceUnavailable <==> hasEvent && ((held && (r.price.None? || r.balance.None?)) || (funded && !r.sell.Ok?)))
      && (code == SeatUnavailable <==> hasEvent && (unavailable || (funded && r.sell.Ok? && !mine)))
      && (code in {Created, DeductionFailed, InternalError} <==> hasEvent && funded && r.sell.Ok? && mine)
  {
    CachedVerdict(r.cached.value, user, token, r.now);
    FundsVerdict(r.price, r.balance);
  }

  /** The same if Redis has no entry and the row decides: it must be held, and its deadline must not have passed when
      GetSeatStatus is served nor when its answer is checked. */
  lemma AnswerFromRow(row: Option<SeatRow>, user: UserId, token: Token, hasEvent: bool, r: Replies)
    requires r.cached.None?
    ensures
      var isHeld := row.Some? && row.value.status.Held?;
      var ranOut := isHeld && row.value.heldUntil.Some? && row.value.heldUntil.value <= r.served;
      var passed := isHeld && row.value.heldUntil.Some? && row.value.heldUntil.value < r.now;
      var held := r.status.Ok? && isHeld && !ranOut && !passed;
      var expired := r.status.Ok? && (ranOut || passed || (row.Some? && row.value.status.Available?));
      var unavailable := r.status.Ok? && (row.None? || row.value.status.Sold?);
      var funded := held && r.price.Some? && r.balance.Some? && r.price.value <= r.balance.value;
      var mine := isHeld && row.value.heldByUserId == Some(user) && row.value.holdToken == Some(token);
      var code := Answer(row, user, token, hasEvent, r);
      && (code == ValidationError <==> !hasEvent)
      && (code == HoldExpired <==> hasEvent && expired)
      && (code == InsufficientCredits <==> hasEvent && held && r.price.Some? && r.balance.Some? && r.balance.value < r.price.value)
      && (code == ServiceUnavailable <==> hasEvent && (!r.status.Ok? || (held && (r.price.None? || r.balance.None?)) || (funded && !r.sell.Ok?)))
      && (code == SeatUnavailable <==> hasEvent && (unavailable || (funded && r.sell.Ok? && !mine)))
      && (code in {Created, DeductionFailed, InternalError} <==> hasEvent && funded && r.sell.Ok? && mine)
  {
    if row.Some? {
      RowVerdict(row.value, r.served, r.now);
    }
    FundsVerdict(r.price, r.balance);
  }

  /** And of the codes after the sale. */
  lemma AnswerAfterSale(row: Option<SeatRow>, user: UserId, token: Token, hasEvent: bool, r: Replies)
    requires Answer(row, user, token, hasEvent, r) in {Created, DeductionFailed, InternalError}
    ensures
      var code := Answer(row, user, token, hasEvent, r);
      && (code == Created <==> r.ticket.Ok? && r.deduct.Ok? && !r.post.Raise?)
      && (code == DeductionFailed <==> r.ticket.Ok? && r.deduct.Err?)
      && (code == InternalError <==> !r.ticket.Ok? || r.deduct.Raise? || (r.deduct.Ok? && r.post.Raise?))
  {
    if r.cached.Some? {
      AnswerFromCache(row, user, token, hasEvent, r);
    } else {
      AnswerFromRow(row, user, token, hasEvent, r);
    }
  }

  /** The request gets as far as the sale of a seat that the caller holds. */
  predicate Sells(row: Option<SeatRow>, user: UserId, token: Token, hasEvent: bool, r: Replies) {
    Answer(row, user, token, hasEvent, r.(sell := Ok)) in {Created, DeductionFailed, InternalError}
  }

  lemma SellsExactly(row: Option<SeatRow>, user: UserId, token: Token, hasEvent: bool, r: Replies)
    ensures Sells(row, user, token, hasEvent, r)
      <==> hasEvent && Refusal(row, user, token, r).None? && row.Some? && HeldBy(row.value, user, token)
  {
    if r.cached.Some? {
      AnswerFromCache(row, user, token, hasEvent, r.(sell := Ok));
      CachedVerdict(r.cached.value, user, token, r.now);
    } else {
      AnswerFromRow(row, user, token, hasEvent, r.(sell := Ok));
      if row.Some? {
        RowVerdict(row.value, r.served, r.now);
      }
    }
    FundsVerdict(r.price, r.balance);
  }

  /** When the balance read is the current one, the books become what CreditBooks reckons with. */
  lemma BooksOfPurchase(b: TopUp.Books, row: Option<SeatRow>, user: UserId, token: Token, hasEvent: bool, r: Replies)
    requires r.price.Some? && r.balance == Some(TopUp.BalanceOf(b, user))
    ensures
      var sold := Sells(row, user, token, hasEvent, r) && r.sell.Ok? && r.ticket.Ok?;
      CreditBooks.Purchase(b, user, r.price.value, r.ticketId, sold, r.deduct, r.post)
      == if sold then CreditBooks.Charge(b, user, r.balance.value, r.price.value, r.ticketId, r.deduct, r.post) else b
  {
    SellsExactly(row, user, token, hasEvent, r);
    FundsVerdict(r.price, r.balance);
  }

  /** These are the sales of the two paths of ConfirmRules. */
  lemma SellsAlongThePaths(row: SeatRow, user: UserId, token: Token, r: Replies)
    ensures r.cached.Some? ==>
      (Sells(Some(row), user, token, true, r)
       <==> ConfirmViaCache(row, r.cached.value, user, token, r.now, r.price, r.balance).Sells())
    ensures r.cached.None? ==>
      (Sells(Some(row), user, token, true, r)
       <==> r.status.Ok? && ConfirmViaStatus(row, user, token, r.served, r.now, r.price, r.balance).Sells())
  {
    if r.cached.Some? {
      AnswerFromCache(Some(row), user, token, true, r.(sell := Ok));
      CachedVerdict(r.cached.value, user, token, r.now);
    } else {
      AnswerFromRow(Some(row), user, token, true, r.(sell := Ok));
      RowVerdict(row, r.served, r.now);
    }
    FundsVerdict(r.price, r.balance);
  }

  // The calls of a confirm request in order, as its replies make them.

  function FirstMove(r: Replies): Move {
    if r.cached.Some? then ByCache(r.cached.value, r.now) else ByStatus(r.status, r.served, r.now)
  }

  function PayScript(r: Replies): seq<Move> {
    [Write(r.deduct)] + match r.deduct
      case Ok => [Write(r.post)]
      case Err(_) => [Write(r.mark)] + [Write(r.free)]
      case Raise(_) => []
  }

  function FulfilScript(r: Replies): seq<Move> {
    [Write(r.ticket)] + match r.ticket
      case Ok => PayScript(r)
      case Err(_) => [Write(r.free)]
      case Raise(_) => []
  }

  function BuyScript(r: Replies): seq<Move> {
    [Write(r.sell)] + FulfilScript(r)
  }

  function CreditScript(r: Replies): seq<Move> {
    [GotEvent(r.price)] + [GotCredit(r.balance)]
  }

  function Script(r: Replies): seq<Move> {
    ([FirstMove(r)] + CreditScript(r)) + BuyScript(r)
  }

  /** The idempotency cache after the compensating release of a sold seat: the refusal is recorded unless
      the call does not arrive or is answered from the cache. */
  function ReleasesAfter(releases: map<(SeatId, Token), bool>, seat: SeatId, token: Token, r: Replies): map<(SeatId, Token), bool> {
    if r.free.Applied() && !(r.releaseCached && (seat, token) in releases) then releases[(seat, token) := false] else releases
  }

  class PurchaseOrchestrator {
    const inventory: SeatInventoryService
    var tickets: map<SagaId, string>
    var history: seq<Event>
    var balances: map<UserId, Money>
    var ledger: seq<TransferSaga.Txn>
    ghost var sagas: map<SagaId, Saga>

    constructor (inventory: SeatInventoryService, books: TopUp.Books)
      ensures this.inventory == inventory && tickets == map[] && history == [] && sagas == map[] && Books() == books
    {
      this.inventory, balances, ledger := inventory, books.balances, books.ledger;
      tickets, history, sagas := map[], [], map[];
    }

    ghost function Machine(): State
      reads this, inventory
    {
      State(inventory.rows, tickets, sagas, history)
    }

    ghost function Books(): TopUp.Books
      reads this
    {
      TopUp.Books(balances, ledger)
    }

    /** Step 1 of the handler: the hold is checked against Redis or, failing that, GetSeatStatus. */
    method CheckHold(ghost id: SagaId, user: UserId, seat: SeatId, token: Token, r: Replies)
      returns (error: Option<Code>)
      requires id in sagas && sagas[id].pc.Validate? && sagas[id].user == user && sagas[id].seat == seat && sagas[id].token == token
      modifies this`sagas, inventory
      ensures Machine() == Next(old(Machine()), Move(id, FirstMove(r))) && inventory.releases == old(inventory.releases)
      ensures id in sagas && sagas[id] == old(sagas)[id].(pc := EndIf(error, FetchEvent))
      ensures error.Some? ==> !error.value.Created? && !error.value.DeductionFailed?
      ensures r.cached.Some? ==> error == CheckCached(r.cached.value, user, token, r.now)
      ensures r.cached.None? && !r.status.Ok? ==> error == Some(ServiceUnavailable)
      ensures r.cached.None? && r.status.Ok? ==>
        error ==
          if seat in old(inventory.rows) then CheckStatus(ReadRow(old(inventory.rows)[seat], r.served), r.now)
          else ValidateHoldState("not_found", Blank, r.now)
      ensures
        var row := RowOf(old(Machine()), seat);
        inventory.rows ==
          if r.cached.None? && r.status.Applied() && row.Some?
             && row.value.status.Held? && row.value.heldUntil.Some? && row.value.heldUntil.value <= r.served
          then old(inventory.rows)[seat := SeatRow(Available, None, None, None)]
          else old(inventory.rows)
    {
      if r.cached.Some? {
        error := CheckCached(r.cached.value, user, token, r.now);
      } else {
        var reply := SeatNotFound;
        if r.status.Applied() {
          reply := inventory.GetSeatStatus(seat, r.served, r.tries);
        }
        if !r.status.Ok? {
          error := Some(ServiceUnavailable);
        } else if reply.SeatNotFound? {
          error := ValidateHoldState("not_found", Blank, r.now);
        } else {
          error := ValidateHoldState(StatusName(reply.status), if reply.until.Some? then At(reply.until.value) else Blank, r.now);
        }
      }
      sagas := sagas[id := sagas[id].(pc := EndIf(error, FetchEvent))];
    }

    /** Step 4: the ticket record. */
    method CreateTicket(id: SagaId, user: UserId, seat: SeatId, price: Money, net: Net)
      requires id in sagas && sagas[id].pc.MakeTicket? && sagas[id].user == user && sagas[id].seat == seat && sagas[id].price == price
      modifies this`tickets, this`history, this`sagas
      ensures Machine() == Next(old(Machine()), Move(id, Write(net)))
      ensures id in sagas && sagas[id] == old(sagas)[id].(pc := match net case Ok => Deduct case Err(_) => FreeSeat(InternalError) case Raise(_) => Ended(InternalError))
      ensures tickets == if net.Applied() then old(tickets)[id := "active"] else old(tickets)
      ensures history == old(history) + if net.Applied() then [TicketMade(id, seat, user, price)] else []
    {
      if net.Applied() {
        tickets := tickets[id := "active"];
        history := history + [TicketMade(id, seat, user, price)];
      }
      sagas := sagas[id := sagas[id].(pc := match net case Ok => Deduct case Err(_) => FreeSeat(InternalError) case Raise(_) => Ended(InternalError))];
    }

    /** Step 5: the charge, an absolute write of what is left of the balance read before. */
    method DeductCredits(id: SagaId, user: UserId, seat: SeatId, price: Money, balance: Money, net: Net)
      requires id in sagas && sagas[id].pc.Deduct? && sagas[id].user == user && sagas[id].seat == seat && sagas[id].price == price
      modifies this`history, this`sagas, this`balances
      ensures Machine() == Next(old(Machine()), Move(id, Write(net)))
      ensures id in sagas && sagas[id] == old(sagas)[id].(pc := match net case Ok => PostTxn case Err(_) => MarkFailed case Raise(_) => Ended(InternalError))
      ensures history == old(history) + if net.Applied() then [Charged(id, seat, user, price)] else []
      ensures balances == if net.Applied() then old(balances)[user := balance - price] else old(balances)
    {
      if net.Applied() {
        balances := balances[user := balance - price];
        history := history + [Charged(id, seat, user, price)];
      }
      sagas := sagas[id := sagas[id].(pc := match net case Ok => PostTxn case Err(_) => MarkFailed case Raise(_) => Ended(InternalError))];
    }

    method PatchTicket(id: SagaId, status: string, net: Net)
      modifies this`tickets
      ensures tickets == if net.Applied() && TicketStatusAllowed(status) then old(tickets)[id := status] else old(tickets)
    {
      if net.Applied() && TicketStatusAllowed(status) {
        tickets := tickets[id := status];
      }
    }

    /** The PATCH that should mark an unpaid ticket; the ticket service knows no such status. */
    method MarkTicketFailed(id: SagaId, net: Net)
      requires id in sagas && sagas[id].pc.MarkFailed?
      modifies this`tickets, this`sagas
      ensures Machine() == Next(old(Machine()), Move(id, Write(net)))
      ensures id in sagas && sagas[id] == old(sagas)[id].(pc := FreeSeat(DeductionFailed)) && tickets == old(tickets)
    {
      PatchTicket(id, "payment_failed", net);
      sagas := sagas[id := sagas[id].(pc := FreeSeat(DeductionFailed))];
    }

    /** Step 6: the ledger post, whose reply is not looked at unless it raises. */
    method LogPurchase(id: SagaId, user: UserId, price: Money, ticketId: string, net: Net) returns (code: Code)
      requires id in sagas && sagas[id].pc.PostTxn?
      modifies this`sagas, this`ledger
      ensures Machine() == Next(old(Machine()), Move(id, Write(net)))
      ensures id in sagas && sagas[id].pc == Ended(code)
      ensures code == if net.Raise? then InternalError else Created
      ensures ledger == old(ledger) +
        if net.Applied() then [TransferSaga.Txn(user, -price, "ticket_purchase", ticketId)] else []
    {
      if net.Applied() {
        ledger := ledger + [TransferSaga.Txn(user, -price, "ticket_purchase", ticketId)];
      }
      code := if net.Raise? then InternalError else Created;
      sagas := sagas[id := sagas[id].(pc := Ended(code))];
    }

    /** Steps 5 and 6; a charge that is refused ends with the ticket marked and the seat released, or so it is meant. */
    method Pay(id: SagaId, user: UserId, seat: SeatId, token: Token, price: Money, balance: Money, r: Replies)
      returns (code: Code)
      requires id in sagas && sagas[id] == Saga(user, seat, token, price, Deduct)
      requires seat in inventory.rows && inventory.rows[seat] == SOLD_ROW
      modifies this, inventory
      ensures Machine() == Play(old(Machine()), id, PayScript(r))
      ensures id in sagas && sagas[id].pc == Ended(code)
      ensures tickets == old(tickets) && inventory.rows == old(inventory.rows)
      ensures code.Created? <==> r.deduct.Ok? && !r.post.Raise?
      ensures code.DeductionFailed? <==> r.deduct.Err?
      ensures code in {Created, DeductionFailed, InternalError}
      ensures history == old(history) + if r.deduct.Applied() then [Charged(id, seat, user, price)] else []
      ensures Books() == CreditBooks.Charge(old(Books()), user, balance, price, r.ticketId, r.deduct, r.post)
      ensures inventory.releases ==
        if r.deduct.Err? then ReleasesAfter(old(inventory.releases), seat, token, r) else old(inventory.releases)
    {
      ghost var s := Machine();
      DeductCredits(id, user, seat, price, balance, r.deduct);
      PlayFirst(s, id, Write(r.deduct), PayScript(r)[1..]);
      if r.deduct.Raise? {
        return InternalError;
      }
      if r.deduct.Ok? {
        ghost var s1 := Machine();
        code := LogPurchase(id, user, price, r.ticketId, r.post);
        PlayFirst(s1, id, Write(r.post), []);
        return;
      }
      UndoPurchase(id, user, seat, token, r);
      return DeductionFailed;
    }

    /** The compensation of a refused charge. */
    method UndoPurchase(id: SagaId, user: UserId, seat: SeatId, token: Token, r: Replies)
      requires id in sagas && sagas[id].pc.MarkFailed? && sagas[id].user == user && sagas[id].seat == seat && sagas[id].token == token
      requires seat in inventory.rows && inventory.rows[seat] == SOLD_ROW
      modifies this`tickets, this`sagas, inventory
      ensures Machine() == Play(old(Machine()), id, [Write(r.mark)] + [Write(r.free)])
      ensures id in sagas && sagas[id].pc == Ended(DeductionFailed)
      ensures tickets == old(tickets) && inventory.rows == old(inventory.rows)
      ensures inventory.releases == ReleasesAfter(old(inventory.releases), seat, token, r)
    {
      ghost var s := Machine();
      MarkTicketFailed(id, r.mark);
      PlayFirst(s, id, Write(r.mark), [Write(r.free)]);
      ghost var s1 := Machine();
      CompensateSeat(id, user, seat, token, DeductionFailed, r);
      PlayFirst(s1, id, Write(r.free), []);
    }

    /** Steps 4 to 6, with their compensations. */
    method Fulfil(id: SagaId, user: UserId, seat: SeatId, token: Token, price: Money, balance: Money, r: Replies)
      returns (code: Code)
      requires id in sagas && sagas[id] == Saga(user, seat, token, price, MakeTicket)
      requires seat in inventory.rows && inventory.rows[seat] == SOLD_ROW
      modifies this, inventory
      ensures Machine() == Play(old(Machine()), id, FulfilScript(r))
      ensures id in sagas && sagas[id].pc == Ended(code)
      ensures inventory.rows == old(inventory.rows)
      ensures code.Created? <==> r.ticket.Ok? && r.deduct.Ok? && !r.post.Raise?
      ensures code.DeductionFailed? <==> r.ticket.Ok? && r.deduct.Err?
      ensures code in {Created, DeductionFailed, InternalError}
      ensures tickets == if r.ticket.Applied() then old(tickets)[id := "active"] else old(tickets)
      ensures history == old(history)
        + (if r.ticket.Applied() then [TicketMade(id, seat, user, price)] else [])
        + (if r.ticket.Ok? && r.deduct.Applied() then [Charged(id, seat, user, price)] else [])
      ensures Books() ==
        if r.ticket.Ok? then CreditBooks.Charge(old(Books()), user, balance, price, r.ticketId, r.deduct, r.post) else old(Books())
      ensures inventory.releases ==
        if r.ticket.Err? || (r.ticket.Ok? && r.deduct.Err?) then ReleasesAfter(old(inventory.releases), seat, token, r) else old(inventory.releases)
    {
      ghost var s := Machine();
      CreateTicket(id, user, seat, price, r.ticket);
      PlayFirst(s, id, Write(r.ticket), FulfilScript(r)[1..]);
      code := InternalError;
      if r.ticket.Err? {
        ghost var s1 := Machine();
        CompensateSeat(id, user, seat, token, InternalError, r);
        PlayFirst(s1, id, Write(r.free), []);
      } else if r.ticket.Ok? {
        code := Pay(id, user, seat, token, price, balance, r);
      }
    }

    /** The compensating release. The seat is sold, so the release is refused, by the row or from the idempotency cache. */
    method CompensateSeat(ghost id: SagaId, user: UserId, seat: SeatId, token: Token, ghost code: Code, r: Replies)
      requires id in sagas && sagas[id].pc == FreeSeat(code) && sagas[id].user == user && sagas[id].seat == seat && sagas[id].token == token
      requires seat in inventory.rows && inventory.rows[seat] == SOLD_ROW
      modifies this`sagas, inventory
      ensures Machine() == Next(old(Machine()), Move(id, Write(r.free)))
      ensures id in sagas && sagas[id].pc == Ended(code)
      ensures inventory.rows == old(inventory.rows) && inventory.holds == old(inventory.holds)
      ensures inventory.releases ==
        if r.free.Applied() && !(r.releaseCached && (seat, token) in old(inventory.releases))
        then old(inventory.releases)[(seat, token) := false]
        else old(inventory.releases)
    {
      ghost var rows := inventory.rows;
      if r.free.Applied() {
        var _ := inventory.ReleaseSeat(seat, user, token, r.releaseCached, r.tries, true);
      }
      sagas := sagas[id := sagas[id].(pc := Ended(code))];
      assert ApplyAt(rows, seat, ReleaseCall(user, token)) == rows;
    }

    /** The event's price. */
    method AskPrice(id: SagaId, price: Option<Money>)
      requires id in sagas && sagas[id].pc.FetchEvent?
      modifies this`sagas
      ensures Machine() == Next(old(Machine()), Move(id, GotEvent(price)))
      ensures id in sagas && sagas[id] ==
        if price.None? then old(sagas)[id].(pc := Ended(ServiceUnavailable))
        else old(sagas)[id].(price := price.value, pc := FetchCredit)
    {
      if price.None? {
        sagas := sagas[id := sagas[id].(pc := Ended(ServiceUnavailable))];
      } else {
        sagas := sagas[id := sagas[id].(price := price.value, pc := FetchCredit)];
      }
    }

    /** The buyer's credit against the price. */
    method WeighCredit(id: SagaId, price: Money, balance: Option<Money>) returns (error: Option<Code>)
      requires id in sagas && sagas[id].pc.FetchCredit? && sagas[id].price == price
      modifies this`sagas
      ensures Machine() == Next(old(Machine()), Move(id, GotCredit(balance)))
      ensures error == CheckFunds(Some(price), balance)
      ensures id in sagas && sagas[id] == old(sagas)[id].(pc := EndIf(error, Sell))
    {
      error :=
        if balance.None? then Some(ServiceUnavailable)
        else if balance.value < price then Some(InsufficientCredits)
        else None;
      sagas := sagas[id := sagas[id].(pc := EndIf(error, Sell))];
    }

    /** Step 2: price and credit. */
    method CheckCredit(id: SagaId, r: Replies) returns (error: Option<Code>)
      requires id in sagas && sagas[id].pc.FetchEvent?
      modifies this`sagas
      ensures Machine() == Play(old(Machine()), id, CreditScript(r))
      ensures id in sagas
      ensures error.Some? ==> sagas[id].pc == Ended(error.value) && !error.value.Created? && !error.value.DeductionFailed?
      ensures error.None? ==> r.price.Some? && sagas[id] == old(sagas)[id].(price := r.price.value, pc := Sell)
      ensures error == CheckFunds(r.price, r.balance)
    {
      ghost var s := Machine();
      AskPrice(id, r.price);
      PlayFirst(s, id, GotEvent(r.price), [GotCredit(r.balance)]);
      ghost var s1 := Machine();
      if r.price.None? {
        PlayOver(s1, id, [GotCredit(r.balance)]);
        return Some(ServiceUnavailable);
      }
      error := WeighCredit(id, r.price.value, r.balance);
      PlayFirst(s1, id, GotCredit(r.balance), []);
    }

    /** Steps 1 and 2: hold, price and credit. */
    method Screen(id: SagaId, user: UserId, seat: SeatId, token: Token, r: Replies)
      returns (error: Option<Code>)
      requires id in sagas && sagas[id] == Saga(user, seat, token, 0.0, Validate)
      modifies this`sagas, inventory
      ensures Machine() == Play(old(Machine()), id, [FirstMove(r)] + CreditScript(r)) && inventory.releases == old(inventory.releases)
      ensures id in sagas
      ensures error.Some? ==> sagas[id].pc == Ended(error.value) && !error.value.Created? && !error.value.DeductionFailed?
      ensures error.None? ==> r.price.Some? && sagas[id] == Saga(user, seat, token, r.price.value, Sell)
      ensures error == Refusal(RowOf(old(Machine()), seat), user, token, r)
      // only a status call that arrives touches the row, and only to clear a hold that has run out
      ensures
        var row := RowOf(old(Machine()), seat);
        inventory.rows ==
          if r.cached.None? && r.status.Applied() && row.Some?
             && row.value.status.Held? && row.value.heldUntil.Some? && row.value.heldUntil.value <= r.served
          then old(inventory.rows)[seat := SeatRow(Available, None, None, None)]
          else old(inventory.rows)
    {
      ghost var s := Machine();
      error := CheckHold(id, user, seat, token, r);
      PlayFirst(s, id, FirstMove(r), CreditScript(r));
      if error.None? {
        error := CheckCredit(id, r);
      } else {
        PlayOver(Machine(), id, CreditScript(r));
      }
    }

    /** A confirm request. Left alone, the handler does what its saga does in the interleaved system when it meets
        the same replies. */
    method ConfirmPurchase(id: SagaId, user: UserId, seat: SeatId, token: Token, hasEvent: bool, r: Replies)
      returns (code: Code)
      requires id !in sagas
      modifies this, inventory
      ensures Machine() == Play(Next(old(Machine()), Begin(id, user, seat, token, hasEvent)), id, Script(r))
      ensures id in sagas && sagas[id].pc == Ended(code)
      ensures code == Answer(RowOf(old(Machine()), seat), user, token, hasEvent, r)
      // what was sold, made, charged and booked, and whether the compensating release was sent
      ensures
        var row := RowOf(old(Machine()), seat);
        var sells := Sells(row, user, token, hasEvent, r);
        var sold := sells && r.sell.Ok?;
        var price := if r.price.Some? then r.price.value else 0.0;
        var balance := if r.balance.Some? then r.balance.value else 0.0;
        && (sells && r.sell.Applied() ==> seat in inventory.rows && inventory.rows[seat] == SeatRow(Sold, None, None, None))
        && history == old(history)
             + (if sells && r.sell.Applied() then [SeatSold(id, seat, user, token)] else [])
             + (if sold && r.ticket.Applied() then [TicketMade(id, seat, user, price)] else [])
             + (if sold && r.ticket.Ok? && r.deduct.Applied() then [Charged(id, seat, user, price)] else [])
        && tickets == (if sold && r.ticket.Applied() then old(tickets)[id := "active"] else old(tickets))
        && Books() == (
             if sold && r.ticket.Ok? then CreditBooks.Charge(old(Books()), user, balance, price, r.ticketId, r.deduct, r.post)
             else old(Books()))
        && inventory.releases ==
             if sold && (r.ticket.Err? || (r.ticket.Ok? && r.deduct.Err?)) then ReleasesAfter(old(inventory.releases), seat, token, r) else old(inventory.releases)
    {
      sagas := sagas[id := Saga(user, seat, token, 0.0, if hasEvent then Validate else Ended(ValidationError))];
      if !hasEvent {
        PlayOver(Machine(), id, Script(r));
        return ValidationError;
      }
      SellsExactly(RowOf(old(Machine()), seat), user, token, true, r);
      code := Process(id, user, seat, token, r);
    }

    /** A confirm request that names an event. */
    method Process(id: SagaId, user: UserId, seat: SeatId, token: Token, r: Replies) returns (code: Code)
      requires id in sagas && sagas[id] == Saga(user, seat, token, 0.0, Validate)
      modifies this, inventory
      ensures Machine() == Play(old(Machine()), id, Script(r))
      ensures id in sagas && sagas[id].pc == Ended(code)
      ensures code == Answer(RowOf(old(Machine()), seat), user, token, true, r)
      ensures
        var row := RowOf(old(Machine()), seat);
        var sells := Refusal(row, user, token, r).None? && row.Some? && HeldBy(row.value, user, token);
        var sold := sells && r.sell.Ok?;
        var price := if r.price.Some? then r.price.value else 0.0;
        var balance := if r.balance.Some? then r.balance.value else 0.0;
        && (sells && r.sell.Applied() ==> seat in inventory.rows && inventory.rows[seat] == SeatRow(Sold, None, None, None))
        && history == old(history)
             + (if sells && r.sell.Applied() then [SeatSold(id, seat, user, token)] else [])
             + (if sold && r.ticket.Applied() then [TicketMade(id, seat, user, price)] else [])
             + (if sold && r.ticket.Ok? && r.deduct.Applied() then [Charged(id, seat, user, price)] else [])
        && tickets == (if sold && r.ticket.Applied() then old(tickets)[id := "active"] else old(tickets))
        && Books() == (
             if sold && r.ticket.Ok? then CreditBooks.Charge(old(Books()), user, balance, price, r.ticketId, r.deduct, r.post)
             else old(Books()))
        && inventory.releases ==
             if sold && (r.ticket.Err? || (r.ticket.Ok? && r.deduct.Err?)) then ReleasesAfter(old(inventory.releases), seat, token, r) else old(inventory.releases)
    {
      PlayConcat(Machine(), id, [FirstMove(r)] + CreditScript(r), BuyScript(r));
      var error := Screen(id, user, seat, token, r);
      if error.Some? {
        PlayOver(Machine(), id, BuyScript(r));
        return error.value;
      }
      RefusalNone(RowOf(old(Machine()), seat), user, token, r);
      code := Buy(id, user, seat, token, r.price.value, r.balance.value, r);
    }

    /** Steps 3 to 6: the sale and what follows it. */
    method Buy(id: SagaId, user: UserId, seat: SeatId, token: Token, price: Money, balance: Money, r: Replies)
      returns (code: Code)
      requires id in sagas && sagas[id] == Saga(user, seat, token, price, Sell)
      modifies this, inventory
      ensures Machine() == Play(old(Machine()), id, BuyScript(r))
      ensures id in sagas && sagas[id].pc == Ended(code)
      ensures
        var row := RowOf(old(Machine()), seat);
        var mine := row.Some? && HeldBy(row.value, user, token);
        var sold := mine && r.sell.Ok?;
        && code == (
             if !r.sell.Ok? then ServiceUnavailable else if !mine then SeatUnavailable else if !r.ticket.Ok? then InternalError
             else match r.deduct
               case Ok => if r.post.Raise? then InternalError else Created
               case Err(_) => DeductionFailed
               case Raise(_) => InternalError)
        && inventory.rows == (if mine && r.sell.Applied() then old(inventory.rows)[seat := SeatRow(Sold, None, None, None)] else old(inventory.rows))
        && history == old(history)
             + (if mine && r.sell.Applied() then [SeatSold(id, seat, user, token)] else [])
             + (if sold && r.ticket.Applied() then [TicketMade(id, seat, user, price)] else [])
             + (if sold && r.ticket.Ok? && r.deduct.Applied() then [Charged(id, seat, user, price)] else [])
        && tickets == (if sold && r.ticket.Applied() then old(tickets)[id := "active"] else old(tickets))
        && Books() == (
             if sold && r.ticket.Ok? then CreditBooks.Charge(old(Books()), user, balance, price, r.ticketId, r.deduct, r.post)
             else old(Books()))
        && inventory.releases ==
             if sold && (r.ticket.Err? || (r.ticket.Ok? && r.deduct.Err?)) then ReleasesAfter(old(inventory.releases), seat, token, r) else old(inventory.releases)
    {
      ghost var s := Machine();
      code := SellHeld(id, user, seat, token, r);
      PlayFirst(s, id, Write(r.sell), FulfilScript(r));
      if code.Created? {
        code := Fulfil(id, user, seat, token, price, balance, r);
      } else {
        PlayOver(Machine(), id, FulfilScript(r));
      }
    }

    /** Step 3: the sale. */
    method SellHeld(id: SagaId, user: UserId, seat: SeatId, token: Token, r: Replies) returns (code: Code)
      requires id in sagas && sagas[id].pc.Sell? && sagas[id].user == user && sagas[id].seat == seat && sagas[id].token == token
      modifies this`history, this`sagas, inventory
      ensures Machine() == Next(old(Machine()), Move(id, Write(r.sell)))
      ensures id in sagas
      ensures code.Created? ==> sagas[id] == old(sagas)[id].(pc := MakeTicket)
      ensures
        var mine := seat in old(inventory.rows) && HeldBy(old(inventory.rows)[seat], user, token);
        && code == (if !r.sell.Ok? then ServiceUnavailable else if mine then Created else SeatUnavailable)
        && inventory.rows == (if mine && r.sell.Applied() then old(inventory.rows)[seat := SeatRow(Sold, None, None, None)] else old(inventory.rows))
        && history == old(history) + if mine && r.sell.Applied() then [SeatSold(id, seat, user, token)] else []
      ensures !code.Created? ==> sagas[id].pc == Ended(code)
      ensures inventory.releases == old(inventory.releases)
    {
      var sold := false;
      ghost var s := Machine();
      if r.sell.Applied() {
        sold := inventory.SellSeat(seat, user, token, r.tries);
        if sold {
          history := history + [SeatSold(id, seat, user, token)];
        }
        assert ApplyAt(s.rows, seat, SellCall(user, token)) == inventory.rows;
      }
      code := if !r.sell.Ok? then ServiceUnavailable else if sold then Created else SeatUnavailable;
      sagas := sagas[id := sagas[id].(pc := if code.Created? then MakeTicket else Ended(code))];
    }
  }
}
