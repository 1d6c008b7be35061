/** The purchase saga: any number of confirm_purchase handlers, holds, releases, dead-letter
    expiry messages and status reads, interleaved call by call, with lost responses and
    arbitrary Redis contents. */
module Purchase {
  import opened Common
  import opened SeatInventory
  import opened SeatRuns
  import opened ConfirmRules

  type SagaId = nat

  /** The call that a saga makes next. */
  datatype Pc =
    | Validate | FetchEvent | FetchCredit | Sell | MakeTicket | Deduct
    | MarkFailed | FreeSeat(code: Code) | PostTxn | Ended(code: Code)
  {
    function Stage(): nat {
      match this
      case Validate => 0 case FetchEvent => 1 case FetchCredit => 2 case Sell => 3
      case MakeTicket => 4 case Deduct => 5 case _ => 6
    }

    predicate HasSale() {
      Stage() >= 4 && !Ended?
    }
  }

  datatype Saga = Saga(user: UserId, seat: SeatId, token: Token, price: Money, pc: Pc)

  /** Writes that reached a service, in order. */
  datatype Event =
    | SeatSold(id: SagaId, seat: SeatId, user: UserId, token: Token)
    | TicketMade(id: SagaId, seat: SeatId, user: UserId, price: Money)
    | Charged(id: SagaId, seat: SeatId, user: UserId, price: Money)

  datatype State = State(
    rows: map<SeatId, SeatRow>,
    tickets: map<SagaId, string>,     // status of the ticket made by a saga
    sagas: map<SagaId, Saga>,
    history: seq<Event>)

  datatype Step =
    | Other(seat: SeatId, call: SeatCall)   // holds, manual and dead-letter releases, status reads
    | Begin(id: SagaId, user: UserId, seat: SeatId, token: Token, hasEvent: bool)
    | Move(id: SagaId, move: Move)          // one call of a running saga

  datatype Move =
    | ByCache(hold: CachedHold, now: Time)
    | ByStatus(net: Net, served: Time, now: Time)
    | GotEvent(price: Option<Money>)
    | GotCredit(balance: Option<Money>)
    | Write(net: Net)                       // the write that the saga's pc names

  /** What one move does: the saga moves on, and the services it reached are written. */
  datatype Delta = Delta(saga: Saga, call: Option<SeatCall>, ticket: Option<string>, event: Option<Event>)

  /** The ticket service accepts no other status. */
  predicate TicketStatusAllowed(status: string) {
    status in {"active", "listed", "used", "pending_transfer"}
  }

  function EndIf(error: Option<Code>, pc: Pc): Pc {
    if error.Some? then Ended(error.value) else pc
  }

  /** `row` is the saga's seat as the inventory service has it; None if there is no such seat. */
  function Act(id: SagaId, g: Saga, row: Option<SeatRow>, move: Move): Delta {
    match (g.pc, move)
    case (Validate, ByCache(hold, now)) =>
      Delta(g.(pc := EndIf(CheckCached(hold, g.user, g.token, now), FetchEvent)), None, None, None)
    case (Validate, ByStatus(net, served, now)) =>
      var error :=
        if !net.Ok? then Some(ServiceUnavailable)
        else if row.None? then Some(SeatUnavailable)
        else CheckStatus(ReadRow(row.value, served), now);
      Delta(g.(pc := EndIf(error, FetchEvent)), if net.Applied() then Some(StatusCall(served)) else None, None, None)
    case (FetchEvent, GotEvent(price)) =>
      if price.None? then Delta(g.(pc := Ended(ServiceUnavailable)), None, None, None)
      else Delta(g.(price := price.value, pc := FetchCredit), None, None, None)
    case (FetchCredit, GotCredit(balance)) =>
      Delta(g.(pc := EndIf(CheckFunds(Some(g.price), balance), Sell)), None, None, None)
    case (Sell, Write(net)) =>
      var sells := row.Some? && HeldBy(row.value, g.user, g.token);
      Delta(
        g.(pc := if !net.Ok? then Ended(ServiceUnavailable) else if sells then MakeTicket else Ended(SeatUnavailable)),
        if net.Applied() then Some(SellCall(g.user, g.token)) else None,
        None,
        if net.Applied() && sells then Some(SeatSold(id, g.seat, g.user, g.token)) else None)
    case (MakeTicket, Write(net)) =>
      Delta(
        g.(pc := match net case Ok => Deduct case Err(_) => FreeSeat(InternalError) case Raise(_) => Ended(InternalError)),
        None,
        if net.Applied() then Some("active") else None,
        if net.Applied() then Some(TicketMade(id, g.seat, g.user, g.price)) else None)
    case (Deduct, Write(net)) =>
      Delta(
        g.(pc := match net case Ok => PostTxn case Err(_) => MarkFailed case Raise(_) => Ended(InternalError)),
        None, None,
        if net.Applied() then Some(Charged(id, g.seat, g.user, g.price)) else None)
    case (MarkFailed, Write(net)) =>
      Delta(g.(pc := FreeSeat(DeductionFailed)), None,
            if net.Applied() && TicketStatusAllowed("payment_failed") then Some("payment_failed") else None, None)
    case (FreeSeat(code), Write(net)) =>
      Delta(g.(pc := Ended(code)),
            if net.Applied() then Some(ReleaseCall(g.user, g.token)) else None, None, None)
    case (PostTxn, Write(net)) => Delta(g.(pc := Ended(if net.Raise? then InternalError else Created)), None, None, None)
    case _ => Delta(g, None, None, None)
  }

  function Commit(s: State, id: SagaId, d: Delta): State {
    State(
      if d.call.Some? then ApplyAt(s.rows, d.saga.seat, d.call.value) else s.rows,
      if d.ticket.Some? then s.tickets[id := d.ticket.value] else s.tickets,
      s.sagas[id := d.saga],
      if d.event.Some? then s.history + [d.event.value] else s.history)
  }

  function RowOf(s: State, seat: SeatId): Option<SeatRow> {
    if seat in s.rows then Some(s.rows[seat]) else None
  }

  function Init(seats: set<SeatId>): State {
    State(map s | s in seats :: FREE_ROW, map[], map[], [])
  }

  function Next(s: State, step: Step): State {
    match step
    case Other(seat, call) => if call.SellCall? then s else s.(rows := ApplyAt(s.rows, seat, call))
    case Begin(id, user, seat, token, hasEvent) =>
      if id in s.sagas then s
      else s.(sagas := s.sagas[id := Saga(user, seat, token, 0.0, if hasEvent then Validate else Ended(ValidationError))])
    case Move(id, move) =>
      if id in s.sagas then Commit(s, id, Act(id, s.sagas[id], RowOf(s, s.sagas[id].seat), move)) else s
  }

  function Run(s: State, steps: seq<Step>): State {
    if steps == [] then s else Next(Run(s, steps[..|steps| - 1]), steps[|steps| - 1])
  }

  lemma {:induction false} RunSnoc(s: State, steps: seq<Step>, step: Step)
    ensures Run(s, steps + [step]) == Next(Run(s, steps), step)
  {
    assert (steps + [step])[..|steps|] == steps;
  }

  // One saga on its own: the replies that its calls meet decide everything it does.

  /** A saga meets the given replies, one call after the other. An ended saga makes no more calls. */
  function Play(s: State, id: SagaId, moves: seq<Move>): State
    decreases |moves|
  {
    if moves == [] then s else Play(Next(s, Move(id, moves[0])), id, moves[1..])
  }

  function Moves(id: SagaId, moves: seq<Move>): (steps: seq<Step>)
    ensures |steps| == |moves| && forall i :: 0 <= i < |steps| ==> steps[i] == Move(id, moves[i])
  {
    if moves == [] then [] else [Move(id, moves[0])] + Moves(id, moves[1..])
  }

  lemma {:induction false} RunConcat(s: State, a: seq<Step>, b: seq<Step>)
    ensures Run(s, a + b) == Run(Run(s, a), b)
  {
    if b == [] {
      assert a + b == a;
    } else {
      var n := |b| - 1;
      assert a + b == (a + b[..n]) + [b[n]];
      RunConcat(s, a, b[..n]);
      RunSnoc(s, a + b[..n], b[n]);
    }
  }

  /** What a saga does on its own is a run of the interleaved system, made of its own moves only. */
  lemma {:induction false} PlayIsRun(s: State, id: SagaId, moves: seq<Move>)
    ensures Play(s, id, moves) == Run(s, Moves(id, moves))
    decreases |moves|
  {
    if moves != [] {
      var first := Move(id, moves[0]);
      PlayIsRun(Next(s, first), id, moves[1..]);
      RunConcat(s, [first], Moves(id, moves[1..]));
      RunSnoc(s, [], first);
      assert [] + [first] == [first];
    }
  }

  lemma PlayFirst(s: State, id: SagaId, move: Move, rest: seq<Move>)
    ensures Play(s, id, [move] + rest) == Play(Next(s, Move(id, move)), id, rest)
  {
    assert ([move] + rest)[1..] == rest;
  }

  lemma {:induction false} PlayConcat(s: State, id: SagaId, a: seq<Move>, b: seq<Move>)
    ensures Play(s, id, a + b) == Play(Play(s, id, a), id, b)
    decreases |a|
  {
    if a == [] {
      assert a + b == b;
    } else {
      assert (a + b)[1..] == a[1..] + b;
      PlayConcat(Next(s, Move(id, a[0])), id, a[1..], b);
    }
  }

  lemma EndedMoves(s: State, id: SagaId, move: Move)
    requires id in s.sagas && s.sagas[id].pc.Ended?
    ensures Next(s, Move(id, move)) == s
  {
    assert s.sagas[id := s.sagas[id]] == s.sagas;
  }

  lemma {:induction false} PlayOver(s: State, id: SagaId, moves: seq<Move>)
    requires id in s.sagas && s.sagas[id].pc.Ended?
    ensures Play(s, id, moves) == s
    decreases |moves|
  {
    if moves != [] {
      EndedMoves(s, id, moves[0]);
      PlayOver(s, id, moves[1..]);
    }
  }

  // The invariant of every interleaving.

  predicate Of(s: State, id: SagaId, stage: nat, seat: SeatId, user: UserId) {
    id in s.sagas && s.sagas[id].pc.Stage() > stage && s.sagas[id].seat == seat && s.sagas[id].user == user
  }

  predicate EventSane(s: State, k: nat)
    requires k < |s.history|
  {
    match s.history[k]
    case SeatSold(id, seat, user, token) =>
      && Of(s, id, 3, seat, user) && s.sagas[id].token == token
      && seat in s.rows && s.rows[seat].status.Sold?
    case TicketMade(id, seat, user, price) =>
      && Of(s, id, 4, seat, user) && s.sagas[id].price == price
      && SeatSold(id, seat, user, s.sagas[id].token) in s.history[..k]
    case Charged(id, seat, user, price) =>
      && Of(s, id, 5, seat, user)
      && TicketMade(id, seat, user, price) in s.history[..k]
  }

  predicate Alike(e: Event, f: Event) {
    (e.SeatSold? && f.SeatSold?) || (e.TicketMade? && f.TicketMade?) || (e.Charged? && f.Charged?)
  }

  predicate SagaSane(id: SagaId, g: Saga, history: seq<Event>) {
    && (g.pc.HasSale() ==> SeatSold(id, g.seat, g.user, g.token) in history)
    && (g.pc in {Deduct, MarkFailed, PostTxn} ==> TicketMade(id, g.seat, g.user, g.price) in history)
  }

  predicate EventsSane(s: State) {
    forall k :: 0 <= k < |s.history| ==> EventSane(s, k)
  }

  predicate OncePerSeat(history: seq<Event>) {
    forall j, k :: 0 <= j < k < |history| && Alike(history[j], history[k]) ==> history[j].seat != history[k].seat
  }

  predicate SagasSane(s: State) {
    forall id :: id in s.sagas ==> SagaSane(id, s.sagas[id], s.history)
  }

  predicate Inv(s: State) {
    EventsSane(s) && OncePerSeat(s.history) && SagasSane(s)
  }

  // What a single move can do, case by case.

  lemma ActMovesOn(id: SagaId, g: Saga, row: Option<SeatRow>, move: Move)
    ensures
      var d := Act(id, g, row, move);
      && d.saga.user == g.user && d.saga.seat == g.seat && d.saga.token == g.token
      && d.saga.pc.Stage() >= g.pc.Stage()
      && (g.pc.Stage() >= 2 ==> d.saga.price == g.price)
  {
  }

  /** Events appear only at the call that makes them, and that call is then behind the saga. */
  lemma ActEvent(id: SagaId, g: Saga, row: Option<SeatRow>, move: Move)
    requires Act(id, g, row, move).event.Some?
    ensures
      var d := Act(id, g, row, move);
      match d.event.value
      case SeatSold(i, seat, user, token) =>
        && (i, seat, user, token) == (id, g.seat, g.user, g.token) && g.pc.Sell? && d.saga.pc.Stage() > 3
        && row.Some? && HeldBy(row.value, user, token) && d.call == Some(SellCall(user, token))
      case TicketMade(i, seat, user, price) =>
        (i, seat, user, price) == (id, g.seat, g.user, g.price) && g.pc.MakeTicket? && d.saga.pc.Stage() > 4
      case Charged(i, seat, user, price) =>
        (i, seat, user, price) == (id, g.seat, g.user, g.price) && g.pc.Deduct? && d.saga.pc.Stage() > 5
  {
  }

  /** The events that a saga's pc relies on are there before the move or made by it. */
  lemma ActSane(id: SagaId, g: Saga, row: Option<SeatRow>, move: Move, history: seq<Event>)
    requires SagaSane(id, g, history)
    ensures
      var d := Act(id, g, row, move);
      SagaSane(id, d.saga, if d.event.Some? then history + [d.event.value] else history)
  {
    var d := Act(id, g, row, move);
    if d.event.Some? {
      var h := history + [d.event.value];
      assert h[|history|] in h;
      assert forall e :: e in history ==> e in h;
    }
  }

  // The invariant is kept.

  lemma OfStays(s: State, step: Step, id: SagaId, stage: nat, seat: SeatId, user: UserId)
    requires Of(s, id, stage, seat, user) && stage >= 3
    ensures Of(Next(s, step), id, stage, seat, user)
    ensures Next(s, step).sagas[id].token == s.sagas[id].token && Next(s, step).sagas[id].price == s.sagas[id].price
  {
    if step.Move? && step.id == id {
      ActMovesOn(id, s.sagas[id], RowOf(s, s.sagas[id].seat), step.move);
    }
  }

  lemma SoldStays(s: State, step: Step, seat: SeatId)
    requires seat in s.rows && s.rows[seat].status.Sold?
    ensures seat in Next(s, step).rows && Next(s, step).rows[seat] == s.rows[seat]
  {
  }

  lemma HistoryGrows(s: State, step: Step)
    ensures s.history <= Next(s, step).history
    ensures |Next(s, step).history| <= |s.history| + 1
  {
  }

  lemma OldEventStep(s: State, step: Step, k: nat)
    requires k < |s.history| && EventSane(s, k)
    ensures k < |Next(s, step).history| && EventSane(Next(s, step), k)
  {
    var t := Next(s, step);
    HistoryGrows(s, step);
    assert t.history[k] == s.history[k] && t.history[..k] == s.history[..k];
    match s.history[k]
    case SeatSold(id, seat, user, token) => OfStays(s, step, id, 3, seat, user); SoldStays(s, step, seat);
    case TicketMade(id, seat, user, price) => OfStays(s, step, id, 4, seat, user);
    case Charged(id, seat, user, price) => OfStays(s, step, id, 5, seat, user);
  }

  lemma NewEventSane(s: State, id: SagaId, move: Move)
    requires id in s.sagas && SagaSane(id, s.sagas[id], s.history)
    requires Act(id, s.sagas[id], RowOf(s, s.sagas[id].seat), move).event.Some?
    ensures |Next(s, Move(id, move)).history| == |s.history| + 1
    ensures EventSane(Next(s, Move(id, move)), |s.history|)
  {
    var g := s.sagas[id];
    var d := Act(id, g, RowOf(s, g.seat), move);
    ActMovesOn(id, g, RowOf(s, g.seat), move);
    ActEvent(id, g, RowOf(s, g.seat), move);
    assert Commit(s, id, d).history[..|s.history|] == s.history;
  }

  /** Two sagas cannot both have sold the seat of an event. */
  lemma SameSaga(s: State, j: nat, id: SagaId)
    requires Inv(s) && j < |s.history| && id in s.sagas && s.sagas[id].pc.HasSale()
    requires !s.history[j].SeatSold? && s.history[j].seat == s.sagas[id].seat
    ensures s.history[j].id == id
  {
    var e := s.history[j];
    assert EventSane(s, j) && SagaSane(id, s.sagas[id], s.history);
    if e.Charged? {
      var m :| 0 <= m < j && s.history[m] == TicketMade(e.id, e.seat, e.user, e.price);
      SameSaga(s, m, id);
    } else {
      var a :| 0 <= a < j && s.history[a] == SeatSold(e.id, e.seat, e.user, s.sagas[e.id].token);
      var b :| 0 <= b < |s.history| && s.history[b] == SeatSold(id, s.sagas[id].seat, s.sagas[id].user, s.sagas[id].token);
    }
  }

  /** A write happens once per seat. */
  lemma NewEventFresh(s: State, id: SagaId, move: Move, j: nat)
    requires Inv(s) && id in s.sagas && j < |s.history|
    requires
      var event := Act(id, s.sagas[id], RowOf(s, s.sagas[id].seat), move).event;
      event.Some? && Alike(s.history[j], event.value)
    ensures s.history[j].seat != s.sagas[id].seat
  {
    ActEvent(id, s.sagas[id], RowOf(s, s.sagas[id].seat), move);
    assert EventSane(s, j);
    if s.history[j].seat == s.sagas[id].seat && !s.history[j].SeatSold? {
      SameSaga(s, j, id);
    }
  }

  lemma MoveInv(s: State, id: SagaId, move: Move)
    requires Inv(s) && id in s.sagas
    ensures OncePerSeat(Next(s, Move(id, move)).history)
    ensures forall k :: |s.history| <= k < |Next(s, Move(id, move)).history| ==> EventSane(Next(s, Move(id, move)), k)
  {
    var d := Act(id, s.sagas[id], RowOf(s, s.sagas[id].seat), move);
    if d.event.Some? {
      NewEventSane(s, id, move);
      ActEvent(id, s.sagas[id], RowOf(s, s.sagas[id].seat), move);
      forall j | 0 <= j < |s.history| && Alike(s.history[j], d.event.value)
        ensures s.history[j].seat != d.event.value.seat
      {
        NewEventFresh(s, id, move, j);
      }
    }
  }

  lemma SagasSaneStep(s: State, step: Step)
    requires SagasSane(s)
    ensures SagasSane(Next(s, step))
  {
    var t := Next(s, step);
    HistoryGrows(s, step);
    assert forall e :: e in s.history ==> e in t.history;
    if step.Move? && step.id in s.sagas {
      ActSane(step.id, s.sagas[step.id], RowOf(s, s.sagas[step.id].seat), step.move, s.history);
    }
  }

  lemma InvStep(s: State, step: Step)
    requires Inv(s)
    ensures Inv(Next(s, step))
  {
    SagasSaneStep(s, step);
    HistoryGrows(s, step);
    if step.Move? && step.id in s.sagas {
      MoveInv(s, step.id, step.move);
    }
    forall k | 0 <= k < |s.history|
      ensures EventSane(Next(s, step), k)
    {
      OldEventStep(s, step, k);
    }
  }

  lemma {:induction false} InvRun(seats: set<SeatId>, steps: seq<Step>)
    ensures Inv(Run(Init(seats), steps))
  {
    if steps != [] {
      InvRun(seats, steps[..|steps| - 1]);
      InvStep(Run(Init(seats), steps[..|steps| - 1]), steps[|steps| - 1]);
    }
  }

  // Main results.

  /** At most one ticket is ever made for a seat, one charge, and one sale. */
  lemma OneTicketPerSeat(seats: set<SeatId>, steps: seq<Step>, j: nat, k: nat)
    requires
      var h := Run(Init(seats), steps).history;
      j < k < |h| && Alike(h[j], h[k])
    ensures
      var h := Run(Init(seats), steps).history;
      h[j].seat != h[k].seat
  {
    InvRun(seats, steps);
  }

  /** A charge comes after a ticket of the same saga, user, seat and price, and a ticket after the
      sale of that seat to that user. */
  lemma WritesInOrder(seats: set<SeatId>, steps: seq<Step>, k: nat)
    requires k < |Run(Init(seats), steps).history|
    ensures
      var h := Run(Init(seats), steps).history;
      && (h[k].Charged? ==> TicketMade(h[k].id, h[k].seat, h[k].user, h[k].price) in h[..k])
      && (h[k].TicketMade? ==> exists token :: SeatSold(h[k].id, h[k].seat, h[k].user, token) in h[..k])
  {
    InvRun(seats, steps);
    var s := Run(Init(seats), steps);
    assert EventSane(s, k);
  }

  datatype Kind = Sale | Ticket | Charge

  function KindOf(e: Event): Kind {
    match e case SeatSold(_, _, _, _) => Sale case TicketMade(_, _, _, _) => Ticket case Charged(_, _, _, _) => Charge
  }

  function Count(h: seq<Event>, kind: Kind): nat {
    if h == [] then 0
    else Count(h[..|h| - 1], kind) + if KindOf(h[|h| - 1]) == kind then 1 else 0
  }

  function SeatsOf(h: seq<Event>, kind: Kind): set<SeatId> {
    if h == [] then {}
    else SeatsOf(h[..|h| - 1], kind) + if KindOf(h[|h| - 1]) == kind then {h[|h| - 1].seat} else {}
  }

  function SoldSeats(s: State): set<SeatId> {
    set seat | seat in s.rows && s.rows[seat].status.Sold?
  }

  lemma {:induction false} SeatsOfMember(h: seq<Event>, kind: Kind, seat: SeatId)
    ensures seat in SeatsOf(h, kind) <==> exists k :: 0 <= k < |h| && KindOf(h[k]) == kind && h[k].seat == seat
  {
    if h != [] {
      var n := |h| - 1;
      SeatsOfMember(h[..n], kind, seat);
      assert forall k :: 0 <= k < n ==> h[..n][k] == h[k];
    }
  }

  lemma {:induction false} CountIsSeats(h: seq<Event>, kind: Kind)
    requires OncePerSeat(h)
    ensures Count(h, kind) == |SeatsOf(h, kind)|
  {
    if h != [] {
      var n := |h| - 1;
      CountIsSeats(h[..n], kind);
      if KindOf(h[n]) == kind {
        SeatsOfMember(h[..n], kind, h[n].seat);
        assert forall k :: 0 <= k < n ==> h[..n][k] == h[k];
      }
    }
  }

  lemma SubsetSize<T>(a: set<T>, b: set<T>)
    requires a <= b
    ensures |a| <= |b|
  {
    assert b == a + (b - a);
  }

  /** A row becomes sold only in a move that records the sale. */
  lemma ActSale(id: SagaId, g: Saga, row: SeatRow, move: Move)
    ensures
      var d := Act(id, g, Some(row), move);
      (d.call.Some? && Apply(row, d.call.value).status.Sold? && !row.status.Sold?) <==> (d.event.Some? && d.event.value.SeatSold?)
  {
  }

  lemma SeatsOfSnoc(h: seq<Event>, e: Event, kind: Kind)
    ensures SeatsOf(h + [e], kind) == SeatsOf(h, kind) + if KindOf(e) == kind then {e.seat} else {}
  {
    assert (h + [e])[..|h|] == h;
  }

  lemma CommitSold(s: State, id: SagaId, d: Delta, sells: bool)
    requires sells ==> d.call.Some? && d.saga.seat in s.rows && Apply(s.rows[d.saga.seat], d.call.value).status.Sold?
    requires d.call.Some? && d.saga.seat in s.rows && Apply(s.rows[d.saga.seat], d.call.value).status.Sold? ==>
      sells || s.rows[d.saga.seat].status.Sold?
    ensures SoldSeats(Commit(s, id, d)) == SoldSeats(s) + if sells then {d.saga.seat} else {}
  {
  }

  lemma SoldSeatsStep(s: State, step: Step)
    requires SoldSeats(s) == SeatsOf(s.history, Sale)
    ensures SoldSeats(Next(s, step)) == SeatsOf(Next(s, step).history, Sale)
  {
    if step.Move? && step.id in s.sagas {
      var g := s.sagas[step.id];
      var row := RowOf(s, g.seat);
      var d := Act(step.id, g, row, step.move);
      ActMovesOn(step.id, g, row, step.move);
      if row.Some? {
        ActSale(step.id, g, row.value, step.move);
      }
      if d.event.Some? {
        ActEvent(step.id, g, row, step.move);
        SeatsOfSnoc(s.history, d.event.value, Sale);
      }
      CommitSold(s, step.id, d, d.event.Some? && d.event.value.SeatSold?);
    } else {
      OtherKeepsSold(s, step);
    }
  }

  lemma OtherKeepsSold(s: State, step: Step)
    requires !(step.Move? && step.id in s.sagas)
    ensures SoldSeats(Next(s, step)) == SoldSeats(s) && Next(s, step).history == s.history
  {
  }

  lemma {:induction false} SoldSeatsRun(seats: set<SeatId>, steps: seq<Step>)
    ensures SoldSeats(Run(Init(seats), steps)) == SeatsOf(Run(Init(seats), steps).history, Sale)
  {
    if steps != [] {
      SoldSeatsRun(seats, steps[..|steps| - 1]);
      SoldSeatsStep(Run(Init(seats), steps[..|steps| - 1]), steps[|steps| - 1]);
    }
  }

  lemma ChargedSeatsTicketed(s: State)
    requires Inv(s)
    ensures SeatsOf(s.history, Charge) <= SeatsOf(s.history, Ticket) <= SeatsOf(s.history, Sale)
  {
    forall seat | seat in SeatsOf(s.history, Charge)
      ensures seat in SeatsOf(s.history, Ticket)
    {
      SeatsOfMember(s.history, Charge, seat);
      var k :| 0 <= k < |s.history| && s.history[k].Charged? && s.history[k].seat == seat;
      assert EventSane(s, k);
      SeatsOfMember(s.history, Ticket, seat);
    }
    forall seat | seat in SeatsOf(s.history, Ticket)
      ensures seat in SeatsOf(s.history, Sale)
    {
      SeatsOfMember(s.history, Ticket, seat);
      var k :| 0 <= k < |s.history| && s.history[k].TicketMade? && s.history[k].seat == seat;
      assert EventSane(s, k);
      SeatsOfMember(s.history, Sale, seat);
    }
  }

  /** Charges <= tickets <= sold seats, after every prefix of every interleaving. */
  lemma ChargesTicketsSales(seats: set<SeatId>, steps: seq<Step>)
    ensures
      var s := Run(Init(seats), steps);
      && Count(s.history, Charge) <= Count(s.history, Ticket) <= Count(s.history, Sale) == |SoldSeats(s)|
      && SeatsOf(s.history, Charge) <= SeatsOf(s.history, Ticket) <= SoldSeats(s)
  {
    InvRun(seats, steps);
    SoldSeatsRun(seats, steps);
    var s := Run(Init(seats), steps);
    ChargedSeatsTicketed(s);
    CountIsSeats(s.history, Charge);
    CountIsSeats(s.history, Ticket);
    CountIsSeats(s.history, Sale);
    SubsetSize(SeatsOf(s.history, Charge), SeatsOf(s.history, Ticket));
    SubsetSize(SeatsOf(s.history, Ticket), SeatsOf(s.history, Sale));
  }

  /** Step m sells the seat out of a hold by `user` under `token`. */
  predicate SoldAtStep(seats: set<SeatId>, steps: seq<Step>, m: nat, seat: SeatId, user: UserId, token: Token) {
    && m < |steps|
    && RowOf(Run(Init(seats), steps[..m]), seat).Some?
    && HeldBy(RowOf(Run(Init(seats), steps[..m]), seat).value, user, token)
    && RowOf(Run(Init(seats), steps[..m + 1]), seat) == Some(SOLD_ROW)
  }

  lemma {:induction false} SaleHappened(seats: set<SeatId>, steps: seq<Step>, k: nat)
    requires k < |Run(Init(seats), steps).history| && Run(Init(seats), steps).history[k].SeatSold?
    ensures
      var e := Run(Init(seats), steps).history[k];
      exists m :: SoldAtStep(seats, steps, m, e.seat, e.user, e.token)
  {
    var n := |steps| - 1;
    var s := Run(Init(seats), steps[..n]);
    var e := Run(Init(seats), steps).history[k];
    HistoryGrows(s, steps[n]);
    if k < |s.history| {
      SaleHappened(seats, steps[..n], k);
      var m: nat :| SoldAtStep(seats, steps[..n], m, e.seat, e.user, e.token);
      assert steps[..n][..m] == steps[..m] && steps[..n][..m + 1] == steps[..m + 1];
      assert SoldAtStep(seats, steps, m, e.seat, e.user, e.token);
    } else {
      assert steps[..n + 1] == steps;
      ActEvent(e.id, s.sagas[e.id], RowOf(s, e.seat), steps[n].move);
      assert SoldAtStep(seats, steps, n, e.seat, e.user, e.token);
    }
  }

  /** The owner of a ticket is the user whose current hold on the seat was turned into the sale. */
  lemma TicketOwnerHeldTheSeat(seats: set<SeatId>, steps: seq<Step>, k: nat)
    requires k < |Run(Init(seats), steps).history| && Run(Init(seats), steps).history[k].TicketMade?
    ensures
      var e := Run(Init(seats), steps).history[k];
      exists m, token :: SoldAtStep(seats, steps, m, e.seat, e.user, token)
  {
    var h := Run(Init(seats), steps).history;
    WritesInOrder(seats, steps, k);
    var token :| SeatSold(h[k].id, h[k].seat, h[k].user, token) in h[..k];
    var j :| 0 <= j < k && h[j] == SeatSold(h[k].id, h[k].seat, h[k].user, token);
    SaleHappened(seats, steps, j);
  }

  /** The compensating ReleaseSeat never frees the seat, whatever the handler's comments say. */
  lemma CompensationKeepsSeatSold(seats: set<SeatId>, steps: seq<Step>, id: SagaId, net: Net)
    requires id in Run(Init(seats), steps).sagas && Run(Init(seats), steps).sagas[id].pc.FreeSeat?
    ensures
      var s := Run(Init(seats), steps);
      && s.sagas[id].seat in SoldSeats(s)
      && Next(s, Move(id, Write(net))).rows == s.rows
  {
    InvRun(seats, steps);
    var s := Run(Init(seats), steps);
    var g := s.sagas[id];
    assert SagaSane(id, g, s.history);
    var k :| 0 <= k < |s.history| && s.history[k] == SeatSold(id, g.seat, g.user, g.token);
    assert EventSane(s, k);
  }

  predicate AllActive(tickets: map<SagaId, string>) {
    forall id :: id in tickets ==> tickets[id] == "active"
  }

  lemma AllActiveStep(s: State, step: Step)
    requires AllActive(s.tickets)
    ensures AllActive(Next(s, step).tickets)
  {
    if step.Move? && step.id in s.sagas {
      ActTicket(step.id, s.sagas[step.id], RowOf(s, s.sagas[step.id].seat), step.move);
    }
  }

  /** A ticket whose charge failed is still active: no ticket ever leaves that status here. */
  lemma {:induction false} TicketsStayActive(seats: set<SeatId>, steps: seq<Step>)
    ensures AllActive(Run(Init(seats), steps).tickets)
  {
    if steps != [] {
      TicketsStayActive(seats, steps[..|steps| - 1]);
      AllActiveStep(Run(Init(seats), steps[..|steps| - 1]), steps[|steps| - 1]);
    }
  }

  lemma ActTicket(id: SagaId, g: Saga, row: Option<SeatRow>, move: Move)
    ensures Act(id, g, row, move).ticket.Some? ==> Act(id, g, row, move).ticket.value == "active"
  {
  }
}
