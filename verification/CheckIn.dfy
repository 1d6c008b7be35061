/** Ticket check-in: any number of scans of one ticket, interleaved call by call. A scan reads the ticket
    before it takes the Redis lock; the lock expires on its own. */
module CheckIn {
  import opened Common

  type ScanId = nat

  datatype TicketStatus = Active | Listed | Used | PendingTransfer
  datatype LogEntry = CheckedIn | Turned(reason: string)   // expired, invalid, duplicate, wrong_venue, wrong_event
  datatype Result = Success | Refused

  datatype Pc =
    | Locking(tries: nat) | Inspect | ReadLogs | Place | MarkUsed | LogIn
    | Releasing(result: Result) | Done(result: Result)
  {
    predicate Inside() {
      !Locking? && !Done?
    }

    predicate Succeeded() {
      (Releasing? || Done?) && result.Success?
    }
  }

  /** `seen` is the ticket as read before locking; `locked` is false for a scan that runs without Redis. */
  datatype Scan = Scan(token: Token, seen: TicketStatus, locked: bool, pc: Pc)

  /** The entry under the lock key; `owner` is the scan that wrote it. */
  datatype Lock = Lock(token: Token, owner: ScanId)

  datatype State = State(ticket: TicketStatus, logs: seq<LogEntry>, lock: Option<Lock>, scans: map<ScanId, Scan>)

  const MAX_LOCK_RETRIES := 3

  datatype Step =
    | Begin(id: ScanId, token: Token)          // the ticket lookup by QR hash
    | Expire                                   // the lock's TTL runs out
    | Retitle(status: TicketStatus)            // other services change the ticket
    | Move(id: ScanId, move: Move)

  datatype Move =
    | TryLock(net: Net)                        // SET NX EX
    | SkipLock                                 // Redis is down
    | Check(pass: bool, reason: string, post: Net)   // checks of the handler, and the log entry of a refusal
    | Query(net: Net, post: Net)               // the log query, and the log entry if it finds a check-in
    | PatchTicket(net: Net)                    // the ticket becomes used
    | PostLog(net: Net)                        // the log entry of the check-in
    | Unlock(net: Net)

  datatype Effect = Effect(scan: Scan, ticket: TicketStatus, logs: seq<LogEntry>, lock: Option<Lock>)

  function Logged(logs: seq<LogEntry>, entry: LogEntry, net: Net): seq<LogEntry> {
    if net.Applied() then logs + [entry] else logs
  }

  function Act(id: ScanId, c: Scan, ticket: TicketStatus, logs: seq<LogEntry>, lock: Option<Lock>, move: Move): Effect {
    match (c.pc, move)
    case (Locking(tries), TryLock(net)) =>
      var sets := net.Applied() && lock.None?;
      var lock' := if sets then Some(Lock(c.token, id)) else lock;
      if sets && net.Ok? then Effect(c.(locked := true, pc := Inspect), ticket, logs, lock')
      else Effect(c.(pc := if tries + 1 < MAX_LOCK_RETRIES then Locking(tries + 1) else Done(Refused)), ticket, logs, lock')
    case (Locking(_), SkipLock) => Effect(c.(pc := Inspect), ticket, logs, lock)
    // QR time, event, seat and the status seen before locking
    case (Inspect, Check(pass, reason, post)) =>
      if pass && c.seen.Active? then Effect(c.(pc := ReadLogs), ticket, logs, lock)
      else Effect(c.(pc := Releasing(Refused)), ticket, Logged(logs, Turned(reason), post), lock)
    case (ReadLogs, Query(net, post)) =>
      if net.Raise? then Effect(c.(pc := Releasing(Refused)), ticket, logs, lock)
      // a failed log query reads as no entries
      else if net.Ok? && CheckedIn in logs then Effect(c.(pc := Releasing(Refused)), ticket, Logged(logs, Turned("duplicate"), post), lock)
      else Effect(c.(pc := Place), ticket, logs, lock)
    // venue and event
    case (Place, Check(pass, reason, post)) =>
      if pass then Effect(c.(pc := MarkUsed), ticket, logs, lock)
      else Effect(c.(pc := Releasing(Refused)), ticket, Logged(logs, Turned(reason), post), lock)
    case (MarkUsed, PatchTicket(net)) =>
      Effect(c.(pc := if net.Raise? then Releasing(Refused) else LogIn), if net.Applied() then Used else ticket, logs, lock)
    case (LogIn, PostLog(net)) =>
      Effect(c.(pc := Releasing(if net.Raise? then Refused else Success)), ticket, Logged(logs, CheckedIn, net), lock)
    case (Releasing(result), Unlock(net)) =>
      // compare-and-delete by token, in one script
      var mine := c.locked && net.Applied() && lock.Some? && lock.value.token == c.token;
      Effect(c.(pc := Done(result)), ticket, logs, if mine then None else lock)
    case _ => Effect(c, ticket, logs, lock)
  }

  function Next(s: State, step: Step): State {
    match step
    case Begin(id, token) =>
      if id in s.scans then s else s.(scans := s.scans[id := Scan(token, s.ticket, false, Locking(0))])
    case Expire => s.(lock := None)
    case Retitle(status) => s.(ticket := status)
    case Move(id, move) =>
      if id !in s.scans then s
      else
        var e := Act(id, s.scans[id], s.ticket, s.logs, s.lock, move);
        State(e.ticket, e.logs, e.lock, s.scans[id := e.scan])
  }

  function Init(ticket: TicketStatus): State {
    State(ticket, [], None, map[])
  }

  function Run(s: State, steps: seq<Step>): State {
    if steps == [] then s else Next(Run(s, steps[..|steps| - 1]), steps[|steps| - 1])
  }

  lemma {:induction false} RunSnoc(s: State, steps: seq<Step>, step: Step)
    ensures Run(s, steps + [step]) == Next(Run(s, steps), step)
  {
    assert (steps + [step])[..|steps|] == steps;
  }

  lemma {:induction false} RunConcat(s: State, a: seq<Step>, b: seq<Step>)
    ensures Run(s, a + b) == Run(Run(s, a), b)
  {
    if b == [] {
      assert a + b == a;
    } else {
      var n := |b| - 1;
      assert a + b == (a + b[..n]) + [b[n]];
      RunConcat(s, a, b[..n]);
      RunSnoc(s, a + b[..n], b[n]);
    }
  }

  // One scan on its own: the replies that its calls meet decide everything it does.

  /** A scan meets the given replies, one call after the other; a call that its pc does not make is left out. */
  function Play(s: State, id: ScanId, moves: seq<Move>): State
    decreases |moves|
  {
    if moves == [] then s else Play(Next(s, Move(id, moves[0])), id, moves[1..])
  }

  function Moves(id: ScanId, moves: seq<Move>): (steps: seq<Step>)
    ensures |steps| == |moves| && forall i :: 0 <= i < |steps| ==> steps[i] == Move(id, moves[i])
  {
    if moves == [] then [] else [Move(id, moves[0])] + Moves(id, moves[1..])
  }

  /** What a scan does on its own is a run of the interleaved system, made of its own moves only. */
  lemma {:induction false} PlayIsRun(s: State, id: ScanId, moves: seq<Move>)
    ensures Play(s, id, moves) == Run(s, Moves(id, moves))
    decreases |moves|
  {
    if moves != [] {
      var first := Move(id, moves[0]);
      PlayIsRun(Next(s, first), id, moves[1..]);
      RunConcat(s, [first], Moves(id, moves[1..]));
      RunSnoc(s, [], first);
      assert [] + [first] == [first];
    }
  }

  lemma PlayFirst(s: State, id: ScanId, move: Move, rest: seq<Move>)
    ensures Play(s, id, [move] + rest) == Play(Next(s, Move(id, move)), id, rest)
  {
    assert ([move] + rest)[1..] == rest;
  }

  lemma {:induction false} PlayConcat(s: State, id: ScanId, a: seq<Move>, b: seq<Move>)
    ensures Play(s, id, a + b) == Play(Play(s, id, a), id, b)
    decreases |a|
  {
    if a == [] {
      assert a + b == b;
    } else {
      assert (a + b)[1..] == a[1..] + b;
      PlayConcat(Next(s, Move(id, a[0])), id, a[1..], b);
    }
  }

  /** The pc makes none of these calls. */
  predicate Deaf(pc: Pc, moves: seq<Move>) {
    match pc
    case Done(_) => true
    case Releasing(_) => forall i :: 0 <= i < |moves| ==> !moves[i].Unlock?
    case Inspect => forall i :: 0 <= i < |moves| ==> moves[i].TryLock?
    case _ => moves == []
  }

  lemma DeafMove(s: State, id: ScanId, move: Move)
    requires id in s.scans && Deaf(s.scans[id].pc, [move])
    ensures Next(s, Move(id, move)) == s
  {
    assert [move][0] == move;
    assert s.scans[id := s.scans[id]] == s.scans;
  }

  lemma {:induction false} PlayDeaf(s: State, id: ScanId, moves: seq<Move>)
    requires id in s.scans && Deaf(s.scans[id].pc, moves)
    ensures Play(s, id, moves) == s
    decreases |moves|
  {
    if moves != [] {
      DeafMove(s, id, moves[0]);
      PlayDeaf(s, id, moves[1..]);
    }
  }

  // At most one success.

  /** The lock does not run out on a scan that is inside, Redis is up for locking, no log query is refused, and no
      log entry of a check-in is refused without being written. Exceptions do no harm. */
  predicate Disciplined(s: State, step: Step) {
    match step
    case Expire => s.lock.Some? && s.lock.value.owner in s.scans ==> !s.scans[s.lock.value.owner].pc.Inside()
    case Move(id, SkipLock) => false
    case Move(id, Query(net, _)) => !net.Err?
    case Move(id, PostLog(net)) => id in s.scans && s.scans[id].pc.LogIn? ==> net != Err(false)
    case _ => true
  }

  predicate DisciplinedRun(s: State, steps: seq<Step>) {
    forall i :: 0 <= i < |steps| ==> Disciplined(Run(s, steps[..i]), steps[i])
  }

  predicate Owns(id: ScanId, c: Scan, lock: Option<Lock>) {
    c.locked && lock == Some(Lock(c.token, id))
  }

  /** What the pc of scan `id` says about lock and logs. */
  predicate ScanSane(id: ScanId, c: Scan, logs: seq<LogEntry>, lock: Option<Lock>) {
    && (c.pc.Inside() ==> Owns(id, c, lock))
    && (c.pc in {Place, MarkUsed, LogIn} ==> CheckedIn !in logs)
    && (c.pc.Succeeded() ==> CheckedIn in logs)
  }

  predicate Inv(s: State) {
    && (forall id :: id in s.scans ==> ScanSane(id, s.scans[id], s.logs, s.lock))
    && (forall i, j :: i in s.scans && j in s.scans && s.scans[i].pc.Succeeded() && s.scans[j].pc.Succeeded() ==> i == j)
  }

  /** The moving scan stays sane; it changes lock or log only as an outsider taking a free lock
      or as the owner; it succeeds only out of LogIn. */
  lemma ActSane(id: ScanId, c: Scan, ticket: TicketStatus, logs: seq<LogEntry>, lock: Option<Lock>, move: Move)
    requires ScanSane(id, c, logs, lock) && !move.SkipLock?
    requires move.Query? ==> !move.net.Err?
    requires move.PostLog? && c.pc.LogIn? ==> move.net != Err(false)
    ensures
      var e := Act(id, c, ticket, logs, lock, move);
      && ScanSane(id, e.scan, e.logs, e.lock)
      && (e.lock != lock ==> lock.None? || lock.value.owner == id)
      && (CheckedIn in e.logs <==> CheckedIn in logs || (c.pc.LogIn? && move.PostLog? && move.net.Applied()))
      && (e.scan.pc.Succeeded() && !c.pc.Succeeded() ==> c.pc.LogIn?)
  {
  }

  lemma MoveInv(s: State, id: ScanId, move: Move)
    requires Inv(s) && Disciplined(s, Move(id, move)) && id in s.scans
    ensures Inv(Next(s, Move(id, move)))
  {
    var c := s.scans[id];
    var e := Act(id, c, s.ticket, s.logs, s.lock, move);
    ActSane(id, c, s.ticket, s.logs, s.lock, move);
    var t := Next(s, Move(id, move));
    forall j | j in t.scans && j != id
      ensures ScanSane(j, t.scans[j], t.logs, t.lock)
    {
      assert ScanSane(j, s.scans[j], s.logs, s.lock) && t.scans[j] == s.scans[j];
    }
  }

  lemma InvStep(s: State, step: Step)
    requires Inv(s) && Disciplined(s, step)
    ensures Inv(Next(s, step))
  {
    if step.Move? && step.id in s.scans {
      MoveInv(s, step.id, step.move);
    }
  }

  lemma {:induction false} InvRun(ticket: TicketStatus, steps: seq<Step>)
    requires DisciplinedRun(Init(ticket), steps)
    ensures Inv(Run(Init(ticket), steps))
  {
    if steps != [] {
      var before := steps[..|steps| - 1];
      assert forall i :: 0 <= i < |before| ==> before[..i] == steps[..i];
      InvRun(ticket, before);
      InvStep(Run(Init(ticket), before), steps[|steps| - 1]);
    }
  }

  /** Of all scans of a ticket at most one succeeds, although each read the ticket before it locked. */
  lemma AtMostOneSuccess(ticket: TicketStatus, steps: seq<Step>, i: ScanId, j: ScanId)
    requires DisciplinedRun(Init(ticket), steps)
    requires
      var s := Run(Init(ticket), steps);
      i in s.scans && j in s.scans && s.scans[i].pc.Succeeded() && s.scans[j].pc.Succeeded()
    ensures i == j
  {
    InvRun(ticket, steps);
  }

  // The lock itself, with expiry at any moment and any failures.

  predicate FreshToken(s: State, step: Step) {
    step.Begin? ==> forall i :: i in s.scans ==> s.scans[i].token != step.token
  }

  predicate FreshRun(s: State, steps: seq<Step>) {
    forall i :: 0 <= i < |steps| ==> FreshToken(Run(s, steps[..i]), steps[i])
  }

  predicate LockSane(s: State) {
    && (s.lock.Some? ==> s.lock.value.owner in s.scans && s.scans[s.lock.value.owner].token == s.lock.value.token)
    && (forall i, j :: i in s.scans && j in s.scans && s.scans[i].token == s.scans[j].token ==> i == j)
  }

  lemma LockSaneStep(s: State, step: Step)
    requires LockSane(s) && FreshToken(s, step)
    ensures LockSane(Next(s, step))
  {
    if step.Move? && step.id in s.scans {
      var e := Act(step.id, s.scans[step.id], s.ticket, s.logs, s.lock, step.move);
      ActLock(step.id, s.scans[step.id], s.ticket, s.logs, s.lock, step.move);
      assert e.scan.token == s.scans[step.id].token;
    }
  }

  lemma {:induction false} LockSaneRun(ticket: TicketStatus, steps: seq<Step>)
    requires FreshRun(Init(ticket), steps)
    ensures LockSane(Run(Init(ticket), steps))
  {
    if steps != [] {
      var before := steps[..|steps| - 1];
      assert forall i :: 0 <= i < |before| ==> before[..i] == steps[..i];
      LockSaneRun(ticket, before);
      LockSaneStep(Run(Init(ticket), before), steps[|steps| - 1]);
    }
  }

  /** The live lock entry carries this scan's token. */
  predicate HoldsLock(s: State, id: ScanId) {
    id in s.scans && s.lock.Some? && s.lock.value.token == s.scans[id].token
  }

  /** A move leaves the lock entry alone, takes a free lock, or removes an entry with its own token. */
  lemma ActLock(id: ScanId, c: Scan, ticket: TicketStatus, logs: seq<LogEntry>, lock: Option<Lock>, move: Move)
    ensures
      var e := Act(id, c, ticket, logs, lock, move);
      || e.lock == lock
      || (lock.None? && e.lock == Some(Lock(c.token, id)))
      || (lock.Some? && lock.value.token == c.token && e.lock.None?)
  {
  }

  /** With distinct tokens at most one scan holds the live lock, and a move takes the entry away
      only from the scan that wrote it, whenever locks expire. */
  lemma LockIsExclusive(ticket: TicketStatus, steps: seq<Step>, i: ScanId, j: ScanId, move: Move)
    requires FreshRun(Init(ticket), steps)
    ensures
      var s := Run(Init(ticket), steps);
      && (HoldsLock(s, i) && HoldsLock(s, j) ==> i == j)
      && (s.lock.Some? && Next(s, Move(i, move)).lock != s.lock ==>
            s.lock.value.owner == i && Next(s, Move(i, move)).lock.None?)
  {
    var s := Run(Init(ticket), steps);
    LockSaneRun(ticket, steps);
    if s.lock.Some? && Next(s, Move(i, move)).lock != s.lock {
      OnlyOwnerUnlocks(s, i, move);
    }
  }

  lemma OnlyOwnerUnlocks(s: State, i: ScanId, move: Move)
    requires LockSane(s) && s.lock.Some? && Next(s, Move(i, move)).lock != s.lock
    ensures s.lock.value.owner == i && Next(s, Move(i, move)).lock.None?
  {
    ActLock(i, s.scans[i], s.ticket, s.logs, s.lock, move);
  }

  /** Tokens made of ticket and clock reading can coincide; a release then takes away the lock of the
      other scan exactly when they do. */
  lemma EqualTokensLoseTheLock(s: State, i: ScanId)
    requires i in s.scans && s.scans[i].pc.Releasing? && s.scans[i].locked
    requires s.lock.Some? && s.lock.value.owner != i
    ensures Next(s, Move(i, Unlock(Ok))).lock.None? <==> s.scans[i].token == s.lock.value.token
  {
  }
}
