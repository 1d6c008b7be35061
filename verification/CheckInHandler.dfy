/** The scan handler and its lock helpers, run on the records themselves. */
module CheckInHandler {
  import opened Common
  import opened CheckIn

  /** What the calls of one scan meet. */
  datatype Replies = Replies(
    redisUp: bool, tries: seq<Net>,
    inspect: bool, inspectReason: string, inspectPost: Net,
    query: Net, duplicatePost: Net,
    place: bool, placeReason: string, placePost: Net,
    mark: Net, login: Net, release: Net)

  /** Whether the attempts from the k-th on win a free lock: the first one to reach Redis is answered. One that reaches Redis
      without an answer leaves the scan's own entry in the way of its later attempts. */
  predicate Wins(tries: seq<Net>, k: nat)
    decreases |tries| - k
  {
    k < |tries| && (tries[k].Ok? || (!tries[k].Applied() && Wins(tries, k + 1)))
  }

  // The calls of a scan in order, as its replies make them.

  function TryScript(tries: seq<Net>, k: nat): seq<Move>
    decreases |tries| - k
  {
    if k >= |tries| then [] else [TryLock(tries[k])] + TryScript(tries, k + 1)
  }

  lemma {:induction false} TriesOnlyLock(tries: seq<Net>, k: nat)
    ensures forall i :: 0 <= i < |TryScript(tries, k)| ==> TryScript(tries, k)[i].TryLock?
    decreases |tries| - k
  {
    if k < |tries| {
      TriesOnlyLock(tries, k + 1);
    }
  }

  function LockScript(r: Replies): seq<Move> {
    if r.redisUp then TryScript(r.tries, 0) else [SkipLock]
  }

  function ExamineScript(r: Replies): seq<Move> {
    [Check(r.inspect, r.inspectReason, r.inspectPost)] + [Query(r.query, r.duplicatePost)]
  }

  function WriteScript(r: Replies): seq<Move> {
    [PatchTicket(r.mark)] + [PostLog(r.login)]
  }

  function AdmitScript(r: Replies): seq<Move> {
    [Check(r.place, r.placeReason, r.placePost)] + WriteScript(r)
  }

  function InsideScript(r: Replies): seq<Move> {
    ExamineScript(r) + AdmitScript(r)
  }

  function Script(r: Replies): seq<Move> {
    LockScript(r) + (InsideScript(r) + [Unlock(r.release)])
  }

  class VerificationDesk {
    var ticket: TicketStatus
    var logs: seq<LogEntry>
    var lock: Option<Lock>
    ghost var scans: map<ScanId, Scan>

    constructor (ticket: TicketStatus)
      ensures Machine() == Init(ticket)
    {
      this.ticket, logs, lock, scans := ticket, [], None, map[];
    }

    ghost function Machine(): State
      reads this
    {
      State(ticket, logs, lock, scans)
    }

    method Log(entry: LogEntry, net: Net)
      modifies this`logs
      ensures logs == Logged(old(logs), entry, net)
    {
      if net.Applied() {
        logs := logs + [entry];
      }
    }

    /** One SET NX EX. */
    method TryOnce(id: ScanId, token: Token, attempt: nat, net: Net) returns (acquired: bool)
      requires id in scans && scans[id].token == token && scans[id].pc == Locking(attempt)
      modifies this`lock, this`scans
      ensures Machine() == Next(old(Machine()), Move(id, TryLock(net)))
      ensures acquired <==> old(lock).None? && net.Ok?
      ensures lock == if old(lock).None? && net.Applied() then Some(Lock(token, id)) else old(lock)
      ensures id in scans
      ensures acquired ==> scans[id] == old(scans)[id].(locked := true, pc := Inspect)
      ensures !acquired ==>
        scans[id] == old(scans)[id].(pc := if attempt + 1 < MAX_LOCK_RETRIES then Locking(attempt + 1) else Done(Refused))
    {
      acquired := lock.None? && net.Ok?;
      if lock.None? && net.Applied() {
        lock := Some(Lock(token, id));
      }
      if acquired {
        scans := scans[id := scans[id].(locked := true, pc := Inspect)];
      } else {
        scans := scans[id := scans[id].(pc := if attempt + 1 < MAX_LOCK_RETRIES then Locking(attempt + 1) else Done(Refused))];
      }
    }

    /** SET NX EX with a bounded number of attempts. */
    method RetryLock(id: ScanId, token: Token, tries: seq<Net>) returns (entered: bool)
      requires id in scans && scans[id].token == token && scans[id].pc == Locking(0)
      requires |tries| == MAX_LOCK_RETRIES
      modifies this`lock, this`scans
      ensures Machine() == Play(old(Machine()), id, TryScript(tries, 0))
      ensures id in scans
      ensures entered ==> scans[id] == old(scans)[id].(locked := true, pc := Inspect) && lock == Some(Lock(token, id))
      ensures !entered ==> scans[id] == old(scans)[id].(pc := Done(Refused))
      ensures entered <==> old(lock).None? && Wins(tries, 0)
    {
      ghost var s0 := Machine();
      var attempt := 0;
      while attempt < MAX_LOCK_RETRIES
        invariant 0 <= attempt <= MAX_LOCK_RETRIES
        invariant Play(Machine(), id, TryScript(tries, attempt)) == Play(s0, id, TryScript(tries, 0))
        invariant id in scans
        invariant scans[id] == old(scans)[id].(pc := if attempt < MAX_LOCK_RETRIES then Locking(attempt) else Done(Refused))
        invariant (lock.None? && Wins(tries, attempt)) <==> (old(lock).None? && Wins(tries, 0))
      {
        PlayFirst(Machine(), id, TryLock(tries[attempt]), TryScript(tries, attempt + 1));
        var acquired := TryOnce(id, token, attempt, tries[attempt]);
        attempt := attempt + 1;
        if acquired {
          TriesOnlyLock(tries, attempt);
          PlayDeaf(Machine(), id, TryScript(tries, attempt));
          return true;
        }
      }
      return false;
    }

    /** The scan lock; without Redis the scan goes on unlocked. */
    method AcquireScanLock(id: ScanId, token: Token, r: Replies) returns (entered: bool)
      requires id in scans && scans[id].token == token && scans[id].pc == Locking(0) && !scans[id].locked
      requires |r.tries| == MAX_LOCK_RETRIES
      modifies this`lock, this`scans
      ensures Machine() == Play(old(Machine()), id, LockScript(r))
      ensures id in scans && scans[id].pc == (if entered then Inspect else Done(Refused))
      ensures scans[id].seen == old(scans)[id].seen && scans[id].token == token
      ensures entered ==> (scans[id].locked <==> r.redisUp)
      ensures entered && r.redisUp ==> old(lock).None? && lock == Some(Lock(token, id))
      ensures entered <==> !r.redisUp || (old(lock).None? && Wins(r.tries, 0))
    {
      if r.redisUp {
        entered := RetryLock(id, token, r.tries);
      } else {
        scans := scans[id := scans[id].(pc := Inspect)];
        PlayFirst(old(Machine()), id, SkipLock, []);
        entered := true;
      }
    }

    /** Compare-and-delete: an entry with another token stays. */
    method ReleaseScanLock(id: ScanId, token: Token, locked: bool, net: Net)
      requires id in scans && scans[id].pc.Releasing? && scans[id].token == token && scans[id].locked == locked
      modifies this`lock, this`scans
      ensures Machine() == Next(old(Machine()), Move(id, Unlock(net)))
      ensures id in scans && scans[id].pc == Done(old(scans)[id].pc.result)
      ensures old(lock).Some? && old(lock).value.token != token ==> lock == old(lock)
      ensures old(lock) == Some(Lock(token, id)) && locked && net.Applied() ==> lock.None?
    {
      if locked && net.Applied() && lock.Some? && lock.value.token == token {
        lock := None;
      }
      scans := scans[id := scans[id].(pc := Done(scans[id].pc.result))];
    }

    /** QR time, event, seat and ticket status. */
    method CheckTicket(id: ScanId, seen: TicketStatus, r: Replies) returns (fine: bool)
      requires id in scans && scans[id].pc.Inspect? && scans[id].seen == seen
      modifies this`logs, this`scans
      ensures Machine() == Next(old(Machine()), Move(id, Check(r.inspect, r.inspectReason, r.inspectPost)))
      ensures id in scans && scans[id] == old(scans)[id].(pc := if fine then ReadLogs else Releasing(Refused))
      ensures fine <==> r.inspect && seen.Active?
      ensures logs == old(logs) + if !fine && r.inspectPost.Applied() then [Turned(r.inspectReason)] else []
    {
      fine := r.inspect && seen.Active?;
      if !fine {
        Log(Turned(r.inspectReason), r.inspectPost);
      }
      scans := scans[id := scans[id].(pc := if fine then ReadLogs else Releasing(Refused))];
    }

    /** The duplicate check; a log query that fails finds nothing. */
    method QueryLogs(id: ScanId, r: Replies) returns (fine: bool)
      requires id in scans && scans[id].pc.ReadLogs?
      modifies this`logs, this`scans
      ensures Machine() == Next(old(Machine()), Move(id, Query(r.query, r.duplicatePost)))
      ensures id in scans && scans[id] == old(scans)[id].(pc := if fine then Place else Releasing(Refused))
      ensures fine <==> !r.query.Raise? && !(r.query.Ok? && CheckedIn in old(logs))
      ensures logs == old(logs) +
        if r.query.Ok? && CheckedIn in old(logs) && r.duplicatePost.Applied() then [Turned("duplicate")] else []
    {
      fine := !r.query.Raise?;
      if r.query.Ok? && CheckedIn in logs {
        Log(Turned("duplicate"), r.duplicatePost);
        fine := false;
      }
      scans := scans[id := scans[id].(pc := if fine then Place else Releasing(Refused))];
    }

    /** The checks up to the duplicate query. */
    method Examine(id: ScanId, seen: TicketStatus, r: Replies) returns (fine: bool)
      requires id in scans && scans[id].pc.Inspect? && scans[id].seen == seen
      modifies this`logs, this`scans
      ensures Machine() == Play(old(Machine()), id, ExamineScript(r))
      ensures id in scans && scans[id] == old(scans)[id].(pc := if fine then Place else Releasing(Refused))
      ensures fine <==> r.inspect && seen.Active? && !r.query.Raise? && !(r.query.Ok? && CheckedIn in old(logs))
      ensures logs == old(logs) +
        (if !(r.inspect && seen.Active?) then (if r.inspectPost.Applied() then [Turned(r.inspectReason)] else [])
         else if r.query.Ok? && CheckedIn in old(logs) && r.duplicatePost.Applied() then [Turned("duplicate")]
         else [])
    {
      ghost var s := Machine();
      fine := CheckTicket(id, seen, r);
      PlayFirst(s, id, Check(r.inspect, r.inspectReason, r.inspectPost), [Query(r.query, r.duplicatePost)]);
      ghost var s1 := Machine();
      if fine {
        fine := QueryLogs(id, r);
        PlayFirst(s1, id, Query(r.query, r.duplicatePost), []);
      } else {
        PlayDeaf(s1, id, [Query(r.query, r.duplicatePost)]);
      }
    }

    /** Venue and event. */
    method CheckPlace(id: ScanId, r: Replies)
      requires id in scans && scans[id].pc.Place?
      modifies this`logs, this`scans
      ensures Machine() == Next(old(Machine()), Move(id, Check(r.place, r.placeReason, r.placePost)))
      ensures id in scans && scans[id] == old(scans)[id].(pc := if r.place then MarkUsed else Releasing(Refused))
      ensures logs == old(logs) + if !r.place && r.placePost.Applied() then [Turned(r.placeReason)] else []
    {
      if !r.place {
        Log(Turned(r.placeReason), r.placePost);
      }
      scans := scans[id := scans[id].(pc := if r.place then MarkUsed else Releasing(Refused))];
    }

    method MarkTicketUsed(id: ScanId, net: Net)
      requires id in scans && scans[id].pc.MarkUsed?
      modifies this`ticket, this`scans
      ensures Machine() == Next(old(Machine()), Move(id, PatchTicket(net)))
      ensures id in scans && scans[id] == old(scans)[id].(pc := if net.Raise? then Releasing(Refused) else LogIn)
      ensures ticket == if net.Applied() then Used else old(ticket)
    {
      if net.Applied() {
        ticket := Used;
      }
      scans := scans[id := scans[id].(pc := if net.Raise? then Releasing(Refused) else LogIn)];
    }

    method LogCheckIn(id: ScanId, net: Net) returns (result: Result)
      requires id in scans && scans[id].pc.LogIn?
      modifies this`logs, this`scans
      ensures Machine() == Next(old(Machine()), Move(id, PostLog(net)))
      ensures id in scans && scans[id] == old(scans)[id].(pc := Releasing(result))
      ensures result.Success? <==> !net.Raise?
      ensures logs == old(logs) + if net.Applied() then [CheckedIn] else []
    {
      Log(CheckedIn, net);
      result := if net.Raise? then Refused else Success;
      scans := scans[id := scans[id].(pc := Releasing(result))];
    }

    /** The two writes of a check-in. */
    method WriteCheckIn(id: ScanId, r: Replies) returns (result: Result)
      requires id in scans && scans[id].pc.MarkUsed?
      modifies this`ticket, this`logs, this`scans
      ensures Machine() == Play(old(Machine()), id, WriteScript(r))
      ensures id in scans && scans[id] == old(scans)[id].(pc := Releasing(result))
      ensures result.Success? <==> !r.mark.Raise? && !r.login.Raise?
      ensures ticket == if r.mark.Applied() then Used else old(ticket)
      ensures logs == old(logs) + if !r.mark.Raise? && r.login.Applied() then [CheckedIn] else []
    {
      ghost var s := Machine();
      MarkTicketUsed(id, r.mark);
      PlayFirst(s, id, PatchTicket(r.mark), [PostLog(r.login)]);
      ghost var s1 := Machine();
      if r.mark.Raise? {
        PlayDeaf(s1, id, [PostLog(r.login)]);
        return Refused;
      }
      result := LogCheckIn(id, r.login);
      PlayFirst(s1, id, PostLog(r.login), []);
    }

    /** Venue and event, then the check-in itself. */
    method Admit(id: ScanId, r: Replies) returns (result: Result)
      requires id in scans && scans[id].pc.Place?
      modifies this`ticket, this`logs, this`scans
      ensures Machine() == Play(old(Machine()), id, AdmitScript(r))
      ensures id in scans && scans[id] == old(scans)[id].(pc := Releasing(result))
      ensures result.Success? <==> r.place && !r.mark.Raise? && !r.login.Raise?
      ensures ticket == if r.place && r.mark.Applied() then Used else old(ticket)
      ensures logs == old(logs) +
        (if !r.place then (if r.placePost.Applied() then [Turned(r.placeReason)] else [])
         else if !r.mark.Raise? && r.login.Applied() then [CheckedIn]
         else [])
    {
      ghost var s := Machine();
      CheckPlace(id, r);
      PlayFirst(s, id, Check(r.place, r.placeReason, r.placePost), WriteScript(r));
      if !r.place {
        PlayDeaf(Machine(), id, WriteScript(r));
        return Refused;
      }
      result := WriteCheckIn(id, r);
    }

    /** The critical section. */
    method Serve(id: ScanId, seen: TicketStatus, r: Replies) returns (result: Result)
      requires id in scans && scans[id].pc.Inspect? && scans[id].seen == seen
      modifies this`ticket, this`logs, this`scans
      ensures Machine() == Play(old(Machine()), id, InsideScript(r))
      ensures id in scans && scans[id] == old(scans)[id].(pc := Releasing(result))
      ensures result.Success? <==>
        (&& seen.Active? && r.inspect && !r.query.Raise? && !(r.query.Ok? && CheckedIn in old(logs))
         && r.place && !r.mark.Raise? && !r.login.Raise?)
      // a refused scan leaves an entry that says why, a successful one its check-in, if the calls arrive
      ensures
        var passes := seen.Active? && r.inspect;
        var found := r.query.Ok? && CheckedIn in old(logs);
        var marks := passes && !r.query.Raise? && !found && r.place;
        && logs == old(logs) +
             (if !passes then (if r.inspectPost.Applied() then [Turned(r.inspectReason)] else [])
              else if r.query.Raise? then []
              else if found then (if r.duplicatePost.Applied() then [Turned("duplicate")] else [])
              else if !r.place then (if r.placePost.Applied() then [Turned(r.placeReason)] else [])
              else if r.mark.Raise? || !r.login.Applied() then []
              else [CheckedIn])
        && ticket == if marks && r.mark.Applied() then Used else old(ticket)
    {
      PlayConcat(Machine(), id, ExamineScript(r), AdmitScript(r));
      var fine := Examine(id, seen, r);
      if fine {
        result := Admit(id, r);
      } else {
        PlayDeaf(Machine(), id, AdmitScript(r));
        result := Refused;
      }
    }

    /** A scan request. Left alone it does what its scan does in the interleaved system when it meets the same replies. */
    method Scan(id: ScanId, token: Token, r: Replies) returns (result: Result)
      requires id !in scans && |r.tries| == MAX_LOCK_RETRIES
      modifies this
      ensures Machine() == Play(Next(old(Machine()), Begin(id, token)), id, Script(r))
      ensures id in scans && scans[id].pc == Done(result)
      ensures
        var enters := !r.redisUp || (old(lock).None? && Wins(r.tries, 0));
        var passes := old(ticket).Active? && r.inspect;
        var found := r.query.Ok? && CheckedIn in old(logs);
        && logs == old(logs) +
             (if !enters then []
              else if !passes then (if r.inspectPost.Applied() then [Turned(r.inspectReason)] else [])
              else if r.query.Raise? then []
              else if found then (if r.duplicatePost.Applied() then [Turned("duplicate")] else [])
              else if !r.place then (if r.placePost.Applied() then [Turned(r.placeReason)] else [])
              else if r.mark.Raise? || !r.login.Applied() then []
              else [CheckedIn])
        && ticket ==
             if enters && passes && !r.query.Raise? && !found && r.place && r.mark.Applied() then Used else old(ticket)
      ensures result.Success? && r.redisUp ==> old(lock).None?
      // a lock won is given back, however the scan ends
      ensures r.redisUp && old(lock).None? && Wins(r.tries, 0) && r.release.Applied() ==> lock.None?
      ensures result.Success? <==>
        (&& (!r.redisUp || (old(lock).None? && Wins(r.tries, 0)))
         && old(ticket).Active? && r.inspect && !r.query.Raise? && !(r.query.Ok? && CheckedIn in old(logs))
         && r.place && !r.mark.Raise? && !r.login.Raise?)
    {
      var seen := ticket;
      scans := scans[id := CheckIn.Scan(token, seen, false, Locking(0))];
      ghost var rest := InsideScript(r) + [Unlock(r.release)];
      PlayConcat(Machine(), id, LockScript(r), rest);
      var entered := AcquireScanLock(id, token, r);
      if !entered {
        PlayDeaf(Machine(), id, rest);
        return Refused;
      }
      PlayConcat(Machine(), id, InsideScript(r), [Unlock(r.release)]);
      result := Serve(id, seen, r);
      ghost var s := Machine();
      ReleaseScanLock(id, token, r.redisUp, r.release);
      PlayFirst(s, id, Unlock(r.release), []);
    }
  }
}
