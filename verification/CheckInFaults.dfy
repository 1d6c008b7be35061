/** What the assumptions of CheckIn.AtMostOneSuccess are for: each fault that they exclude lets two scans succeed. */
module CheckInFaults {
  import opened Common
  import opened CheckIn

  datatype Fault = LockExpires | RedisDown | QueryRefused | LogLost

  predicate IsFault(f: Fault, step: Step) {
    match f
    case LockExpires => step.Expire?
    case RedisDown => step.Move? && step.move.SkipLock?
    case QueryRefused => step.Move? && step.move.Query? && step.move.net.Err?
    case LogLost => step.Move? && step.move == PostLog(Err(false))
  }

  /** Disciplined in every state. */
  predicate Harmless(step: Step) {
    match step
    case Expire => false
    case Move(_, SkipLock) => false
    case Move(_, Query(net, _)) => !net.Err?
    case Move(_, PostLog(net)) => net != Err(false)
    case _ => true
  }

  lemma HarmlessIsDisciplined(s: State, step: Step)
    requires Harmless(step)
    ensures Disciplined(s, step)
  {
  }

  predicate OnlyFault(f: Fault, steps: seq<Step>) {
    forall i :: 0 <= i < |steps| ==> Harmless(steps[i]) || IsFault(f, steps[i])
  }

  // Pieces of runs.

  lemma RunOne(s: State, a: Step)
    ensures Run(s, [a]) == Next(s, a)
  {
    RunSnoc(s, [], a);
    assert [] + [a] == [a];
  }

  lemma RunTwo(s: State, a: Step, b: Step)
    ensures Run(s, [a, b]) == Next(Next(s, a), b)
  {
    assert [a, b] == [a] + [b];
    RunSnoc(s, [a], b);
    RunOne(s, a);
  }

  /** A scan's calls up to the writes, all answered except perhaps the log query. */
  function Checks(id: ScanId, query: Net): seq<Step> {
    [Move(id, Check(true, "", Ok)), Move(id, Query(query, Ok))] + [Move(id, Check(true, "", Ok))]
  }

  /** The two writes of a check-in. */
  function Writes(id: ScanId, log: Net): seq<Step> {
    [Move(id, PatchTicket(Ok)), Move(id, PostLog(log))]
  }

  predicate MayPass(s: State, id: ScanId, query: Net) {
    && id in s.scans && s.scans[id].pc.Inspect? && s.scans[id].seen.Active?
    && !query.Raise? && (query.Ok? ==> CheckedIn !in s.logs)
  }

  function At(s: State, id: ScanId, pc: Pc): State
    requires id in s.scans
  {
    s.(scans := s.scans[id := s.scans[id].(pc := pc)])
  }

  lemma ChecksPass(s: State, id: ScanId, query: Net)
    requires MayPass(s, id, query)
    ensures Run(s, Checks(id, query)) == At(s, id, MarkUsed)
  {
    var a, b := Move(id, Check(true, "", Ok)), Move(id, Query(query, Ok));
    RunSnoc(s, [a, b], a);
    RunTwo(s, a, b);
    assert Next(s, a) == At(s, id, ReadLogs);
    assert Next(At(s, id, ReadLogs), b) == At(s, id, Place);
    assert Next(At(s, id, Place), a) == At(s, id, MarkUsed);
  }

  /** The state after the writes of scan `id`. */
  function Admitted(s: State, id: ScanId, log: Net): State
    requires id in s.scans
  {
    State(Used, Logged(s.logs, CheckedIn, log), s.lock, s.scans[id := s.scans[id].(pc := Releasing(Success))])
  }

  lemma LogInSucceeds(s: State, id: ScanId, log: Net)
    requires id in s.scans && s.scans[id].pc.LogIn? && s.ticket.Used? && !log.Raise?
    ensures Next(s, Move(id, PostLog(log))) == Admitted(s, id, log)
  {
  }

  lemma WritesSucceed(s: State, id: ScanId, log: Net)
    requires id in s.scans && s.scans[id].pc.MarkUsed? && !log.Raise?
    ensures Run(s, Writes(id, log)) == Admitted(s, id, log)
  {
    RunTwo(s, Move(id, PatchTicket(Ok)), Move(id, PostLog(log)));
    var s1 := At(s, id, LogIn).(ticket := Used);
    assert Next(s, Move(id, PatchTicket(Ok))) == s1;
    LogInSucceeds(s1, id, log);
    assert Admitted(s1, id, log) == Admitted(s, id, log);
  }

  lemma PassSucceeds(s: State, id: ScanId, query: Net, log: Net)
    requires MayPass(s, id, query) && !log.Raise?
    ensures Run(s, Checks(id, query) + Writes(id, log)) == Admitted(s, id, log)
  {
    RunConcat(s, Checks(id, query), Writes(id, log));
    ChecksPass(s, id, query);
    WritesSucceed(At(s, id, MarkUsed), id, log);
  }

  predicate BothSucceed(s: State) {
    0 in s.scans && 1 in s.scans && s.scans[0].pc.Succeeded() && s.scans[1].pc.Succeeded()
  }

  // Two scans inside at once.

  /** Scan 1 passes from its checks to its writes between the checks and the writes of scan 0. */
  function Crossing(): seq<Step> {
    Checks(0, Ok) + ((Checks(1, Ok) + Writes(1, Ok)) + Writes(0, Ok))
  }

  /** Two scans inside at once can both succeed: the second one looks at the log too early. */
  lemma TwoInsideBothSucceed(s: State)
    requires MayPass(s, 0, Ok) && MayPass(s, 1, Ok)
    ensures BothSucceed(Run(s, Crossing()))
  {
    RunConcat(s, Checks(0, Ok), (Checks(1, Ok) + Writes(1, Ok)) + Writes(0, Ok));
    ChecksPass(s, 0, Ok);
    var s1 := At(s, 0, MarkUsed);
    RunConcat(s1, Checks(1, Ok) + Writes(1, Ok), Writes(0, Ok));
    PassSucceeds(s1, 1, Ok, Ok);
    WritesSucceed(Admitted(s1, 1, Ok), 0, Ok);
  }

  // One scan after the other.

  /** One scan from lock to unlock. */
  function Visit(id: ScanId, query: Net, log: Net): seq<Step> {
    [Move(id, TryLock(Ok))] + ((Checks(id, query) + Writes(id, log)) + [Move(id, Unlock(Ok))])
  }

  lemma Enters(s: State, id: ScanId)
    requires s.lock.None? && id in s.scans && s.scans[id].pc.Locking?
    ensures Next(s, Move(id, TryLock(Ok)))
      == s.(lock := Some(Lock(s.scans[id].token, id)), scans := s.scans[id := s.scans[id].(locked := true, pc := Inspect)])
  {
  }

  lemma VisitSucceeds(s: State, id: ScanId, query: Net, log: Net)
    requires s.lock.None? && id in s.scans && s.scans[id].pc.Locking? && s.scans[id].seen.Active?
    requires !query.Raise? && (query.Ok? ==> CheckedIn !in s.logs) && !log.Raise?
    ensures
      var t := Run(s, Visit(id, query, log));
      && t.logs == Logged(s.logs, CheckedIn, log) && t.lock.None?
      && t.scans == s.scans[id := s.scans[id].(locked := true, pc := Done(Success))]
  {
    var enter, leave := Move(id, TryLock(Ok)), Move(id, Unlock(Ok));
    RunConcat(s, [enter], (Checks(id, query) + Writes(id, log)) + [leave]);
    RunOne(s, enter);
    Enters(s, id);
    var s1 := Next(s, enter);
    RunSnoc(s1, Checks(id, query) + Writes(id, log), leave);
    PassSucceeds(s1, id, query, log);
    Leaves(Admitted(s1, id, log), id);
  }

  lemma Leaves(s: State, id: ScanId)
    requires id in s.scans && s.scans[id].pc == Releasing(Success) && s.scans[id].locked
    requires s.lock == Some(Lock(s.scans[id].token, id))
    ensures Next(s, Move(id, Unlock(Ok))) == At(s, id, Done(Success)).(lock := None)
  {
  }

  // From the first reading of the ticket.

  /** What scans 0 and 1 do once both have read an active ticket. */
  function FaultyTail(f: Fault): seq<Step> {
    match f
    case LockExpires => ([Move(0, TryLock(Ok)), Expire] + [Move(1, TryLock(Ok))]) + Crossing()
    case RedisDown => [Move(0, TryLock(Ok)), Move(1, SkipLock)] + Crossing()
    case QueryRefused => Visit(0, Ok, Ok) + Visit(1, Err(false), Ok)
    case LogLost => Visit(0, Ok, Err(false)) + Visit(1, Ok, Ok)
  }

  function FaultyRun(f: Fault): seq<Step> {
    [Begin(0, "a"), Begin(1, "b")] + FaultyTail(f)
  }

  function BothRead(): State {
    State(Active, [], None, map[0 := Scan("a", Active, false, Locking(0)), 1 := Scan("b", Active, false, Locking(0))])
  }

  lemma VisitsBothSucceed(s: State, query: Net, log: Net)
    requires s == BothRead() && !query.Raise? && !log.Raise? && (query.Ok? ==> log == Err(false))
    ensures BothSucceed(Run(s, Visit(0, Ok, log) + Visit(1, query, Ok)))
  {
    RunConcat(s, Visit(0, Ok, log), Visit(1, query, Ok));
    VisitSucceeds(s, 0, Ok, log);
    VisitSucceeds(Run(s, Visit(0, Ok, log)), 1, query, Ok);
  }

  lemma ExpiryBothSucceed(s: State)
    requires s == BothRead()
    ensures BothSucceed(Run(s, FaultyTail(LockExpires)))
  {
    var a, b := Move(0, TryLock(Ok)), Move(1, TryLock(Ok));
    RunConcat(s, [a, Expire] + [b], Crossing());
    RunSnoc(s, [a, Expire], b);
    RunTwo(s, a, Expire);
    Enters(s, 0);
    var s1 := Next(Next(s, a), Expire);
    Enters(s1, 1);
    TwoInsideBothSucceed(Next(s1, b));
  }

  lemma OutageBothSucceed(s: State)
    requires s == BothRead()
    ensures BothSucceed(Run(s, FaultyTail(RedisDown)))
  {
    var a, b := Move(0, TryLock(Ok)), Move(1, SkipLock);
    RunConcat(s, [a, b], Crossing());
    RunTwo(s, a, b);
    Enters(s, 0);
    TwoInsideBothSucceed(Next(Next(s, a), b));
  }

  lemma OnlyFaultConcat(f: Fault, a: seq<Step>, b: seq<Step>)
    requires OnlyFault(f, a) && OnlyFault(f, b)
    ensures OnlyFault(f, a + b)
  {
  }

  lemma VisitHasOnlyFault(f: Fault, id: ScanId, query: Net, log: Net)
    requires query.Ok? || f.QueryRefused?
    requires log.Ok? || (f.LogLost? && log == Err(false))
    ensures OnlyFault(f, Checks(id, query) + Writes(id, log)) && OnlyFault(f, Visit(id, query, log))
  {
    OnlyFaultConcat(f, Checks(id, query), Writes(id, log));
    OnlyFaultConcat(f, Checks(id, query) + Writes(id, log), [Move(id, Unlock(Ok))]);
    OnlyFaultConcat(f, [Move(id, TryLock(Ok))], (Checks(id, query) + Writes(id, log)) + [Move(id, Unlock(Ok))]);
  }

  lemma CrossingHasNoFault(f: Fault)
    ensures OnlyFault(f, Crossing())
  {
    VisitHasOnlyFault(f, 1, Ok, Ok);
    OnlyFaultConcat(f, Checks(1, Ok) + Writes(1, Ok), Writes(0, Ok));
    OnlyFaultConcat(f, Checks(0, Ok), (Checks(1, Ok) + Writes(1, Ok)) + Writes(0, Ok));
  }

  lemma FaultyRunHasOnlyFault(f: Fault)
    ensures OnlyFault(f, FaultyRun(f))
  {
    match f {
      case LockExpires =>
        CrossingHasNoFault(f);
        OnlyFaultConcat(f, [Move(0, TryLock(Ok)), Expire] + [Move(1, TryLock(Ok))], Crossing());
      case RedisDown =>
        CrossingHasNoFault(f);
        OnlyFaultConcat(f, [Move(0, TryLock(Ok)), Move(1, SkipLock)], Crossing());
      case QueryRefused =>
        VisitHasOnlyFault(f, 0, Ok, Ok);
        VisitHasOnlyFault(f, 1, Err(false), Ok);
        OnlyFaultConcat(f, Visit(0, Ok, Ok), Visit(1, Err(false), Ok));
      case LogLost =>
        VisitHasOnlyFault(f, 0, Ok, Err(false));
        VisitHasOnlyFault(f, 1, Ok, Ok);
        OnlyFaultConcat(f, Visit(0, Ok, Err(false)), Visit(1, Ok, Ok));
    }
    OnlyFaultConcat(f, [Begin(0, "a"), Begin(1, "b")], FaultyTail(f));
  }

  /** For each fault there is a run from the start, without any other fault, in which two scans succeed. */
  lemma EachFaultLetsTwoSucceed(f: Fault)
    ensures BothSucceed(Run(Init(Active), FaultyRun(f)))
    ensures forall i :: 0 <= i < |FaultyRun(f)| ==>
      Disciplined(Run(Init(Active), FaultyRun(f)[..i]), FaultyRun(f)[i]) || IsFault(f, FaultyRun(f)[i])
  {
    var s := Run(Init(Active), [Begin(0, "a"), Begin(1, "b")]);
    RunConcat(Init(Active), [Begin(0, "a"), Begin(1, "b")], FaultyTail(f));
    RunTwo(Init(Active), Begin(0, "a"), Begin(1, "b"));
    assert s == BothRead();
    match f {
      case LockExpires => ExpiryBothSucceed(s);
      case RedisDown => OutageBothSucceed(s);
      case QueryRefused => VisitsBothSucceed(s, Err(false), Ok);
      case LogLost => VisitsBothSucceed(s, Ok, Err(false));
    }
    FaultyRunHasOnlyFault(f);
    forall i | 0 <= i < |FaultyRun(f)| && !IsFault(f, FaultyRun(f)[i])
      ensures Disciplined(Run(Init(Active), FaultyRun(f)[..i]), FaultyRun(f)[i])
    {
      HarmlessIsDisciplined(Run(Init(Active), FaultyRun(f)[..i]), FaultyRun(f)[i]);
    }
  }
}
