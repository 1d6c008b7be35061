/** Verify requests for one phone that overlap: each checks the limit, waits for the upstream service, and acts on
    its reply, interleaved with any number of others. */
module OtpRace {
  import opened Common
  import opened OtpLimiter

  type RequestId = nat

  /** `waiting` are the requests past their check, `failures` the times of the counted failures since the last
      success, `clock` the time of the last step. */
  datatype State = State(limiter: Limiter, waiting: set<RequestId>, failures: seq<Time>, clock: Time)

  datatype Step =
    | Check(id: RequestId, now: Time)
    | Reply(id: RequestId, reply: Upstream, now: Time)

  function Init(now: Time): State {
    State(FRESH, {}, [], now)
  }

  function Next(s: State, c: Config, step: Step): State {
    match step
    case Check(id, now) =>
      s.(limiter := Checked(s.limiter, c, now),
         waiting := if Allows(s.limiter, c, now) then s.waiting + {id} else s.waiting,
         clock := now)
    case Reply(id, reply, now) =>
      if id !in s.waiting then s.(clock := now)
      else
        match reply
        case WrongCode => State(Incremented(s.limiter, c, now), s.waiting - {id}, s.failures + [now], now)
        case Verified => State(FRESH, s.waiting - {id}, [], now)
        case _ => s.(waiting := s.waiting - {id}, clock := now)
  }

  function Run(s: State, c: Config, steps: seq<Step>): State {
    if steps == [] then s else Next(Run(s, c, steps[..|steps| - 1]), c, steps[|steps| - 1])
  }

  /** Clocks in order, and at most `k` requests between check and reply. */
  predicate Within(s: State, c: Config, step: Step, k: nat) {
    s.clock <= step.now && |Next(s, c, step).waiting| <= k
  }

  predicate WithinRun(s: State, c: Config, steps: seq<Step>, k: nat) {
    steps == []
    || (WithinRun(s, c, steps[..|steps| - 1], k) && Within(Run(s, c, steps[..|steps| - 1]), c, steps[|steps| - 1], k))
  }

  /** A request that runs undisturbed is the request of module OtpLimiter. */
  lemma AloneIsVerify(s: State, c: Config, id: RequestId, r: Request)
    requires s.waiting == {}
    ensures Next(Next(s, c, Check(id, r.checked)), c, Reply(id, r.reply, r.done)).limiter == Verify(s.limiter, c, r)
    ensures Next(Next(s, c, Check(id, r.checked)), c, Reply(id, r.reply, r.done)).waiting == {}
  {
  }

  // What overlap costs.

  predicate BoundedBy(c: Config, f: seq<Time>, bound: int) {
    forall m :: 1 <= m <= |f| ==> Burst(f[..m], c.window) <= bound
  }

  predicate Inv(s: State, c: Config, k: nat) {
    && Attempts(s.limiter, s.clock) + |s.waiting| <= c.attempts - 1 + k
    && Tracks(c, s.limiter.counter, s.failures)
    && (s.failures != [] ==> s.failures[|s.failures| - 1] <= s.clock)
    && BoundedBy(c, s.failures, c.attempts - 1 + k)
  }

  /** Time alone only lets the counter run out. */
  lemma AttemptsFade(l: Limiter, now: Time, later: Time)
    requires now <= later
    ensures Attempts(l, later) <= Attempts(l, now)
  {
  }

  /** A counted failure makes the burst one longer than the live count. */
  lemma BurstGrows(c: Config, l: Limiter, f: seq<Time>, now: Time)
    requires Tracks(c, l.counter, f) && (f != [] ==> f[|f| - 1] <= now)
    ensures Burst(f + [now], c.window) == Attempts(l, now) + 1
    ensures Tracks(c, Incremented(l, c, now).counter, f + [now])
  {
    assert (f + [now])[..|f|] == f;
  }

  lemma BoundedMore(c: Config, f: seq<Time>, now: Time, bound: int)
    requires BoundedBy(c, f, bound) && Burst(f + [now], c.window) <= bound
    ensures BoundedBy(c, f + [now], bound)
  {
    var g := f + [now];
    forall m | 1 <= m <= |g|
      ensures Burst(g[..m], c.window) <= bound
    {
      assert g[..m] == if m <= |f| then f[..m] else g;
    }
  }

  lemma InvStep(s: State, c: Config, step: Step, k: nat)
    requires k >= 1 && Inv(s, c, k) && Within(s, c, step, k)
    ensures Inv(Next(s, c, step), c, k)
  {
    AttemptsFade(s.limiter, s.clock, step.now);
    if step.Reply? && step.id in s.waiting {
      assert |s.waiting - {step.id}| == |s.waiting| - 1;
      if step.reply.WrongCode? {
        BurstGrows(c, s.limiter, s.failures, step.now);
        BoundedMore(c, s.failures, step.now, c.attempts - 1 + k);
      }
    }
  }

  lemma {:induction false} InvRun(now: Time, c: Config, steps: seq<Step>, k: nat)
    requires k >= 1 && WithinRun(Init(now), c, steps, k)
    ensures Inv(Run(Init(now), c, steps), c, k)
  {
    if steps != [] {
      var before := steps[..|steps| - 1];
      InvRun(now, c, before, k);
      InvStep(Run(Init(now), c, before), c, steps[|steps| - 1], k);
    }
  }

  /** With at most k requests between check and reply, live count and waiting requests together never exceed the
      limit by k or more, in every interleaving. */
  lemma CountBoundedByOverlap(now: Time, c: Config, steps: seq<Step>, k: nat)
    requires k >= 1 && WithinRun(Init(now), c, steps, k)
    ensures
      var s := Run(Init(now), c, steps);
      Attempts(s.limiter, s.clock) + |s.waiting| <= c.attempts - 1 + k
  {
    InvRun(now, c, steps, k);
  }

  /** Among any limit + k successive counted failures with no success in between, some two neighbours are at least a
      window apart; with requests in sequence, k is one. */
  lemma SomeGapIsLongDespiteOverlap(now: Time, c: Config, steps: seq<Step>, k: nat, i: nat)
    requires k >= 1 && WithinRun(Init(now), c, steps, k)
    requires i + c.attempts + k <= |Run(Init(now), c, steps).failures|
    ensures
      var f := Run(Init(now), c, steps).failures;
      exists j :: i <= j < i + c.attempts + k - 1 && f[j + 1] - f[j] >= c.window
  {
    var f := Run(Init(now), c, steps).failures;
    InvRun(now, c, steps, k);
    var m := i + c.attempts + k;
    if forall j :: i <= j < m - 1 ==> f[j + 1] - f[j] < c.window {
      TightRunIsBurst(f, c.window, i, m);
    }
  }

  // The lockout.

  /** No waiting request verifies. */
  predicate NoneVerifies(s: State, c: Config, steps: seq<Step>) {
    steps == []
    || (&& NoneVerifies(s, c, steps[..|steps| - 1])
        && var last := steps[|steps| - 1];
           !(last.Reply? && last.reply.Verified? && last.id in Run(s, c, steps[..|steps| - 1]).waiting))
  }

  lemma {:induction false} LockHoldsDespiteOverlap(s: State, c: Config, steps: seq<Step>, until: Time)
    requires s.limiter.lockUntil == Some(until) && NoneVerifies(s, c, steps)
    requires forall i :: 0 <= i < |steps| ==> steps[i].now < until
    ensures Run(s, c, steps).limiter.lockUntil == Some(until)
  {
    if steps != [] {
      LockHoldsDespiteOverlap(s, c, steps[..|steps| - 1], until);
    }
  }

  /** Once a check finds the limit reached and no lock, no request gets past its check within the lockout that follows,
      in any interleaving, unless a request that was waiting verifies in between. */
  lemma LockedOutDespiteOverlap(s: State, c: Config, id: RequestId, t: Time, steps: seq<Step>, other: RequestId, now: Time)
    requires !(s.limiter.lockUntil.Some? && t < s.limiter.lockUntil.value) && Attempts(s.limiter, t) >= c.attempts
    requires NoneVerifies(Next(s, c, Check(id, t)), c, steps)
    requires forall i :: 0 <= i < |steps| ==> steps[i].now < t + c.lockout
    requires now < t + c.lockout
    ensures
      var e := Run(Next(s, c, Check(id, t)), c, steps);
      && Next(s, c, Check(id, t)).waiting == s.waiting
      && Next(e, c, Check(other, now)).waiting == e.waiting
  {
    LockHoldsDespiteOverlap(Next(s, c, Check(id, t)), c, steps, t + c.lockout);
  }

  /** A success clears counter and lock: whatever was counted before, the next request gets past its check. */
  lemma SuccessClears(s: State, c: Config, id: RequestId, done: Time, other: RequestId, now: Time)
    requires id in s.waiting && c.attempts >= 1
    ensures
      var e := Next(s, c, Reply(id, Verified, done));
      e.failures == [] && other in Next(e, c, Check(other, now)).waiting
  {
  }

  // The bound is attained.

  lemma WithinSnoc(s: State, c: Config, steps: seq<Step>, step: Step, k: nat)
    requires WithinRun(s, c, steps, k) && Within(Run(s, c, steps), c, step, k)
    ensures WithinRun(s, c, steps + [step], k)
    ensures Run(s, c, steps + [step]) == Next(Run(s, c, steps), c, step)
  {
    assert (steps + [step])[..|steps|] == steps;
  }

  /** The requests 0 to n - 1. */
  function Ids(n: nat): set<RequestId> {
    if n == 0 then {} else Ids(n - 1) + {n - 1}
  }

  lemma {:induction false} IdsSize(n: nat)
    ensures |Ids(n)| == n && forall i :: i in Ids(n) ==> i < n
  {
    if n > 0 {
      IdsSize(n - 1);
    }
  }

  /** After `count` wrong codes at one time, with requests 0 to n - 1 waiting. */
  predicate Looks(s: State, c: Config, count: nat, n: nat, now: Time) {
    && s.limiter == Limiter(if count == 0 then None else Some(Counter(count, now + c.window)), None)
    && s.waiting == Ids(n) && s.clock == now
  }

  lemma CheckPasses(s: State, c: Config, count: nat, n: nat, now: Time)
    requires Looks(s, c, count, n, now) && count < c.attempts
    ensures Looks(Next(s, c, Check(n, now)), c, count, n + 1, now)
    ensures |Next(s, c, Check(n, now)).waiting| == n + 1
  {
    IdsSize(n + 1);
  }

  lemma WrongCodeCounts(s: State, c: Config, count: nat, n: nat, now: Time, k: nat)
    requires Looks(s, c, count, n + 1, now) && c.window > 0 && n <= k
    ensures Looks(Next(s, c, Reply(n, WrongCode, now)), c, count + 1, n, now)
    ensures Within(s, c, Reply(n, WrongCode, now), k)
  {
    IdsSize(n);
    assert Ids(n + 1) - {n} == Ids(n);
  }

  /** Where `path` leads from `s`. */
  function End(s: State, c: Config, path: seq<Step>): State
    decreases |path|
  {
    if path == [] then s else End(Next(s, c, path[0]), c, path[1..])
  }

  predicate WithinPath(s: State, c: Config, path: seq<Step>, k: nat)
    decreases |path|
  {
    path == [] || (Within(s, c, path[0], k) && WithinPath(Next(s, c, path[0]), c, path[1..], k))
  }

  lemma PathFirst(s: State, c: Config, step: Step, path: seq<Step>, k: nat)
    requires Within(s, c, step, k) && WithinPath(Next(s, c, step), c, path, k)
    ensures WithinPath(s, c, [step] + path, k) && End(s, c, [step] + path) == End(Next(s, c, step), c, path)
  {
    assert ([step] + path)[1..] == path;
  }

  /** A path taken after a run makes a longer run. */
  lemma {:induction false} PathIsRun(s: State, c: Config, steps: seq<Step>, path: seq<Step>, k: nat)
    requires WithinRun(s, c, steps, k) && WithinPath(Run(s, c, steps), c, path, k)
    ensures WithinRun(s, c, steps + path, k) && Run(s, c, steps + path) == End(Run(s, c, steps), c, path)
    decreases |path|
  {
    if path == [] {
      assert steps + path == steps;
    } else {
      WithinSnoc(s, c, steps, path[0], k);
      assert steps + path == (steps + [path[0]]) + path[1..];
      PathIsRun(s, c, steps + [path[0]], path[1..], k);
    }
  }

  /** The waiting requests all turn out to be wrong codes. */
  lemma {:induction false} Drain(s: State, c: Config, count: nat, n: nat, now: Time, k: nat) returns (path: seq<Step>)
    requires Looks(s, c, count, n, now) && c.window > 0 && n <= k
    ensures WithinPath(s, c, path, k) && Looks(End(s, c, path), c, count + n, 0, now)
    decreases n
  {
    path := [];
    if n > 0 {
      var step := Reply(n - 1, WrongCode, now);
      WrongCodeCounts(s, c, count, n - 1, now, k);
      var t := Next(s, c, step);
      path := Drain(t, c, count + 1, n - 1, now, k);
      PathFirst(s, c, step, path, k);
      path := [step] + path;
    }
  }

  /** With one attempt left, k requests get past the check together. */
  lemma {:induction false} PileUp(s: State, c: Config, n: nat, now: Time, k: nat) returns (path: seq<Step>)
    requires c.attempts >= 1 && Looks(s, c, c.attempts - 1, n, now) && c.window > 0 && n <= k
    ensures WithinPath(s, c, path, k) && Looks(End(s, c, path), c, c.attempts - 1 + k, 0, now)
    decreases k - n
  {
    if n == k {
      path := Drain(s, c, c.attempts - 1, k, now, k);
    } else {
      CheckPasses(s, c, c.attempts - 1, n, now);
      path := PileUp(Next(s, c, Check(n, now)), c, n + 1, now, k);
      PathFirst(s, c, Check(n, now), path, k);
      path := [Check(n, now)] + path;
    }
  }

  /** Requests in sequence wear the limit down to the last attempt. */
  lemma {:induction false} WearDown(s: State, c: Config, count: nat, now: Time, k: nat) returns (path: seq<Step>)
    requires Looks(s, c, count, 0, now) && count < c.attempts && c.window > 0 && k >= 1
    ensures WithinPath(s, c, path, k) && Looks(End(s, c, path), c, c.attempts - 1 + k, 0, now)
    decreases c.attempts - count
  {
    if count == c.attempts - 1 {
      path := PileUp(s, c, 0, now, k);
    } else {
      CheckPasses(s, c, count, 0, now);
      var s1 := Next(s, c, Check(0, now));
      WrongCodeCounts(s1, c, count, 0, now, k);
      path := WearDown(Next(s1, c, Reply(0, WrongCode, now)), c, count + 1, now, k);
      PathFirst(s1, c, Reply(0, WrongCode, now), path, k);
      path := [Reply(0, WrongCode, now)] + path;
      PathFirst(s, c, Check(0, now), path, k);
      path := [Check(0, now)] + path;
    }
  }

  /** For every limit and every k there is a run with at most k overlapping requests whose live count reaches
      limit - 1 + k. */
  lemma OverlapAttainsBound(c: Config, k: nat, now: Time)
    requires c.attempts >= 1 && c.window > 0 && k >= 1
    ensures exists steps ::
      && WithinRun(Init(now), c, steps, k)
      && Attempts(Run(Init(now), c, steps).limiter, now) == c.attempts - 1 + k
  {
    var path := WearDown(Init(now), c, 0, now, k);
    PathIsRun(Init(now), c, [], path, k);
    assert [] + path == path;
  }
}
