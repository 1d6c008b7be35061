/** The OTP wrapper's limiter: a counter of wrong codes and a lock per phone, both Redis keys that expire. */
module OtpLimiter {
  import opened Common

  /** RATE_LIMIT_ATTEMPTS, RATE_LIMIT_WINDOW_SECONDS and RATE_LIMIT_LOCKOUT_SECONDS. */
  datatype Config = Config(attempts: nat, window: Time, lockout: Time)

  datatype Counter = Counter(count: nat, until: Time)

  datatype Limiter = Limiter(counter: Option<Counter>, lockUntil: Option<Time>)

  const FRESH := Limiter(None, None)

  function Attempts(l: Limiter, now: Time): nat {
    if l.counter.Some? && now < l.counter.value.until then l.counter.value.count else 0
  }

  predicate Locked(l: Limiter, now: Time) {
    l.lockUntil.Some? && now < l.lockUntil.value
  }

  predicate Allows(l: Limiter, c: Config, now: Time) {
    !Locked(l, now) && Attempts(l, now) < c.attempts
  }

  function Checked(l: Limiter, c: Config, now: Time): Limiter {
    if !Locked(l, now) && Attempts(l, now) >= c.attempts then l.(lockUntil := Some(now + c.lockout)) else l
  }

  /** INCR and EXPIRE: every wrong code restarts the window. */
  function Incremented(l: Limiter, c: Config, now: Time): Limiter {
    l.(counter := Some(Counter(Attempts(l, now) + 1, now + c.window)))
  }

  /** The upstream service's word on a code. */
  datatype Upstream = WrongCode | Verified | Unverified | Unreachable

  /** A verify request: the limit is checked at one time, the upstream reply acted upon at another. */
  datatype Request = Request(checked: Time, reply: Upstream, done: Time)

  datatype Answer = Limited | Tried(verified: bool) | Gateway

  predicate Counted(l: Limiter, c: Config, r: Request) {
    Allows(l, c, r.checked) && r.reply.WrongCode?
  }

  function Verify(l: Limiter, c: Config, r: Request): Limiter {
    var m := Checked(l, c, r.checked);
    if !Allows(l, c, r.checked) then m
    else match r.reply
      case WrongCode => Incremented(m, c, r.done)
      case Verified => FRESH
      case _ => m
  }

  /** The answer to a request. */
  function AnswerTo(l: Limiter, c: Config, r: Request): Answer {
    if !Allows(l, c, r.checked) then Limited
    else match r.reply
      case WrongCode => if Attempts(l, r.done) + 1 >= c.attempts then Limited else Tried(false)
      case Verified => Tried(true)
      case Unverified => Tried(false)
      case Unreachable => Gateway
  }

  function VerifyAll(c: Config, rs: seq<Request>): Limiter {
    if rs == [] then FRESH else Verify(VerifyAll(c, rs[..|rs| - 1]), c, rs[|rs| - 1])
  }

  class RateLimiter {
    const config: Config
    var counter: Option<Counter>
    var lockUntil: Option<Time>

    constructor (config: Config)
      ensures this.config == config && State() == FRESH
    {
      this.config := config;
      counter, lockUntil := None, None;
    }

    ghost function State(): Limiter
      reads this
    {
      Limiter(counter, lockUntil)
    }

    method CheckRateLimit(now: Time) returns (allowed: bool, attempts: nat)
      modifies this`lockUntil
      ensures allowed <==> Allows(old(State()), config, now)
      ensures State() == Checked(old(State()), config, now)
      ensures allowed ==> attempts == Attempts(State(), now)
      // the request that finds the limit reached starts the lockout
      ensures !allowed ==>
        lockUntil == if old(lockUntil).Some? && now < old(lockUntil).value then old(lockUntil) else Some(now + config.lockout)
      ensures allowed ==> lockUntil == old(lockUntil)
    {
      if lockUntil.Some? && now < lockUntil.value {
        return false, config.attempts;
      }
      attempts := if counter.Some? && now < counter.value.until then counter.value.count else 0;
      if attempts >= config.attempts {
        lockUntil := Some(now + config.lockout);
        return false, attempts;
      }
      return true, attempts;
    }

    method IncrementAttempt(now: Time) returns (attempts: nat)
      modifies this`counter
      ensures State() == Incremented(old(State()), config, now)
      ensures attempts == Attempts(old(State()), now) + 1
    {
      attempts := (if counter.Some? && now < counter.value.until then counter.value.count else 0) + 1;
      counter := Some(Counter(attempts, now + config.window));
    }

    method ResetAttempts()
      modifies this
      ensures State() == FRESH
      ensures counter == None && lockUntil == None
    {
      counter, lockUntil := None, None;
    }

    method VerifyOtp(r: Request) returns (answer: Answer)
      modifies this
      ensures State() == Verify(old(State()), config, r)
      ensures answer == AnswerTo(old(State()), config, r)
    {
      var allowed, _ := CheckRateLimit(r.checked);
      if !allowed {
        return Limited;
      }
      match r.reply
      case WrongCode =>
        var attempts := IncrementAttempt(r.done);
        return if attempts >= config.attempts then Limited else Tried(false);
      case Verified =>
        ResetAttempts();
        return Tried(true);
      case Unverified => return Tried(false);
      case Unreachable => return Gateway;
    }
  }

  // Runs of requests one after the other.

  predicate Sequential(rs: seq<Request>) {
    && (forall i :: 0 <= i < |rs| ==> rs[i].checked <= rs[i].done)
    && (forall i, j :: 0 <= i < j < |rs| ==> rs[i].done <= rs[j].checked)
  }

  /** The times of the counted failures since the last success. */
  function Failures(c: Config, rs: seq<Request>): seq<Time> {
    if rs == [] then []
    else
      var n := |rs| - 1;
      var l := VerifyAll(c, rs[..n]);
      if Counted(l, c, rs[n]) then Failures(c, rs[..n]) + [rs[n].done]
      else if Allows(l, c, rs[n].checked) && rs[n].reply.Verified? then []
      else Failures(c, rs[..n])
  }

  /** How many failures at the end of the list follow one another within less than the window. */
  function Burst(times: seq<Time>, window: Time): nat {
    if times == [] then 0
    else
      var n := |times| - 1;
      if n > 0 && times[n] - times[n - 1] < window then Burst(times[..n], window) + 1 else 1
  }

  predicate Tracks(c: Config, counter: Option<Counter>, f: seq<Time>) {
    counter == if f == [] then None else Some(Counter(Burst(f, c.window), f[|f| - 1] + c.window))
  }

  predicate Bounded(c: Config, f: seq<Time>) {
    forall m :: 0 <= m <= |f| ==> Burst(f[..m], c.window) <= c.attempts
  }

  /** One more counted failure: allowed because the burst so far was short or had died out. */
  lemma FailureExtends(c: Config, l: Limiter, f: seq<Time>, r: Request)
    requires Tracks(c, l.counter, f) && Bounded(c, f) && Counted(l, c, r)
    requires r.checked <= r.done && (f != [] ==> f[|f| - 1] <= r.checked)
    ensures Tracks(c, Verify(l, c, r).counter, f + [r.done]) && Bounded(c, f + [r.done])
  {
    var g := f + [r.done];
    assert g[..|f|] == f;
    assert Burst(g, c.window) <= c.attempts;
    forall m | 0 <= m <= |g|
      ensures Burst(g[..m], c.window) <= c.attempts
    {
      assert g[..m] == if m <= |f| then f[..m] else g;
    }
  }

  /** The counter is the length of the current burst, and it dies one window after the last failure. */
  lemma {:induction false} CounterIsBurst(c: Config, rs: seq<Request>)
    requires Sequential(rs)
    ensures Tracks(c, VerifyAll(c, rs).counter, Failures(c, rs))
    ensures Bounded(c, Failures(c, rs))
    ensures Failures(c, rs) != [] ==> rs != [] && Failures(c, rs)[|Failures(c, rs)| - 1] <= rs[|rs| - 1].done
  {
    if rs != [] {
      var n := |rs| - 1;
      CounterIsBurst(c, rs[..n]);
      if Counted(VerifyAll(c, rs[..n]), c, rs[n]) {
        FailureExtends(c, VerifyAll(c, rs[..n]), Failures(c, rs[..n]), rs[n]);
      }
    }
  }

  lemma {:induction false} TightRunIsBurst(times: seq<Time>, window: Time, i: nat, m: nat)
    requires i < m <= |times|
    requires forall j :: i <= j < m - 1 ==> times[j + 1] - times[j] < window
    ensures Burst(times[..m], window) >= m - i
    decreases m
  {
    if i + 1 < m {
      TightRunIsBurst(times, window, i, m - 1);
      assert times[..m][..m - 1] == times[..m - 1];
      var j := m - 2;
      assert times[j + 1] - times[j] < window;
    }
  }

  /** Among any limit + 1 successive counted failures with no success in between, some two neighbours
      are at least a window apart. */
  lemma SomeGapIsLong(c: Config, rs: seq<Request>, i: nat)
    requires Sequential(rs) && i + c.attempts < |Failures(c, rs)|
    ensures
      var f := Failures(c, rs);
      exists j :: i <= j < i + c.attempts && f[j + 1] - f[j] >= c.window
  {
    var f := Failures(c, rs);
    CounterIsBurst(c, rs);
    if forall j :: i <= j < i + c.attempts ==> f[j + 1] - f[j] < c.window {
      TightRunIsBurst(f, c.window, i, i + c.attempts + 1);
    }
  }

  // What the requests are answered.

  /** The live count at `now`, told from the failures: the current burst, unless it has died out. */
  lemma LiveCount(c: Config, rs: seq<Request>, now: Time)
    requires Sequential(rs)
    ensures
      var f := Failures(c, rs);
      Attempts(VerifyAll(c, rs), now) == if f != [] && now < f[|f| - 1] + c.window then Burst(f, c.window) else 0
  {
    CounterIsBurst(c, rs);
  }

  lemma FailureAdded(c: Config, rs: seq<Request>, r: Request)
    requires Counted(VerifyAll(c, rs), c, r)
    ensures Failures(c, rs + [r]) == Failures(c, rs) + [r.done]
  {
    assert (rs + [r])[..|rs|] == rs;
  }

  lemma SequentialPrefix(rs: seq<Request>, r: Request)
    requires Sequential(rs + [r])
    ensures Sequential(rs) && r.checked <= r.done && (rs != [] ==> rs[|rs| - 1].done <= r.checked)
  {
    var all := rs + [r];
    assert all[|rs|] == r && forall i :: 0 <= i < |rs| ==> rs[i] == all[i];
  }

  /** A counted failure is answered by the limit exactly if it makes the burst as long as the limit. */
  lemma FailureAnswered(c: Config, rs: seq<Request>, r: Request)
    requires Sequential(rs + [r]) && Counted(VerifyAll(c, rs), c, r)
    ensures AnswerTo(VerifyAll(c, rs), c, r)
      == if Burst(Failures(c, rs + [r]), c.window) >= c.attempts then Limited else Tried(false)
  {
    SequentialPrefix(rs, r);
    FailureAdded(c, rs, r);
    CounterIsBurst(c, rs);
    BurstAnswered(c, VerifyAll(c, rs), Failures(c, rs), r);
  }

  lemma BurstAnswered(c: Config, l: Limiter, f: seq<Time>, r: Request)
    requires Tracks(c, l.counter, f) && Counted(l, c, r) && (f != [] ==> f[|f| - 1] <= r.done)
    ensures AnswerTo(l, c, r) == if Burst(f + [r.done], c.window) >= c.attempts then Limited else Tried(false)
  {
    assert (f + [r.done])[..|f|] == f;
  }

  /** Everything else that a request can be answered. */
  lemma AnsweredExactly(l: Limiter, c: Config, r: Request)
    ensures AnswerTo(l, c, r) == Tried(true) <==> Allows(l, c, r.checked) && r.reply == Verified
    ensures AnswerTo(l, c, r) == Gateway <==> Allows(l, c, r.checked) && r.reply == Unreachable
    ensures !Allows(l, c, r.checked) ==> AnswerTo(l, c, r) == Limited
    ensures Allows(l, c, r.checked) && r.reply == Unverified ==> AnswerTo(l, c, r) == Tried(false)
  {
  }

  lemma LockKept(l: Limiter, c: Config, r: Request, until: Time)
    requires l.lockUntil == Some(until) && r.checked < until
    ensures Verify(l, c, r).lockUntil == Some(until) && AnswerTo(l, c, r) == Limited
  {
  }

  lemma {:induction false} LockHolds(c: Config, rs: seq<Request>, i: nat, j: nat, until: Time)
    requires Sequential(rs) && i <= j <= |rs| && VerifyAll(c, rs[..i]).lockUntil == Some(until)
    requires i < j ==> rs[j - 1].checked < until
    ensures VerifyAll(c, rs[..j]).lockUntil == Some(until)
    decreases j
  {
    if i < j {
      assert rs[..j][..j - 1] == rs[..j - 1];
      if i < j - 1 {
        assert rs[j - 2].checked <= rs[j - 2].done <= rs[j - 1].checked;
      }
      LockHolds(c, rs, i, j - 1, until);
      LockKept(VerifyAll(c, rs[..j - 1]), c, rs[j - 1], until);
    }
  }

  /** A request that finds a live burst as long as the limit, and no lock, is refused and starts the lockout. */
  lemma LockStarts(c: Config, rs: seq<Request>, i: nat)
    requires Sequential(rs) && i < |rs|
    requires
      var f := Failures(c, rs[..i]);
      f != [] && rs[i].checked < f[|f| - 1] + c.window && Burst(f, c.window) >= c.attempts
    requires !(VerifyAll(c, rs[..i]).lockUntil.Some? && rs[i].checked < VerifyAll(c, rs[..i]).lockUntil.value)
    ensures AnswerTo(VerifyAll(c, rs[..i]), c, rs[i]) == Limited
    ensures VerifyAll(c, rs[..i + 1]).lockUntil == Some(rs[i].checked + c.lockout)
  {
    assert Sequential(rs[..i]);
    LiveCount(c, rs[..i], rs[i].checked);
    assert rs[..i + 1][..i] == rs[..i];
  }

  /** After it every request checked within the lockout is refused, right code or not, even when the burst has long
      died out by then. */
  lemma LockedOut(c: Config, rs: seq<Request>, i: nat, j: nat)
    requires Sequential(rs) && i < j < |rs|
    requires
      var f := Failures(c, rs[..i]);
      f != [] && rs[i].checked < f[|f| - 1] + c.window && Burst(f, c.window) >= c.attempts
    requires !(VerifyAll(c, rs[..i]).lockUntil.Some? && rs[i].checked < VerifyAll(c, rs[..i]).lockUntil.value)
    requires rs[j].checked < rs[i].checked + c.lockout
    ensures AnswerTo(VerifyAll(c, rs[..j]), c, rs[j]) == Limited
  {
    LockStarts(c, rs, i);
    LockReaches(c, rs, i + 1, j, rs[i].checked + c.lockout);
  }

  lemma LockReaches(c: Config, rs: seq<Request>, i: nat, j: nat, until: Time)
    requires Sequential(rs) && i <= j < |rs| && VerifyAll(c, rs[..i]).lockUntil == Some(until) && rs[j].checked < until
    ensures AnswerTo(VerifyAll(c, rs[..j]), c, rs[j]) == Limited
  {
    if i < j {
      assert rs[j - 1].checked <= rs[j - 1].done <= rs[j].checked;
    }
    LockHolds(c, rs, i, j, until);
    LockKept(VerifyAll(c, rs[..j]), c, rs[j], until);
  }
}
