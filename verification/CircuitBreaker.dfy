/** The circuit breaker of the purchase HTTP client. Admission and completion of a call are separate locked
    sections, so completions of overlapping calls arrive in any order. */
module CircuitBreaker {
  import opened Common

  datatype Mode = Closed | Open | HalfOpen

  datatype Breaker = Breaker(mode: Mode, failures: nat, lastFailure: Option<Time>, probes: nat)

  /** Settings: CIRCUIT_BREAKER_FAILURE_THRESHOLD, _RECOVERY_SECONDS and _HALF_OPEN_MAX_REQUESTS. */
  datatype Config = Config(threshold: nat, recovery: Time, needed: nat)

  const FRESH := Breaker(Closed, 0, None, 0)

  predicate ShouldAttemptReset(b: Breaker, c: Config, now: Time) {
    b.lastFailure.Some? ==> now - b.lastFailure.value >= c.recovery
  }

  predicate Admits(b: Breaker, c: Config, now: Time) {
    b.mode.Open? ==> ShouldAttemptReset(b, c, now)
  }

  function Admit(b: Breaker, c: Config, now: Time): Breaker {
    if b.mode.Open? && ShouldAttemptReset(b, c, now) then b.(mode := HalfOpen, probes := 0) else b
  }

  /** A success counts as a reset except for the early ones of several half-open probes. */
  predicate Resets(b: Breaker, c: Config) {
    b.mode.HalfOpen? ==> b.probes + 1 >= c.needed
  }

  function OnSuccess(b: Breaker, c: Config): Breaker {
    if b.mode.HalfOpen? then
      if Resets(b, c) then Breaker(Closed, 0, b.lastFailure, b.probes + 1) else b.(probes := b.probes + 1)
    else b.(failures := 0)
  }

  function OnFailure(b: Breaker, c: Config, now: Time): Breaker {
    Breaker(if b.failures + 1 >= c.threshold then Open else b.mode, b.failures + 1, Some(now), b.probes)
  }

  class CircuitBreaker {
    const config: Config
    var mode: Mode
    var failures: nat
    var lastFailure: Option<Time>
    var probes: nat

    constructor (config: Config)
      ensures this.config == config && State() == FRESH
    {
      this.config := config;
      mode, failures, lastFailure, probes := Closed, 0, None, 0;
    }

    ghost function State(): Breaker
      reads this
    {
      Breaker(mode, failures, lastFailure, probes)
    }

    /** The locked section before the call; false stands for CircuitBreakerOpenError. */
    method Enter(now: Time) returns (admitted: bool)
      modifies this
      ensures admitted <==> Admits(old(State()), config, now)
      ensures State() == Admit(old(State()), config, now)
    {
      if mode == Open {
        if lastFailure.None? || now - lastFailure.value >= config.recovery {
          mode := HalfOpen;
          probes := 0;
        } else {
          return false;
        }
      }
      return true;
    }

    method Succeed()
      modifies this
      ensures State() == OnSuccess(old(State()), config)
    {
      if mode == HalfOpen {
        probes := probes + 1;
        if probes >= config.needed {
          mode := Closed;
          failures := 0;
        }
      } else {
        failures := 0;
      }
    }

    method Fail(now: Time)
      modifies this
      ensures State() == OnFailure(old(State()), config, now)
    {
      failures := failures + 1;
      lastFailure := Some(now);
      if failures >= config.threshold {
        mode := Open;
      }
    }
  }

  // Histories: any interleaving of the three locked sections.

  datatype Event = Entered(now: Time) | Succeeded | Failed(now: Time)

  function Step(b: Breaker, c: Config, e: Event): Breaker {
    match e
    case Entered(now) => Admit(b, c, now)
    case Succeeded => OnSuccess(b, c)
    case Failed(now) => OnFailure(b, c, now)
  }

  function After(c: Config, events: seq<Event>): Breaker {
    if events == [] then FRESH else Step(After(c, events[..|events| - 1]), c, events[|events| - 1])
  }

  /** The failures since the last success that counted as a reset, read off the history. */
  function FailuresSinceReset(c: Config, events: seq<Event>): nat {
    if events == [] then 0
    else
      var n := |events| - 1;
      match events[n]
      case Entered(_) => FailuresSinceReset(c, events[..n])
      case Succeeded => if Resets(After(c, events[..n]), c) then 0 else FailuresSinceReset(c, events[..n])
      case Failed(_) => FailuresSinceReset(c, events[..n]) + 1
  }

  /** The time of the last failure in the history. */
  function LastFailed(events: seq<Event>): Option<Time> {
    if events == [] then None
    else if events[|events| - 1].Failed? then Some(events[|events| - 1].now)
    else LastFailed(events[..|events| - 1])
  }

  lemma {:induction false} CountsFailures(c: Config, events: seq<Event>)
    requires c.threshold >= 1
    ensures After(c, events).failures == FailuresSinceReset(c, events)
    ensures After(c, events).lastFailure == LastFailed(events)
    ensures After(c, events).mode.Closed? ==> After(c, events).failures < c.threshold
    ensures After(c, events).mode.Open? ==> After(c, events).lastFailure.Some?
  {
    if events != [] {
      CountsFailures(c, events[..|events| - 1]);
    }
  }

  /** An open breaker admits exactly when the recovery time has passed since the last failure. */
  lemma {:induction false} OpenWaitsForRecovery(c: Config, events: seq<Event>, now: Time)
    requires c.threshold >= 1 && After(c, events).mode.Open?
    ensures LastFailed(events).Some?
    ensures Admits(After(c, events), c, now) <==> now >= LastFailed(events).value + c.recovery
  {
    CountsFailures(c, events);
  }

  function Successes(b: Breaker, c: Config, k: nat): Breaker {
    if k == 0 then b else OnSuccess(Successes(b, c, k - 1), c)
  }

  /** A half-open breaker closes, and forgets its failures, with exactly as many successes as the settings ask for. */
  lemma {:induction false} ProbesClose(b: Breaker, c: Config, now: Time, k: nat)
    requires b.mode.Open? && Admits(b, c, now) && c.needed >= 1
    ensures
      var t := Successes(Admit(b, c, now), c, k);
      && t.lastFailure == b.lastFailure
      && (k < c.needed ==> t.mode == HalfOpen && t.failures == b.failures && t.probes == k)
      && (k >= c.needed ==> t.mode == Closed && t.failures == 0)
  {
    if k > 0 {
      ProbesClose(b, c, now, k - 1);
    }
  }

  // Calls in sequence: every admission is followed by its own completion.

  datatype Call = Call(at: Time, success: bool, end: Time)

  /** One call from start to finish; a refused call changes nothing. */
  function Serve(b: Breaker, c: Config, call: Call): Breaker {
    if !Admits(b, c, call.at) then b
    else
      var a := Admit(b, c, call.at);
      if call.success then OnSuccess(a, c) else OnFailure(a, c, call.end)
  }

  function ServeAll(c: Config, calls: seq<Call>): Breaker {
    if calls == [] then FRESH else Serve(ServeAll(c, calls[..|calls| - 1]), c, calls[|calls| - 1])
  }

  lemma {:induction false} SequentialCounts(c: Config, calls: seq<Call>)
    requires c.threshold >= 1
    ensures !ServeAll(c, calls).mode.Closed? ==> ServeAll(c, calls).failures >= c.threshold
    ensures ServeAll(c, calls).mode.Closed? ==> ServeAll(c, calls).failures < c.threshold
  {
    if calls != [] {
      SequentialCounts(c, calls[..|calls| - 1]);
    }
  }

  /** With calls in sequence a failed probe always reopens the breaker. */
  lemma FailedProbeReopens(c: Config, calls: seq<Call>, probe: Call)
    requires c.threshold >= 1 && !ServeAll(c, calls).mode.Closed?
    requires Admits(ServeAll(c, calls), c, probe.at) && !probe.success
    ensures Serve(ServeAll(c, calls), c, probe).mode.Open?
    ensures Serve(ServeAll(c, calls), c, probe).lastFailure == Some(probe.end)
  {
    SequentialCounts(c, calls);
  }

  /** With overlapping calls a failed probe reopens the breaker exactly when the count has reached the threshold. */
  lemma ProbeReopensExactlyWhen(c: Config, events: seq<Event>, now: Time, end: Time)
    requires c.threshold >= 1 && After(c, events).mode.Open? && Admits(After(c, events), c, now)
    ensures OnFailure(Admit(After(c, events), c, now), c, end).mode.Open?
      <==> FailuresSinceReset(c, events) + 1 >= c.threshold
  {
    CountsFailures(c, events);
  }

  /** A late success clears the count of an open breaker, so its failed probe leaves it half-open. */
  lemma LateSuccessDefeatsProbe()
    ensures
      var c := Config(3, 30, 1);
      var b := After(c, [Failed(0), Failed(0), Failed(0), Succeeded]);
      && b.mode.Open? && b.failures == 0
      && OnFailure(Admit(b, c, 40), c, 40).mode.HalfOpen?
  {
    var c := Config(3, 30, 1);
    var es := [Failed(0), Failed(0), Failed(0), Succeeded];
    assert es[..3] == [Failed(0), Failed(0), Failed(0)] && es[..3][..2] == [Failed(0), Failed(0)];
    assert es[..3][..2][..1] == [Failed(0)];
    assert After(c, [Failed(0)]) == Breaker(Closed, 1, Some(0), 0);
    assert After(c, es[..3][..2]) == Breaker(Closed, 2, Some(0), 0);
    assert After(c, es[..3]) == Breaker(Open, 3, Some(0), 0);
  }
}
