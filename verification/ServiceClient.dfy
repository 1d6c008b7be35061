/** The retry loop of the purchase HTTP client: attempts under one deadline, behind a circuit breaker. */
module ServiceClient {
  import opened Common
  import opened CircuitBreaker

  const UNAVAILABLE := "SERVICE_UNAVAILABLE"
  const RETRY_METHODS := {"GET", "HEAD", "OPTIONS"}
  const RETRY_STATUS_CODES := {500, 502, 503, 504}

  /** The safe methods of section 9.2.1 of RFC 9110. */
  const SAFE_METHODS := {"GET", "HEAD", "OPTIONS", "TRACE"}

  /** How the peer answers one attempt. */
  datatype Peer =
    | Answer(body: string)
    | HttpError(status: int, code: string)
    | Transport                 // timeout, network or protocol error
    | BadResponse               // any other HTTP client error, or an unusable body
    | Cancelled                 // the enclosing timeout strikes
    | Crash                     // an exception that nobody expects
  {
    /** A refusal by a healthy peer is no failure of the service. */
    predicate CountsAsSuccess() {
      Answer? || (HttpError? && status < 500)
    }

    predicate Retryable() {
      Transport? || (HttpError? && status in RETRY_STATUS_CODES)
    }
  }

  /** The clock readings around one attempt and the backoff drawn after it. */
  datatype Attempt = Attempt(start: Time, admit: Time, peer: Peer, end: Time, after: Time, delay: nat)

  datatype Result = Reply(body: string) | Error(code: string) | Crashed

  /** What a call does: its result, the breaker after it, when attempts started, when backoffs end,
      and how often the peer was contacted. */
  datatype Outcome = Outcome(result: Result, breaker: Breaker, contacts: nat, starts: seq<Time>, wakes: seq<Time>)

  function Limit(verb: string, maxRetries: int): nat {
    if verb in RETRY_METHODS then (if maxRetries > 0 then maxRetries else 0) + 1 else 1
  }

  function Record(b: Breaker, c: Config, a: Attempt): Breaker {
    if a.peer.CountsAsSuccess() then OnSuccess(Admit(b, c, a.admit), c) else OnFailure(Admit(b, c, a.admit), c, a.end)
  }

  /** The answer to an attempt that will not be repeated. */
  function Verdict(a: Attempt, deadline: Time): Result {
    match a.peer
    case Answer(body) => if a.after >= deadline then Error(UNAVAILABLE) else Reply(body)
    case HttpError(_, code) => Error(code)
    case Crash => Crashed
    case _ => Error(UNAVAILABLE)
  }

  function Calls(b: Breaker, c: Config, deadline: Time, limit: nat, script: seq<Attempt>, k: nat): Outcome
    requires k < limit <= |script|
    decreases limit - k
  {
    var a := script[k];
    if a.start >= deadline then Outcome(Error(UNAVAILABLE), b, 0, [], [])
    else if !Admits(b, c, a.admit) then Outcome(Error(UNAVAILABLE), b, 0, [a.start], [])
    else if !a.peer.Retryable() || k + 1 >= limit || a.delay >= deadline - a.after then
      Outcome(Verdict(a, deadline), Record(b, c, a), 1, [a.start], [])
    else
      var rest := Calls(Record(b, c, a), c, deadline, limit, script, k + 1);
      Outcome(rest.result, rest.breaker, 1 + rest.contacts, [a.start] + rest.starts, [a.after + a.delay] + rest.wakes)
  }

  /** One guarded call: admission, the peer, and the completion that its answer counts as. */
  method GuardedCall(breaker: CircuitBreaker, a: Attempt) returns (admitted: bool)
    modifies breaker
    ensures admitted <==> Admits(old(breaker.State()), breaker.config, a.admit)
    ensures breaker.State() == if admitted then Record(old(breaker.State()), breaker.config, a) else old(breaker.State())
    // a healthy peer that refuses does not count against the service, anything else does
    ensures admitted && (a.peer.Answer? || (a.peer.HttpError? && a.peer.status < 500)) ==>
      breaker.failures <= old(breaker.failures) && breaker.lastFailure == old(breaker.lastFailure)
    ensures admitted && !(a.peer.Answer? || (a.peer.HttpError? && a.peer.status < 500)) ==>
      breaker.failures == old(breaker.failures) + 1 && breaker.lastFailure == Some(a.end)
  {
    admitted := breaker.Enter(a.admit);
    if admitted {
      if a.peer.CountsAsSuccess() {
        breaker.Succeed();
      } else {
        breaker.Fail(a.end);
      }
    }
  }

  /** What the loop makes of the peer's answer: an end, or a code to remember while it retries. */
  method Judge(a: Attempt, deadline: Time) returns (final: bool, result: Result)
    ensures final <==> !(a.peer.Transport? || (a.peer.HttpError? && a.peer.status in {500, 502, 503, 504}))
    ensures result == Verdict(a, deadline)
    ensures forall body :: result == Reply(body) <==> a.peer == Answer(body) && a.after < deadline
    ensures a.peer.HttpError? ==> result == Error(a.peer.code)
  {
    match a.peer
    case Answer(body) => return true, if a.after >= deadline then Error(UNAVAILABLE) else Reply(body);
    case HttpError(status, code) => return status !in RETRY_STATUS_CODES, Error(code);
    case Transport => return false, Error(UNAVAILABLE);
    case Crash => return true, Crashed;
    case _ => return true, Error(UNAVAILABLE);
  }

  // What one turn of the loop comes to: the attempt is made, the peer is contacted, the loop goes on.

  predicate Tried(a: Attempt, deadline: Time) {
    a.start < deadline
  }

  predicate Contacted(b: Breaker, c: Config, a: Attempt, deadline: Time) {
    Tried(a, deadline) && Admits(b, c, a.admit)
  }

  predicate GoesOn(b: Breaker, c: Config, a: Attempt, deadline: Time, last: bool) {
    Contacted(b, c, a, deadline) && a.peer.Retryable() && !last && a.delay < deadline - a.after
  }

  /** One turn of the loop on a live breaker. */
  method TryOnce(breaker: CircuitBreaker, a: Attempt, deadline: Time, last: bool) returns (goesOn: bool, result: Result)
    modifies breaker
    ensures goesOn <==> GoesOn(old(breaker.State()), breaker.config, a, deadline, last)
    ensures
      if Contacted(old(breaker.State()), breaker.config, a, deadline)
      then breaker.State() == Record(old(breaker.State()), breaker.config, a) && result == Verdict(a, deadline)
      else breaker.State() == old(breaker.State()) && result == Error(UNAVAILABLE)
  {
    if a.start >= deadline {
      return false, Error(UNAVAILABLE);
    }
    var admitted := GuardedCall(breaker, a);
    if !admitted {
      return false, Error(UNAVAILABLE);
    }
    var final;
    final, result := Judge(a, deadline);
    goesOn := !final && !last && a.delay < deadline - a.after;
  }

  /** A turn, and what it adds to the account of the whole call. */
  method Turn(breaker: CircuitBreaker, script: seq<Attempt>, deadline: Time, attempt: nat, attempts: nat,
              ghost whole: Outcome, ghost contacts: nat, ghost starts: seq<Time>, ghost wakes: seq<Time>)
    returns (goesOn: bool, result: Result, ghost contacts': nat, ghost starts': seq<Time>, ghost wakes': seq<Time>)
    requires attempt < attempts == |script|
    requires whole == Prepend(contacts, starts, wakes, Calls(breaker.State(), breaker.config, deadline, |script|, script, attempt))
    modifies breaker
    ensures goesOn ==> attempt + 1 < |script|
    ensures goesOn ==>
      whole == Prepend(contacts', starts', wakes', Calls(breaker.State(), breaker.config, deadline, |script|, script, attempt + 1))
    ensures !goesOn ==> whole == Outcome(result, breaker.State(), contacts', starts', wakes')
  {
    ghost var b, c := breaker.State(), breaker.config;
    var a := script[attempt];
    goesOn, result := TryOnce(breaker, a, deadline, attempt + 1 >= attempts);
    contacts' := contacts + if Contacted(b, c, a, deadline) then 1 else 0;
    starts' := starts + if Tried(a, deadline) then [a.start] else [];
    if goesOn {
      wakes' := wakes + [a.after + a.delay];
      OneMoreTurn(b, c, deadline, script, attempt, contacts, starts, wakes);
    } else {
      wakes' := wakes;
      LastTurn(b, c, deadline, script, attempt, contacts, starts, wakes);
    }
  }

  /** The loop itself, on a live breaker. */
  method CallService(verb: string, maxRetries: int, deadline: Time, breaker: CircuitBreaker, script: seq<Attempt>)
    returns (result: Result, ghost contacts: nat, ghost starts: seq<Time>, ghost wakes: seq<Time>)
    requires |script| == if verb in {"GET", "HEAD", "OPTIONS"} && maxRetries > 0 then maxRetries + 1 else 1
    modifies breaker
    ensures
      Calls(old(breaker.State()), breaker.config, deadline, |script|, script, 0)
      == Outcome(result, breaker.State(), contacts, starts, wakes)
  {
    var attempts := if verb in RETRY_METHODS then (if maxRetries > 0 then maxRetries else 0) + 1 else 1;
    result, contacts, starts, wakes := Error(UNAVAILABLE), 0, [], [];
    ghost var whole := Calls(breaker.State(), breaker.config, deadline, |script|, script, 0);
    var attempt, goesOn := 0, true;
    while goesOn
      invariant goesOn ==> 0 <= attempt < attempts
      invariant goesOn ==>
        whole == Prepend(contacts, starts, wakes, Calls(breaker.State(), breaker.config, deadline, |script|, script, attempt))
      invariant !goesOn ==> whole == Outcome(result, breaker.State(), contacts, starts, wakes)
      decreases goesOn, attempts - attempt
    {
      goesOn, result, contacts, starts, wakes := Turn(breaker, script, deadline, attempt, attempts, whole, contacts, starts, wakes);
      attempt := attempt + 1;
    }
  }

  lemma LastTurn(b: Breaker, c: Config, deadline: Time, script: seq<Attempt>, k: nat,
                 contacts: nat, starts: seq<Time>, wakes: seq<Time>)
    requires k < |script| && !GoesOn(b, c, script[k], deadline, k + 1 >= |script|)
    ensures
      var contacted := Contacted(b, c, script[k], deadline);
      Prepend(contacts, starts, wakes, Calls(b, c, deadline, |script|, script, k))
      == Outcome(if contacted then Verdict(script[k], deadline) else Error(UNAVAILABLE),
                 if contacted then Record(b, c, script[k]) else b,
                 contacts + if contacted then 1 else 0,
                 starts + if Tried(script[k], deadline) then [script[k].start] else [],
                 wakes)
  {
    assert wakes + [] == wakes;
  }

  lemma OneMoreTurn(b: Breaker, c: Config, deadline: Time, script: seq<Attempt>, k: nat,
                    contacts: nat, starts: seq<Time>, wakes: seq<Time>)
    requires k < |script| && GoesOn(b, c, script[k], deadline, k + 1 >= |script|)
    ensures
      var a := script[k];
      Prepend(contacts, starts, wakes, Calls(b, c, deadline, |script|, script, k))
      == Prepend(contacts + 1, starts + [a.start], wakes + [a.after + a.delay],
                 Calls(Record(b, c, a), c, deadline, |script|, script, k + 1))
  {
    var a := script[k];
    PrependMore(contacts, starts, wakes, a.start, a.after + a.delay,
                Calls(Record(b, c, a), c, deadline, |script|, script, k + 1));
  }

  /** An outcome with what went before it. */
  ghost function Prepend(contacts: nat, starts: seq<Time>, wakes: seq<Time>, o: Outcome): Outcome {
    Outcome(o.result, o.breaker, contacts + o.contacts, starts + o.starts, wakes + o.wakes)
  }

  lemma PrependMore(contacts: nat, starts: seq<Time>, wakes: seq<Time>, start: Time, wake: Time, o: Outcome)
    ensures
      Prepend(contacts, starts, wakes, Outcome(o.result, o.breaker, 1 + o.contacts, [start] + o.starts, [wake] + o.wakes))
      == Prepend(contacts + 1, starts + [start], wakes + [wake], o)
  {
    assert starts + ([start] + o.starts) == (starts + [start]) + o.starts;
    assert wakes + ([wake] + o.wakes) == (wakes + [wake]) + o.wakes;
  }

  // What a call comes to, for every sequence of peer answers.

  /** The breaker before attempt `j`, if the call got that far. */
  function BreakerAt(b: Breaker, c: Config, script: seq<Attempt>, k: nat, j: nat): Breaker
    requires j <= |script|
    decreases j - k
  {
    if j <= k then b else BreakerAt(Record(b, c, script[k]), c, script, k + 1, j)
  }

  /** What an attempt does to the count of failures. */
  lemma RecordCounts(b: Breaker, c: Config, a: Attempt)
    requires Admits(b, c, a.admit)
    ensures a.peer.Answer? || (a.peer.HttpError? && a.peer.status < 500) ==>
      Record(b, c, a).failures <= b.failures && Record(b, c, a).lastFailure == b.lastFailure
    ensures !(a.peer.Answer? || (a.peer.HttpError? && a.peer.status < 500)) ==>
      Record(b, c, a).failures == b.failures + 1 && Record(b, c, a).lastFailure == Some(a.end)
  {
  }

  /** Every call ends at one of its attempts, `m`. Those before it were started in time, admitted, met a transport error
      or one of 500, 502, 503 and 504, and had their backoff fit before the deadline; the m-th decides the result. */
  lemma {:induction false} CallEnds(b: Breaker, c: Config, deadline: Time, limit: nat, script: seq<Attempt>, k: nat) returns (m: nat)
    requires k < limit <= |script|
    ensures k <= m < limit
    ensures forall j :: k <= j < m ==>
      var a := script[j];
      && a.start < deadline && Admits(BreakerAt(b, c, script, k, j), c, a.admit)
      && (a.peer.Transport? || (a.peer.HttpError? && a.peer.status in {500, 502, 503, 504}))
      && a.after + a.delay < deadline
    ensures
      var a := script[m];
      var contacted := a.start < deadline && Admits(BreakerAt(b, c, script, k, m), c, a.admit);
      var o := Calls(b, c, deadline, limit, script, k);
      && !(&& contacted && m + 1 < limit && a.after + a.delay < deadline
           && (a.peer.Transport? || (a.peer.HttpError? && a.peer.status in {500, 502, 503, 504})))
      && o.contacts == m - k + (if contacted then 1 else 0)
      && |o.starts| == m - k + (if a.start < deadline then 1 else 0)
      && (forall x :: 0 <= x < |o.starts| ==> o.starts[x] == script[k + x].start)
      && |o.wakes| == m - k
      && (forall x :: 0 <= x < |o.wakes| ==> o.wakes[x] == script[k + x].after + script[k + x].delay)
      && o.breaker == BreakerAt(b, c, script, k, if contacted then m + 1 else m)
      && o.result == (
           if !contacted then Error("SERVICE_UNAVAILABLE")
           else match a.peer
             case Answer(body) => if a.after < deadline then Reply(body) else Error("SERVICE_UNAVAILABLE")
             case HttpError(_, code) => Error(code)
             case Crash => Crashed
             case _ => Error("SERVICE_UNAVAILABLE"))
    decreases limit - k
  {
    var a := script[k];
    m := k;
    if a.start < deadline && Admits(b, c, a.admit) && a.peer.Retryable() && k + 1 < limit && a.delay < deadline - a.after {
      m := CallEnds(Record(b, c, a), c, deadline, limit, script, k + 1);
    }
  }

  lemma {:induction false} AnsweredCallReplies(b: Breaker, c: Config, deadline: Time, limit: nat, script: seq<Attempt>, k: nat,
                                               i: nat, body: string)
    requires k <= i < limit <= |script|
    requires script[i].start < deadline && Admits(BreakerAt(b, c, script, k, i), c, script[i].admit)
    requires script[i].peer == Answer(body) && script[i].after < deadline
    requires forall j :: k <= j < i ==>
      var a := script[j];
      && a.start < deadline && Admits(BreakerAt(b, c, script, k, j), c, a.admit)
      && (a.peer.Transport? || (a.peer.HttpError? && a.peer.status in {500, 502, 503, 504}))
      && a.after + a.delay < deadline
    ensures Calls(b, c, deadline, limit, script, k).result == Reply(body)
    decreases limit - k
  {
    if k < i {
      var a := script[k];
      assert Admits(BreakerAt(b, c, script, k, k), c, a.admit);
      AnsweredCallReplies(Record(b, c, a), c, deadline, limit, script, k + 1, i, body);
    }
  }

  /** A call replies exactly if one of its attempts is answered in time and every earlier one could be repeated. */
  lemma RepliesExactlyWhen(b: Breaker, c: Config, deadline: Time, limit: nat, script: seq<Attempt>, k: nat, body: string)
    requires k < limit <= |script|
    ensures Calls(b, c, deadline, limit, script, k).result == Reply(body) <==>
      exists i :: k <= i < limit
        && script[i].start < deadline && Admits(BreakerAt(b, c, script, k, i), c, script[i].admit)
        && script[i].peer == Answer(body) && script[i].after < deadline
        && forall j :: k <= j < i ==>
             var a := script[j];
             && a.start < deadline && Admits(BreakerAt(b, c, script, k, j), c, a.admit)
             && (a.peer.Transport? || (a.peer.HttpError? && a.peer.status in {500, 502, 503, 504}))
             && a.after + a.delay < deadline
  {
    if Calls(b, c, deadline, limit, script, k).result == Reply(body) {
      var m := CallEnds(b, c, deadline, limit, script, k);
      assert script[m].peer == Answer(body);
    }
    forall i | k <= i < limit
        && script[i].start < deadline && Admits(BreakerAt(b, c, script, k, i), c, script[i].admit)
        && script[i].peer == Answer(body) && script[i].after < deadline
        && forall j :: k <= j < i ==>
             var a := script[j];
             && a.start < deadline && Admits(BreakerAt(b, c, script, k, j), c, a.admit)
             && (a.peer.Transport? || (a.peer.HttpError? && a.peer.status in {500, 502, 503, 504}))
             && a.after + a.delay < deadline
      ensures Calls(b, c, deadline, limit, script, k).result == Reply(body)
    {
      AnsweredCallReplies(b, c, deadline, limit, script, k, i, body);
    }
  }

  /** Only the read methods are repeated, and with them the first attempt does not count as a retry. */
  lemma LimitExactly(verb: string, maxRetries: int)
    ensures Limit(verb, maxRetries) == if verb in {"GET", "HEAD", "OPTIONS"} && maxRetries > 0 then maxRetries + 1 else 1
  {
  }

  /** No attempt starts and no backoff ends at or after the deadline; contacts never exceed the attempts. */
  lemma {:induction false} CallsKeepDeadline(b: Breaker, c: Config, deadline: Time, limit: nat, script: seq<Attempt>, k: nat)
    requires k < limit <= |script|
    ensures
      var o := Calls(b, c, deadline, limit, script, k);
      && (forall i :: 0 <= i < |o.starts| ==> o.starts[i] < deadline)
      && (forall i :: 0 <= i < |o.wakes| ==> o.wakes[i] < deadline)
      && o.contacts <= |o.starts| <= limit - k
      && |o.wakes| <= o.contacts
    decreases limit - k
  {
    if k + 1 < limit {
      CallsKeepDeadline(Record(b, c, script[k]), c, deadline, limit, script, k + 1);
    }
  }

  /** Only a safe method ever reaches the peer twice. */
  lemma {:induction false} OnlySafeMethodsRepeat(verb: string, maxRetries: int, b: Breaker, c: Config, deadline: Time, script: seq<Attempt>)
    requires |script| == Limit(verb, maxRetries)
    ensures Calls(b, c, deadline, |script|, script, 0).contacts > 1 ==> verb in SAFE_METHODS
  {
    CallsKeepDeadline(b, c, deadline, |script|, script, 0);
  }

  /** A reply is the answer of one of the attempts, read before the deadline. */
  lemma {:induction false} ReplyIsTimely(b: Breaker, c: Config, deadline: Time, limit: nat, script: seq<Attempt>, k: nat)
    requires k < limit <= |script|
    requires Calls(b, c, deadline, limit, script, k).result.Reply?
    ensures exists i ::
      && k <= i < limit && script[i].after < deadline
      && script[i].peer == Answer(Calls(b, c, deadline, limit, script, k).result.body)
    decreases limit - k
  {
    var a := script[k];
    if a.start < deadline && Admits(b, c, a.admit) && a.peer.Retryable() && k + 1 < limit && a.delay < deadline - a.after {
      ReplyIsTimely(Record(b, c, a), c, deadline, limit, script, k + 1);
    } else {
      assert script[k].peer.Answer?;
    }
  }

  /** The whole call lies within less than the recovery time from `begun`. */
  predicate Brief(script: seq<Attempt>, c: Config, begun: Time) {
    forall i :: 0 <= i < |script| ==> begun <= script[i].end && script[i].admit < begun + c.recovery
  }

  lemma {:induction false} BreakerBoundsContacts(b: Breaker, c: Config, deadline: Time, limit: nat, script: seq<Attempt>,
                                                 k: nat, begun: Time)
    requires k < limit <= |script| && Brief(script, c, begun)
    requires (b.mode.Closed? && b.failures < c.threshold)
      || (b.mode.Open? && b.lastFailure.Some? && begun <= b.lastFailure.value)
    ensures Calls(b, c, deadline, limit, script, k).contacts
      <= if b.mode.Closed? then c.threshold - b.failures else 0
    decreases limit - k
  {
    var a := script[k];
    if a.start < deadline && Admits(b, c, a.admit) && a.peer.Retryable() && k + 1 < limit && a.delay < deadline - a.after {
      BreakerBoundsContacts(Record(b, c, a), c, deadline, limit, script, k + 1, begun);
    }
  }

  /** A lone caller on a closed breaker with count f contacts the peer at most min(attempts, threshold - f) times. */
  lemma LoneCallerContacts(verb: string, maxRetries: int, b: Breaker, c: Config, deadline: Time, script: seq<Attempt>, begun: Time)
    requires |script| == Limit(verb, maxRetries) && Brief(script, c, begun)
    requires b.mode.Closed? && b.failures < c.threshold
    ensures
      var contacts := Calls(b, c, deadline, |script|, script, 0).contacts;
      contacts <= Limit(verb, maxRetries) && contacts <= c.threshold - b.failures
  {
    CallsKeepDeadline(b, c, deadline, |script|, script, 0);
    BreakerBoundsContacts(b, c, deadline, |script|, script, 0, begun);
  }
}
