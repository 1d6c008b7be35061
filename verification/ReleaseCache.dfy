/** ReleaseSeat with its idempotency cache, run by any number of callers at once. The cache lookup,
    the locked row update and the cache write are three separate steps of each release. */
module ReleaseCache {
  import opened Common
  import opened SeatInventory
  import opened SeatRuns

  type FlightId = nat

  datatype Phase = Looking | Updating | Recording(success: bool) | Answered(success: bool)

  datatype Flight = Flight(seat: SeatId, user: UserId, token: Token, phase: Phase)

  /** An RPC served by the rows; a release carries the flight it belongs to. */
  datatype Served = Served(seat: SeatId, call: SeatCall, flight: Option<FlightId>)

  datatype State = State(
    rows: map<SeatId, SeatRow>,
    cache: map<(SeatId, Token), bool>,
    flights: map<FlightId, Flight>,
    owners: map<Token, UserId>,      // minted tokens and the user each was handed to
    strangers: set<Token>,           // tokens presented although never minted
    served: seq<Served>)             // the RPCs in the order in which they took effect

  datatype Step =
    | Rpc(seat: SeatId, call: SeatCall)          // HoldSeat, SellSeat, GetSeatStatus
    | Arrive(id: FlightId, seat: SeatId, user: UserId, token: Token)
    | Look(id: FlightId, readable: bool)
    | Update(id: FlightId)
    | Record(id: FlightId, writable: bool)
    | Vanish(keys: set<(SeatId, Token)>)         // entries expire or Redis loses them

  function Init(seats: set<SeatId>): State {
    State(map s | s in seats :: FREE_ROW, map[], map[], map[], {}, [])
  }

  /** The uncached service: it serves the same RPCs, one after the other. */
  function Uncached(rows: map<SeatId, SeatRow>, served: seq<Served>): map<SeatId, SeatRow> {
    if served == [] then rows
    else
      var last := served[|served| - 1];
      ApplyAt(Uncached(rows, served[..|served| - 1]), last.seat, last.call)
  }

  /** What the callers owe: a hold mints a token never seen before, a minted token is presented only
      by the user it was handed to, and releases go through Arrive. */
  predicate Fair(s: State, step: Step) {
    match step
    case Rpc(_, HoldCall(_, token, _, _)) => token !in s.owners && token !in s.strangers
    case Rpc(_, ReleaseCall(_, _)) => false
    case Arrive(id, _, user, token) => id !in s.flights && (token in s.owners ==> s.owners[token] == user)
    case _ => true
  }

  function Next(s: State, step: Step): State {
    match step
    case Rpc(seat, call) =>
      s.(rows := ApplyAt(s.rows, seat, call),
         owners := if call.HoldCall? then s.owners[call.token := call.user] else s.owners,
         served := s.served + [Served(seat, call, None)])
    case Arrive(id, seat, user, token) =>
      s.(flights := s.flights[id := Flight(seat, user, token, Looking)],
         strangers := if token in s.owners then s.strangers else s.strangers + {token})
    case Look(id, readable) =>
      if id in s.flights && s.flights[id].phase.Looking? then
        var f := s.flights[id];
        if readable && (f.seat, f.token) in s.cache then
          // answered from the cache: the row is not touched
          s.(flights := s.flights[id := f.(phase := Answered(s.cache[(f.seat, f.token)]))],
             served := s.served + [Served(f.seat, ReleaseCall(f.user, f.token), Some(id))])
        else s.(flights := s.flights[id := f.(phase := Updating)])
      else s
    case Update(id) =>
      if id in s.flights && s.flights[id].phase.Updating? then
        var f := s.flights[id];
        var success := f.seat in s.rows && HeldBy(s.rows[f.seat], f.user, f.token);
        s.(rows := ApplyAt(s.rows, f.seat, ReleaseCall(f.user, f.token)),
           flights := s.flights[id := f.(phase := Recording(success))],
           served := s.served + [Served(f.seat, ReleaseCall(f.user, f.token), Some(id))])
      else s
    case Record(id, writable) =>
      if id in s.flights && s.flights[id].phase.Recording? then
        var f := s.flights[id];
        s.(cache := if writable then s.cache[(f.seat, f.token) := f.phase.success] else s.cache,
           flights := s.flights[id := f.(phase := Answered(f.phase.success))])
      else s
    case Vanish(keys) => s.(cache := s.cache - keys)
  }

  function Run(s: State, steps: seq<Step>): State {
    if steps == [] then s else Next(Run(s, steps[..|steps| - 1]), steps[|steps| - 1])
  }

  predicate FairRun(s: State, steps: seq<Step>) {
    forall i :: 0 <= i < |steps| ==> Fair(Run(s, steps[..i]), steps[i])
  }

  /** The token can no longer be the current token of the seat, now or later. */
  predicate Spent(s: State, seat: SeatId, token: Token) {
    && (token in s.owners || token in s.strangers)
    && (seat in s.rows ==> s.rows[seat].holdToken != Some(token))
  }

  predicate RowsSane(s: State) {
    forall seat :: seat in s.rows && s.rows[seat].holdToken.Some? ==>
      && s.rows[seat].status.Held?
      && s.rows[seat].holdToken.value in s.owners
      && s.rows[seat].heldByUserId == Some(s.owners[s.rows[seat].holdToken.value])
  }

  predicate FlightsSane(s: State) {
    forall id :: id in s.flights ==>
      var f := s.flights[id];
      && (f.token in s.owners ==> s.owners[f.token] == f.user)
      && (f.token in s.owners || f.token in s.strangers)
      && (f.phase.Recording? ==> Spent(s, f.seat, f.token))
  }

  predicate CacheSane(s: State) {
    forall key :: key in s.cache ==> Spent(s, key.0, key.1)
  }

  predicate Inv(s: State) {
    RowsSane(s) && FlightsSane(s) && CacheSane(s) && s.owners.Keys !! s.strangers
  }

  /** Spent tokens stay spent, because holds mint unseen tokens. */
  lemma SpentStays(s: State, step: Step, seat: SeatId, token: Token)
    requires Inv(s) && Fair(s, step) && Spent(s, seat, token)
    ensures Spent(Next(s, step), seat, token)
  {
  }

  lemma RowsSaneStep(s: State, step: Step)
    requires Inv(s) && Fair(s, step)
    ensures RowsSane(Next(s, step))
  {
  }

  /** The locked update leaves the token spent: it was current and is cleared, or it was not current,
      because a current token is presented by the user who holds the row. */
  lemma UpdateSpends(s: State, id: FlightId)
    requires Inv(s) && id in s.flights && s.flights[id].phase.Updating?
    ensures Spent(Next(s, Update(id)), s.flights[id].seat, s.flights[id].token)
  {
    var f := s.flights[id];
    if f.seat in s.rows && s.rows[f.seat].holdToken == Some(f.token) {
      assert HeldBy(s.rows[f.seat], f.user, f.token);
    }
  }

  lemma FlightsSaneStep(s: State, step: Step)
    requires Inv(s) && Fair(s, step)
    ensures FlightsSane(Next(s, step))
  {
    var t := Next(s, step);
    forall id | id in t.flights && t.flights[id].phase.Recording?
      ensures Spent(t, t.flights[id].seat, t.flights[id].token)
    {
      if id in s.flights && s.flights[id].phase.Recording? {
        SpentStays(s, step, s.flights[id].seat, s.flights[id].token);
      } else {
        UpdateSpends(s, id);
      }
    }
    OwnersStay(s, step);
  }

  lemma OwnersStay(s: State, step: Step)
    requires Inv(s) && Fair(s, step)
    ensures forall id :: id in Next(s, step).flights ==>
      var f := Next(s, step).flights[id];
      && (f.token in Next(s, step).owners ==> Next(s, step).owners[f.token] == f.user)
      && (f.token in Next(s, step).owners || f.token in Next(s, step).strangers)
  {
  }

  lemma CacheSaneStep(s: State, step: Step)
    requires Inv(s) && Fair(s, step)
    ensures CacheSane(Next(s, step))
  {
    var t := Next(s, step);
    forall key | key in t.cache
      ensures Spent(t, key.0, key.1)
    {
      if key in s.cache {
        SpentStays(s, step, key.0, key.1);
      } else {
        SpentStays(s, step, s.flights[step.id].seat, s.flights[step.id].token);
      }
    }
  }

  lemma InvStep(s: State, step: Step)
    requires Inv(s) && Fair(s, step)
    ensures Inv(Next(s, step))
  {
    RowsSaneStep(s, step);
    FlightsSaneStep(s, step);
    CacheSaneStep(s, step);
  }

  lemma UncachedSnoc(rows: map<SeatId, SeatRow>, served: seq<Served>, x: Served)
    ensures Uncached(rows, served + [x]) == ApplyAt(Uncached(rows, served), x.seat, x.call)
  {
    assert (served + [x])[..|served|] == served;
  }

  /** A cache hit skips a row update that would have refused. */
  lemma HitRefines(s: State, id: FlightId)
    requires Inv(s) && id in s.flights && (s.flights[id].seat, s.flights[id].token) in s.cache
    ensures ApplyAt(s.rows, s.flights[id].seat, ReleaseCall(s.flights[id].user, s.flights[id].token)) == s.rows
  {
    var f := s.flights[id];
    assert Spent(s, f.seat, f.token);
    if f.seat in s.rows {
      assert s.rows[f.seat := s.rows[f.seat]] == s.rows;
    }
  }

  /** One step of the cached service is at most one RPC of the uncached one. */
  lemma StepRefines(s: State, step: Step, rows0: map<SeatId, SeatRow>)
    requires Inv(s) && Fair(s, step)
    requires s.rows == Uncached(rows0, s.served)
    ensures Next(s, step).rows == Uncached(rows0, Next(s, step).served)
  {
    match step
    case Rpc(seat, call) => UncachedSnoc(rows0, s.served, Served(seat, call, None));
    case Look(id, readable) =>
      if id in s.flights && s.flights[id].phase.Looking? && readable && (s.flights[id].seat, s.flights[id].token) in s.cache {
        UncachedSnoc(rows0, s.served, AsServed(id, s.flights[id]));
        HitRefines(s, id);
      }
    case Update(id) =>
      if id in s.flights && s.flights[id].phase.Updating? {
        UncachedSnoc(rows0, s.served, AsServed(id, s.flights[id]));
      }
    case _ =>
  }

  lemma {:induction false} RunRefines(seats: set<SeatId>, steps: seq<Step>)
    requires FairRun(Init(seats), steps)
    ensures Inv(Run(Init(seats), steps))
    ensures Run(Init(seats), steps).rows == Uncached(Init(seats).rows, Run(Init(seats), steps).served)
  {
    if steps != [] {
      var before := steps[..|steps| - 1];
      assert forall i :: 0 <= i < |before| ==> before[..i] == steps[..i];
      RunRefines(seats, before);
      InvStep(Run(Init(seats), before), steps[|steps| - 1]);
      StepRefines(Run(Init(seats), before), steps[|steps| - 1], Init(seats).rows);
    }
  }

  // Each release takes effect exactly once in the order that the uncached service follows.

  predicate Effective(f: Flight) {
    f.phase.Recording? || f.phase.Answered?
  }

  function AsServed(id: FlightId, f: Flight): Served {
    Served(f.seat, ReleaseCall(f.user, f.token), Some(id))
  }

  predicate ServedOnce(s: State) {
    && (forall i :: 0 <= i < |s.served| && s.served[i].flight.Some? ==>
          && s.served[i].flight.value in s.flights
          && Effective(s.flights[s.served[i].flight.value]))
    && (forall i, j :: 0 <= i < j < |s.served| && s.served[i].flight.Some? ==> s.served[i].flight != s.served[j].flight)
    && (forall id :: id in s.flights && Effective(s.flights[id]) ==> AsServed(id, s.flights[id]) in s.served)
  }

  lemma ServedSame(s: State, step: Step)
    requires ServedOnce(s) && Fair(s, step) && Next(s, step).served == s.served
    ensures ServedOnce(Next(s, step))
  {
  }

  lemma ServedMore(s: State, step: Step)
    requires ServedOnce(s) && Fair(s, step) && Next(s, step).served != s.served
    ensures ServedOnce(Next(s, step))
  {
    var t := Next(s, step);
    var x := t.served[|s.served|];
    assert t.served == s.served + [x];
    assert x.flight.Some? ==> !Effective(s.flights[x.flight.value]);
    forall id | id in t.flights && Effective(t.flights[id])
      ensures AsServed(id, t.flights[id]) in t.served
    {
      if id in s.flights && Effective(s.flights[id]) {
        assert AsServed(id, s.flights[id]) in s.served;
      } else {
        assert AsServed(id, t.flights[id]) == x;
      }
    }
  }

  lemma ServedOnceStep(s: State, step: Step)
    requires ServedOnce(s) && Fair(s, step)
    ensures ServedOnce(Next(s, step))
  {
    if Next(s, step).served == s.served {
      ServedSame(s, step);
    } else {
      ServedMore(s, step);
    }
  }

  lemma {:induction false} ServedOnceRun(seats: set<SeatId>, steps: seq<Step>)
    requires FairRun(Init(seats), steps)
    ensures ServedOnce(Run(Init(seats), steps))
  {
    if steps != [] {
      var before := steps[..|steps| - 1];
      assert forall i :: 0 <= i < |before| ==> before[..i] == steps[..i];
      ServedOnceRun(seats, before);
      ServedOnceStep(Run(Init(seats), before), steps[|steps| - 1]);
    }
  }

  /** ReleaseSeat with the cache leaves the rows that ReleaseSeat without it would leave after serving
      the same RPCs, each once, whatever entries vanish and however the releases interleave. */
  lemma CachedReleaseRefinesUncached(seats: set<SeatId>, steps: seq<Step>)
    requires FairRun(Init(seats), steps)
    ensures
      var s := Run(Init(seats), steps);
      && s.rows == Uncached(Init(seats).rows, s.served)
      && forall id :: id in s.flights && s.flights[id].phase.Answered? ==> AsServed(id, s.flights[id]) in s.served
    ensures
      var s := Run(Init(seats), steps);
      forall i, j :: 0 <= i < j < |s.served| && s.served[i].flight.Some? ==> s.served[i].flight != s.served[j].flight
  {
    RunRefines(seats, steps);
    ServedOnceRun(seats, steps);
  }

  /** A release that runs undisturbed does what SeatInventoryService.ReleaseSeat promises. */
  lemma ReleaseAlone(s: State, id: FlightId, seat: SeatId, user: UserId, token: Token, readable: bool, writable: bool)
    requires id !in s.flights
    ensures
      var t := Next(Next(Next(Next(s, Arrive(id, seat, user, token)), Look(id, readable)), Update(id)), Record(id, writable));
      var hit := readable && (seat, token) in s.cache;
      var success := if hit then s.cache[(seat, token)] else seat in s.rows && HeldBy(s.rows[seat], user, token);
      && t.flights == s.flights[id := Flight(seat, user, token, Answered(success))]
      && t.rows == (if success && !hit then s.rows[seat := FREE_ROW] else s.rows)
      && t.cache == if hit || !writable then s.cache else s.cache[(seat, token) := success]
  {
    var s2 := Next(Next(s, Arrive(id, seat, user, token)), Look(id, readable));
    if !(readable && (seat, token) in s.cache) {
      assert s2.flights[id] == Flight(seat, user, token, Updating);
      var s3 := Next(s2, Update(id));
      if seat in s.rows && !HeldBy(s.rows[seat], user, token) {
        assert s.rows[seat := s.rows[seat]] == s.rows;
      }
      assert s3.cache == s.cache;
    } else {
      assert Next(s2, Update(id)) == s2;
    }
  }

  /** In any state a cache hit departs from the uncached service exactly when the row is
      at that moment held by the caller under the token it presents. */
  lemma HitDepartsExactlyWhenHeld(s: State, id: FlightId)
    requires id in s.flights && s.flights[id].phase.Looking?
    requires (s.flights[id].seat, s.flights[id].token) in s.cache
    ensures
      var f := s.flights[id];
      Next(s, Look(id, true)).rows != ApplyAt(s.rows, f.seat, ReleaseCall(f.user, f.token))
      <==> f.seat in s.rows && HeldBy(s.rows[f.seat], f.user, f.token)
  {
    var f := s.flights[id];
    if f.seat in s.rows {
      assert ApplyAt(s.rows, f.seat, ReleaseCall(f.user, f.token))[f.seat] == ReleaseRow(s.rows[f.seat], f.user, f.token);
      if !HeldBy(s.rows[f.seat], f.user, f.token) {
        assert s.rows[f.seat := s.rows[f.seat]] == s.rows;
      }
    }
  }

  /** Why the owner assumption is needed: a thief who presents the token first makes
      the owner's own release fail, although the owner's hold is current. */
  lemma StolenTokenBlocksOwner(s: State, seat: SeatId, owner: UserId, thief: UserId, token: Token, i: FlightId, j: FlightId)
    requires seat in s.rows && HeldBy(s.rows[seat], owner, token) && thief != owner
    requires i != j && i !in s.flights && j !in s.flights && (seat, token) !in s.cache
    ensures
      var s2 := Next(Next(s, Arrive(i, seat, thief, token)), Look(i, true));
      var s4 := Next(Next(s2, Update(i)), Record(i, true));
      var s6 := Next(Next(s4, Arrive(j, seat, owner, token)), Look(j, true));
      && s6.flights[j].phase == Answered(false)
      && s6.rows == s.rows
      && ApplyAt(s.rows, seat, ReleaseCall(owner, token)) == s.rows[seat := FREE_ROW]
  {
    var s2 := Next(Next(s, Arrive(i, seat, thief, token)), Look(i, true));
    assert s2.flights[i] == Flight(seat, thief, token, Updating);
    var s4 := Next(Next(s2, Update(i)), Record(i, true));
    assert s4.cache[(seat, token)] == false;
    assert s4.rows == s.rows;
  }
}
