/** The bounded slots of the purchase HTTP client. A slot outlives its caller: it is given back by the worker,
    or by the caller if the worker could not be started. */
module CallSlots {
  import opened Common

  type CallId = nat

  const MAX_OUTSTANDING_CALLS := 4

  datatype Phase = Acquired | Running | Finished

  /** `waiting` is false once the caller has its answer or has timed out; `releases` counts returns of the slot. */
  datatype Call = Call(phase: Phase, waiting: bool, releases: nat)

  datatype State = State(free: nat, calls: map<CallId, Call>)

  const INIT := State(MAX_OUTSTANDING_CALLS, map[])

  datatype Step =
    | Acquire(id: CallId)
    | Submit(id: CallId, accepted: bool)
    | TimeOut(id: CallId)
    | WorkerExit(id: CallId)

  function GiveBack(s: State, id: CallId, c: Call): State {
    State(s.free + 1, s.calls[id := Call(Finished, false, c.releases + 1)])
  }

  function Next(s: State, step: Step): State {
    match step
    case Acquire(id) =>
      if id in s.calls || s.free == 0 then s else State(s.free - 1, s.calls[id := Call(Acquired, true, 0)])
    case Submit(id, accepted) =>
      if id !in s.calls || !s.calls[id].phase.Acquired? then s
      else if accepted then s.(calls := s.calls[id := s.calls[id].(phase := Running)])
      else GiveBack(s, id, s.calls[id])
    case TimeOut(id) =>
      // the caller leaves; the slot stays taken
      if id !in s.calls || !s.calls[id].phase.Running? then s
      else s.(calls := s.calls[id := s.calls[id].(waiting := false)])
    case WorkerExit(id) =>
      if id !in s.calls || !s.calls[id].phase.Running? then s else GiveBack(s, id, s.calls[id])
  }

  function Run(steps: seq<Step>): State {
    if steps == [] then INIT else Next(Run(steps[..|steps| - 1]), steps[|steps| - 1])
  }

  function Unfinished(calls: map<CallId, Call>): set<CallId> {
    set id | id in calls && !calls[id].phase.Finished?
  }

  predicate Inv(s: State) {
    && s.free + |Unfinished(s.calls)| == MAX_OUTSTANDING_CALLS
    && forall id :: id in s.calls ==> s.calls[id].releases == if s.calls[id].phase.Finished? then 1 else 0
  }

  lemma Put(calls: map<CallId, Call>, id: CallId, c: Call)
    ensures |Unfinished(calls[id := c])| == |Unfinished(calls)|
      + (if c.phase.Finished? then 0 else 1) - (if id in Unfinished(calls) then 1 else 0)
  {
    if c.phase.Finished? {
      assert Unfinished(calls[id := c]) == Unfinished(calls) - {id};
    } else {
      assert Unfinished(calls[id := c]) == Unfinished(calls) + {id};
    }
  }

  lemma InvStep(s: State, step: Step)
    requires Inv(s)
    ensures Inv(Next(s, step))
  {
    var t := Next(s, step);
    if step.id in t.calls && t != s {
      Put(s.calls, step.id, t.calls[step.id]);
      assert t.calls == s.calls[step.id := t.calls[step.id]];
    }
  }

  /** In every interleaving free slots plus unfinished calls make up the pool, and each admitted call gives its
      slot back exactly once, when it finishes, even after its caller has gone. */
  lemma {:induction false} SlotsAreConserved(steps: seq<Step>)
    ensures
      var s := Run(steps);
      && s.free + |Unfinished(s.calls)| == 4
      && forall id :: id in s.calls ==> s.calls[id].releases == if s.calls[id].phase.Finished? then 1 else 0
  {
    if steps != [] {
      SlotsAreConserved(steps[..|steps| - 1]);
      InvStep(Run(steps[..|steps| - 1]), steps[|steps| - 1]);
    }
  }

  /** A caller that times out leaves; its slot stays taken until the worker is done, and is then given back. */
  lemma TimeoutKeepsSlot(steps: seq<Step>, id: CallId)
    requires id in Run(steps).calls && Run(steps).calls[id].phase.Running?
    ensures
      var t := Next(Run(steps), TimeOut(id));
      var u := Next(t, WorkerExit(id));
      && !t.calls[id].waiting && t.free == Run(steps).free && Unfinished(t.calls) == Unfinished(Run(steps).calls)
      && u.free == t.free + 1 && Unfinished(u.calls) == Unfinished(t.calls) - {id}
  {
  }

  /** A call is refused exactly when as many calls as there are slots are unfinished; the semaphore
      is never released beyond its bound. */
  lemma RefusedExactlyWhenFull(steps: seq<Step>, id: CallId)
    requires id !in Run(steps).calls
    ensures id !in Next(Run(steps), Acquire(id)).calls <==> |Unfinished(Run(steps).calls)| == MAX_OUTSTANDING_CALLS
    ensures forall step :: Next(Run(steps), step).free <= MAX_OUTSTANDING_CALLS
  {
    SlotsAreConserved(steps);
    forall step
      ensures Next(Run(steps), step).free <= MAX_OUTSTANDING_CALLS
    {
      InvStep(Run(steps), step);
    }
  }

  /** The pool itself. A release beyond the bound would raise; the invariant rules it out. */
  class HttpPool {
    var free: nat
    ghost var calls: map<CallId, Call>

    constructor ()
      ensures Machine() == INIT
    {
      free, calls := MAX_OUTSTANDING_CALLS, map[];
    }

    ghost function Machine(): State
      reads this
    {
      State(free, calls)
    }

    method TryAcquire(ghost id: CallId) returns (acquired: bool)
      requires id !in calls
      modifies this
      ensures Machine() == Next(old(Machine()), Acquire(id))
      ensures acquired <==> old(free) > 0
    {
      if free == 0 {
        return false;
      }
      free := free - 1;
      calls := calls[id := Call(Acquired, true, 0)];
      return true;
    }

    /** The release in the worker's finally block, or in the caller if the submit failed. */
    method Release(ghost id: CallId)
      requires Inv(Machine()) && id in calls && !calls[id].phase.Finished?
      modifies this
      ensures Machine() == GiveBack(old(Machine()), id, old(calls)[id])
      ensures free <= MAX_OUTSTANDING_CALLS
    {
      assert free < MAX_OUTSTANDING_CALLS by {
        assert id in Unfinished(calls);
      }
      free := free + 1;
      calls := calls[id := Call(Finished, false, calls[id].releases + 1)];
    }

    /** call_service up to the moment the worker runs; a failed submit gives the slot back at once. */
    method Begin(ghost id: CallId, submitted: bool) returns (running: bool)
      requires Inv(Machine()) && id !in calls
      modifies this
      ensures Inv(Machine())
      ensures Machine() == Next(Next(old(Machine()), Acquire(id)), Submit(id, submitted))
      ensures running <==> old(free) > 0 && submitted
      ensures running ==> id in calls && calls[id].phase.Running?
    {
      InvStep(Machine(), Acquire(id));
      var acquired := TryAcquire(id);
      if !acquired {
        return false;
      }
      InvStep(Machine(), Submit(id, submitted));
      if !submitted {
        Release(id);
        return false;
      }
      calls := calls[id := calls[id].(phase := Running)];
      return true;
    }
  }
}
