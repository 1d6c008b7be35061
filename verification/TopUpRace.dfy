/** Top-up deliveries of one paid intent that overlap: each is a ledger lookup, a balance read, a balance write
    and a ledger post, interleaved with those of any number of others. */
module TopUpRace {
  import opened Common
  import opened TransferSaga
  import opened TopUp

  type FlightId = nat

  datatype Pc = Lookup | Read | Write(balance: Money) | Post | Over

  datatype Flight = Flight(delivery: Delivery, pc: Pc)

  datatype State = State(books: Books, flights: map<FlightId, Flight>)

  datatype Step = Begin(id: FlightId, delivery: Delivery) | Move(id: FlightId)

  /** The books after the next call of a delivery. */
  function BooksAfter(b: Books, n: Notice, f: Flight): Books {
    match f.pc
    case Write(balance) =>
      if f.delivery.patch.Applied() then b.(balances := b.balances[n.userId := balance + CreditsOf(n) as real]) else b
    case Post => if f.delivery.post.Applied() then b.(ledger := b.ledger + [CreditTxn(n, f.delivery)]) else b
    case _ => b
  }

  function PcAfter(b: Books, n: Notice, f: Flight): Pc {
    var d := f.delivery;
    match f.pc
    case Lookup => if !Admitted(n, d) || (d.lookup && HasReference(b.ledger, NoticeReference(n, d))) then Over else Read
    case Read => if d.read then Write(BalanceOf(b, n.userId)) else Over
    case Write(_) => if d.patch.Ok? then Post else Over
    case _ => Over
  }

  function Next(s: State, n: Notice, step: Step): State {
    match step
    case Begin(id, d) => if id in s.flights then s else s.(flights := s.flights[id := Flight(d, Lookup)])
    case Move(id) =>
      if id !in s.flights then s
      else
        var f := s.flights[id];
        State(BooksAfter(s.books, n, f), s.flights[id := f.(pc := PcAfter(s.books, n, f))])
  }

  function Run(s: State, n: Notice, steps: seq<Step>): State {
    if steps == [] then s else Next(Run(s, n, steps[..|steps| - 1]), n, steps[|steps| - 1])
  }

  /** A delivery that runs undisturbed is the delivery of module TopUp. */
  lemma AloneIsDeliver(s: State, n: Notice, id: FlightId, d: Delivery)
    requires id !in s.flights
    ensures
      var s1 := Next(Next(s, n, Begin(id, d)), n, Move(id));
      var s2 := Next(Next(s1, n, Move(id)), n, Move(id));
      Next(s2, n, Move(id)) == State(Deliver(s.books, n, d), s.flights[id := Flight(d, Over)])
  {
    var s0 := Next(s, n, Begin(id, d));
    var s1 := Next(s0, n, Move(id));
    var s2 := Next(s1, n, Move(id));
    var s3 := Next(s2, n, Move(id));
    assert s1.books == s.books && s2.books == s.books;
    assert s1.flights[id].pc == if Admitted(n, d) && !(d.lookup && HasReference(s.books.ledger, NoticeReference(n, d))) then Read else Over;
    assert s2.flights[id].pc == if Reaches(s.books, n, d) then Write(BalanceOf(s.books, n.userId)) else Over;
    assert Reaches(s.books, n, d) ==> s3.flights[id].pc == if d.patch.Ok? then Post else Over;
    assert Next(s3, n, Move(id)).flights == s.flights[id := Flight(d, Over)];
  }

  predicate AtPc(s: State, id: FlightId, pc: Pc) {
    id in s.flights && s.flights[id].pc == pc
  }

  /** What is left of a delivery whose calls are all answered, from its balance read on. */
  function Finish(s: State, n: Notice, id: FlightId): State {
    Next(Next(Next(s, n, Move(id)), n, Move(id)), n, Move(id))
  }

  lemma FinishCredits(s: State, n: Notice, id: FlightId)
    requires AtPc(s, id, Read) && s.flights[id].delivery.read
    requires s.flights[id].delivery.patch.Ok? && s.flights[id].delivery.post.Ok?
    ensures
      var d := s.flights[id].delivery;
      Finish(s, n, id)
      == State(Books(s.books.balances[n.userId := BalanceOf(s.books, n.userId) + CreditsOf(n) as real],
                     s.books.ledger + [CreditTxn(n, d)]),
               s.flights[id := Flight(d, Over)])
  {
    var s1 := Next(s, n, Move(id));
    assert s1.books == s.books && AtPc(s1, id, Write(BalanceOf(s.books, n.userId)));
    var s2 := Next(s1, n, Move(id));
    assert s2.books.ledger == s.books.ledger && AtPc(s2, id, Post);
  }

  /** Two admitted deliveries that both look before either posts credit the user twice, whatever their sources,
      although every call is answered. */
  lemma OverlapCreditsTwice(b: Books, n: Notice, d: Delivery, e: Delivery)
    requires n.eventId.None? && !HasReference(b.ledger, n.intentId)
    requires Reliable(d) && Pays(n, d) && Reliable(e) && Pays(n, e)
    ensures
      var begun := Next(Next(State(b, map[]), n, Begin(0, d)), n, Begin(1, e));
      var looked := Next(Next(begun, n, Move(0)), n, Move(1));
      var t := Finish(Finish(looked, n, 0), n, 1);
      && BalanceOf(t.books, n.userId) == BalanceOf(b, n.userId) + 2.0 * CreditsOf(n) as real
      && t.books.ledger == b.ledger + [CreditTxn(n, d), CreditTxn(n, e)]
      && CreditTxn(n, d).reference == CreditTxn(n, e).reference == n.intentId
  {
    var begun := Next(Next(State(b, map[]), n, Begin(0, d)), n, Begin(1, e));
    assert begun == State(b, map[0 := Flight(d, Lookup), 1 := Flight(e, Lookup)]);
    var looked := Next(Next(begun, n, Move(0)), n, Move(1));
    assert looked == State(b, map[0 := Flight(d, Read), 1 := Flight(e, Read)]);
    FinishCredits(looked, n, 0);
    FinishCredits(Finish(looked, n, 0), n, 1);
  }

  // How many credits an overlap can cost, over every interleaving.

  /** The deliveries that are past their lookup and not done. */
  function Passing(flights: map<FlightId, Flight>): set<FlightId> {
    set id | id in flights && !flights[id].pc.Lookup? && !flights[id].pc.Over?
  }

  /** The lookups work and all use one reference. */
  predicate Looking(s: State, n: Notice) {
    n.eventId.None? && forall id :: id in s.flights ==> s.flights[id].delivery.lookup
  }

  predicate LookingRun(steps: seq<Step>) {
    forall i :: 0 <= i < |steps| && steps[i].Begin? ==> steps[i].delivery.lookup
  }

  lemma PassingPut(flights: map<FlightId, Flight>, id: FlightId, f: Flight)
    ensures |Passing(flights[id := f])| == |Passing(flights)|
      + (if f.pc.Lookup? || f.pc.Over? then 0 else 1) - (if id in Passing(flights) then 1 else 0)
  {
    if f.pc.Lookup? || f.pc.Over? {
      assert Passing(flights[id := f]) == Passing(flights) - {id};
    } else {
      assert Passing(flights[id := f]) == Passing(flights) + {id};
    }
  }

  /** Once a row is posted, a step posts only for a delivery that had passed its lookup before. */
  lemma PostedStep(s: State, n: Notice, step: Step)
    requires Looking(s, n) && HasReference(s.books.ledger, n.intentId)
    requires step.Begin? ==> step.delivery.lookup
    ensures
      var t := Next(s, n, step);
      && Looking(t, n) && HasReference(t.books.ledger, n.intentId)
      && |t.books.ledger| + |Passing(t.flights)| <= |s.books.ledger| + |Passing(s.flights)|
  {
    match step
    case Begin(id, d) =>
      if id !in s.flights {
        PassingPut(s.flights, id, Flight(d, Lookup));
      }
    case Move(id) =>
      if id in s.flights {
        var f := s.flights[id];
        PassingPut(s.flights, id, f.(pc := PcAfter(s.books, n, f)));
        ReferenceKept(s.books.ledger, CreditTxn(n, f.delivery), n.intentId);
      }
  }

  /** After the first post, in every interleaving that follows, no more rows are posted than there were deliveries
      between their lookup and their end. */
  lemma {:induction false} OverlapBoundsCredits(s: State, n: Notice, steps: seq<Step>)
    requires Looking(s, n) && LookingRun(steps) && HasReference(s.books.ledger, n.intentId)
    ensures
      var t := Run(s, n, steps);
      && Looking(t, n) && HasReference(t.books.ledger, n.intentId)
      && |t.books.ledger| + |Passing(t.flights)| <= |s.books.ledger| + |Passing(s.flights)|
  {
    if steps != [] {
      OverlapBoundsCredits(s, n, steps[..|steps| - 1]);
      PostedStep(Run(s, n, steps[..|steps| - 1]), n, steps[|steps| - 1]);
    }
  }

  /** Every delivery would credit: its calls are answered and it is admitted. */
  predicate Crediting(s: State, n: Notice) {
    n.eventId.None? && forall id :: id in s.flights ==> Reliable(s.flights[id].delivery) && Pays(n, s.flights[id].delivery)
  }

  predicate CreditingRun(n: Notice, steps: seq<Step>) {
    forall i :: 0 <= i < |steps| && steps[i].Begin? ==> Reliable(steps[i].delivery) && Pays(n, steps[i].delivery)
  }

  lemma CreditingStep(s: State, n: Notice, step: Step)
    requires Crediting(s, n) && HasReference(s.books.ledger, n.intentId)
    requires step.Begin? ==> Reliable(step.delivery) && Pays(n, step.delivery)
    ensures
      var t := Next(s, n, step);
      && Crediting(t, n) && HasReference(t.books.ledger, n.intentId)
      && |t.books.ledger| + |Passing(t.flights)| == |s.books.ledger| + |Passing(s.flights)|
  {
    match step
    case Begin(id, d) =>
      if id !in s.flights {
        PassingPut(s.flights, id, Flight(d, Lookup));
      }
    case Move(id) =>
      if id in s.flights {
        var f := s.flights[id];
        PassingPut(s.flights, id, f.(pc := PcAfter(s.books, n, f)));
        ReferenceKept(s.books.ledger, CreditTxn(n, f.delivery), n.intentId);
      }
  }

  /** With answered calls the count is exact: in every interleaving after the first post, each delivery that was past
      its lookup posts one row, now or later, and no other one does. */
  lemma {:induction false} OverlapCountsCredits(s: State, n: Notice, steps: seq<Step>)
    requires Crediting(s, n) && CreditingRun(n, steps) && HasReference(s.books.ledger, n.intentId)
    ensures
      var t := Run(s, n, steps);
      && Crediting(t, n) && HasReference(t.books.ledger, n.intentId)
      && |t.books.ledger| + |Passing(t.flights)| == |s.books.ledger| + |Passing(s.flights)|
  {
    if steps != [] {
      OverlapCountsCredits(s, n, steps[..|steps| - 1]);
      CreditingStep(Run(s, n, steps[..|steps| - 1]), n, steps[|steps| - 1]);
    }
  }

  /** Once all deliveries are done, the intent has been booked again exactly if some delivery had passed its lookup
      when the first row was there. */
  lemma CreditedAgainExactlyWhen(s: State, n: Notice, steps: seq<Step>)
    requires Crediting(s, n) && CreditingRun(n, steps) && HasReference(s.books.ledger, n.intentId)
    requires Passing(Run(s, n, steps).flights) == {}
    ensures |Run(s, n, steps).books.ledger| > |s.books.ledger| <==> Passing(s.flights) != {}
    ensures |Run(s, n, steps).books.ledger| == |s.books.ledger| + |Passing(s.flights)|
  {
    OverlapCountsCredits(s, n, steps);
  }

  lemma ReadThenWrite(s: State, n: Notice, i: FlightId, j: FlightId)
    requires i != j && AtPc(s, i, Read) && AtPc(s, j, Read)
    requires s.flights[i].delivery.read && s.flights[i].delivery.patch.Ok?
    requires s.flights[j].delivery.read && s.flights[j].delivery.patch.Ok?
    ensures
      var read := Next(Next(s, n, Move(i)), n, Move(j));
      var t := Next(Next(read, n, Move(i)), n, Move(j));
      && t.books == s.books.(balances := s.books.balances[n.userId := BalanceOf(s.books, n.userId) + CreditsOf(n) as real])
      && AtPc(t, i, Post) && AtPc(t, j, Post)
      && t.flights[i].delivery == s.flights[i].delivery && t.flights[j].delivery == s.flights[j].delivery
  {
    var x := BalanceOf(s.books, n.userId);
    var read := Next(Next(s, n, Move(i)), n, Move(j));
    assert read.books == s.books && AtPc(read, i, Write(x)) && AtPc(read, j, Write(x));
    var once := Next(read, n, Move(i));
    assert once.books.balances == s.books.balances[n.userId := x + CreditsOf(n) as real];
    assert once.books.ledger == s.books.ledger && AtPc(once, i, Post) && AtPc(once, j, Write(x));
  }

  /** Two deliveries that both read before either writes book two credits and add one: the second write
      overwrites the first. */
  lemma OverlapLosesCredit(s: State, n: Notice, i: FlightId, j: FlightId)
    requires i != j && AtPc(s, i, Read) && AtPc(s, j, Read) && Crediting(s, n)
    ensures
      var read := Next(Next(s, n, Move(i)), n, Move(j));
      var written := Next(Next(read, n, Move(i)), n, Move(j));
      var t := Next(Next(written, n, Move(i)), n, Move(j));
      && BalanceOf(t.books, n.userId) == BalanceOf(s.books, n.userId) + CreditsOf(n) as real
      && t.books.ledger == s.books.ledger + [CreditTxn(n, s.flights[i].delivery), CreditTxn(n, s.flights[j].delivery)]
  {
    var read := Next(Next(s, n, Move(i)), n, Move(j));
    var written := Next(Next(read, n, Move(i)), n, Move(j));
    ReadThenWrite(s, n, i, j);
    var posted := Next(written, n, Move(i));
    assert AtPc(posted, j, Post) && posted.flights[j] == written.flights[j];
    assert posted.books.ledger == s.books.ledger + [CreditTxn(n, s.flights[i].delivery)];
  }

  /** With no delivery between lookup and end when the row is there, no later one changes the books at all. */
  lemma {:induction false} NoOverlapNoCredit(s: State, n: Notice, steps: seq<Step>)
    requires Looking(s, n) && LookingRun(steps) && HasReference(s.books.ledger, n.intentId) && Passing(s.flights) == {}
    ensures Run(s, n, steps).books == s.books && Passing(Run(s, n, steps).flights) == {}
    ensures Looking(Run(s, n, steps), n)
  {
    if steps != [] {
      var before := Run(s, n, steps[..|steps| - 1]);
      var last := steps[|steps| - 1];
      NoOverlapNoCredit(s, n, steps[..|steps| - 1]);
      if last.Move? && last.id in before.flights {
        assert last.id !in Passing(before.flights);
      }
    }
  }
}
