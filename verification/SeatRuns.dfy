/** Whole histories of one seat row. The RPCs on a row are serialised by its row lock,
    so a history is the sequence of RPCs in commit order. */
module SeatRuns {
  import opened Common
  import opened SeatInventory

  datatype SeatCall =
    | HoldCall(user: UserId, token: Token, seconds: int, now: Time)
    | ReleaseCall(user: UserId, token: Token)
    | SellCall(user: UserId, token: Token)
    | StatusCall(now: Time)

  /** A committed RPC. HoldSeat reads its clock before it waits for the lock, so `now` may be stale. */
  datatype SeatOp = SeatOp(call: SeatCall, at: Time) {
    predicate ReadsThePast() {
      (call.HoldCall? || call.StatusCall?) ==> call.now <= at
    }
  }

  function Apply(row: SeatRow, call: SeatCall): SeatRow {
    match call
    case HoldCall(user, token, seconds, now) => HoldRow(row, user, token, now, seconds)
    case ReleaseCall(user, token) => ReleaseRow(row, user, token)
    case SellCall(user, token) => SellRow(row, user, token)
    case StatusCall(now) => ReadRow(row, now)
  }

  /** An RPC on the table of rows; an unknown seat is refused. */
  function ApplyAt(rows: map<SeatId, SeatRow>, seat: SeatId, call: SeatCall): map<SeatId, SeatRow> {
    if seat in rows then rows[seat := Apply(rows[seat], call)] else rows
  }

  /** The row after a history, from the free row that event creation inserts. */
  function RowAfter(ops: seq<SeatOp>): SeatRow {
    if ops == [] then FREE_ROW else Apply(RowAfter(ops[..|ops| - 1]), ops[|ops| - 1].call)
  }

  predicate Timed(ops: seq<SeatOp>) {
    && (forall i :: 0 <= i < |ops| ==> ops[i].ReadsThePast())
    && (forall i, j :: 0 <= i <= j < |ops| ==> ops[i].at <= ops[j].at)
  }

  predicate HoldSucceeds(ops: seq<SeatOp>, i: nat) {
    i < |ops| && ops[i].call.HoldCall? && CanHold(RowAfter(ops[..i]), ops[i].call.now)
  }

  predicate ReleaseSucceeds(ops: seq<SeatOp>, i: nat, token: Token) {
    i < |ops| && ops[i].call.ReleaseCall? && ops[i].call.token == token
    && HeldBy(RowAfter(ops[..i]), ops[i].call.user, token)
  }

  lemma RowStep(ops: seq<SeatOp>, n: nat)
    requires n < |ops|
    ensures RowAfter(ops[..n + 1]) == Apply(RowAfter(ops[..n]), ops[n].call)
  {
    assert ops[..n + 1][..n] == ops[..n];
  }

  lemma {:induction false} SoldIsFinal(ops: seq<SeatOp>, i: nat, j: nat)
    requires i <= j <= |ops|
    requires RowAfter(ops[..i]).status.Sold?
    ensures RowAfter(ops[..j]) == RowAfter(ops[..i])
    decreases j
  {
    if i < j {
      SoldIsFinal(ops, i, j - 1);
      RowStep(ops, j - 1);
    }
  }

  /** After hold i and before its heldUntil, the row is still that hold, or was sold, or was released. A hold lasts
      for the seconds requested, or 300 if none are. */
  lemma {:induction false} HoldPersists(ops: seq<SeatOp>, i: nat, n: nat)
    requires Timed(ops) && HoldSucceeds(ops, i)
    requires i < n <= |ops|
    requires ops[n - 1].at < ops[i].call.now + if ops[i].call.seconds > 0 then ops[i].call.seconds else 300
    ensures
      var until := ops[i].call.now + if ops[i].call.seconds > 0 then ops[i].call.seconds else 300;
      || RowAfter(ops[..n]) == SeatRow(Held, Some(ops[i].call.user), Some(ops[i].call.token), Some(until))
      || RowAfter(ops[..n]).status.Sold?
      || exists m :: i < m < n && ReleaseSucceeds(ops, m, ops[i].call.token)
    decreases n
  {
    RowStep(ops, n - 1);
    var until := ops[i].call.now + if ops[i].call.seconds > 0 then ops[i].call.seconds else 300;
    if n > i + 1 {
      HoldPersists(ops, i, n - 1);
      var before := RowAfter(ops[..n - 1]);
      if before == HeldRow(ops[i].call.user, ops[i].call.token, until) {
        assert ops[n - 1].ReadsThePast();
        if RowAfter(ops[..n]) != before && !RowAfter(ops[..n]).status.Sold? {
          assert ReleaseSucceeds(ops, n - 1, ops[i].call.token);
        }
      }
    }
  }

  /** No second hold before the first one's heldUntil, unless the first was released in between,
      however stale the clock readings of the waiting calls are. */
  lemma HoldIsExclusive(ops: seq<SeatOp>, i: nat, j: nat)
    requires Timed(ops)
    requires HoldSucceeds(ops, i) && i < j && HoldSucceeds(ops, j)
    requires ops[j].at < ops[i].call.now + if ops[i].call.seconds > 0 then ops[i].call.seconds else 300
    ensures exists m :: i < m < j && ReleaseSucceeds(ops, m, ops[i].call.token)
  {
    HoldPersists(ops, i, j);
    assert ops[j].ReadsThePast();
  }

  /** The token minted by the latest successful hold. */
  function LatestToken(ops: seq<SeatOp>): Option<Token> {
    if ops == [] then None
    else
      var n := |ops| - 1;
      if HoldSucceeds(ops, n) then Some(ops[n].call.token) else LatestToken(ops[..n])
  }

  lemma {:induction false} RowCarriesLatestToken(ops: seq<SeatOp>)
    ensures RowAfter(ops).holdToken.Some? ==> RowAfter(ops).holdToken == LatestToken(ops)
    ensures RowAfter(ops).status.Held? <==> RowAfter(ops).holdToken.Some?
    ensures !RowAfter(ops).status.Held? ==> RowAfter(ops) in {FREE_ROW, SOLD_ROW}
  {
    if ops != [] {
      RowCarriesLatestToken(ops[..|ops| - 1]);
    }
  }

  /** A release or a sale changes the row only with the token of the latest hold,
      so a dead-letter message of an older hold is harmless however late it arrives. */
  lemma OnlyLatestTokenActs(ops: seq<SeatOp>, call: SeatCall)
    requires call.ReleaseCall? || call.SellCall?
    requires LatestToken(ops) != Some(call.token)
    ensures Apply(RowAfter(ops), call) == RowAfter(ops)
  {
    RowCarriesLatestToken(ops);
  }

  /** Each minted token buys at most one change: once a release or a sale with the token of hold i
      has succeeded, no later release or sale with it changes the row. */
  lemma {:induction false} TokenActsOnce(ops: seq<SeatOp>, i: nat, token: Token)
    requires i < |ops| && (ops[i].call.ReleaseCall? || ops[i].call.SellCall?)
    requires ops[i].call.token == token && HeldBy(RowAfter(ops[..i]), ops[i].call.user, token)
    requires forall k :: i < k < |ops| && ops[k].call.HoldCall? ==> ops[k].call.token != token
    ensures RowAfter(ops).holdToken != Some(token)
    ensures forall user :: Apply(RowAfter(ops), ReleaseCall(user, token)) == RowAfter(ops)
    ensures forall user :: Apply(RowAfter(ops), SellCall(user, token)) == RowAfter(ops)
  {
    var n := |ops| - 1;
    if i < n {
      assert ops[..n][..i] == ops[..i];
      TokenActsOnce(ops[..n], i, token);
    }
  }

  /** GetSeatStatus without atomicity: the row is read, other RPCs commit, then the clearing write lands. */
  function SplitStatus(seen: SeatRow, current: SeatRow, now: Time): SeatRow {
    if HoldHasExpired(seen, now) then FREE_ROW else current
  }

  /** Splitting loses exactly the sales of holds that had expired when the row was read:
      SellSeat does not look at heldUntil. */
  lemma SplitStatusLosesLateSales(ops: seq<SeatOp>, user: UserId, token: Token, now: Time)
    requires HeldBy(RowAfter(ops), user, token) && RowAfter(ops).heldUntil.Some?
    ensures
      var sold := Apply(RowAfter(ops), SellCall(user, token));
      && sold.status.Sold?
      && (SplitStatus(RowAfter(ops), sold, now).status.Sold? <==> now < RowAfter(ops).heldUntil.value)
  {
  }

  lemma SplitStatusExample()
    ensures
      var ops := [SeatOp(HoldCall("ann", "t1", 300, 0), 0)];
      var sold := RowAfter(ops + [SeatOp(SellCall("ann", "t1"), 301)]);
      sold.status.Sold? && SplitStatus(RowAfter(ops), sold, 301).status.Available?
  {
    var ops := [SeatOp(HoldCall("ann", "t1", 300, 0), 0)];
    RowStep(ops, 0);
    assert ops[..1] == ops && ops[..0] == [];
    var all := ops + [SeatOp(SellCall("ann", "t1"), 301)];
    RowStep(all, 1);
    assert all[..1] == ops && all[..2] == all;
  }
}
