/** The seat inventory service: one row per seat, changed only by the RPCs below,
    with a Redis cache of current holds and a Redis cache of release results. */
module SeatInventory {
  import opened Common

  datatype SeatStatus = Available | Held | Sold

  datatype SeatRow = SeatRow(status: SeatStatus, heldByUserId: Option<UserId>,
                             holdToken: Option<Token>, heldUntil: Option<Time>)

  const FREE_ROW := SeatRow(Available, None, None, None)
  const SOLD_ROW := SeatRow(Sold, None, None, None)
  const DEFAULT_HOLD_SECONDS := 300

  function HoldSeconds(requested: int): int {
    if requested > 0 then requested else DEFAULT_HOLD_SECONDS
  }

  predicate HoldHasExpired(row: SeatRow, now: Time) {
    row.status.Held? && row.heldUntil.Some? && row.heldUntil.value <= now
  }

  /** A hold is granted on a free row, or on one whose hold has run out. */
  predicate CanHold(row: SeatRow, now: Time) {
    row.status.Available? || HoldHasExpired(row, now)
  }

  /** The row is held by exactly this user under exactly this token. */
  predicate HeldBy(row: SeatRow, user: UserId, token: Token) {
    row.status.Held? && row.heldByUserId == Some(user) && row.holdToken == Some(token)
  }

  function HeldRow(user: UserId, token: Token, until: Time): SeatRow {
    SeatRow(Held, Some(user), Some(token), Some(until))
  }

  // The effect of each RPC on the row it locks.

  function HoldRow(row: SeatRow, user: UserId, token: Token, now: Time, seconds: int): SeatRow {
    if CanHold(row, now) then HeldRow(user, token, now + HoldSeconds(seconds)) else row
  }

  function ReleaseRow(row: SeatRow, user: UserId, token: Token): SeatRow {
    if HeldBy(row, user, token) then FREE_ROW else row
  }

  function SellRow(row: SeatRow, user: UserId, token: Token): SeatRow {
    if HeldBy(row, user, token) then SOLD_ROW else row
  }

  function ReadRow(row: SeatRow, now: Time): SeatRow {
    if HoldHasExpired(row, now) then FREE_ROW else row
  }

  /** The entry that HoldSeat writes to Redis for the purchase orchestrator; a missing field reads as "". */
  datatype CachedHold = CachedHold(status: string, heldByUserId: UserId, holdToken: Token, heldUntil: Stamp)

  datatype HoldReply = HoldGranted(until: Time, token: Token) | HoldRefused(code: string)
  datatype StatusReply = SeatNotFound | SeatFound(status: SeatStatus, until: Option<Time>)

  class SeatInventoryService {
    var rows: map<SeatId, SeatRow>
    var holds: map<SeatId, CachedHold>
    var releases: map<(SeatId, Token), bool>

    constructor (seats: set<SeatId>)
      ensures rows == map s | s in seats :: FREE_ROW
      ensures holds == map[] && releases == map[]
    {
      rows := map s | s in seats :: FREE_ROW;
      holds := map[];
      releases := map[];
    }

    /** Deletes a cached hold, retrying while Redis fails; `tries` lists what each attempt meets. */
    method DeleteHoldCache(seat: SeatId, tries: seq<bool>)
      modifies this`holds
      ensures holds == if true in tries then old(holds) - {seat} else old(holds)
    {
      var attempt := 0;
      while attempt < |tries|
        invariant 0 <= attempt <= |tries|
        invariant holds == old(holds)
        invariant true !in tries[..attempt]
      {
        if tries[attempt] {
          holds := holds - {seat};
          return;
        }
        attempt := attempt + 1;
      }
    }

    /** `token` is the freshly minted token, `now` the clock as read before the row lock,
        `tries` the Redis deletions and `redisUp` whether the hold entry can be written. */
    method HoldSeat(seat: SeatId, user: UserId, seconds: int, token: Token, now: Time,
                    tries: seq<bool>, redisUp: bool)
      returns (reply: HoldReply)
      modifies this`rows, this`holds
      ensures reply.HoldGranted? <==>
        && seat in old(rows)
        && var row := old(rows)[seat];
           row.status.Available? || (row.status.Held? && row.heldUntil.Some? && row.heldUntil.value <= now)
      ensures reply.HoldRefused? ==> rows == old(rows) && holds == old(holds)
      ensures reply == HoldRefused("INVENTORY_NOT_FOUND") <==> seat !in old(rows)
      ensures reply.HoldGranted? ==>
        && reply.token == token
        && (seconds > 0 ==> reply.until == now + seconds)
        && (seconds <= 0 ==> reply.until == now + 300)
        && rows == old(rows)[seat := SeatRow(Held, Some(user), Some(token), Some(reply.until))]
        && rows[seat] == HoldRow(old(rows)[seat], user, token, now, seconds)
        && holds ==
             if redisUp then old(holds)[seat := CachedHold("held", user, token, At(reply.until))]
             else if old(rows)[seat].status.Held? && true in tries then old(holds) - {seat}
             else old(holds)
    {
      if seat !in rows {
        return HoldRefused("INVENTORY_NOT_FOUND");
      }
      var row := rows[seat];
      if HoldHasExpired(row, now) {
        row := FREE_ROW;
        DeleteHoldCache(seat, tries);
      }
      if row.status != Available {
        return HoldRefused("SEAT_NOT_AVAILABLE");
      }
      var until := now + HoldSeconds(seconds);
      rows := rows[seat := HeldRow(user, token, until)];
      if redisUp {
        holds := holds[seat := CachedHold("held", user, token, At(until))];
      }
      return HoldGranted(until, token);
    }

    /** The release RPC, answering from the idempotency cache when it can. */
    method ReleaseSeat(seat: SeatId, user: UserId, token: Token, cacheReadable: bool,
                       tries: seq<bool>, cacheWritable: bool)
      returns (success: bool)
      modifies this
      ensures rows.Keys == old(rows).Keys
      ensures cacheReadable && (seat, token) in old(releases) ==>
        success == old(releases)[(seat, token)] && unchanged(this)
      ensures !(cacheReadable && (seat, token) in old(releases)) ==>
        && (success <==>
              && seat in old(rows) && old(rows)[seat].status.Held?
              && old(rows)[seat].heldByUserId == Some(user) && old(rows)[seat].holdToken == Some(token))
        && rows == (if success then old(rows)[seat := SeatRow(Available, None, None, None)] else old(rows))
        && holds == (if success && true in tries then old(holds) - {seat} else old(holds))
        && releases == if cacheWritable then old(releases)[(seat, token) := success] else old(releases)
    {
      if cacheReadable && (seat, token) in releases {
        return releases[(seat, token)];
      }
      if seat !in rows || !HeldBy(rows[seat], user, token) {
        success := false;
      } else {
        rows := rows[seat := FREE_ROW];
        DeleteHoldCache(seat, tries);
        success := true;
      }
      if cacheWritable {
        releases := releases[(seat, token) := success];
      }
    }

    method SellSeat(seat: SeatId, user: UserId, token: Token, tries: seq<bool>) returns (success: bool)
      modifies this`rows, this`holds
      ensures success <==>
        && seat in old(rows) && old(rows)[seat].status.Held?
        && old(rows)[seat].heldByUserId == Some(user) && old(rows)[seat].holdToken == Some(token)
      ensures rows == if success then old(rows)[seat := SeatRow(Sold, None, None, None)] else old(rows)
      ensures holds == if success && true in tries then old(holds) - {seat} else old(holds)
    {
      if seat !in rows || !HeldBy(rows[seat], user, token) {
        return false;
      }
      rows := rows[seat := SOLD_ROW];
      DeleteHoldCache(seat, tries);
      return true;
    }

    /** Taken as one atomic step; SeatRuns says what splitting it would cost. */
    method GetSeatStatus(seat: SeatId, now: Time, tries: seq<bool>) returns (reply: StatusReply)
      modifies this`rows, this`holds
      ensures reply.SeatNotFound? <==> seat !in old(rows)
      ensures seat !in old(rows) ==> unchanged(this)
      ensures seat in old(rows) ==>
        var row := old(rows)[seat];
        if row.status.Held? && row.heldUntil.Some? && row.heldUntil.value <= now then
          && rows == old(rows)[seat := SeatRow(Available, None, None, None)]
          && reply == SeatFound(Available, None)
          && holds == if true in tries then old(holds) - {seat} else old(holds)
        else
          reply == SeatFound(row.status, row.heldUntil) && unchanged(this)
    {
      if seat !in rows {
        return SeatNotFound;
      }
      if HoldHasExpired(rows[seat], now) {
        rows := rows[seat := FREE_ROW];
        DeleteHoldCache(seat, tries);
        return SeatFound(Available, None);
      }
      return SeatFound(rows[seat].status, rows[seat].heldUntil);
    }
  }
}
