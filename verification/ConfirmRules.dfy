/** The checks of confirm_purchase that lead up to the sale, with and without the Redis hold entry. */
module ConfirmRules {
  import opened Common
  import opened SeatInventory

  /** How a confirm request is answered. */
  datatype Code =
    | Created | ValidationError | HoldExpired | SeatUnavailable
    | ServiceUnavailable | InsufficientCredits | InternalError | DeductionFailed

  function StatusName(status: SeatStatus): string {
    match status case Available => "available" case Held => "held" case Sold => "sold"
  }

  /** The error that stops the purchase, if any. An unreadable deadline counts as no deadline. */
  function ValidateHoldState(status: string, heldUntil: Stamp, now: Time): Option<Code> {
    if status != "held" then
      Some(if status == "available" then HoldExpired else SeatUnavailable)
    else if heldUntil.At? && now > heldUntil.time then Some(HoldExpired)
    else None
  }

  function CheckCached(hold: CachedHold, user: UserId, token: Token, now: Time): Option<Code> {
    if hold.heldByUserId != "" && hold.heldByUserId != user then Some(SeatUnavailable)
    else if token != "" && hold.holdToken != "" && hold.holdToken != token then Some(SeatUnavailable)
    else ValidateHoldState(hold.status, hold.heldUntil, now)
  }

  /** `row` is the row after GetSeatStatus has had its say. */
  function CheckStatus(row: SeatRow, now: Time): Option<Code> {
    ValidateHoldState(StatusName(row.status), if row.heldUntil.Some? then At(row.heldUntil.value) else Blank, now)
  }

  /** Event and credit replies; None is a failed call. */
  function CheckFunds(price: Option<Money>, balance: Option<Money>): Option<Code> {
    if price.None? || balance.None? then Some(ServiceUnavailable)
    else if balance.value < price.value then Some(InsufficientCredits)
    else None
  }

  datatype Confirmed = Confirmed(row: SeatRow, error: Option<Code>) {
    predicate Sells() {
      error.None?
    }
  }

  function SellChecked(row: SeatRow, error: Option<Code>, user: UserId, token: Token,
                       price: Option<Money>, balance: Option<Money>): Confirmed {
    if error.Some? then Confirmed(row, error)
    else if CheckFunds(price, balance).Some? then Confirmed(row, CheckFunds(price, balance))
    else if !HeldBy(row, user, token) then Confirmed(row, Some(SeatUnavailable))
    else Confirmed(SellRow(row, user, token), None)
  }

  function ConfirmViaCache(row: SeatRow, hold: CachedHold, user: UserId, token: Token, now: Time,
                           price: Option<Money>, balance: Option<Money>): Confirmed {
    SellChecked(row, CheckCached(hold, user, token, now), user, token, price, balance)
  }

  /** `served` is the clock of GetSeatStatus, `now` the clock of the orchestrator's own check. */
  function ConfirmViaStatus(row: SeatRow, user: UserId, token: Token, served: Time, now: Time,
                            price: Option<Money>, balance: Option<Money>): Confirmed {
    SellChecked(ReadRow(row, served), CheckStatus(ReadRow(row, served), now), user, token, price, balance)
  }

  /** The cache entry says what the row says. */
  predicate Mirrors(hold: CachedHold, row: SeatRow) {
    && row.status.Held? && row.heldByUserId.Some? && row.holdToken.Some? && row.heldUntil.Some?
    && hold == CachedHold("held", row.heldByUserId.value, row.holdToken.value, At(row.heldUntil.value))
  }

  /** Who may buy, said without either path: the current holder, with known price and enough credit. */
  predicate Entitled(row: SeatRow, user: UserId, token: Token, price: Option<Money>, balance: Option<Money>) {
    && HeldBy(row, user, token)
    && price.Some? && balance.Some? && price.value <= balance.value
  }

  // The checks one by one, for every input.

  /** What a cached entry leads to, mirrored by the row or not. */
  lemma CachedVerdict(hold: CachedHold, user: UserId, token: Token, now: Time)
    ensures
      var foreign :=
        || (hold.heldByUserId != "" && hold.heldByUserId != user)
        || (token != "" && hold.holdToken != "" && hold.holdToken != token);
      var passed := hold.heldUntil.At? && hold.heldUntil.time < now;
      var verdict := CheckCached(hold, user, token, now);
      && (verdict == Some(SeatUnavailable) <==> foreign || hold.status !in {"held", "available"})
      && (verdict == Some(HoldExpired) <==> !foreign && (hold.status == "available" || (hold.status == "held" && passed)))
      && (verdict == None <==> !foreign && hold.status == "held" && !passed)
  {
  }

  /** What the row leads to when GetSeatStatus is served at `served` and its answer checked at `now`. */
  lemma RowVerdict(row: SeatRow, served: Time, now: Time)
    ensures
      var verdict := CheckStatus(ReadRow(row, served), now);
      && (verdict == Some(SeatUnavailable) <==> row.status.Sold?)
      && (verdict == Some(HoldExpired) <==>
            || row.status.Available?
            || (row.status.Held? && row.heldUntil.Some? && (row.heldUntil.value <= served || row.heldUntil.value < now)))
      && (verdict == None <==>
            row.status.Held? && (row.heldUntil.Some? ==> served < row.heldUntil.value && now <= row.heldUntil.value))
  {
  }

  lemma FundsVerdict(price: Option<Money>, balance: Option<Money>)
    ensures CheckFunds(price, balance) == Some(ServiceUnavailable) <==> price == None || balance == None
    ensures CheckFunds(price, balance) == Some(InsufficientCredits) <==>
      price.Some? && balance.Some? && balance.value < price.value
    ensures CheckFunds(price, balance) == None <==> price.Some? && balance.Some? && price.value <= balance.value
  {
  }

  /** Exactly when each path sells, for every caller, token, event reply and credit reply. */
  lemma PathsSellExactlyWhen(row: SeatRow, hold: CachedHold, user: UserId, token: Token, served: Time, now: Time,
                             price: Option<Money>, balance: Option<Money>)
    requires Mirrors(hold, row)
    ensures ConfirmViaCache(row, hold, user, token, now, price, balance).Sells()
      <==> Entitled(row, user, token, price, balance) && now <= row.heldUntil.value
    ensures ConfirmViaStatus(row, user, token, served, now, price, balance).Sells()
      <==> Entitled(row, user, token, price, balance) && served < row.heldUntil.value && now <= row.heldUntil.value
  {
    if HoldHasExpired(row, served) {
      assert CheckStatus(ReadRow(row, served), now) == Some(HoldExpired);
    }
  }

  /** While the hold is live the cache changes nothing about who gets the seat or what the row becomes;
      the two paths part only at the instant heldUntil itself, where the cache path still sells. */
  lemma CachePathAgrees(row: SeatRow, hold: CachedHold, user: UserId, token: Token, now: Time,
                        price: Option<Money>, balance: Option<Money>)
    requires Mirrors(hold, row)
    ensures now < row.heldUntil.value ==>
      ConfirmViaCache(row, hold, user, token, now, price, balance).row
      == ConfirmViaStatus(row, user, token, now, now, price, balance).row
    ensures
      (ConfirmViaCache(row, hold, user, token, now, price, balance).Sells()
       <==> ConfirmViaStatus(row, user, token, now, now, price, balance).Sells())
      <==> !(now == row.heldUntil.value && Entitled(row, user, token, price, balance))
  {
    PathsSellExactlyWhen(row, hold, user, token, now, now, price, balance);
  }
}
