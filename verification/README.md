# Ticketing platform: a Dafny model of its distributed transactions

The platform sells, resells and checks tickets through Flask and gRPC services. Its hard part is not any
single service but the transactions that run across them: several handlers at once, each a chain of remote
calls that can be refused, raise, or succeed with the reply lost. This project models that part and proves
what holds over every run.

## How it is modelled

- **Interleaved systems.** `Purchase`, `ReleaseCache`, `TransferFlow`, `TopUpRace`, `CheckIn`, `CallSlots` and `OtpRace` are transition
  systems in which any number of requests advance call by call. A run is any sequence of steps. A remote call
  meets a `Net`: answered, refused or raised, and a call that was refused or raised may have been carried out
  all the same.
- **Handlers.** The classes beside them (`SeatInventoryService`, `PurchaseOrchestrator`, `TransferOrchestrator`,
  `TransferDesk`, `TransferStore`, `VerificationDesk`, `CreditOrchestrator`, `CircuitBreaker`, `HttpPool`,
  `RateLimiter`) are the source's handlers as imperative code on the records. Each is proved to leave exactly
  the state that its own request leaves in the corresponding system under the replies it meets, or to reach a closed
  form that the theorems are about.
- **Exact conditions.** Where the code does not keep a property on all inputs, a lemma says exactly when it does,
  and another shows a run in which it does not.

| file | part of the platform |
|---|---|
| `SeatInventory`, `SeatRuns`, `ReleaseCache` | the seat rows, their histories, and the release RPC with its idempotency cache |
| `ConfirmRules`, `Purchase`, `PurchaseHandler` | the confirm rules with and without the Redis hold entry, and the purchase saga |
| `TransferService`, `TransferSaga`, `TransferSagaHandler` | transfer records, and the seven-step saga with its compensation |
| `TransferFlow`, `TransferHandlers`, `TransferOutcomes` | the transfer's life through all handlers: both codes first, who may act, and what each handler leaves |
| `TransferRank`, `TransferSlips`, `TransferClock` | the status only climbs, exactly where it slips, and how often it changes |
| `TransferOnce`, `TransferOverlaps` | at most one completion, and the overlaps that break it |
| `TopUp`, `TopUpRace`, `CreditBooks` | Stripe top-ups, also overlapping ones, and balances against the ledger over all handlers |
| `CheckIn`, `CheckInHandler`, `CheckInFaults` | ticket scans under the Redis lock, and the faults that defeat it |
| `CircuitBreaker`, `ServiceClient`, `CallSlots` | the purchase HTTP client |
| `OtpLimiter`, `OtpRace` | the limiter on wrong codes, in sequence and under overlap |

## Where the code departs from its comments or messages

- The purchase compensation says it releases the seat. ReleaseSeat refuses a sold seat, so the seat stays sold
  (`CompensationKeepsSeatSold`), and the ticket that should be marked `payment_failed` stays active
  (`TicketsStayActive`).
- A failed transfer answers that no credits were charged. A saga that fails after three or more completed steps
  never compensates cleanly, because the ledger has no PATCH route and the ticket service refuses `sold`
  (`LateFailureIsNeverClean`); an unseen write among the first three calls is not undone either
  (`SagaEndsInThreeWays`).
- The transfer timeout consumer never cancels anything: its PATCH names fields the transfer service does not
  accept (`TimeoutPatchIsRefused`).
- The webhook means to deduplicate by Stripe event id. The wrapper never returns one, and that is what keeps a
  payment from being credited twice (`EventIdWouldCreditTwice`).
- A half-open breaker admits any number of calls, and a late success can keep a failed probe from reopening it
  (`ProbeReopensExactlyWhen`).
- A transfer's status can go back: buyer_verify takes an expired transfer to pending_seller_otp, and seller_verify
  marks an expired or completed one failed. `TransferRank` shows that, with requests one at a time, these two are
  the only ways, and `TransferSlips` says exactly which replies lead there. A run from the first request on in
  which a completed transfer is marked failed is `SevenChangesAttained`.
- A transfer can be completed twice, but only if two buyer_verify or two seller_verify requests for it overlap
  (`TransferOnce`, `TransferOverlaps`).
- The ledger lookup that should keep a payment from being credited twice does not hold off deliveries that overlap;
  exactly those past their lookup when the first row is posted are booked again (`CreditedAgainExactlyWhen`).
- The answer to the last wrong code that the limit allows says that the account is locked. The lock is set only by the
  next request, and only if the count is still live then (`LockStarts`).
- The limit on wrong codes can be exceeded by one less than the number of requests that overlap, and by no more
  (`CountBoundedByOverlap`, `OverlapAttainsBound`).
- At the instant heldUntil the cached hold still sells and the status path does not (`CachePathAgrees`).

## Assumptions

- HoldSeat, ReleaseSeat and SellSeat lock their row, so each is one atomic step (for ReleaseSeat: its row update).
  GetSeatStatus is taken as one atomic step too; `SplitStatusLosesLateSales` says what splitting it costs.
- Hold tokens are fresh. `ReleaseCache` also needs a minted token to be presented only by the user it was
  handed to; `StolenTokenBlocksOwner` shows why.
- `CreditBooks` takes each handler as atomic with respect to other writers of the same balances, which the
  handlers write as absolute values read earlier. Missing balances read as zero.
- The balance arrives under the name `creditBalance`; `HandlersReadAlike` says exactly when that matters.
- Money is real-valued and clocks are integers; rounding and clock drift between services are not modelled,
  but every handler may read any clock value.

## Model

| member | source | states |
|---|---|---|
| `Purchase.OneTicketPerSeat` | orchestrators/ticket-purchase-orchestrator/routes.py:531-553 | In every interleaving of confirm sagas, holds, releases, dead-letter messages and status reads, with any Redis contents and any lost reply, two tickets (or two sales, or two charges) are never for the same seat |
| `Purchase.TicketOwnerHeldTheSeat` | orchestrators/ticket-purchase-orchestrator/routes.py:531-553 | The owner of a ticket is the user whose current hold, under its current token, was turned into the sale by some step of the run |
| `Purchase.WritesInOrder` | orchestrators/ticket-purchase-orchestrator/routes.py:528-570 | Every charge follows a ticket of the same saga, user, seat and price, and every ticket follows the sale of that seat to that user |
| `Purchase.ChargesTicketsSales` | orchestrators/ticket-purchase-orchestrator/routes.py:528-570 | After every run: charges ≤ tickets ≤ sales = number of seats in status sold, and the same inclusions seat by seat |
| `Purchase.SoldSeatsRun` | services/seat-inventory-service/grpc_server.py:418-445 | A seat is in status sold exactly when a sale of it was recorded by some saga |
| `Purchase.InvRun` | orchestrators/ticket-purchase-orchestrator/routes.py:531-571 | The invariant of the interleaved system holds after every run |
| `Purchase.PlayIsRun` | orchestrators/ticket-purchase-orchestrator/routes.py:462-664 | What a saga does on its own is a run of the interleaved system made of its own moves |
| `Purchase.CompensationKeepsSeatSold` | orchestrators/ticket-purchase-orchestrator/routes.py:553-563 | In every reachable state the compensating ReleaseSeat finds the seat sold and changes no row |
| `Purchase.TicketsStayActive` | services/ticket-service/routes.py:312-313 | No ticket ever leaves status active here: the ticket service refuses `payment_failed` |
| `PurchaseHandler.PurchaseOrchestrator.ConfirmPurchase` | orchestrators/ticket-purchase-orchestrator/routes.py:462-664 | The handler, left alone, leaves exactly the rows, tickets and writes that its saga leaves in the interleaved system under the same replies; its answer is the one that AnswerFromCache, AnswerFromRow and AnswerAfterSale spell out; sale, ticket, charge, ledger row and compensating release are stated exactly for every pattern of replies |
| `PurchaseHandler.AnswerFromCache` | orchestrators/ticket-purchase-orchestrator/routes.py:470-542 | Exactly when each code up to the sale is answered if Redis has an entry, mirrored by the row or not, for every holder, token, status, deadline, price and balance |
| `PurchaseHandler.AnswerFromRow` | orchestrators/ticket-purchase-orchestrator/routes.py:487-542 | The same if the row decides, including failed status calls, unknown and sold seats and run-out holds |
| `PurchaseHandler.AnswerAfterSale` | orchestrators/ticket-purchase-orchestrator/routes.py:544-664 | Exactly when 201, CREDIT_DEDUCTION_FAILED and 500 are answered after the sale |
| `PurchaseHandler.SellsAlongThePaths` | orchestrators/ticket-purchase-orchestrator/routes.py:470-542 | The requests that get to the sale are those that the two paths of ConfirmRules sell to |
| `PurchaseHandler.BooksOfPurchase` | orchestrators/ticket-purchase-orchestrator/routes.py:567-650 | When the balance read is current, the books become what CreditBooks reckons with |
| `PurchaseHandler.PurchaseOrchestrator.Process` | orchestrators/ticket-purchase-orchestrator/routes.py:465-664 | The same as ConfirmPurchase for a request that names an event |
| `PurchaseHandler.PurchaseOrchestrator.CheckHold` | orchestrators/ticket-purchase-orchestrator/routes.py:470-499 | Exactly the first step of the saga under the reply met, also when the status call fails, with the verdict of the cached entry or of the row that GetSeatStatus leaves |
| `PurchaseHandler.PurchaseOrchestrator.CheckCredit` | orchestrators/ticket-purchase-orchestrator/routes.py:501-529 | Exactly the price and credit steps of the saga; it passes only with a known price and a balance at least the price |
| `PurchaseHandler.PurchaseOrchestrator.AskPrice` | orchestrators/ticket-purchase-orchestrator/routes.py:501-506 | The price step of the saga |
| `PurchaseHandler.PurchaseOrchestrator.WeighCredit` | orchestrators/ticket-purchase-orchestrator/routes.py:508-529 | The credit step of the saga: refused exactly on a failed call or a balance below the price |
| `PurchaseHandler.PurchaseOrchestrator.Screen` | orchestrators/ticket-purchase-orchestrator/routes.py:470-529 | Exactly the saga's steps up to the sale; only a status call that arrives touches the row, and only to clear a run-out hold |
| `PurchaseHandler.PurchaseOrchestrator.Buy` | orchestrators/ticket-purchase-orchestrator/routes.py:531-650 | From the sale on, exactly the saga's steps under the replies met; code, row, writes, books and compensation are stated exactly |
| `PurchaseHandler.PurchaseOrchestrator.SellHeld` | orchestrators/ticket-purchase-orchestrator/routes.py:531-542 | The sale succeeds exactly for the current holder with the current token and an answered call |
| `PurchaseHandler.PurchaseOrchestrator.CreateTicket` | orchestrators/ticket-purchase-orchestrator/routes.py:544-553 | The ticket step: an error goes to the release, an exception ends the saga, an applied call leaves an active ticket |
| `PurchaseHandler.PurchaseOrchestrator.DeductCredits` | orchestrators/ticket-purchase-orchestrator/routes.py:567-571 | The charge step and its three ways on; the balance is overwritten with what is left of the one read before |
| `PurchaseHandler.PurchaseOrchestrator.LogPurchase` | orchestrators/ticket-purchase-orchestrator/routes.py:645-650 | The ledger post adds one row of minus the price under the ticket, and cannot refuse the purchase, only raise |
| `PurchaseHandler.PurchaseOrchestrator.MarkTicketFailed` | orchestrators/ticket-purchase-orchestrator/routes.py:576-586 | The marking PATCH changes no ticket, whatever becomes of the call |
| `PurchaseHandler.PurchaseOrchestrator.CompensateSeat` | orchestrators/ticket-purchase-orchestrator/routes.py:553-563 | The compensating release of the sold seat: refused by the row or from the idempotency cache, no row or hold entry changes, and the refusal is recorded exactly if the call arrives uncached |
| `PurchaseHandler.PurchaseOrchestrator.UndoPurchase` | orchestrators/ticket-purchase-orchestrator/routes.py:571-597 | The compensation of a refused charge is exactly the mark step and the release step, and leaves tickets and rows alone |
| `PurchaseHandler.PurchaseOrchestrator.Pay` | orchestrators/ticket-purchase-orchestrator/routes.py:567-650 | Charge, ledger and compensation are exactly the saga's steps; code, balance, ledger and release are decided by the replies |
| `PurchaseHandler.PurchaseOrchestrator.Fulfil` | orchestrators/ticket-purchase-orchestrator/routes.py:544-650 | Ticket, charge and ledger are exactly the saga's steps; 201 exactly when all three are answered; CREDIT_DEDUCTION_FAILED exactly when the charge is refused |
| `ConfirmRules.PathsSellExactlyWhen` | orchestrators/ticket-purchase-orchestrator/routes.py:470-542 | Exactly when the cache path and the status path sell, for every user, token, event reply and credit reply |
| `ConfirmRules.CachePathAgrees` | orchestrators/ticket-purchase-orchestrator/routes.py:470-542 | While the hold is live both paths leave the same row; over all times they differ exactly for an entitled buyer at the instant heldUntil |
| `ConfirmRules.CachedVerdict` | orchestrators/ticket-purchase-orchestrator/routes.py:471-486 | A cached entry refuses a different non-empty holder and a different non-empty token, then goes by its status and readable deadline, exactly |
| `ConfirmRules.RowVerdict` | orchestrators/ticket-purchase-orchestrator/routes.py:216-225 | A sold row is unavailable, a free or run-out one expired, a held one passes while its deadline has not, exactly |
| `ConfirmRules.FundsVerdict` | orchestrators/ticket-purchase-orchestrator/routes.py:501-529 | Failed event or credit calls, too little credit, or enough, exactly |
| `SeatInventory.SeatInventoryService.constructor` | orchestrators/event-orchestrator/routes.py:437-446 | Rows start free with empty hold fields |
| `SeatInventory.SeatInventoryService.DeleteHoldCache` | services/seat-inventory-service/grpc_server.py:107-145 | The retried deletion removes the entry exactly when some attempt reaches Redis |
| `SeatInventory.SeatInventoryService.HoldSeat` | services/seat-inventory-service/grpc_server.py:238-330 | A hold is granted exactly on a free or run-out row, for the seconds requested or 300; rows and hold cache afterwards are stated exactly, whether or not Redis can be reached |
| `SeatInventory.SeatInventoryService.ReleaseSeat` | services/seat-inventory-service/grpc_server.py:379-416 | A cached key answers without touching anything; otherwise the row is freed exactly for its holder and token and the result is cached; the hold cache is stated exactly |
| `SeatInventory.SeatInventoryService.SellSeat` | services/seat-inventory-service/grpc_server.py:418-445 | The row becomes sold exactly for its holder and token, with no look at the deadline; the hold cache is stated exactly |
| `SeatInventory.SeatInventoryService.GetSeatStatus` | services/seat-inventory-service/grpc_server.py:447-468 | A run-out hold is cleared, with its cache entry if Redis can be reached, and reported as available; any other row is reported unchanged |
| `SeatRuns.SoldIsFinal` | services/seat-inventory-service/grpc_server.py:395-445 | Once sold, a row never changes again, in any history of RPCs |
| `SeatRuns.HoldPersists` | services/seat-inventory-service/grpc_server.py:238-330 | For the seconds requested, or 300 if none are, a granted hold is still there, or the seat was sold, or that token was released |
| `SeatRuns.HoldIsExclusive` | services/seat-inventory-service/grpc_server.py:238-330 | For the seconds requested, or 300, no second hold is granted unless the first token was released in between, however stale the clock readings taken before the row lock |
| `SeatRuns.RowCarriesLatestToken` | services/seat-inventory-service/grpc_server.py:218-231 | A row carries a token exactly while held, and it is the token of the latest granted hold |
| `SeatRuns.OnlyLatestTokenActs` | orchestrators/ticket-purchase-orchestrator/dlx_consumer.py:50-62 | A release or sale with any token but the latest leaves the row unchanged, so a late dead-letter message is harmless |
| `SeatRuns.TokenActsOnce` | services/seat-inventory-service/grpc_server.py:379-445 | A minted token buys at most one release or sale |
| `SeatRuns.SplitStatusLosesLateSales` | services/seat-inventory-service/grpc_server.py:449-456 | Without atomicity GetSeatStatus undoes a sale exactly when the hold had run out at the time the row was read |
| `SeatRuns.SplitStatusExample` | services/seat-inventory-service/grpc_server.py:449-456 | A reachable sale that such a split undoes |
| `ReleaseCache.CachedReleaseRefinesUncached` | services/seat-inventory-service/grpc_server.py:379-416 | In every interleaving of cache lookup, locked update, cache write and vanishing entries, the rows are those of the service without the cache serving the same RPCs, each release once |
| `ReleaseCache.RunRefines` | services/seat-inventory-service/grpc_server.py:379-416 | The invariant and the refinement after every run |
| `ReleaseCache.ServedOnceRun` | services/seat-inventory-service/grpc_server.py:379-416 | Every answered release appears exactly once in the order that the uncached service follows |
| `ReleaseCache.UpdateSpends` | services/seat-inventory-service/grpc_server.py:391-412 | The locked update leaves the presented token unable ever to be current again |
| `ReleaseCache.HitRefines` | services/seat-inventory-service/grpc_server.py:381-386 | A cache hit skips a row update that would have refused |
| `ReleaseCache.SpentStays` | services/seat-inventory-service/grpc_server.py:379-416 | A spent token stays spent, because holds mint unseen tokens |
| `ReleaseCache.ReleaseAlone` | services/seat-inventory-service/grpc_server.py:379-416 | A release that runs undisturbed does what the RPC promises, row, cache and answer |
| `ReleaseCache.HitDepartsExactlyWhenHeld` | services/seat-inventory-service/grpc_server.py:379-390 | Without assumptions, a cache hit departs from the uncached RPC exactly when the row is held by the caller under that token |
| `ReleaseCache.StolenTokenBlocksOwner` | services/seat-inventory-service/grpc_server.py:379-416 | Why the owner assumption is needed: a stranger who presents the token first makes the owner's release fail |
| `TransferSaga.SagaEndsInThreeWays` | orchestrators/transfer-orchestrator/routes.py:346-507 | For every pattern of errors, exceptions and lost replies the saga did all seven steps, or left balances, ledger, ticket and listing as they were, or reported compensation errors — exactly unless one of the first three calls failed although its write went through |
| `TransferSaga.CleanExactlyWhen` | orchestrators/transfer-orchestrator/routes.py:412-457 | Compensation reports no error exactly when at most two steps had completed and their restores succeed |
| `TransferSaga.FinishedIsAllDone` | orchestrators/transfer-orchestrator/routes.py:351-404 | Seven completed steps mean all seven effects |
| `TransferSaga.CleanIsUntouched` | orchestrators/transfer-orchestrator/routes.py:409-460 | A failure without compensation errors leaves everything as it was exactly unless the failing write went through unseen |
| `TransferSaga.LateFailureIsNeverClean` | orchestrators/transfer-orchestrator/routes.py:412-457 | A failure after three or more completed steps always reports errors and leaves ledger rows; from five on the buyer keeps the ticket |
| `TransferSaga.CompensationOutcome` | orchestrators/transfer-orchestrator/routes.py:409-460 | For every point of failure, when no undo raises: both balances, ledger, ticket, listing and the list of reported errors, exactly |
| `TransferSaga.RaiseEndsCompensation` | orchestrators/transfer-orchestrator/routes.py:412-457 | An undo that raises is the last one reported, and none after it is made |
| `TransferSaga.Progress` | orchestrators/transfer-orchestrator/routes.py:351-407 | The number of completed steps: all before it succeeded, the next one did not |
| `TransferSagaHandler.TransferOrchestrator.ExecuteSaga` | orchestrators/transfer-orchestrator/routes.py:346-507 | The saga run call by call reaches exactly the records and the outcome of the closed form, for every reply pattern |
| `TransferSagaHandler.TransferOrchestrator.MoveMoney` | orchestrators/transfer-orchestrator/routes.py:351-381 | Steps 1 to 4: completed list, balances and ledger for every failure point |
| `TransferSagaHandler.TransferOrchestrator.MoveTicket` | orchestrators/transfer-orchestrator/routes.py:383-404 | Steps 5 to 7: completed list, ticket, listing and transfer record for every failure point |
| `TransferSagaHandler.TransferOrchestrator.TryUndo` | orchestrators/transfer-orchestrator/routes.py:412-454 | One compensating call: made exactly if its step completed, reported exactly if refused or failed |
| `TransferSagaHandler.TransferOrchestrator.ReverseTxns` | orchestrators/transfer-orchestrator/routes.py:438-454 | The ledger part of the compensation, which changes nothing and reports each logged row it cannot reverse |
| `TransferSagaHandler.TransferOrchestrator.Compensate` | orchestrators/transfer-orchestrator/routes.py:412-457 | Reverse compensation: the errors reported, the listing and both balances, with an exception skipping the rest |
| `TransferFlow.NoCompletionWithoutBothCodes` | orchestrators/transfer-orchestrator/routes.py:562-998 | In every interleaving, whatever fails, a completed transfer was preceded by an accepted buyer code and a later accepted seller code, and buyer and seller differ |
| `TransferFlow.GatedRun` | orchestrators/transfer-orchestrator/routes.py:677-998 | The invariant behind it after every run |
| `TransferFlow.PatchEffects` | services/transfer-service/routes.py:11-18 | What the PATCH bodies that the handlers send do to a record |
| `TransferFlow.PlayIsRun` | orchestrators/transfer-orchestrator/routes.py:514-1443 | What a handler does on its own is a run of the interleaved system made of its own moves |
| `TransferService.PatchKeepsTerms` | services/transfer-service/routes.py:11-18 | No PATCH touches parties, listing, amount or deadline |
| `TransferService.TimeoutPatchIsRefused` | orchestrators/transfer-orchestrator/timeout_consumer.py:43-47 | The timeout consumer's PATCH is refused for every record at every time |
| `TransferService.TransferStore.Create` | services/transfer-service/routes.py:155-179 | A new record is pending acceptance, with no codes, and expires after 86400 seconds |
| `TransferService.TransferStore.Get` | services/transfer-service/routes.py:250-260 | A look expires exactly an overdue record that is not completed, cancelled or expired, and returns what is then stored |
| `TransferService.TransferStore.Patch` | services/transfer-service/routes.py:305-333 | The setattr loop applies the fields in order exactly if all are updatable, the record is not overdue and timestamps parse; an overdue record is expired and the PATCH refused |
| `TransferService.TransferStore.Cancel` | services/transfer-service/routes.py:358-367 | Cancels exactly a record that is not completed, cancelled or expired |
| `TransferRank.ClimbsExactlyWithoutSlips` | orchestrators/transfer-orchestrator/routes.py:514-1443 | In every run of requests one at a time, with any failures, clocks and lost replies, the status climbs strictly at every change exactly if no PATCH to pending_seller_otp lands on an expired record and no failure mark on an expired or completed one |
| `TransferRank.StepClimbsExactly` | services/transfer-service/routes.py:250-333 | The same for a single call, and the running handler's knowledge of the status is kept |
| `TransferRank.CancelledIsFinal` | services/transfer-service/routes.py:358-367 | With requests one at a time cancelled is final |
| `TransferRank.CompletedIsFinalExactly` | orchestrators/transfer-orchestrator/routes.py:397-460 | A completed transfer stays completed exactly as long as no failure mark lands on it |
| `TransferRank.StatusOnlyClimbs` | orchestrators/transfer-orchestrator/routes.py:514-1443 | Between any two points of a run without slips the status is the same or of strictly higher rank |
| `TransferRank.EndIsFinal` | services/transfer-service/routes.py:358-367 | Cancelled and completed are final in a run without slips |
| `TransferRank.AtMostFiveChanges` | orchestrators/transfer-orchestrator/routes.py:514-1443 | A run without slips changes the status at most five times |
| `TransferRank.AtMostEightChanges` | orchestrators/transfer-orchestrator/routes.py:514-1443 | With slips and all, a run of requests one at a time changes the status at most eight times |
| `TransferClock.AtMostSevenChanges` | orchestrators/transfer-orchestrator/routes.py:514-1443 | With requests one at a time and clocks that do not go back, the status changes at most seven times, whatever fails and whenever the deadline passes |
| `TransferClock.SevenChangesAttained` | orchestrators/transfer-orchestrator/routes.py:938-998 | A run from the first request on, one request at a time and with clocks in order, in which the status slips, changes seven times, and ends in cancelled although a saga has completed the transfer |
| `TransferRank.CarefulRunsDoNotSlip` | orchestrators/transfer-orchestrator/routes.py:682-998 | No call slips if no deadline passes between a handler's GET and its calls and the completing reply is not lost |
| `TransferRank.CarefulRunClimbs` | orchestrators/transfer-orchestrator/routes.py:514-1443 | Under that condition on clocks and replies the status only climbs, at most five times |
| `TransferRank.CountedOnceRun` | orchestrators/transfer-orchestrator/routes.py:943-998 | After a completion the transfer is out of reach of another one |
| `TransferOnce.AtMostOneCompletion` | orchestrators/transfer-orchestrator/routes.py:677-998 | At most one saga ever completes a transfer, and a completed transfer was completed by one, in every interleaving of all handlers in which neither two buyer_verify nor two seller_verify requests overlap, whatever the deadlines and lost replies |
| `TransferOnce.InvRun` | orchestrators/transfer-orchestrator/routes.py:677-998 | The invariant behind it: from the seller's turn on the buyer's code stays recorded and no buyer_verify is at work |
| `TransferOnce.SoloIsApart` | orchestrators/transfer-orchestrator/routes.py:677-998 | Requests one at a time are a special case |
| `TransferOverlaps.BothConditionsAreNeeded` | orchestrators/transfer-orchestrator/routes.py:677-998 | With either condition dropped there is a run from the first request on in which two sagas complete |
| `TransferOverlaps.OverlappingBuyersCompleteTwice` | orchestrators/transfer-orchestrator/routes.py:701-719 | Such a run without overlapping seller_verify requests: the late PATCH of one of two buyer_verify requests takes the completed transfer back to the seller |
| `TransferOverlaps.OverlappingSellersCompleteTwice` | orchestrators/transfer-orchestrator/routes.py:938-998 | Such a run with two overlapping seller_verify requests |
| `TransferSlips.BuyerVerifySlipsExactlyWhen` | orchestrators/transfer-orchestrator/routes.py:677-719 | For all replies: the whole record and the log that buyer_verify leaves behind its guard, and that the status slips exactly when the code is accepted, the first PATCH lands after the deadline and the second one lands |
| `TransferSlips.SellerVerifySlipsExactlyWhen` | orchestrators/transfer-orchestrator/routes.py:938-998 | For all replies, also too little credit, a failed saga and a lost reply: the whole record and the log that seller_verify leaves behind its guard, exactly when it completes the transfer, and exactly when the status slips, told from replies, clocks and deadline alone |
| `TransferSlips.CloseOutcome` | orchestrators/transfer-orchestrator/routes.py:397-460 | The record, the log and the slip of the last PATCHes of seller_verify |
| `TransferSlips.TransactOutcome` | orchestrators/transfer-orchestrator/routes.py:970-998 | The same from the balance check on, for each of its three verdicts |
| `TransferSlips.FlightMatchesSaga` | orchestrators/transfer-orchestrator/routes.py:346-507 | Meeting the same replies, the flight of seller_verify leaves the transfer record that the saga leaves |
| `TransferSlips.SagaLeavesClosed` | orchestrators/transfer-orchestrator/routes.py:397-460 | The transfer record after the saga, told from the completing PATCH and the failure mark |
| `TransferSlips.GuardedOut` | orchestrators/transfer-orchestrator/routes.py:677-688 | A handler that its guard refuses or whose GET fails leaves nothing but the lazy expiry of that GET; TransferOutcomes says whom the guards refuse |
| `TransferSlips.OverlappingSellerVerifyCompletesTwice` | orchestrators/transfer-orchestrator/routes.py:938-998 | Two overlapping seller_verify requests run the saga of one transfer to its end twice |
| `TransferSlips.HappyPathCompletes` | orchestrators/transfer-orchestrator/routes.py:584-998 | With every call answered in time a transfer gets from initiate to completed, and then no handler has anything left to do |
| `TransferSlips.DriveReachesCompletion` | orchestrators/transfer-orchestrator/routes.py:943-998 | seller_verify with every call answered stands before the completing PATCH with the seller's code recorded |
| `TransferHandlers.TransferDesk.InitiateHandler` | orchestrators/transfer-orchestrator/routes.py:561-598 | initiate leaves exactly the state of its flight under the reply met; a record exists afterwards exactly if the parties differ and the balance suffices; no other record is touched |
| `TransferHandlers.TransferDesk.OfferCode` | orchestrators/transfer-orchestrator/routes.py:584-598 | The buyer's OTP and the PATCH behind it are exactly the flight's last call |
| `TransferHandlers.TransferDesk.SellerAcceptHandler` | orchestrators/transfer-orchestrator/routes.py:773-795 | seller_accept leaves exactly the state that its GET and its one call leave in the flight; anyone but the seller leaves only the lazy expiry of the GET; no other record is touched |
| `TransferHandlers.TransferDesk.CancelHandler` | orchestrators/transfer-orchestrator/routes.py:1415-1426 | seller_reject and cancel_transfer leave exactly the state that GET, guard and PATCH leave in their flights; only the seller rejects and only the two parties cancel |
| `TransferHandlers.TransferDesk.CancelRecord` | orchestrators/transfer-orchestrator/routes.py:863-873 | An applied PATCH on a record not overdue cancels it and changes nothing else |
| `TransferHandlers.TransferDesk.ResendHandler` | orchestrators/transfer-orchestrator/routes.py:1351-1385 | resend_otp leaves exactly the state of its flight; an outsider leaves only the lazy expiry of the GET |
| `TransferHandlers.TransferDesk.BuyerVerifyHandler` | orchestrators/transfer-orchestrator/routes.py:677-719 | buyer_verify leaves exactly the state of its flight under the replies met, call by call, and is then over; anyone but the buyer leaves only the lazy expiry of the GET |
| `TransferHandlers.TransferDesk.CheckCode` | orchestrators/transfer-orchestrator/routes.py:693-699 | The code is accepted exactly if the OTP service answered and verified it, and acceptance is logged |
| `TransferHandlers.TransferDesk.NotifySeller` | orchestrators/transfer-orchestrator/routes.py:701-719 | The rest of buyer_verify is exactly flag, OTP and PATCH of the flight |
| `TransferHandlers.TransferDesk.AwaitSeller` | orchestrators/transfer-orchestrator/routes.py:705-719 | The seller's OTP and the PATCH behind it are exactly those of the flight |
| `TransferHandlers.TransferDesk.SellerVerifyHandler` | orchestrators/transfer-orchestrator/routes.py:938-998 | seller_verify leaves exactly the state of its flight under the replies met, call by call, and is then over; anyone but the seller leaves only the lazy expiry of the GET |
| `TransferHandlers.TransferDesk.Settle` | orchestrators/transfer-orchestrator/routes.py:963-998 | The rest of seller_verify is exactly the flag PATCH and what follows it in the flight |
| `TransferHandlers.TransferDesk.Transact` | orchestrators/transfer-orchestrator/routes.py:973-998 | Give up, mark failed or run the saga: exactly the calls of the flight under the balances found |
| `TransferHandlers.TransferDesk.RunSaga` | orchestrators/transfer-orchestrator/routes.py:351-404 | The saga as the transfer record sees it: exactly the flight's calls |
| `TransferHandlers.TransferDesk.TryComplete` | orchestrators/transfer-orchestrator/routes.py:397-404 | Step 7 completes exactly on an accepted PATCH and is confirmed only if also answered |
| `TransferHandlers.TransferDesk.Close` | orchestrators/transfer-orchestrator/routes.py:397-460 | Completed and, unless confirmed, failed: exactly the flight's last PATCHes |
| `TransferHandlers.TransferDesk.TimeoutConsumer` | orchestrators/transfer-orchestrator/timeout_consumer.py:68-94 | The consumer's one lasting effect is the lazy expiry of its GET |
| `TransferHandlers.TransferDesk.CancelRoute` | services/transfer-service/routes.py:358-367 | The transfer service's cancel route is the system's service-cancel step |
| `TransferOutcomes.OnlyPartiesAct` | orchestrators/transfer-orchestrator/routes.py:680-1419 | In every interleaving, whatever fails, nobody but the buyer is past the guard of buyer_verify, nobody but the seller past those of accept, reject and seller_verify, and nobody but the two past that of cancel |
| `TransferOutcomes.InitiateOutcome` | orchestrators/transfer-orchestrator/routes.py:561-598 | For all inputs: no record for one's own listing or with too little credit; otherwise a record with a deadline a day away, and the PATCH behind the buyer's OTP |
| `TransferOutcomes.AcceptOutcome` | orchestrators/transfer-orchestrator/routes.py:773-795 | For all records, users and replies: what seller_accept leaves, and that only the seller gets anything, while acceptance is due |
| `TransferOutcomes.RejectOutcome` | orchestrators/transfer-orchestrator/routes.py:863-873 | The same for seller_reject |
| `TransferOutcomes.CancelOutcome` | orchestrators/transfer-orchestrator/routes.py:1415-1426 | The same for cancel_transfer and either party, unless completed, cancelled or failed |
| `TransferOutcomes.ResendOutcome` | orchestrators/transfer-orchestrator/routes.py:1351-1385 | The same for resend_otp and whoever's code is due |
| `TransferOutcomes.TimeoutOutcome` | orchestrators/transfer-orchestrator/timeout_consumer.py:68-94 | The same for the timeout consumer: nothing |
| `TransferOutcomes.ServiceCancelOutcome` | services/transfer-service/routes.py:358-367 | The transfer service's cancel route cancels exactly what is not completed, cancelled or expired |
| `TransferOutcomes.BuyerVerifyOutcome` | orchestrators/transfer-orchestrator/routes.py:677-719 | For all records, users and replies: the record and log that buyer_verify leaves, with who may act and when |
| `TransferOutcomes.SellerVerifyOutcome` | orchestrators/transfer-orchestrator/routes.py:938-998 | The same for seller_verify, completion, failure mark and lost replies included |
| `TransferOutcomes.Looked` | services/transfer-service/routes.py:250-260 | The look that opens every handler expires exactly an overdue record that is not completed, cancelled or expired |
| `TopUp.IntentCreditedOnce` | orchestrators/credit-orchestrator/routes.py:160-275 | Over every order and repetition of confirmations and webhooks of one intent, with reliable ledger calls, the balance grows once if any delivery gets through, never twice, by the whole credits requested, which are the charged cents divided by 100 |
| `TopUp.CreditedOnce` | orchestrators/credit-orchestrator/routes.py:160-275 | The same for any notice without event id, with the ledger growing by exactly one row |
| `TopUp.CreditedTwiceExactlyWhen` | orchestrators/credit-orchestrator/routes.py:160-275 | Two deliveries both credit exactly when the first leaves no ledger row under the reference the second looks up, or that lookup fails |
| `TopUp.EventIdWouldCreditTwice` | services/stripe-wrapper/routes.py:215-228 | A wrapper that returned event ids would let webhook and confirmation both credit |
| `TopUp.DecimalRoundTrip` | services/stripe-wrapper/routes.py:81-88 | The amount survives its trip as a decimal string through the intent's metadata |
| `TopUp.IntentCreatedExactlyWhen` | orchestrators/credit-orchestrator/routes.py:82-90 | A top-up is refused exactly below one credit; otherwise whole credits are charged at 100 cents each to the user who asked |
| `TopUp.DeliveredExactly` | orchestrators/credit-orchestrator/routes.py:160-275 | Balances and ledger after one delivery, for every notice, source and reply: who is credited, how much, under which reference, and what is refused |
| `TopUp.CreditOrchestrator.FindByReference` | services/credit-transaction-service/routes.py:200-212 | The lookup finds a row exactly if one carries the reference |
| `TopUp.CreditOrchestrator.Credit` | orchestrators/credit-orchestrator/routes.py:180-196 | Balance and ledger after the shared tail, for every pattern of failures |
| `TopUp.CreditOrchestrator.ConfirmTopup` | orchestrators/credit-orchestrator/routes.py:160-198 | The confirm handler does what one delivery does in the runs above |
| `TopUp.CreditOrchestrator.StripeWebhook` | orchestrators/credit-orchestrator/routes.py:233-275 | The webhook handler does what one delivery does in the runs above |
| `TopUpRace.OverlapCreditsTwice` | orchestrators/credit-orchestrator/routes.py:174-196 | Two deliveries that both look before either posts credit the user twice under one reference, although every call is answered |
| `TopUpRace.OverlapCountsCredits` | orchestrators/credit-orchestrator/routes.py:174-196 | With answered calls, in every interleaving after the first post, rows posted plus deliveries past their lookup stay constant: each such delivery posts exactly one row and no other one does |
| `TopUpRace.CreditedAgainExactlyWhen` | orchestrators/credit-orchestrator/routes.py:174-196 | Once all are done the intent has been booked again exactly if some delivery had passed its lookup when the first row was there, and as often as there were such deliveries |
| `TopUpRace.OverlapBoundsCredits` | orchestrators/credit-orchestrator/routes.py:174-196 | With working lookups and any other failures, no more rows are posted than that |
| `TopUpRace.OverlapLosesCredit` | orchestrators/credit-orchestrator/routes.py:180-196 | Two deliveries that read before either writes book two credits and add one |
| `TopUpRace.NoOverlapNoCredit` | orchestrators/credit-orchestrator/routes.py:174-196 | With none in between, no later delivery in any interleaving changes the books |
| `TopUpRace.AloneIsDeliver` | orchestrators/credit-orchestrator/routes.py:174-196 | A delivery split into lookup, read, write and post and run undisturbed is the atomic delivery of the runs above |
| `CreditBooks.BalancesFollowLedger` | orchestrators/transfer-orchestrator/routes.py:352-381 | Over every sequence of top-ups, purchases and transfers and every pattern of failures, each balance moves by the user's ledger sum plus exactly the stated gaps |
| `CreditBooks.FaithfulHasNoGap` | orchestrators/ticket-purchase-orchestrator/routes.py:567-650 | A job has no gap unless a write went unposted or unconfirmed, or a saga failed with errors or silently |
| `CreditBooks.GapIsAllOrNothing` | orchestrators/credit-orchestrator/routes.py:180-196 | A gap is the whole amount one way or the other or nothing, and only for a party of a job that was reached and not booked faithfully |
| `CreditBooks.GapExactlyWhenUnfaithful` | orchestrators/ticket-purchase-orchestrator/routes.py:567-650 | A top-up or purchase leaves a gap exactly when it was reached, is about a non-zero amount and was not booked faithfully |
| `CreditBooks.TransferGapExactlyWhen` | orchestrators/transfer-orchestrator/routes.py:352-454 | A transfer leaves no gap for a party exactly when it left the balance changed if and only if it left a ledger row |
| `CreditBooks.TransferGapFreeExactlyWhen` | orchestrators/transfer-orchestrator/routes.py:352-454 | The same for both parties, told from the point of failure and the replies |
| `CreditBooks.FaithfulRunBalances` | orchestrators/credit-orchestrator/routes.py:176-196 | If every job was booked faithfully, balances and ledger agree |
| `CreditBooks.JobBalance` | orchestrators/transfer-orchestrator/routes.py:352-381 | One job moves a balance by what it books plus its gap |
| `CreditBooks.NeverNegative` | orchestrators/ticket-purchase-orchestrator/routes.py:527-570 | With non-negative prices no balance goes negative, whatever fails |
| `CreditBooks.FinishedTransferConserves` | orchestrators/transfer-orchestrator/routes.py:352-365 | A finished transfer moves the amount from buyer to seller and makes no credit |
| `CreditBooks.TransferBalances` | orchestrators/transfer-orchestrator/routes.py:352-436 | What a saga moves on each balance, for every failure pattern |
| `CreditBooks.TransferLedger` | orchestrators/transfer-orchestrator/routes.py:366-381 | What a saga books for each user, for every failure pattern |
| `CreditBooks.PurchaseMoves` | orchestrators/ticket-purchase-orchestrator/routes.py:567-650 | What a purchase moves and what it books |
| `CreditBooks.HandlersReadAlike` | orchestrators/credit-orchestrator/routes.py:184 | Exactly when top-up reads the balance that the purchase reads from the same credit reply |
| `CheckIn.AtMostOneSuccess` | orchestrators/ticket-verification-orchestrator/routes.py:192-277 | In every interleaving of scans of one ticket at most one succeeds, if no lock runs out inside, Redis is up for locking, no log query is refused and no check-in entry is refused unwritten; exceptions and lost replies are allowed |
| `CheckIn.InvRun` | orchestrators/ticket-verification-orchestrator/routes.py:192-294 | The invariant of the interleaved scans after every run |
| `CheckIn.PlayIsRun` | orchestrators/ticket-verification-orchestrator/routes.py:192-294 | What a scan does on its own is a run of the interleaved system made of its own moves |
| `CheckIn.LockIsExclusive` | orchestrators/ticket-verification-orchestrator/routes.py:62-121 | With distinct tokens and expiry at any step, at most one scan owns the live lock, and a move removes only the entry its own scan wrote |
| `CheckIn.LockSaneRun` | orchestrators/ticket-verification-orchestrator/routes.py:62-121 | The live entry belongs to the scan that wrote it, after every run |
| `CheckIn.OnlyOwnerUnlocks` | orchestrators/ticket-verification-orchestrator/routes.py:98-121 | A lock entry disappears in a move only if the mover wrote it |
| `CheckInFaults.EachFaultLetsTwoSucceed` | orchestrators/ticket-verification-orchestrator/routes.py:192-277 | For each of those four faults a run from the first reading of the ticket, without any other fault, in which two scans succeed |
| `CheckInFaults.TwoInsideBothSucceed` | orchestrators/ticket-verification-orchestrator/routes.py:243-277 | Two scans inside at once can both succeed |
| `CheckInFaults.VisitSucceeds` | orchestrators/ticket-verification-orchestrator/routes.py:192-294 | A scan of an active ticket from lock to unlock, with the state it leaves |
| `CheckIn.EqualTokensLoseTheLock` | orchestrators/ticket-verification-orchestrator/routes.py:73-121 | A release takes away another scan's lock exactly when the tokens coincide |
| `CheckInHandler.VerificationDesk.AcquireScanLock` | orchestrators/ticket-verification-orchestrator/routes.py:62-95 | Exactly the scan's locking steps under the replies met, lock included; it enters exactly without Redis, or with a free lock and a first attempt to reach Redis that is also answered |
| `CheckInHandler.VerificationDesk.RetryLock` | orchestrators/ticket-verification-orchestrator/routes.py:76-95 | The retry loop leaves exactly the lock that its attempts leave, and wins it exactly as stated |
| `CheckInHandler.VerificationDesk.TryOnce` | orchestrators/ticket-verification-orchestrator/routes.py:77-81 | One SET NX EX: the lock and the scan afterwards |
| `CheckInHandler.VerificationDesk.ReleaseScanLock` | orchestrators/ticket-verification-orchestrator/routes.py:98-121 | Compare-and-delete: an entry with another token stays, the own entry goes |
| `CheckInHandler.VerificationDesk.CheckTicket` | orchestrators/ticket-verification-orchestrator/routes.py:204-241 | Passes exactly if the outer checks pass and the ticket read before locking was active |
| `CheckInHandler.VerificationDesk.QueryLogs` | orchestrators/ticket-verification-orchestrator/routes.py:243-251 | Refuses exactly on a found check-in or an exception; a failed query reads as no entries |
| `CheckInHandler.VerificationDesk.Examine` | orchestrators/ticket-verification-orchestrator/routes.py:204-251 | Exactly both check steps, log entries included, with their joint condition |
| `CheckInHandler.VerificationDesk.CheckPlace` | orchestrators/ticket-verification-orchestrator/routes.py:253-273 | The venue and event step of the scan |
| `CheckInHandler.VerificationDesk.WriteCheckIn` | orchestrators/ticket-verification-orchestrator/routes.py:275-277 | Exactly both writes under the replies met; it succeeds exactly if neither raises |
| `CheckInHandler.VerificationDesk.Admit` | orchestrators/ticket-verification-orchestrator/routes.py:253-277 | Exactly the steps from venue to check-in; it succeeds exactly if venue and event match and neither write raises |
| `CheckInHandler.VerificationDesk.Serve` | orchestrators/ticket-verification-orchestrator/routes.py:204-277 | The critical section: exactly the scan's steps between lock and unlock, with the condition of its success |
| `CheckInHandler.VerificationDesk.Scan` | orchestrators/ticket-verification-orchestrator/routes.py:192-294 | The handler leaves exactly ticket, logs and lock that its scan leaves in the interleaved system under the same replies; a lock won is given back however it ends; it succeeds exactly if it gets past the lock, the ticket was active, no check-in is found, the checks pass and no call raises |
| `CircuitBreaker.CountsFailures` | orchestrators/ticket-purchase-orchestrator/service_client.py:66-122 | In every interleaving of admissions and completions the count is the number of failures since the last counted reset, the stored time is that of the last failure, and closed implies count < threshold |
| `CircuitBreaker.OpenWaitsForRecovery` | orchestrators/ticket-purchase-orchestrator/service_client.py:66-100 | An open breaker admits exactly when the recovery time has passed since the last failure of the history |
| `CircuitBreaker.SequentialCounts` | orchestrators/ticket-purchase-orchestrator/service_client.py:66-122 | With calls in sequence closed means count < threshold and open or half-open means count ≥ threshold |
| `CircuitBreaker.FailedProbeReopens` | orchestrators/ticket-purchase-orchestrator/service_client.py:114-122 | With calls in sequence a failed probe always reopens the breaker |
| `CircuitBreaker.ProbeReopensExactlyWhen` | orchestrators/ticket-purchase-orchestrator/service_client.py:114-122 | With overlapping calls it does so exactly when the count reaches the threshold |
| `CircuitBreaker.LateSuccessDefeatsProbe` | orchestrators/ticket-purchase-orchestrator/service_client.py:102-122 | A history in which a late success clears an open breaker's count, so that its failed probe leaves it half-open |
| `CircuitBreaker.ProbesClose` | orchestrators/ticket-purchase-orchestrator/service_client.py:102-112 | A half-open breaker closes and forgets its failures with exactly as many successes as the settings ask for |
| `CircuitBreaker.CircuitBreaker.Enter` | orchestrators/ticket-purchase-orchestrator/service_client.py:66-75 | Admission and the move to half-open |
| `CircuitBreaker.CircuitBreaker.Succeed` | orchestrators/ticket-purchase-orchestrator/service_client.py:102-112 | The state after a success |
| `CircuitBreaker.CircuitBreaker.Fail` | orchestrators/ticket-purchase-orchestrator/service_client.py:114-122 | The state after a failure |
| `ServiceClient.CallService` | orchestrators/ticket-purchase-orchestrator/service_client.py:200-238 | The loop on a live breaker gives the result, contacts, start times and backoff ends of the recursive description |
| `ServiceClient.GuardedCall` | orchestrators/ticket-purchase-orchestrator/service_client.py:66-93 | One call through the breaker: admission, and that a healthy refusal does not count against the service while anything else does |
| `ServiceClient.Judge` | orchestrators/ticket-purchase-orchestrator/service_client.py:216-230 | Which answers end the loop, that a timely answer is the reply, and that an HTTP error gives its own code |
| `ServiceClient.TryOnce` | orchestrators/ticket-purchase-orchestrator/service_client.py:213-238 | One turn of the loop: whether it goes on, the result and the breaker |
| `ServiceClient.Turn` | orchestrators/ticket-purchase-orchestrator/service_client.py:213-238 | What a turn adds to the account of the whole call |
| `ServiceClient.OnlySafeMethodsRepeat` | orchestrators/ticket-purchase-orchestrator/service_client.py:25 | For every sequence of peer outcomes only a method that is safe in section 9.2.1 of RFC 9110 contacts the peer more than once |
| `ServiceClient.CallsKeepDeadline` | orchestrators/ticket-purchase-orchestrator/service_client.py:213-238 | No attempt starts and no backoff ends at or after the deadline; contacts never exceed attempts |
| `ServiceClient.ReplyIsTimely` | orchestrators/ticket-purchase-orchestrator/service_client.py:213-238 | A reply is the answer of one of the attempts, read before the deadline |
| `ServiceClient.RepliesExactlyWhen` | orchestrators/ticket-purchase-orchestrator/service_client.py:213-238 | A call replies exactly if one of its attempts is answered in time and every earlier one was started in time, admitted, met a transport error or one of 500, 502, 503 and 504, and had its backoff fit |
| `ServiceClient.CallEnds` | orchestrators/ticket-purchase-orchestrator/service_client.py:213-238 | For every sequence of peer answers: the attempt at which the call ends, why not earlier or later, and its result, contacts, start times, backoffs and breaker |
| `ServiceClient.RecordCounts` | orchestrators/ticket-purchase-orchestrator/service_client.py:76-93 | An answer or a status below 500 never raises the breaker's count, anything else raises it by one |
| `ServiceClient.LimitExactly` | orchestrators/ticket-purchase-orchestrator/service_client.py:204 | GET, HEAD and OPTIONS have one attempt more than their retries, other methods one |
| `ServiceClient.BreakerBoundsContacts` | orchestrators/ticket-purchase-orchestrator/service_client.py:66-122 | Within the recovery time a closed breaker lets through at most threshold − count contacts and an open one none |
| `ServiceClient.LoneCallerContacts` | orchestrators/ticket-purchase-orchestrator/service_client.py:200-238 | A lone caller on a closed breaker contacts the peer at most min(attempts, threshold − count) times when the call is shorter than the recovery time |
| `CallSlots.SlotsAreConserved` | orchestrators/ticket-purchase-orchestrator/service_client.py:241-270 | In every interleaving of callers, timeouts, failed submits and worker exits, free slots plus unfinished calls are the pool size, and each admitted call gives its slot back exactly once, at its end |
| `CallSlots.RefusedExactlyWhenFull` | orchestrators/ticket-purchase-orchestrator/service_client.py:258-265 | A call is refused exactly when the pool is taken up by unfinished calls, and no step releases beyond the bound |
| `CallSlots.TimeoutKeepsSlot` | orchestrators/ticket-purchase-orchestrator/service_client.py:241-270 | A caller that times out leaves its slot taken until the worker is done |
| `CallSlots.HttpPool.TryAcquire` | orchestrators/ticket-purchase-orchestrator/service_client.py:258-261 | The acquire step on the semaphore |
| `CallSlots.HttpPool.Release` | orchestrators/ticket-purchase-orchestrator/service_client.py:241-250 | The release step never exceeds the bound |
| `CallSlots.HttpPool.Begin` | orchestrators/ticket-purchase-orchestrator/service_client.py:252-267 | Acquire and submit; a failed submit gives the slot back |
| `OtpLimiter.SomeGapIsLong` | services/otp-wrapper/routes.py:49-105 | With requests in sequence, among any limit + 1 successive counted failures without a success between them some two neighbours are at least a window apart |
| `OtpLimiter.CounterIsBurst` | services/otp-wrapper/routes.py:81-94 | The stored counter is the length of the current burst of failures and dies one window after the last; no burst exceeds the limit |
| `OtpLimiter.TightRunIsBurst` | services/otp-wrapper/routes.py:81-94 | Failures that follow one another within the window are counted together |
| `OtpLimiter.FailureExtends` | services/otp-wrapper/routes.py:49-94 | One more counted failure keeps counter and bound |
| `OtpLimiter.LockStarts` | services/otp-wrapper/routes.py:64-76 | A request that finds a live burst as long as the limit, and no lock, is refused and starts the lockout |
| `OtpLimiter.LockedOut` | services/otp-wrapper/routes.py:56-76 | After it every request checked within the lockout is refused, right code or not, however long the burst has died out |
| `OtpLimiter.FailureAnswered` | services/otp-wrapper/routes.py:259-266 | A counted failure is answered by the limit exactly if it makes the burst as long as the limit |
| `OtpLimiter.AnsweredExactly` | services/otp-wrapper/routes.py:242-287 | Everything else that a request can be answered |
| `OtpLimiter.LiveCount` | services/otp-wrapper/routes.py:49-94 | The live count told from the failures: the current burst, unless it has died out |
| `OtpRace.CountBoundedByOverlap` | services/otp-wrapper/routes.py:242-275 | In every interleaving with at most k requests between check and reply and clocks in order, live count plus waiting requests is at most limit - 1 + k |
| `OtpRace.SomeGapIsLongDespiteOverlap` | services/otp-wrapper/routes.py:49-105 | Among any limit + k successive counted failures without a success between them some two neighbours are at least a window apart; k is one for requests in sequence |
| `OtpRace.OverlapAttainsBound` | services/otp-wrapper/routes.py:242-275 | For every limit and every k a run from a fresh limiter whose live count reaches limit - 1 + k |
| `OtpRace.LockedOutDespiteOverlap` | services/otp-wrapper/routes.py:56-76 | Once a check finds the limit reached, no request gets past its check within the lockout, in any interleaving, unless a waiting one verifies in between |
| `OtpRace.SuccessClears` | services/otp-wrapper/routes.py:97-105 | A success clears counter and lock, so that the next request gets past its check |
| `OtpRace.InvRun` | services/otp-wrapper/routes.py:49-94 | The counter is the current burst and the bound holds after every such run |
| `OtpRace.AloneIsVerify` | services/otp-wrapper/routes.py:242-287 | A request split into check and reply and run undisturbed is the request of the sequential runs |
| `OtpLimiter.RateLimiter.CheckRateLimit` | services/otp-wrapper/routes.py:49-78 | Allowed exactly if not locked and below the limit; a refusal without a lock sets the lock for the lockout, any other request leaves it |
| `OtpLimiter.RateLimiter.IncrementAttempt` | services/otp-wrapper/routes.py:81-94 | The counter grows by one and its window restarts |
| `OtpLimiter.RateLimiter.ResetAttempts` | services/otp-wrapper/routes.py:97-105 | Counter and lock are gone |
| `OtpLimiter.RateLimiter.VerifyOtp` | services/otp-wrapper/routes.py:242-287 | One request in the runs above, verified exactly if allowed and accepted upstream |

## Left out

- HoldSeat's deadlock retry and rollback: each locked RPC is one step.
- RabbitMQ connections, queues and publishing, including the dead-letter notes on failed compensation: a message may be delivered at any later time or never.
- The gRPC channel pool, the Redis breaker in the purchase routes and the graceful shutdown counter: easy members.
- Flask routing, JSON envelopes, JWT checks, Swagger, logging, Sentry and PostHog.
- Enrichment and aggregation in the event, marketplace, QR and transfer orchestrators, resume_hold, and all transfer notifications: read-only joins and broadcasts.
- hold_seat and release_hold of the purchase orchestrator beyond the RPCs they call.
- Marketplace listing and delisting. A listing is not reserved at initiate nor rechecked at seller-verify, so nothing is claimed about how many transfers of one listing complete.
- The listing and ticket PATCHes that seller_reject, cancel_transfer and the timeout consumer make beside the transfer PATCH.
- manual_verify, which takes no lock.
- The guard on a non-positive total timeout, httpx streaming, asyncio cancellation, thread scheduling and the response size limit: attempts are given by their outcomes and clock readings.
- OTP sending, QR hashing, Stripe and OutSystems back ends: their replies are arbitrary inputs.
- The field loop of the ticket service's update: only its verdict on the status is modelled.
- Seeds, migrations, pagination and the user, venue and event CRUD routes.
- Purchase.OneTicketPerSeat: an event or credit reply without a usable number is treated like a failed call, where the handler answers 500 instead of 503; neither goes on to the sale.
- TransferHandlers.TransferDesk.Transact: the first six saga calls appear in the transfer's life as one verdict; their records are the subject of TransferSaga.
- TopUp.IntentCreditedOnce: deliveries are atomic; TopUpRace says what overlapping ones do.
- CheckIn.AtMostOneSuccess: the scans' remaining checks (QR time, event, seat, venue) are arbitrary verdicts.
