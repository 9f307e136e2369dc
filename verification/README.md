# RideMatch: verified money, matching and evidence core

A Dafny 4.11 model of the parts of the RideMatch backend that move money or keep evidence, with proofs about every
run of them. `dafny verify dfyconfig.toml` checks everything.

RideMatch matches passengers with car, okada, keke and bus drivers in Nigeria. Fares are paid from wallets through
escrow, drivers withdraw their earnings to banks, a driver's next of kin can appeal for the balance, and drivers'
GPS trails are kept as evidence. (The repository's own README still says that fares are not paid in the app; the
code does it, and the code is what is modelled.)

## How the model is laid out

| files | what they model |
|---|---|
| `Ledger`, `LedgerStore` | the double-entry ledger: each repository transaction as a function on the tables, and as a method of a class that updates the tables in place and rolls back on error; the two are proved equal |
| `LedgerIntegrity`, `LedgerLaws`, `LedgerMoves`, `LedgerOutcomes`, `SelfCheck` | the invariant of every run of transactions, conservation, settlement, the daily limit, between which accounts each transaction moves money, when each goes through and why it is refused, and what the run-time self-check finds |
| `Payout`, `PayoutSafety`, `PayoutProgress` | paying a withdrawal through a gateway that can accept, refuse or go silent: Dispatch, webhook, poller and admin as single steps that interleave and crash; why requeueing ends |
| `PayoutLimits`, `LateDecisions` | returning the money of a withdrawal that has moved on since an admin read it |
| `Matching`, `MatchingSafety`, `MatchingLaws` | AcceptOffer with its compensation, cancellation, expiry, completion and the escrow calls as single steps that interleave |
| `TripCalls` | what each of the calls other than AcceptOffer comes to when nothing runs in between |
| `SerialMatching`, `DriverTrips`, `LateOffers` | what needs calls that do not overlap: the fare of a match, one trip per driver, the holder of an accepted offer |
| `CrashedAccept`, `StrandedFares`, `HoldSteps`, `Disputes` | what a crash of AcceptOffer costs at once and for good; how a hold can change, and when a disputed one is paid |
| `TripService`, `PayoutService`, `KinService`, `EscrowService`, `WalletService`, `Repositories` | the services and tables as the objects they are; service methods are proved to be runs of the step models above and below, or to do what their batch or request promises |
| `Kin`, `KinSafety`, `KinLaws`, `KinRuns`, `Freezes` | next-of-kin appeals: two admins, cooling-off, disbursement that can crash anywhere; the runs that end badly; why a wallet is frozen |
| `GpsChain`, `Tracking`, `TrackingService`, `TrackingLaws`, `TrailIntegrity` | the signed text and hash chain of GPS points, batch ingestion with its in-place sort, paged verification |
| `Money`, `Quotes`, `Pin`, `PinRuns`, `Ratings` | fees and gross-up, quotes and crediting, PIN lock-out by one check at a time, and by checks, new bank accounts and new PINs that overlap, running rating averages |
| `Catalog`, `CatalogRows`, `CatalogService`, `ImportRuns` | the bulk importer of vehicle makes and models, row by row, without and with its cache, and imports that overlap |
| `Wrappers`, `Totals`, `Sets` | optional values and results, sums over tables, finite sets |

Some properties one might expect are false of the code. Each is stated with the exact condition under which it holds,
and a run from the start, or a call, that fails:

* **A matched trip is paid for** holds exactly when the AcceptOffer call that wins the trip is the one that took the
  fare (`MatchingLaws.MatchedTripHasFareIffWinnerTookIt`). Two overlapping calls for the same offer can break that
  (`SerialMatching.OverlapCanLoseTheFare`, reached by `SerialMatching.OverlapIsReachable`); when no two calls under way
  name the same driver for the same trip it cannot happen (`SerialMatching.SerialMatchIsPaidFor`).
* **A driver is on one trip at a time** fails in a run exactly when a call wins a trip for a driver who is driving by
  then (`DriverTrips.RunDoubleBooksIff`), because AcceptOffer only reads whether the driver is free. Two calls for one
  driver that are past this check, for two open requests, can do it (`DriverTrips.RivalsDoubleBook`,
  `DriverTrips.DoubleBookingIsReachable`); without such a pair it cannot happen (`DriverTrips.DriverHasOneTrip`).
* **An accepted offer stays with its holder** fails when MakeOffer writes a new price exactly if the offer has been
  accepted since MakeOffer found it pending (`LateOffers.RepriceBreaksHolderIff`, `LateOffers.LateRepriceIsReachable`).
* **A crash in AcceptOffer is harmless** exactly when the call neither owns a claimed offer nor is the only one left to
  return the fare in escrow (`CrashedAccept.CrashIsHarmlessIff`, `CrashedAccept.HarmfulCrashIsReachable`). Otherwise the
  offer stays accepted for good and never wins (`StrandedFares.CrashSticksOfferIff`, `StrandedFares.StuckOfferStays`),
  and a fare whose request is then given up leaves escrow by an admin's hand only (`StrandedFares.CrashStrandsFare`,
  `StrandedFares.FareStaysStranded`, `StrandedFares.StrandedFareIsReachable`).
* **A disputed fare waits for an admin** exactly when no release of it is under way that has looked at the hold before
  the dispute (`Disputes.DisputedIsPaidIff`, `Disputes.DisputedIsPaidIsReachable`).
* **Returning an unfinished withdrawal is safe** holds exactly when no payment of it is under way
  (`PayoutLimits.ReturnLosesMoneyIffPaymentUnderWay`). An admin's rejection that is decided on an older status of the
  row can violate that, because the repository accepts any unfinished row (`LateDecisions.LateDecisionLosesMoneyIff`,
  `LateDecisions.LateRejectionIsReachable`). The status such a decision first writes back is dangerous by itself in
  exactly the cases of `LateDecisions.WriteBackLosesMoneyIff`.
* **A closed appeal is not paid** holds exactly when no disbursement that has not paid yet is under way
  (`KinLaws.ClosedAppealPaysIffDisbursementUnderWay`); a driver's cancellation can come too late
  (`KinLaws.CancelCanComeTooLate`, `KinRuns.CancelledAndPaidIsReachable`).
* **Two admins vet an appeal** fails exactly when the approver has become the recommender since the row was read
  (`KinRuns.ApprovedAloneIff`, `KinRuns.ApprovedAloneIsReachable`).
* **An admin's freeze lasts until it is lifted** fails exactly when an appeal is filed for the user after it
  (`Freezes.AdminFreezeIsLostIff`, and over whole runs `Freezes.AdminFreezeSurvivesIff`), because filing replaces the
  reason of the freeze; a cancellation or a rejection then lifts it (`KinService.FiledAndCancelled`,
  `KinService.FiledAndRejected`). Besides, a lifting that has read appeals and wallet before an admin's freeze, or before
  a new appeal, ends that freeze too (`Freezes.LateLiftIff`, `Freezes.LateLiftIsReachable`); on its own it never does
  (`Freezes.UnfrozenIff`).
* **A PIN lock lasts its full time** fails exactly when a new PIN is set, or a copy of the row that was loaded without the
  lock is written back (`PinRuns.LockIsLiftedIff`): by a right PIN (`PinRuns.SuccessLiftsLock`) or by a new bank account
  (`PinRuns.AccountLiftsLock`). Such writes undo counted failures as well: with u of them the guesses within one lock time
  are at most u + 1 times as many (`PinRuns.FewGuessesAtOnce`, `PinRuns.OneUndoingDoubles`). They can also bring back an
  old PIN and end a cooldown (`PinRuns.PinChangesIff`, `PinRuns.CooldownIsCutIff`, `PinRuns.NewPinIsUndone`).
* **Withdrawing more pays out more** fails exactly for amounts just past a step of the fee (`Money.MorePaysMoreIff`).
* **An untouched GPS trail verifies** holds exactly when no sample's time lies half a millisecond or more past its
  millisecond: the hash cuts the time off, the database column rounds it (`TrailIntegrity.EveryRunVerifies`,
  `TrailIntegrity.RoundedUpFails`).

## What the model takes for granted

* A repository transaction is atomic; a database error is a transaction that was rolled back. Conditional updates are
  single steps. Row locks, SQL and drivers are not modelled.
* Ids and references are fresh numbers instead of UUIDs. A wallet is named by its owner, whose id is uniquely indexed.
  Amounts are unbounded integers in kobo, times are integers in milliseconds, those of GPS samples in microseconds.
* The gateway: a reference is accepted at most once; a refusal creates nothing; a lost answer may or may not have
  created the transfer; paid and not paid are final; `GetTransfer` tells the truth; a transfer webhook concerns an
  existing transfer. `mark_paid` and `mark_failed` are truthful. The twenty-minute flag comes only after the send
  has ended. `AdminDecideWithdrawal` reads and writes in one step in module Payout; LateDecisions says what happens otherwise.
* `CreateTrip` is one step. `MakeOffer` is one step in module Matching, and `AdminDecide` on an appeal in module Kin;
  LateOffers and KinRuns say what happens otherwise.
* The unique indexes of the vehicle catalogue ignore case, as MySQL's default collation does.
* A time is stored in the nearest millisecond where the column keeps three decimals, as MySQL does.
* HMAC-SHA256 is idealised as an injective function of the signed text whose result is never empty.

## Model

| member | source | states |
|---|---|---|
| `LedgerStore.LedgerRepository.Post` | internal/repository/ledger_repository.go:189-234 | writes a balanced transaction line by line; an unbalanced one, a used key, an unlocked wallet or an overdraft is reported, the first two before anything is written |
| `LedgerStore.LedgerRepository.CreditTopup` | internal/repository/ledger_repository.go:357-408 | the tables afterwards are those of the ledger function: credited once, under the top-up's key, rolled back on error |
| `LedgerStore.LedgerRepository.ExpireStaleTopups` | internal/repository/ledger_repository.go:350-355 | expires exactly the waiting top-ups whose time was over before the given moment, and changes nothing else about them |
| `LedgerStore.LedgerRepository.HoldEscrow` | internal/repository/ledger_repository.go:438-496 | takes the fare once; a repeated hold with the same terms takes nothing, other terms conflict, a refunded hold is re-opened under the next version |
| `LedgerStore.LedgerRepository.MarkEscrowCompleted` | internal/repository/ledger_repository.go:498-502 | a held fare gets exactly the given end of its release window; every other fare and hold stays as it is |
| `LedgerStore.LedgerRepository.DisputeEscrow` | internal/repository/ledger_repository.go:504-516 | parks a held fare and takes its release window away, and touches nothing else; reports that it cannot exactly for any other |
| `LedgerStore.LedgerRepository.ReleaseEscrow` | internal/repository/ledger_repository.go:518-559 | pays a live hold to the driver, and does nothing to a settled one |
| `LedgerStore.LedgerRepository.RefundEscrow` | internal/repository/ledger_repository.go:561-603 | returns a live hold to the passenger, and does nothing to a settled one |
| `LedgerStore.LedgerRepository.CreateWithdrawal` | internal/repository/ledger_repository.go:615-660 | freeze, cooldown cap, duplicate window and rolling daily limit in this order, then row and lock of the money together |
| `LedgerStore.LedgerRepository.TransitionWithdrawal` | internal/repository/ledger_repository.go:722-733 | changes the status exactly if the row has one of the expected ones, counts an attempt exactly when it moves to processing, and never forgets a known transfer id |
| `LedgerStore.LedgerRepository.FinalizeWithdrawalSuccess` | internal/repository/ledger_repository.go:735-777 | books a payout once, from an unfinished and already reviewed row only |
| `LedgerStore.LedgerRepository.FinalizeWithdrawalFailure` | internal/repository/ledger_repository.go:779-823 | returns the money once, from any unfinished row |
| `LedgerStore.LedgerRepository.Integrity` | internal/repository/ledger_repository.go:827-892 | computes the self-check's report, which is clean on every store that satisfies the invariant |
| `LedgerStore.SumColumn` | internal/repository/ledger_repository.go:643-648 | the loop adds up every row of a column, in any order |
| `LedgerIntegrity.PostKeepsBooks` | internal/repository/ledger_repository.go:189-234 | a posted transaction keeps balances equal to their entries and non-negative, running balances exact and the log balanced, and moves each account by its postings |
| `LedgerIntegrity.CreditTopupKeepsInv` | internal/repository/ledger_repository.go:357-408 | keeps the invariant; the used-key branch cannot be reached past the status guard |
| `LedgerIntegrity.HoldEscrowKeepsInv` | internal/repository/ledger_repository.go:438-496 | keeps the invariant; re-opening a refunded hold never collides with a used key |
| `LedgerIntegrity.SettleEscrowKeepsInv` | internal/repository/ledger_repository.go:518-603 | keeps the invariant; neither release nor refund can meet a used key |
| `LedgerIntegrity.CreateWithdrawalKeepsInv` | internal/repository/ledger_repository.go:615-660 | keeps the invariant, with the lock key used exactly by existing rows |
| `LedgerIntegrity.TransitionKeepsInv` | internal/repository/ledger_repository.go:722-733 | moves between unfinished statuses keep the invariant |
| `LedgerIntegrity.FinalizeSuccessKeepsInv` | internal/repository/ledger_repository.go:735-777 | keeps the invariant; the paid key is fresh past the status guard |
| `LedgerIntegrity.FinalizeFailureKeepsInv` | internal/repository/ledger_repository.go:779-823 | keeps the invariant; the return key is fresh past the status guard |
| `LedgerIntegrity.PerformKeepsInv` | internal/repository/ledger_repository.go:189-823 | every transaction keeps books, pools, keys and rows in agreement and never reports a used key |
| `LedgerIntegrity.EveryRunPassesIntegrity` | internal/repository/ledger_repository.go:827-892 | after any sequence of transactions the self-check reports no problem |
| `SelfCheck.DamagedTablesPassIff` | internal/repository/ledger_repository.go:827-892 | tables changed behind the ledger's back pass the self-check if and only if every balance, the sum of open holds and the sum of unfinished withdrawals are what they were; the wallets reported are exactly those that changed |
| `SelfCheck.DamagedLogIsFound` | internal/repository/ledger_repository.go:827-892 | a log line that is lost, or whose amount was altered, makes the self-check fail |
| `LedgerLaws.MoneyIsConserved` | internal/repository/ledger_repository.go:189-234 | money received equals wallets, escrow, payouts in flight, payouts made and fees, after any run |
| `LedgerLaws.VersionSettledOnce` | internal/repository/ledger_repository.go:438-603 | no version of a hold is both released and refunded; hold keys are used for exactly the versions up to the current one; earlier versions were refunded |
| `LedgerLaws.TerminalIsFinal` | internal/repository/ledger_repository.go:722-823 | no transaction changes a withdrawal in a final status, or any withdrawal's amount |
| `LedgerLaws.DailyLimitHolds` | internal/repository/ledger_repository.go:640-652 | in every window of 24 hours a user's live driver withdrawals stay within the limit, although it is checked at creation only |
| `LedgerMoves.HoldMoves` | internal/repository/ledger_repository.go:438-496 | a new hold moves the fare from the passenger's wallet into escrow and touches no other account; any other outcome moves nothing |
| `LedgerMoves.SettlementMoves` | internal/repository/ledger_repository.go:518-603 | a release moves the whole fare from escrow to the driver's wallet, a refund to the passenger's, and nobody else's balance changes |
| `LedgerMoves.CreationMoves` | internal/repository/ledger_repository.go:653-658 | a new withdrawal moves its amount from its wallet into payouts in flight |
| `LedgerMoves.ReturnMoves` | internal/repository/ledger_repository.go:779-823 | a failed or rejected withdrawal goes back in full to the wallet it came from |
| `LedgerMoves.PayoutMoves` | internal/repository/ledger_repository.go:735-777 | a paid withdrawal leaves as the bank's net and the fee, which add up to its amount, and touches no wallet |
| `LedgerMoves.CreditMoves` | internal/repository/ledger_repository.go:357-408 | a credited top-up splits what was paid into the owner's credit and the gateway's fee |
| `LedgerOutcomes.PostGoesThroughIff` | internal/repository/ledger_repository.go:189-234 | a transaction is written if and only if it balances, its key is new and no locked wallet is overdrawn on the way; then one line per posting in order, every balance moved by its postings, and otherwise the first failing check is reported |
| `LedgerOutcomes.TopupIsCreditedIff` | internal/repository/ledger_repository.go:357-408 | a top-up is credited if and only if it exists and has not been, waiting or expired; exactly one balance grows, by the credit |
| `LedgerOutcomes.ExpiredTopupIsStillCredited` | internal/repository/ledger_repository.go:313-408 | a new top-up expires exactly when its time is over, and a payment that arrives afterwards is credited all the same |
| `LedgerOutcomes.HoldIsTakenIff` | internal/repository/ledger_repository.go:438-496 | a hold is taken if and only if the trip has none or a refunded one and the payer has the money; same terms change nothing, other terms conflict; the new row and the one balance that changes are stated field by field |
| `LedgerOutcomes.HoldIsSettledIff` | internal/repository/ledger_repository.go:518-603 | a hold is settled if and only if it is held or disputed, in full, to the driver or back to the passenger |
| `LedgerOutcomes.WithdrawalIsCreatedIff` | internal/repository/ledger_repository.go:615-660 | a withdrawal is created if and only if no reason forbids it, and refused for the first that does: wallet, freeze, cooldown cap, repetition, daily limit over the unreturned driver withdrawals of 24 hours, used id or reference, balance; the row is the one asked for |
| `LedgerOutcomes.PayoutIsBookedIff` | internal/repository/ledger_repository.go:735-777 | a payout is booked if and only if its row is queued, in processing or with an admin and net and fee are its amount; each refusal has its reason |
| `LedgerOutcomes.PayoutIsReturnedIff` | internal/repository/ledger_repository.go:779-823 | a withdrawal is returned if and only if its row is unfinished, in full and to the one wallet it came from; each refusal has its reason |
| `PayoutSafety.NextKeepsSafe` | internal/service/wallet_service.go:848-1002 | every step of dispatch, webhook, poller, admin, bank or crash keeps the protocol's invariant |
| `PayoutSafety.EveryRunIsSafe` | internal/service/wallet_service.go:848-1002 | returned money was not paid, a successful withdrawal was, a waiting one has no transfer, none is sent more than ten times, the self-check passes |
| `PayoutSafety.OutcomeIsFinal` | internal/service/wallet_service.go:848-1002 | a final outcome survives every continuation, and the bank has paid exactly if it is successful |
| `PayoutProgress.StepMoves` | internal/service/wallet_service.go:848-1002 | while the bank has no transfer, a row only moves from review to the queue, from the queue to processing with one more attempt, back to the queue or to attention, or to its end |
| `PayoutProgress.StepUsesSupply` | internal/service/wallet_service.go:867-888 | a measure of status and attempts left never grows and falls with every such change |
| `PayoutProgress.RequeueingEnds` | internal/service/wallet_service.go:867-888 | status and attempts of a withdrawal change at most 33 times, in any run, before the bank has a transfer of it |
| `PayoutProgress.NotPaidStays` | internal/service/wallet_service.go:890-930 | a transfer the bank has refused to pay is never paid, and the row keeps its reference, in any state |
| `PayoutSafety.HandleRefusalKeepsSafe` | internal/service/wallet_service.go:867-888 | after a refused send the row may be returned, requeued or flagged, since no transfer exists |
| `PayoutSafety.SettleKeepsSafe` | internal/service/wallet_service.go:890-930 | a reported final transfer settles the row the way the bank did |
| `PayoutSafety.FlagOverdueKeepsSafe` | internal/service/wallet_service.go:985-1002 | flagging an overdue payout is safe once its send has ended |
| `PayoutSafety.ResolveKeepsSafe` | internal/service/wallet_admin_service.go:89-98 | a truthful manual resolution of a stuck payout is safe |
| `PayoutSafety.RejectKeepsSafe` | internal/service/wallet_admin_service.go:84-88 | rejecting a withdrawal under review is safe, because nothing was sent |
| `PayoutLimits.ReturnLosesMoneyIffPaymentUnderWay` | internal/repository/ledger_repository.go:779-823 | returning an unfinished withdrawal can end with the bank paying too if and only if a transfer may be paid or a send is pending |
| `PayoutLimits.PaymentFollows` | internal/repository/ledger_repository.go:779-823 | the events by which the bank pays a withdrawal whose money was returned while its payment was under way |
| `LateDecisions.LateDecisionIsReturn` | internal/service/wallet_admin_service.go:118-124 | the two writes of a late decision, uninterrupted, come to returning the money |
| `LateDecisions.LateDecisionLosesMoneyIff` | internal/service/wallet_admin_service.go:84-124 | such a decision can end with the money returned and paid if and only if a payment is under way when it is written |
| `LateDecisions.WriteBackLosesMoneyIff` | internal/service/wallet_admin_service.go:118-124 | the first write alone can do so, whatever becomes of the decision, if and only if it puts the row back to review while a payment or an unhandled refusal is under way, or to attention while a send is pending |
| `LateDecisions.WriteBackKeepsSafe` | internal/service/wallet_admin_service.go:118-124 | otherwise the first write keeps the protocol's invariant, with room for one more attempt |
| `LateDecisions.LateRejectionIsReachable` | internal/service/wallet_admin_service.go:55-124 | a run in which the row is under review when it is read, and being sent when the rejection is written |
| `PayoutService.PayoutService.Dispatch` | internal/service/wallet_service.go:848-888 | run on its own it is the run of the protocol's steps; by the gateway's answer the row ends successful, failed with its money back, queued, with an admin after the tenth attempt, or stays in processing, with transfer id, attempts, sends and balances stated for each; any row that is not queued is left alone |
| `PayoutService.PayoutService.ApplyTransferState` | internal/service/wallet_service.go:890-930 | a reported transfer id is known afterwards, whatever else goes wrong; a row being paid ends successful or failed with its money back as the transfer says, and nothing else about it changes while the transfer is in progress but the attempt that writing the id counts |
| `PayoutService.PayoutService.AdminDecideWithdrawal` | internal/service/wallet_admin_service.go:55-116 | carried out if and only if the row has the status the decision is about and nobody approves their own withdrawal; it is then one step of the protocol with the status and money stated, otherwise refused for the first reason and without effect |
| `PayoutService.PayoutService.FailReviewed` | internal/service/wallet_admin_service.go:118-124 | the two writes of a rejection or a failure, for any status read |
| `PayoutService.PayoutService.HandleTransferWebhook` | internal/service/wallet_service.go:932-958 | a report settles the row of its reference as the gateway says when asked, and changes nothing for an unknown reference, a final row or a transfer the gateway does not have |
| `PayoutService.PayoutService.PollOne` | internal/service/wallet_service.go:974-1002 | a row whose transfer id is known is settled as the gateway says; any other goes to an admin once overdue, and before that waits |
| `PayoutService.SendIsAnswered` | internal/service/wallet_service.go:848-888 | the state after every gateway answer to a queued row: status, attempts, transfer id, balances, bank and number of sends |
| `PayoutService.TransferIsApplied` | internal/service/wallet_service.go:890-930 | the same for a transfer's report about a row that is being paid |
| `PayoutService.UnbookedIsFlagged` | internal/service/wallet_service.go:905-916 | a paid transfer whose row cannot be booked leaves it to an admin and moves no money |
| `PayoutService.DecisionIsCarriedOut` | internal/service/wallet_admin_service.go:55-124 | the row and balances after each of the four decisions |
| `MatchingSafety.NextKeepsSafe` | internal/service/trip_service.go:535-919 | every repository call of the trip and escrow services, in any interleaving, keeps the invariant over trips, offers, holds and calls |
| `MatchingSafety.SettlementSucceeds` | internal/repository/ledger_repository.go:518-603 | releasing or refunding a live hold cannot fail |
| `MatchingSafety.HoldEscrowEffect` | internal/repository/ledger_repository.go:438-496 | the caller is told it took the money exactly when it did; otherwise the same payer, driver and amount were already held |
| `MatchingSafety.TakeFareKeepsSafe` | internal/service/escrow_service.go:69-93 | taking a fare keeps every fare in escrow backed by one call or one match |
| `MatchingSafety.ClaimKeepsOffersOk` | internal/service/trip_service.go:596-606 | claiming a pending offer makes the call its only owner |
| `MatchingSafety.RollBackKeepsOffersOk` | internal/service/trip_service.go:627-635 | rolling a claim back leaves the offer pending and without an owner |
| `MatchingSafety.MatchTripKeepsSafe` | internal/service/trip_service.go:615-638 | the winning swap turns the call's offer and fare into the trip's |
| `MatchingSafety.UndoFareKeepsSafe` | internal/service/trip_service.go:590-594 | a call returns at most the fare that backs no other match |
| `MatchingSafety.CancelTripKeepsSafe` | internal/service/trip_service.go:806-864 | a cancellation leaves no fare behind without a refund on its way |
| `MatchingSafety.AdminResolveKeepsSafe` | internal/service/escrow_service.go:280-308 | an admin's settlement keeps the invariant |
| `MatchingLaws.AcceptedOfferHasOneHolder` | internal/service/trip_service.go:596-639 | an accepted offer either won its trip, whose driver is the offer's, or belongs to exactly one unfinished AcceptOffer |
| `MatchingLaws.OneAcceptedOfferPerMatch` | internal/service/trip_service.go:596-639 | with no AcceptOffer under way a trip has one accepted offer if it ever matched and none otherwise |
| `MatchingLaws.UnmatchedTripKeepsNoFare` | internal/service/trip_service.go:806-919 | requested, expired and cancelled trips keep no fare once their calls have finished |
| `MatchingLaws.MatchedTripHasFareIffWinnerTookIt` | internal/service/trip_service.go:586-638 | a matched or picked-up trip has its agreed price in escrow, from its passenger to its driver, if and only if the winning call took the fare |
| `MatchingLaws.OnlyCompletedTripsPay` | internal/service/escrow_service.go:127-251 | a release window, and any release not made by an admin, means that the trip was completed |
| `MatchingLaws.PassengerHasOneActiveTrip` | internal/service/trip_service.go:199-224 | no passenger has two active trips |
| `SerialMatching.SerialMatchIsPaidFor` | internal/service/trip_service.go:586-638 | when no two calls under way name the same driver for the same trip, every matched or picked-up trip has its agreed price in escrow at every moment |
| `DriverTrips.StepDoubleBooksIff` | internal/service/trip_service.go:577-638 | a step gives a driver a second trip if and only if a call wins a trip with it for a driver who is driving |
| `DriverTrips.RunDoubleBooksIff` | internal/service/trip_service.go:577-638 | at some moment of a run a driver was on two trips if and only if a call won a trip for a driver who was driving |
| `DriverTrips.DriverHasOneTrip` | internal/service/trip_service.go:577-581 | no driver is on two trips as long as no two calls for one driver, both past the check that the driver is free, are after two open requests |
| `DriverTrips.RivalsDoubleBook` | internal/service/trip_service.go:615-638 | two such calls that have claimed their offers both win, and their driver is on both trips |
| `DriverTrips.DoubleBookingIsReachable` | internal/service/trip_service.go:535-638 | a run from the start that ends with one driver on the trips of two passengers |
| `SerialMatching.OverlapCanLoseTheFare` | internal/service/trip_service.go:586-606 | two overlapping calls for one offer can end with the trip matched and the fare refunded |
| `SerialMatching.OverlapIsReachable` | internal/service/trip_service.go:535-594 | a run that leads to such an overlap |
| `CrashedAccept.CrashIsHarmlessIff` | internal/service/trip_service.go:586-639 | a call that stops anywhere keeps the invariant if and only if it owns no claimed offer and is not the only one left to return the fare in escrow |
| `CrashedAccept.HarmfulCrashIsReachable` | internal/service/trip_service.go:535-606 | a run from the start to a call whose crash breaks the invariant |
| `StrandedFares.CrashSticksOfferIff` | internal/service/trip_service.go:596-639 | after a crash the offer is accepted without a holder if and only if the call owned it |
| `StrandedFares.StuckOfferStays` | internal/service/trip_service.go:596-639 | such an offer stays accepted, without a holder and without a win, whatever happens afterwards |
| `StrandedFares.CrashStrandsFare` | internal/service/trip_service.go:586-864 | once the open request of a harmful crash is cancelled, its fare is in escrow with nothing under way that returns it |
| `StrandedFares.FareStaysStranded` | internal/service/trip_service.go:586-919 | such a fare stays in escrow, unchanged, in every continuation in which no admin settles it |
| `StrandedFares.StrandedFareIsReachable` | internal/service/trip_service.go:535-864 | a run from the start to such a fare |
| `StrandedFares.RetryPassesIff` | internal/repository/ledger_repository.go:438-496 | while a fare is in escrow another AcceptOffer of the trip gets past it if and only if it asks for the same payer, driver and amount; it takes nothing |
| `StrandedFares.RetryMatches` | internal/service/trip_service.go:535-660 | such a retry, alone, matches the trip, and the fare left in escrow stays for it |
| `HoldSteps.NextHold` | internal/repository/ledger_repository.go:438-603 | the only ways in which any step of the trip and escrow services changes a hold |
| `Disputes.DisputedIsPaidIff` | internal/service/escrow_service.go:181-251 | a disputed hold can be paid to the driver without an admin if and only if a confirmation or the timer has looked at it before the dispute and not yet called the ledger |
| `Disputes.DisputedIsPaidIsReachable` | internal/service/escrow_service.go:181-238 | a run from the start in which a passenger's confirmation and dispute overlap and the driver is paid |
| `LateOffers.RepriceInTime` | internal/service/trip_service.go:481-489 | undisturbed, looking for the pending offer and writing it back is the one step of the interleaved model |
| `LateOffers.RepriceBreaksHolderIff` | internal/service/trip_service.go:481-489 | the write takes an offer from its holder if and only if the offer has been accepted since it was found |
| `LateOffers.RepriceKeepsSafeIff` | internal/service/trip_service.go:481-489 | otherwise it keeps the whole invariant; a rejected, superseded or withdrawn offer becomes pending again |
| `LateOffers.CreateKeepsSafe` | internal/service/trip_service.go:490-494 | a new offer keeps the invariant however late it is written |
| `LateOffers.LateRepriceIsReachable` | internal/service/trip_service.go:481-639 | a run from the start at whose end the offer that won a trip is pending |
| `TripCalls.RequestIsOpenedIff` | internal/service/trip_service.go:199-224 | a request is opened if and only if its passenger has no active trip and can pay the price offered |
| `TripCalls.OfferIsMadeIff` | internal/service/trip_service.go:464-494 | for an open request a driver's price replaces that of a pending offer, or is a new one; anything else changes nothing |
| `TripCalls.ExpiryEndsIff` | internal/service/trip_service.go:892-919 | an open request that expires leaves no pending offer, and no other trip can expire |
| `TripCalls.ConfirmationPaysIff` | internal/service/escrow_service.go:181-207 | an undisturbed confirmation pays the driver in full if and only if the trip is completed and its fare held |
| `TripCalls.TimerPaysIff` | internal/service/escrow_service.go:240-251 | the undisturbed timer does so if and only if the fare is held and its window is over |
| `TripCalls.DisputeStopsIff` | internal/service/escrow_service.go:209-238 | a dispute stops a fare if and only if it is held and the trip is under way or completed |
| `TripCalls.AdminSettlesIff` | internal/service/escrow_service.go:280-308 | an admin settles a fare, either way, if and only if it is held or disputed |
| `TripService.TripService.AcceptOffer` | internal/service/trip_service.go:535-660 | run on its own it is the run of the steps of the interleaved model; it is refused for the first thing in its way, then without any effect on trips, offers or balances, and if nothing is, the trip, every offer, the hold and the passenger's balance are exactly those of the match |
| `TripService.AcceptIsAllOrNothing` | internal/service/trip_service.go:535-660 | run on its own it matches the trip to the offer's driver with exactly this fare in escrow and all other offers closed, or leaves trips, offers and every account as they were |
| `TripService.AcceptAnswers` | internal/service/trip_service.go:535-660 | what the call answers and leaves once its checks are passed, by fare and PIN |
| `TripService.TripService.RejectOffer` | internal/service/trip_service.go:664-703 | rejects a pending offer of the caller's trip and nothing else |
| `TripService.TripService.ConfirmPickup` | internal/service/trip_service.go:709-754 | moves a matched trip on exactly for its driver with the right PIN |
| `TripService.TripService.CompleteTrip` | internal/service/trip_service.go:757-801 | completes a picked-up trip for its driver; a held fare is then due exactly from the given moment on, and no other hold and no balance changes |
| `TripService.TripService.CancelTrip` | internal/service/trip_service.go:806-885 | cancels open and matched trips only, for their passenger or driver only; a match gives the passenger the whole fare back and touches no offer, an open request withdraws its pending offers and touches no money |
| `EscrowService.EscrowService.DueEscrows` | internal/repository/ledger_repository.go:605-611 | the longest waiting due holds, no more than asked for and none missed below the limit |
| `EscrowService.EscrowService.ReleaseDue` | internal/service/escrow_service.go:240-251 | releases every scanned hold and changes no other, gives each driver exactly the fares of their holds and nobody else anything; disputed holds are not paid; below the limit nothing due is left |
| `Repositories.TripRepository.CompareAndSwapStatus` | internal/repository/trip_repository.go:233-246 | updates the trip if and only if it has the expected status, and says which |
| `Repositories.TripRepository.FindActiveByPassenger` | internal/repository/trip_repository.go:138-153 | finds an active trip of the passenger if and only if there is one |
| `Repositories.TripRepository.FindActiveByDriver` | internal/repository/trip_repository.go:385-400 | finds a trip the driver is on if and only if there is one |
| `Repositories.TripOfferRepository.CompareAndSwapStatus` | internal/repository/trip_offer_repository.go:105-114 | swaps the offer's status if and only if it is the expected one |
| `Repositories.TripOfferRepository.SupersedeOtherPending` | internal/repository/trip_offer_repository.go:88-93 | supersedes every other pending offer of the trip and nothing else |
| `Repositories.TripOfferRepository.WithdrawAllPending` | internal/repository/trip_offer_repository.go:125-130 | withdraws every pending offer of the trip and nothing else |
| `Repositories.KinRepository.TransitionAppeal` | internal/repository/misc_money_repositories.go:198-202 | updates the appeal if and only if it is in one of the given statuses |
| `Repositories.KinRepository.DueAppeals` | internal/repository/misc_money_repositories.go:204-210 | approved appeals past their cooling-off, none missed below the limit |
| `WalletService.WalletService.Withdraw` | internal/service/wallet_service.go:729-808 | a request is granted if and only if nothing stands in its way, and otherwise refused for the first thing that does: eligibility, switch, amount, freeze, PIN, account, balance, and the ledger's reasons; granted, exactly one row is written, under review exactly from the configured amount on, with owner, fee, net, bank, reference and times stated, and its money leaves the wallet; refused, nothing moves; what becomes of the PINs is stated for each case |
| `WalletService.WalletService.CheckPin` | internal/service/wallet_service.go:485-511 | lets a request through if and only if its PIN is set, not locked and right; a locked PIN stays as it is, a wrong one is counted or locks the PIN until the whole lock time later, a right one clears the count; nobody else's PIN changes |
| `WalletService.RequestsAreGuarded` | internal/service/wallet_service.go:764-783 | every request meets the conditions under which the daily limit is proved |
| `WalletService.AcceptedRequest` | internal/service/wallet_service.go:764-783 | an accepted request moves exactly its amount from the wallet into payouts in flight, is within the cooldown cap, and repeats no live request of the last 45 seconds for the same amount and bank account |
| `WalletService.LedgerDecides` | internal/service/wallet_service.go:764-798 | of a request that reaches the ledger: granted if and only if cooldown cap, repetition within 45 seconds, daily limit and ids allow it, with the row and the balance that changes |
| `KinSafety.NextKeepsSafe` | internal/service/kin_service.go:318-560 | every step of an appeal, a disbursement or anything else in the ledger keeps the invariant |
| `KinLaws.AppealPaysAtMostOnce` | internal/service/kin_service.go:506-560 | an appeal has at most one withdrawal, crashes included |
| `KinLaws.PaymentWasVetted` | internal/service/kin_service.go:459-560 | a paid appeal had a document, was recommended and approved by different admins, had cooled off, and takes whole naira from its driver's wallet to the bank account named when it was filed |
| `KinLaws.DisbursedAppealNamesItsPayment` | internal/service/kin_service.go:526-560 | a disbursed appeal names its one withdrawal and its amount |
| `KinLaws.ClosedAppealNeverPays` | internal/service/kin_service.go:361-385 | a closed appeal with nothing paid and no disbursement under way that could still pay is never paid |
| `KinLaws.ClosedAppealPaysIffDisbursementUnderWay` | internal/service/kin_service.go:526-560 | a closed and unpaid appeal may still be paid if and only if a disbursement that has not paid or given up is under way |
| `KinLaws.CancelCanComeTooLate` | internal/service/kin_service.go:526-560 | a cancellation during a disbursement can end cancelled and paid |
| `KinLaws.CrashIsRepaired` | internal/service/kin_service.go:526-533 | after a crash between payment and update the next run marks the appeal with the existing withdrawal and moves no money |
| `KinRuns.CancelledAndPaidIsReachable` | internal/service/kin_service.go:361-560 | a run from the start at whose end the appeal is cancelled and paid |
| `KinRuns.ApproveInTime` | internal/service/kin_service.go:477-483 | undisturbed, reading the row and approving on it is the one step of the workflow |
| `KinRuns.ApprovedAloneIff` | internal/service/kin_service.go:477-483 | an approval decided on an older row leaves one admin as recommender and approver if and only if that admin has recommended the appeal since the row was read |
| `KinRuns.ApprovedAloneIsReachable` | internal/service/kin_service.go:459-483 | a run from the start to such an approval |
| `KinService.KinService.SubmitAppeal` | internal/service/kin_service.go:190-252 | files an appeal of a driver with a positive balance and no open appeal, untouched by anybody yet, opens its link and freezes the wallet for the appeal, whatever froze it before; otherwise files nothing |
| `KinService.KinService.MaybeUnfreeze` | internal/service/kin_service.go:387-401 | lifts the freeze of an appeal, and no other, once the driver has no open appeal |
| `KinService.KinService.AdminDecide` | internal/service/kin_service.go:459-504 | succeeds if and only if the decision fits the appeal and its recommender; the appeal then has exactly the decision's status, admin and end of the cooling-off time, a rejection is followed by lifting the freeze, and each refusal has its reason and changes no appeal |
| `KinService.KinService.DriverCancel` | internal/service/kin_service.go:361-385 | cancels an open appeal of the caller, with the caller's PIN, and then lifts the appeal's freeze; no other PIN changes, and any refusal leaves appeals and freezes alone |
| `KinService.FiledAndCancelled` | internal/service/kin_service.go:361-401 | an admin's freeze is gone after an appeal was filed and cancelled |
| `KinService.FiledAndRejected` | internal/service/kin_service.go:387-499 | and after one was filed and rejected |
| `Freezes.PerformKeepsFreezes` | internal/repository/ledger_repository.go:189-823 | no ledger transaction but SetWalletFrozen changes why any wallet is frozen |
| `Freezes.AdminFreezeIsLostIff` | internal/service/kin_service.go:246-249 | in one step an admin's freeze is lost if and only if an appeal is filed for its user or somebody sets that user's freeze to another |
| `Freezes.AdminFreezeSurvivesIff` | internal/service/kin_service.go:190-401 | over any run that does not set it anew, it survives if and only if no appeal is filed for its user |
| `Freezes.UnfrozenIff` | internal/service/kin_service.go:387-401 | lifting, undisturbed, never touches an admin's freeze or another user, and lifts an appeal's if and only if none is open |
| `Freezes.LiftInTime` | internal/service/kin_service.go:387-401 | undisturbed, the reads and the write of lifting come to that |
| `Freezes.LateLiftIff` | internal/service/kin_service.go:389-398 | its write ends a freeze that has to stay if and only if the appeals and the wallet read earlier allowed it |
| `Freezes.LateLiftIsReachable` | internal/service/kin_service.go:361-401 | runs from the start in which it ends an admin's freeze, and that of a new appeal |
| `KinService.KinService.UploadDocument` | internal/service/kin_service.go:278-343 | stores a document if and only if the link is known and has not expired, the appeal is open for documents and has fewer than ten; it is then counted, and an appeal that waited for information is submitted again |
| `KinService.KinService.Disburse` | internal/service/kin_service.go:526-560 | run on its own it is the run of the workflow's disbursement steps and touches no other appeal; it pays the whole balance but for less than a naira, to the appeal's account, declines exactly if that does not exceed its fee, and after an earlier payment only names it |
| `KinService.KinService.DisburseDue` | internal/service/kin_service.go:509-524 | disburses each scanned appeal once, so that it ends paid or declined, misses none below the limit, leaves all others alone and keeps the invariant |
| `GpsChain.TextIsInjective` | internal/tracking/chain.go:23-28 | points with the same signed text agree in every signed field, whatever the stored previous hash contains |
| `GpsChain.TextLayout` | internal/tracking/chain.go:23-28 | the signed text is previous hash, shift, sequence number, latitude, longitude, time and mock flag in this order between bars, numbers without leading zeros and coordinates with seven places |
| `GpsChain.PointHashIsInjective` | internal/tracking/chain.go:23-28 | under an ideal MAC equal hashes mean equal points and equal predecessors |
| `GpsChain.DecimalIsInjective` | internal/tracking/chain.go:24 | the integer format can be read back |
| `GpsChain.FixedIsInjective` | internal/tracking/chain.go:24 | the seven-decimals format can be read back |
| `TrackingService.Sort` | internal/service/tracking_service.go:146-151 | the in-place insertion sort computes the specified order |
| `TrackingService.ShiftLog.Extend` | internal/service/tracking_service.go:155-188 | one sample extends trail, chain and counters together or is ignored |
| `TrackingService.ShiftLog.Ingest` | internal/service/tracking_service.go:107-197 | owner, thirty minutes of grace and two minutes of clock skew are checked in this order, with the error of the first that fails and nothing stored; then the sorted batch is folded into the trail |
| `TrackingService.ShiftLog.VerifyShift` | internal/service/tracking_service.go:284-329 | the paged loop ends and gives the verdict of a single pass, for every page size |
| `TrackingLaws.SortedLaw` | internal/service/tracking_service.go:146-151 | the sort gives a permutation in counter order that keeps equal counters in order |
| `TrackingLaws.StableSortIsUnique` | internal/service/tracking_service.go:146-151 | there is only one such order |
| `TrackingLaws.PageIsPrefix` | internal/repository/tracking_repository.go:153-157 | a page is the start of what is left, the next page continues it, and only the end is empty |
| `TrailIntegrity.RunIsIntact` | internal/service/tracking_service.go:155-191 | after any run of uploads the trail holds exactly the kept samples in order, signed over their time cut to milliseconds and stored with it rounded; the shift's counters and latest time are those of these samples, and the last client counter is the largest ever acknowledged |
| `TrailIntegrity.EveryRunVerifies` | internal/service/tracking_service.go:284-329 | such a trail, numbered from 1 without gaps and with counters that match, verifies with every point checked if and only if no time was rounded up |
| `TrailIntegrity.RoundedUpFails` | internal/models/tracking.go:71 | one honest sample half a millisecond past its millisecond fails verification |
| `TrailIntegrity.VerifyDetectsEveryChange` | internal/service/tracking_service.go:284-329 | against an untouched shift record a stored trail is valid if and only if its readable rows are exactly the ingested ones as they were signed |
| `TrailIntegrity.FirstBadPointIsReported` | internal/service/tracking_service.go:298-314 | the reported sequence number is that of the first point that breaks the chain, with the right reason |
| `TrailIntegrity.ClosingProblemIsNamed` | internal/service/tracking_service.go:320-327 | points that are chained but not valid are reported as the wrong number, with both numbers, or as the wrong head of the chain |
| `TrailIntegrity.ReplayChangesNothing` | internal/service/tracking_service.go:158-161 | an acknowledged batch sent again at any later time changes nothing and is answered as ignored |
| `TrailIntegrity.EverySampleIsAnswered` | internal/service/tracking_service.go:153-197 | accepted and ignored samples add up to the batch, and the accepted ones are the new points |
| `TrailIntegrity.CutAnywhere` | internal/service/tracking_service.go:146-191 | a batch in counter order may be cut anywhere; the parts store the same trail and accept as much |
| `Money.GrossUp` | internal/money/money.go:27-44 | the two loops end at the least payment whose net reaches the request, which is the closed form they start from |
| `Money.EstimateIsExact` | internal/money/money.go:27-44 | the closed form is minimal and leaves exactly the requested net |
| `Money.NetIsFloor` | internal/money/money.go:13-23 | rounding the fee up is rounding the net down |
| `Money.NothingOverflows` | internal/money/money.go:27-44 | up to 10^14 kobo and 50% no intermediate value leaves 64 bits |
| `Money.MorePaysMoreIff` | internal/money/money.go:48-57 | of two withdrawals the larger pays out more if and only if it is not one of those just past 5,000 naira and at most 15 larger than one that is not, or just past 50,000 and at most 25 larger |
| `Quotes.QuoteTopup` | internal/service/wallet_service.go:233-251 | quotes whole-naira amounts within the limits only; the quoted payment is the least that leaves the request, and leaves exactly that |
| `Quotes.PaidQuoteCreditsTheRequest` | internal/service/wallet_service.go:388-405 | a good payment of the quoted gross credits exactly the requested amount, any other payment of it nothing |
| `Quotes.PaymentIsCreditedIff` | internal/service/wallet_service.go:388-405 | an uncredited top-up is credited if and only if the payment was successful, under the same reference, in naira, and positive before and after the fee; its owner's balance grows by exactly the net, and in every other case nothing changes |
| `Quotes.CreditArrives` | internal/repository/ledger_repository.go:357-408 | crediting an uncredited top-up succeeds and changes one balance, by the credit |
| `Quotes.CreditedOnce` | internal/service/wallet_service.go:388-405 | no later report of any payment credits a credited top-up again |
| `Quotes.QuoteWithdrawal` | internal/service/wallet_service.go:694-706 | accepts exactly whole-naira amounts from the minimum that exceed their fee; fee and a positive net add up to the amount |
| `Pin.PinGuard.RecordFailure` | internal/repository/ledger_repository.go:266-286 | counts a failure, and locks and resets at the limit |
| `Pin.PinGuard.CheckPin` | internal/service/wallet_service.go:485-511 | a locked PIN is not compared; a right one clears the count |
| `Pin.GuessesAreSpaced` | internal/service/wallet_service.go:485-511 | of any max + 1 comparisons of wrong PINs in a row, first and last are a lock apart |
| `Pin.FewGuessesPerLock` | internal/service/wallet_service.go:485-511 | no half-open interval as long as the lock holds more than the allowed number of wrong comparisons |
| `PinRuns.CheckAlone` | internal/service/wallet_service.go:485-511 | a check that nothing interrupts is its steps load, compare and count or write back |
| `PinRuns.FewGuessesAtOnce` | internal/service/wallet_service.go:466-643 | with at most k checks under way at a time and u writes or crashes that undo failures, no half-open interval as long as the lock holds more than (u + 1) * (max + k - 1) comparisons of a wrong PIN: in any interleaving of checks, new PINs and new bank accounts |
| `PinRuns.BoundIsReached` | internal/service/wallet_service.go:485-511 | for every max and k a run without such a write has that many comparisons at one moment |
| `PinRuns.OneUndoingDoubles` | internal/service/wallet_service.go:485-643 | for every max a run with one check at a time, no right PIN and one new bank account has 2 * max |
| `PinRuns.AccountLiftsLock` | internal/service/wallet_service.go:639-643 | a run in which a new bank account lifts a running lock |
| `PinRuns.LockIsLiftedIff` | internal/repository/ledger_repository.go:257-264 | a running lock is lifted if and only if a new PIN is set, or a check or a new bank account writes back a row it loaded without that lock |
| `PinRuns.SuccessLiftsLock` | internal/service/wallet_service.go:503-509 | a run in which a right PIN lifts a lock that another check has set |
| `PinRuns.PinChangesIff` | internal/repository/ledger_repository.go:257-264 | the PIN changes if and only if another is set, or a row with another one is written back |
| `PinRuns.CooldownIsCutIff` | internal/repository/ledger_repository.go:257-264 | a running cooldown is cut short if and only if a right PIN writes back a row that was loaded before it |
| `PinRuns.ChangeStartsCooldown` | internal/service/wallet_service.go:466-643 | a new PIN or bank account starts a cooldown of exactly the configured length; a new PIN starts without failures or lock |
| `PinRuns.NewPinIsUndone` | internal/service/wallet_service.go:466-509 | a run at whose end a new PIN and its cooldown are gone and the old PIN is back |
| `Ratings.RatedProfile.Rate` | internal/service/trip_service.go:1109-1110 | the two columns are those of all ratings given so far: their number, and an average within (n + 1) / 400 of their true mean |
| `Ratings.AverageIsNearMean` | internal/service/trip_service.go:1138-1144 | after n ratings the average is within 1.00 to 5.00 and within (n + 1) / 400 of the true mean |
| `Ratings.StartDoesNotMatter` | internal/service/trip_service.go:1138-1144 | the default average has no influence after the first rating |
| `Ratings.NextAgreesIff` | internal/service/trip_service.go:1138-1144 | one more rating leaves the folded average equal to the rounded mean if and only if twice the error carried so far fits the remainder of the mean's own rounding |
| `Ratings.AverageCanDrift` | internal/service/trip_service.go:1138-1144 | so it need not be: seven ratings after which it is not |
| `CatalogService.SettingsService.BulkImport` | internal/service/settings_service.go:510-586 | the cached loop gives the catalogue and counters of a cache-free import, and refuses an unknown vehicle type |
| `CatalogService.SettingsService.Resolve` | internal/service/settings_service.go:528-559 | a cached make is the one the table would give, and the cache stays right |
| `Catalog.EveryRowCounts` | internal/service/settings_service.go:510-586 | every row is counted once, as a new model or as skipped |
| `Catalog.CountersMatchTables` | internal/service/settings_service.go:510-586 | the counters are the growth of the tables, which only grow |
| `CatalogRows.CoreIs` | internal/service/settings_service.go:522-523 | trimming gives the only text between blanks, namely spaces, tabs, line feeds, form feeds, vertical tabs and carriage returns |
| `CatalogRows.SameNameIs` | internal/service/settings_service.go:528 | two names have the same key if and only if they agree letter by letter up to case |
| `CatalogRows.RowIsImported` | internal/service/settings_service.go:519-582 | a row without make or model is skipped; any other creates its make and model, as spelled there, exactly if the catalogue has none of that name up to case, with a category for cars only, and is counted so |
| `CatalogRows.BrokenRowLeavesMake` | internal/service/settings_service.go:530-582 | a row that an error ends after its make leaves exactly that make behind, if it was new |
| `Catalog.ReimportCreatesNothing` | internal/service/settings_service.go:504-509 | importing the same or overlapping rows again creates nothing and skips every row |
| `Catalog.ImportInParts` | internal/service/settings_service.go:510-586 | a sheet may be imported in parts |
| `Catalog.RetryAfterOutage` | internal/service/settings_service.go:510-586 | an import that a database error ends anywhere, even between a make and its model, is made good by importing the whole sheet again |
| `ImportRuns.RowAlone` | internal/service/settings_service.go:519-582 | with nothing in between, the repository calls for a row are the import of that row |
| `ImportRuns.OverlappingImports` | internal/service/settings_service.go:510-586 | however imports overlap, duplicate errors included: no twins, every row an import is done with is in the catalogue and was counted once, and all counters together are the growth of the tables |
| `Catalog.ImportKeepsNoTwins` | internal/service/settings_service.go:510-586 | imports never create two makes of a type, or two models of a make, whose names agree up to case |

## Left out

- LedgerStore.LedgerRepository.MarkEscrowCompleted: metadata columns (notes, reviewing admins, failure reasons, gateway transfer ids) are not modelled here or in the other ledger methods; whether a transfer id is known is.
- LedgerStore.LedgerRepository.Integrity: the per-wallet drift list of the report is modelled by its being empty or not.
- Money.NothingOverflows: everywhere else amounts are unbounded integers, so 64-bit overflow is ruled out for the gross-up only.
- TrailIntegrity.VerifyDetectsEveryChange: rows with a sequence number below 1 are never read by AllPointsBySeq, so adding such rows is not detected; an untouched shift record is assumed; collisions of HMAC-SHA256 are idealised away.
- TrackingService.ShiftLog.Ingest: accuracy, speed, heading, receipt time and driven distance are outside the hash and not modelled; neither are digits below a microsecond, nor the rounding of any other stored time; an unknown shift is the same error as a foreign one.
- Pin.GuessesAreSpaced: tries follow one another; PinRuns.FewGuessesAtOnce is about tries that overlap.
- Pin.FewGuessesPerLock: tries follow one another; PinRuns.FewGuessesAtOnce is about tries that overlap.
- PinRuns.FewGuessesAtOnce: bcrypt is a comparison of numbers; the codes that SetPIN and AddPayoutAccount ask for come before their steps.
- Ratings.AverageIsNearMean: floating point is read as exact hundredths; two ratings folded at the same moment are not modelled.
- CatalogService.SettingsService.BulkImport: ASCII names only; it runs alone and without database errors, Catalog.RetryAfterOutage and ImportRuns.OverlappingImports are about the rest; makes and models are not deleted meanwhile.
- KinLaws.PaymentWasVetted: `AdminDecide` is one step; KinRuns.ApprovedAloneIff says when an approval decided on an older row breaks the rule.
- KinService.KinService.SubmitAppeal: finding the driver, the next of kin's code and the bank's answer come before it; tokens are unguessable numbers.
- PayoutSafety.EveryRunIsSafe: the poller's scans and loops are modelled by its steps, and by its turn for one row in PayoutService; payouts switched off and batch sizes only remove steps.
- PayoutService.PayoutService.HandleTransferWebhook: the transfer is asked for by reference instead of the gateway's id, so a report without an id does not occur.
- MatchingSafety.NextKeepsSafe: a call that crashes is the subject of CrashedAccept.CrashIsHarmlessIff; a refund that fails with a database error ends like one; escrow is switched on; the pickup PIN, geo index and notifications only remove or add steps without effect on this state, and a driver who is not eligible ends a call before its first write.
- WalletService.WalletService.Withdraw: user and driver lookups are one flag; the kinds of errors that only differ in wording are merged.
- HTTP handlers, routing, middleware, configuration, migrations and documents: plumbing.
- Flutterwave, SMS, e-mail, push, object storage and WebSockets: foreign I/O, of which only the gateway's outcomes matter here.
- Redis (geo queries, rate limits, staleness), bcrypt, JWT, tokens, OTPs and UUIDs: opaque.
- Profiles, document types, plans, listings, statistics, pagination, and name, phone and PIN-strength checks: reads, and checks of a single value.
