# Raffle marketplace: a verified model of its money and its protocols

The repository is the backend of a marketplace where sellers raffle products. Buyers load credit, buy
tickets, one ticket wins, the prize is shipped and confirmed, the winner may open a dispute, and the seller
is paid a week after the confirmation. This project models that protocol, the wallet ledger behind it, the
promotion bonuses, the random ticket allocation and the token handling, and proves what holds of every run.

`dafny verify dfyconfig.toml` checks everything.

## How it is built

- **Arithmetic and algorithms.** `Rounding`, `PriceSuggestion`, `PromotionPricing`, `PromotionScore`,
  `DisputeMath`, `PackRule`, `TicketSelection` (an in-place partial shuffle on an array, with the proof that
  every ordered selection is equally likely).
- **The market as a state machine.** `Ledger`, `Journal`, `Tickets`, `Raffles` and `TopUps` are the stored
  rows; `Market` gives every service call as a function from the stored state, the caller, the clock and the
  outcome of the outside world to the new state and the error. The payment provider may be unreachable, throw,
  refuse, accept or complete; the storage may fail before the debit or after it.
- **What every call keeps.** `RaffleInvariant` (one row), `MarketInvariant` (rows, sessions, ledger and
  transactions together), `LifecycleKeeps`, `PurchaseKeeps`, `RefundKeeps`, `PayoutKeeps`, `TopUpKeeps`.
  `History` and `StepsFollow` say how rows may develop.
- **What every call brings about.** `PayoutOutcomes`, `DrawOutcomes`, `ResolutionOutcomes`, `PurchaseOutcomes`,
  `ScheduleOutcomes`, `LifecycleOutcomes` and `TopUpOutcomes` say, without naming the definitions in `Market`, when
  each call succeeds and what it then does to the rows, the balances and the records.
- **Runs.** `Runs` puts all calls into one alphabet and proves the invariant over every run; `Theorems` holds
  the safety results, `ExactConditions` says exactly when calls do what their names promise, `Attribution`
  who may bring about what, `DueTick` and `TaskRounds` what a whole round of a periodic task does, and
  `Witnesses` gives concrete runs in which a promise fails.
- **The services in their own form.** `Store` is the database as one mutable object; `PayoutsService`,
  `DisputesService`, `TicketsService`, `RafflesService`, `PaymentsService`, `PromotionsService` and
  `AuthService` are classes whose methods assign fields step by step, loop, roll back a failed transaction,
  and handle failures as the services do. Each method is proved to write exactly what the corresponding
  function specifies, so the results about runs are results about these methods.
- **Promotions and tokens.** `Promotions`, `PromotionInvariant`, `PromotionTheorems`; `RefreshTokens` (the
  rotation scheme of section 10.4 of RFC 6749) and `RateLimits`.

Money is in integer cents, times in milliseconds, a day is a fixed unit, and identifiers are positions in
the tables (ids for refresh tokens). Nulls are `Option`, thrown errors are values. Each call is one atomic step.

## Where the code does something other than its names or comments say

The model follows the code. The following are proved, with concrete runs in `Witnesses` for most of them.

- A dispute won by the seller confirms the delivery without a date, so the payout is refused for ever
  (`WinningSellerIsNeverPaid`).
- A refund debits the gross amount from a seller who was credited the net amount. Cancelling an expired raffle
  and refunding a dispute therefore fail unless the seller has other money (`CancellationNeedsGross`,
  `DisputeRefundExactly`, `TimeoutRefundsEverything`).
- The payout attempt inside the weekly release never succeeds, because the confirmation it writes is new
  (`AutoReleaseResult`, `ReleaseRoundPaysNobody`).
- The 48-hour escalation looks for a dispute state that no call ever writes (`EscalationNeverFires`).
- A confirmation survives a failed scheduling, but its payout then has no date and no tick ever pays it
  (`UndatedIsNeverTicked`).
- A top-up first reported as pending is marked processed and never credited (`PendingFirstIsNeverCredited`).
- The draw result survives a rejected winner and is unique per raffle, so the raffle is never drawn again
  (`RejectedWinnerNeverRedrawn`).
- A cancelled raffle can still be finished by an open dispute, without a winner (`FinishedWithoutWinner`).
- Cancelling by the seller refunds nobody; the model cancels only the raffle.
- If settling a post stops between settlement and grant, the grant is lost (`InterruptedSettlementNeverGrants`).

## Model

| member | source | states |
|---|---|---|
| `TicketSelection.SelectionIsBijection` | backend/src/tickets/random-ticket-selection.util.ts:11-31 | for fixed numbers, the admissible random index sequences and the ordered lists of k different free numbers correspond one to one: every outcome is equally likely |
| `TicketSelection.SelectionInjective` | backend/src/tickets/random-ticket-selection.util.ts:21-31 | two different index sequences never select the same list |
| `TicketSelection.SelectionSurjective` | backend/src/tickets/random-ticket-selection.util.ts:21-31 | every ordered list of different free numbers is selected by some admissible index sequence |
| `TicketSelection.ShuffleReorders` | backend/src/tickets/random-ticket-selection.util.ts:21-31 | the array being shuffled stays a permutation of the free numbers after any number of draws |
| `TicketSelection.AvailableIsExact` | backend/src/tickets/random-ticket-selection.util.ts:11-17 | the list of free numbers holds exactly the unused numbers from 1 to the total, each once |
| `TicketSelection.AvailableCount` | backend/src/tickets/random-ticket-selection.util.ts:11-17 | free and used numbers add up to the total |
| `TicketSelection.SelectRandomAvailableNumbers` | backend/src/tickets/random-ticket-selection.util.ts:5-32 | the in-place loop returns the specified selection: different, unused, in range, as many as asked for or as there are |
| `PackRule.GrantIsLargestAllowed` | backend/src/tickets/pack-simple.util.ts:11-75 | of the quantities on offer (as asked, or one more for five, two more for ten, random mode only) the largest that fits stock and allowance is granted, and a refused bonus names the limit that refused it |
| `PurchaseKeeps.AcceptedNumbers` | backend/src/tickets/tickets.service.ts:505-580 | an accepted purchase reserves exactly the granted number of different free numbers of the raffle and stays within the 50% limit |
| `PurchaseKeeps.SelectionNeverShort` | backend/src/tickets/tickets.service.ts:558-585 | after the quantity checks the random selection always finds enough numbers, so the last stock check cannot fail |
| `Tickets.PurchaseKeepsLimits` | backend/src/tickets/tickets.service.ts:476-580 | a purchase of free, different numbers within the allowance keeps every limit of the raffle |
| `Tickets.FreeStock` | backend/src/tickets/tickets.service.ts:486-500 | the free numbers are exactly as many as the total less the tickets ever created |
| `PromotionPricing.PreviewSplitsGross` | backend/src/social-promotions/social-promotions.service.ts:1312-1348 | discount plus charge is the gross amount, the discount is between zero and the cap, and the minimum charge is left; refused exactly at or below the minimum charge |
| `PromotionPricing.ChargeMonotone` | backend/src/social-promotions/social-promotions.service.ts:1312-1348 | buying more never costs less, for every percentage, despite rounding and the three caps |
| `PriceSuggestion.SuggestionBounds` | backend/src/tasks/raffle-tasks.service.ts:228-239 | the suggested price is at least one cent, at most the old price, and at least half of it up to rounding; both implementations agree |
| `PriceSuggestion.SuggestionMonotone` | backend/src/raffles/raffles.service.ts:1314-1341 | more tickets sold never lower the suggestion |
| `PriceSuggestion.PercentagesAgree` | backend/src/raffles/raffles.service.ts:1321-1330 | the two reported percentages differ by at most 50 / price + 0.005 points |
| `PriceSuggestion.RelaunchStaysPositive` | backend/src/raffles/raffles.service.ts:1029-1133 | relaunching again and again at the suggested price keeps the price positive and never raises it |
| `DisputeMath.SplitWithinPaid` | backend/src/disputes/disputes.service.ts:260-304 | after rounding, the refund is at most one cent above what the buyer paid (so it passes the second check), and both amounts together at most two cents, one for whole-cent inputs |
| `DisputeMath.SplitBoundIsTight` | backend/src/disputes/disputes.service.ts:260-304 | the two-cent bound is reached |
| `DisputeMath.DefaultsSplitExactly` | backend/src/disputes/disputes.service.ts:260-304 | default amounts split the paid total exactly |
| `DisputeMath.CoveredIsLongestPrefix` | backend/src/disputes/disputes.service.ts:512-521 | the tickets marked as refunded are the longest prefix, oldest first, whose total fits into the refund |
| `DisputeMath.FullRefundCoversAll` | backend/src/disputes/disputes.service.ts:512-521 | a refund of at least everything paid marks every ticket |
| `DisputeMath.CoveredWithin` | backend/src/disputes/disputes.service.ts:512-521 | the marked tickets never cost more than the refund |
| `DisputeMath.FullyRefunded` | backend/src/disputes/disputes.service.ts:512-521 | the loop over the remaining cents picks exactly that prefix |
| `Ledger.PostKeepsBooks` | backend/src/wallet/wallet.service.ts:107-262 | any movement that leaves the wallet non-negative keeps balances equal to the fold of their entries, the stamps on the entries right, and the total equal to the sum of all entries |
| `Ledger.DebitExists` | backend/src/payouts/payouts.service.ts:686-696 | a payout debit exists in the ledger exactly when the count of payout debits is positive |
| `Ledger.OpenWalletKeepsBooks` | backend/src/wallet/wallet.service.ts:99-105 | a wallet opened at zero changes no account |
| `Store.WalletService.Move` | backend/src/wallet/wallet.service.ts:113-131 | one balance changes by the signed amount and one entry with both new balances is appended |
| `Store.WalletService.CreditUserBalance` | backend/src/wallet/wallet.service.ts:107-134 | writes the specified books, or reports its error and writes nothing |
| `Store.WalletService.DebitUserBalance` | backend/src/wallet/wallet.service.ts:136-169 | the same for a debit, refused when it would go below zero |
| `Store.WalletService.CreditSellerPayable` | backend/src/wallet/wallet.service.ts:171-197 | the same for a seller credit |
| `Store.WalletService.DebitSellerPayable` | backend/src/wallet/wallet.service.ts:199-233 | the same for a seller debit, refused when it would go below zero |
| `Theorems.RefundedIsNeverPaid` | backend/src/disputes/disputes.service.ts:346-353 | on every continuation of a run, after a dispute refund the payout never leaves pending, nothing is released, nothing is debited or paid for it, and the refund stays the only one |
| `Theorems.StartedIsNeverDisputed` | backend/src/disputes/disputes.service.ts:58-75 | on every continuation, once a payout left pending there is no dispute and no dispute refund |
| `Theorems.StartedRefusesDisputes` | backend/src/disputes/disputes.service.ts:58-75 | in such a state opening, answering and resolving a dispute are all rejected and change nothing |
| `Theorems.NeverBothRefundedAndPaid` | backend/src/payments/payments.service.ts:565-609 | in every reachable state a raffle has a dispute refund in the ledger, or payout debits and payments, never both |
| `Theorems.PayoutsOnlyAdvance` | backend/src/payouts/payouts.service.ts:279-456 | a payout leaves pending at most once, ends at most once and never changes its net amount, over any run |
| `Theorems.PayoutEffect` | backend/src/payouts/payouts.service.ts:358-415 | in every reachable state the net ledger effect of a payout is minus its net amount exactly when it is processing or completed, zero otherwise, with at most one debit ever; the existence test of the failure handler is therefore right |
| `Theorems.ReleaseNeverReopens` | backend/src/payouts/payouts.service.ts:247-256 | the weekly release never meets a failed payout, so the branch back to pending is never taken |
| `Theorems.ReleasesArePermanent` | backend/src/payouts/payouts.service.ts:625-669 | a release means confirmed, finished, completed, one payment of the net amount, no dispute, and not before seven days after the confirmation; it stays so for ever, also for asynchronous completion |
| `Theorems.PaidWhatTheTicketsAreWorth` | backend/src/payouts/payouts.service.ts:92-118 | what the seller is paid is the paid total of the raffle less the platform rate |
| `Theorems.MoneyIsConserved` | backend/src/wallet/wallet.service.ts:107-233 | in every reachable state all wallets together hold the top-ups less their refunds, less what purchases left with the platform, less payouts processing or completed |
| `Theorems.BalancesAreFolds` | backend/src/wallet/wallet.service.ts:235-262 | every balance is the fold of its entries and never negative, and each entry carries the balances of its moment |
| `Theorems.RefundsWithinPurchases` | backend/src/disputes/disputes.service.ts:488-510 | what a buyer got back for a raffle is the price of the refunded tickets, or the dispute amount, which exceeds the purchases by one cent at most |
| `Theorems.TicketsWithinLimits` | backend/src/tickets/tickets.service.ts:476-540 | over any run of purchases numbers are unique and in range and nobody holds more than half |
| `Theorems.TopUpsCreditedOnce` | backend/src/payments/payments.service.ts:704-763 | each top-up has at most one credit entry and one load transaction, both of the credited amount, and at most one refund within it |
| `Theorems.ProcessedSessionsAreFinal` | backend/src/payments/payments.service.ts:711-716 | a processed session keeps its credit for ever, and once it is not approved it can never be refunded again |
| `Theorems.RepeatedWebhookIgnored` | backend/src/payments/payments.service.ts:399-417 | a webhook accepted once is ignored ever after, whatever its repetition says |
| `Runs.RunsStayHealthy` | backend/src/payments/payments.service.ts:565-609 | any calls by anybody, with any provider and storage outcome and a clock that does not go back, keep the market invariant and only move rows forward |
| `Runs.ReachedHealthy` | backend/src/raffles/raffles.service.ts:354-380 | the invariant holds in every state a run from an empty market can reach |
| `Runs.OneCall` | backend/src/payouts/payouts.service.ts:279-456 | one call of any kind keeps the invariant, and each row and session only moves forward |
| `Attribution.EveryChangeExplained` | backend/src/raffles/raffles.service.ts:767-1218 | a winner, a confirmation, a dispute, its resolution, a cancellation, a payout start or a release only ever comes from the call, caller and moment meant for it, and no call touches another raffle |
| `ExactConditions.PurchaseSucceedsExactly` | backend/src/tickets/tickets.service.ts:439-720 | a purchase goes through exactly when it is acceptable and priced, the buyer can pay and the seller earns; otherwise nothing changes |
| `ExactConditions.PurchaseIssuesTheGrant` | backend/src/tickets/tickets.service.ts:590-720 | it then issues exactly the granted number of different free tickets and moves exactly the billed amounts |
| `ExactConditions.CancellationNeedsGross` | backend/src/tasks/raffle-tasks.service.ts:193-226 | cancelling with refunds works exactly when the seller payable covers the gross total, although only the net amount was credited; then every ticket is refunded |
| `ExactConditions.FeeBlocksCancellation` | backend/src/tasks/raffle-tasks.service.ts:74-90 | a seller whose payable is below the gross total blocks the expiry task: it changes nothing |
| `ExactConditions.DisputeRefundExactly` | backend/src/disputes/disputes.service.ts:456-530 | a dispute refund works exactly with a paid ticket left, within the paid amount plus a cent, and with enough seller payable |
| `ExactConditions.TimeoutRefundsEverything` | backend/src/tasks/dispute-tasks.service.ts:111-185 | the fifteen-day refund pays back everything and leaves no paid ticket, or changes nothing; it works exactly when the seller payable covers what the buyer paid |
| `ExactConditions.PricesAddUp` | backend/src/tasks/dispute-tasks.service.ts:135-148 | the prices of the paid tickets of a buyer add up to the refunded amount |
| `ExactConditions.WinningSellerIsNeverPaid` | backend/src/disputes/disputes.service.ts:346-353 | a dispute won by the seller confirms without a date: the payout is refused for ever |
| `ExactConditions.AttemptedExactlyWhenReleasable` | backend/src/payouts/payouts.service.ts:310-325 | a payout attempt goes ahead exactly when the payout is pending and seven days have passed since a dated confirmation; otherwise nothing changes |
| `ExactConditions.RejectedWinnerNeverRedrawn` | backend/src/raffles/raffles.service.ts:1486-1525 | after a winner is rejected every later draw is refused for ever, because the draw result stays; the raffle is never delivered or paid |
| `ExactConditions.CancelledCanStillFinish` | backend/src/disputes/disputes.service.ts:346-353 | a rejected and cancelled raffle with an open dispute is still finished by the resolution, without a winner |
| `ExactConditions.ApprovalCreditsExactly` | backend/src/payments/payments.service.ts:704-763 | an approval credits exactly the unprocessed sessions with a positive amount |
| `ExactConditions.PendingFirstIsNeverCredited` | backend/src/payments/payments.service.ts:783-798 | a session first reported as anything but approved is never credited, whatever is approved later |
| `LifecycleKeeps.EscalationNeverFires` | backend/src/tasks/dispute-tasks.service.ts:69-106 | the 48-hour escalation never changes a reachable state: no call ever puts a dispute into the state it looks for |
| `PayoutKeeps.AutoReleaseResult` | backend/src/tasks/raffle-tasks.service.ts:361-382 | the payout attempt of the weekly release is always refused; it leaves a confirmed raffle with a pending payout dated now |
| `Witnesses.PaidButNotCredited` | backend/src/payments/payments.service.ts:783-798 | a concrete run: pending, then approved, and never credited |
| `Witnesses.ExpiredButNotRefunded` | backend/src/tasks/raffle-tasks.service.ts:193-226 | a concrete run: expired with too few sales, and the missing fee blocks refund and cancellation |
| `Witnesses.TimedOutButNotRefunded` | backend/src/tasks/dispute-tasks.service.ts:111-185 | a concrete run: the automatic refund is due and refused |
| `Witnesses.WonButNeverPaid` | backend/src/disputes/disputes.service.ts:346-353 | a concrete run: the seller wins the dispute and no continuation ever pays |
| `Witnesses.FinishedWithoutWinner` | backend/src/raffles/raffles.service.ts:1486-1525 | a concrete run: cancelled, then finished without a winner |
| `DueTick.TickLeavesNoneBehind` | backend/src/payouts/payouts.service.ts:194-226 | a tick leaves no payout pending that was due, confirmed, past its seven days and undisputed; payouts not due or not releasable are unchanged |
| `DueTick.TickEffect` | backend/src/payouts/payouts.service.ts:206-225 | whether a payout is tried depends only on its own row and moment, never on another payout of the tick |
| `DueTick.AttemptIsLocal` | backend/src/payouts/payouts.service.ts:279-456 | an attempt changes no other raffle |
| `DueTick.DueAttemptsAreATick` | backend/src/payouts/payouts.service.ts:195-204 | reading the due rows once and trying each covers every due payout exactly once |
| `TaskRounds.ReleaseRoundPaysNobody` | backend/src/tasks/raffle-tasks.service.ts:339-383 | a release round confirms exactly the raffles a week past their draw without dispute, changes no others and moves no money |
| `TaskRounds.AutoRefundsAllOrNothing` | backend/src/tasks/dispute-tasks.service.ts:111-185 | a round of automatic refunds settles each timed-out dispute completely or leaves it untouched, and touches no other raffle |
| `TaskRounds.EscalationRoundIsIdle` | backend/src/tasks/dispute-tasks.service.ts:69-106 | an escalation round changes no reachable table |
| `TaskRounds.ExpiryRoundDrawsOrRefunds` | backend/src/tasks/raffle-tasks.service.ts:42-136 | an expiry round turns each listed raffle into a drawn one, a cancelled one with every ticket refunded, or leaves it untouched |
| `TicketsService.DrawIsUniform` | backend/src/tickets/tickets.service.ts:1052-1054 | each paid ticket is the winner for exactly one random index, and no other ticket ever is |
| `LifecycleKeeps.CreateRaffleKeeps` | backend/src/raffles/raffles.service.ts:289-390 | creating a raffle keeps the market invariant: rows consistent, ledger, transactions and rows agreeing, money conserved |
| `LifecycleKeeps.RelaunchKeeps` | backend/src/raffles/raffles.service.ts:1029-1133 | relaunching keeps the market invariant: rows consistent, ledger, transactions and rows agreeing, money conserved |
| `LifecycleKeeps.UpdatePriceKeeps` | backend/src/raffles/raffles.service.ts:1893-1961 | changing the price keeps the market invariant: rows consistent, ledger, transactions and rows agreeing, money conserved |
| `LifecycleKeeps.ExtendDeadlineKeeps` | backend/src/raffles/raffles.service.ts:1399-1449 | extending the deadline keeps the market invariant: rows consistent, ledger, transactions and rows agreeing, money conserved |
| `LifecycleKeeps.SetHiddenKeeps` | backend/src/reports/reports.service.ts:139-182 | hiding keeps the market invariant: rows consistent, ledger, transactions and rows agreeing, money conserved |
| `LifecycleKeeps.DrawIfEligibleKeeps` | backend/src/tickets/tickets.service.ts:1025-1101 | an automatic draw keeps the market invariant: rows consistent, ledger, transactions and rows agreeing, money conserved |
| `LifecycleKeeps.SelectWinnerKeeps` | backend/src/raffles/raffles.service.ts:1135-1218 | a draw by an administrator keeps the market invariant: rows consistent, ledger, transactions and rows agreeing, money conserved |
| `LifecycleKeeps.CheckCompletionKeeps` | backend/src/tickets/tickets.service.ts:986-1023 | selling out keeps the market invariant: rows consistent, ledger, transactions and rows agreeing, money conserved |
| `LifecycleKeeps.RejectWinnerStepKeeps` | backend/src/raffles/raffles.service.ts:1486-1525 | rejecting a winner keeps the market invariant: rows consistent, ledger, transactions and rows agreeing, money conserved |
| `LifecycleKeeps.CancelStepKeeps` | backend/src/raffles/raffles.service.ts:767-810 | cancelling keeps the market invariant: rows consistent, ledger, transactions and rows agreeing, money conserved |
| `LifecycleKeeps.ShipStepKeeps` | backend/src/raffles/raffles.service.ts:851-894 | shipping keeps the market invariant: rows consistent, ledger, transactions and rows agreeing, money conserved |
| `LifecycleKeeps.ConfirmStepKeeps` | backend/src/raffles/raffles.service.ts:922-1000 | confirming a delivery, with scheduling failing anywhere, keeps the market invariant: rows consistent, ledger, transactions and rows agreeing, money conserved |
| `LifecycleKeeps.OpenDisputeStepKeeps` | backend/src/disputes/disputes.service.ts:44-142 | opening a dispute keeps the market invariant: rows consistent, ledger, transactions and rows agreeing, money conserved |
| `LifecycleKeeps.RespondStepKeeps` | backend/src/disputes/disputes.service.ts:157-211 | answering a dispute keeps the market invariant: rows consistent, ledger, transactions and rows agreeing, money conserved |
| `LifecycleKeeps.OpenSessionKeeps` | backend/src/payments/payments.service.ts:232-314 | starting a top-up keeps the market invariant: rows consistent, ledger, transactions and rows agreeing, money conserved |
| `PurchaseKeeps.BuyKeeps` | backend/src/tickets/tickets.service.ts:439-840 | a purchase keeps the market invariant: rows consistent, ledger, transactions and rows agreeing, money conserved |
| `RefundKeeps.CancelAndRefundKeeps` | backend/src/tasks/raffle-tasks.service.ts:193-226 | refunding and cancelling keeps the market invariant: rows consistent, ledger, transactions and rows agreeing, money conserved |
| `RefundKeeps.ProcessExpiredKeeps` | backend/src/tasks/raffle-tasks.service.ts:42-136 | the expiry task keeps the market invariant: rows consistent, ledger, transactions and rows agreeing, money conserved |
| `RefundKeeps.ResolveKeeps` | backend/src/disputes/disputes.service.ts:225-420 | resolving a dispute, with or without a refund, keeps the market invariant: rows consistent, ledger, transactions and rows agreeing, money conserved |
| `RefundKeeps.AutoRefundKeeps` | backend/src/tasks/dispute-tasks.service.ts:111-185 | the automatic refund keeps the market invariant: rows consistent, ledger, transactions and rows agreeing, money conserved |
| `PayoutKeeps.ProcessPayoutKeeps` | backend/src/payouts/payouts.service.ts:279-456 | a payout attempt with any outcome, also failing after the debit, keeps the market invariant: rows consistent, ledger, transactions and rows agreeing, money conserved |
| `PayoutKeeps.SyncPayoutKeeps` | backend/src/payouts/payouts.service.ts:487-557 | a later provider sync keeps the market invariant: rows consistent, ledger, transactions and rows agreeing, money conserved |
| `PayoutKeeps.AutoReleaseKeeps` | backend/src/tasks/raffle-tasks.service.ts:339-383 | the weekly release keeps the market invariant: rows consistent, ledger, transactions and rows agreeing, money conserved |
| `TopUpKeeps.SyncTopUpKeeps` | backend/src/payments/payments.service.ts:419-453 | a provider notice, in any order, keeps the market invariant: rows consistent, ledger, transactions and rows agreeing, money conserved |
| `TopUpKeeps.WebhookKeeps` | backend/src/payments/payments.service.ts:390-417 | a webhook keeps the market invariant: rows consistent, ledger, transactions and rows agreeing, money conserved |
| `TopUpKeeps.MockStepKeeps` | backend/src/payments/payments.service.ts:611-702 | a mock action keeps the market invariant: rows consistent, ledger, transactions and rows agreeing, money conserved |
| `TopUpKeeps.RefundTopUpKeeps` | backend/src/payments/payments.service.ts:455-529 | refunding a top-up keeps the market invariant: rows consistent, ledger, transactions and rows agreeing, money conserved |
| `RefundKeeps.GroupsCoverTotal` | backend/src/tickets/tickets.service.ts:146-182 | the credits to the buyers, one each, add up to the single debit of the seller |
| `RefundKeeps.RefundAllPosts` | backend/src/tickets/tickets.service.ts:128-202 | refunding a raffle gives each buyer what was paid, debits the seller the total and moves no money in sum |
| `RefundKeeps.RefundResolutionBooked` | backend/src/disputes/disputes.service.ts:498-510 | a dispute refund credits the buyer and debits the seller the same amount and is the only ticket refund of its raffle |
| `PayoutKeeps.FailBeforeDebit` | backend/src/payouts/payouts.service.ts:390-415 | before a debit the failure handler finds none and only marks the payout as failed |
| `PayoutKeeps.FailAfterDebit` | backend/src/payouts/payouts.service.ts:390-415 | after the debit the failure handler finds it and gives the money back |
| `PayoutsService.Payouts.CreatePayout` | backend/src/payouts/payouts.service.ts:77-130 | the payout row is created from the paid tickets, or left alone when it exists |
| `PayoutsService.Payouts.SchedulePayoutAfterDelivery` | backend/src/payouts/payouts.service.ts:135-189 | the payout is dated a week after the confirmation, with a storage fault anywhere |
| `PayoutsService.Payouts.CanReleaseFunds` | backend/src/payments/payments.service.ts:565-609 | answers with the specified hold, or none |
| `PayoutsService.Payouts.HasSellerPayableDebit` | backend/src/payouts/payouts.service.ts:686-696 | finds a payout debit exactly when the ledger has one |
| `PayoutsService.Payouts.RecordAcceptedProviderPayout` | backend/src/payouts/payouts.service.ts:594-623 | debits the seller and marks the acceptance, or neither |
| `PayoutsService.Payouts.CompleteAcceptedPayout` | backend/src/payouts/payouts.service.ts:625-669 | payout, raffle and transaction are written together |
| `PayoutsService.Payouts.Fail` | backend/src/payouts/payouts.service.ts:387-415 | the failure handler is the specified one |
| `PayoutsService.Payouts.AskProvider` | backend/src/payouts/payouts.service.ts:328-386 | the guarded part ends in the specified state, or in one the failure handler takes to it |
| `PayoutsService.Payouts.ProcessPayout` | backend/src/payouts/payouts.service.ts:279-456 | the stored tables and the error are those of the specified attempt, for every outcome |
| `PayoutsService.Payouts.ProcessPayoutForRaffle` | backend/src/payouts/payouts.service.ts:231-274 | the same for the attempt by raffle |
| `PayoutsService.Payouts.SyncProviderPayoutStatus` | backend/src/payouts/payouts.service.ts:487-557 | the same for the provider sync |
| `PayoutsService.Payouts.ProcessDuePayouts` | backend/src/payouts/payouts.service.ts:194-226 | the loop over due payouts is the specified tick |
| `DisputesService.Disputes.OpenDispute` | backend/src/disputes/disputes.service.ts:44-142 | the tables and the error are those of the specified step |
| `DisputesService.Disputes.RespondDispute` | backend/src/disputes/disputes.service.ts:157-211 | the same for the answer of the seller |
| `DisputesService.Disputes.ResolutionAmounts` | backend/src/disputes/disputes.service.ts:260-304 | the mutable amounts end as the specified split, or in the specified error |
| `DisputesService.Disputes.ProcessDisputeRefund` | backend/src/disputes/disputes.service.ts:448-531 | one transaction: both movements and the marked tickets, or nothing |
| `DisputesService.Disputes.ResolveDispute` | backend/src/disputes/disputes.service.ts:225-353 | the tables and the error are those of the specified resolution |
| `DisputesService.DisputeTasks.EscalateUnrespondedDisputes` | backend/src/tasks/dispute-tasks.service.ts:69-106 | each waiting, unanswered dispute of two days moves to mediation, all others stay |
| `DisputesService.DisputeTasks.AutoRefundOldDisputes` | backend/src/tasks/dispute-tasks.service.ts:111-185 | the loop is the specified round of refunds |
| `TicketsService.TicketDesk.ReserveTicketsForCheckout` | backend/src/tickets/tickets.service.ts:439-840 | one checkout, all or nothing, as specified |
| `TicketsService.TicketDesk.GroupByBuyer` | backend/src/tickets/tickets.service.ts:146-163 | each buyer of paid tickets once, in the order of the first ticket |
| `TicketsService.TicketDesk.RefundTickets` | backend/src/tickets/tickets.service.ts:128-202 | refunds every paid ticket, or changes nothing |
| `TicketsService.TicketDesk.PaidTickets` | backend/src/tickets/tickets.service.ts:1033-1038 | the positions of the paid tickets, as many as there are |
| `TicketsService.TicketDesk.DrawRaffleIfEligible` | backend/src/tickets/tickets.service.ts:1025-1101 | the tables and the error are those of the specified draw of the picked paid ticket |
| `TicketsService.TicketDesk.CheckRaffleCompletion` | backend/src/tickets/tickets.service.ts:986-1023 | a fully paid raffle is sold out and drawn, as specified |
| `RafflesService.RaffleDesk.Create` | backend/src/raffles/raffles.service.ts:289-390 | the tables and the error are those of the specified step |
| `RafflesService.RaffleDesk.RelaunchWithSuggestedPrice` | backend/src/raffles/raffles.service.ts:1029-1133 | the same for a relaunch |
| `RafflesService.RaffleDesk.UpdatePrice` | backend/src/raffles/raffles.service.ts:1893-1961 | the same for a price change |
| `RafflesService.RaffleDesk.ExtendDeadline` | backend/src/raffles/raffles.service.ts:1399-1449 | the same for a deadline |
| `RafflesService.RaffleDesk.Cancel` | backend/src/raffles/raffles.service.ts:767-810 | the same for a cancellation |
| `RafflesService.RaffleDesk.MarkAsShipped` | backend/src/raffles/raffles.service.ts:851-894 | the same for shipping |
| `RafflesService.RaffleDesk.ConfirmDelivery` | backend/src/raffles/raffles.service.ts:922-1000 | the same for a confirmation, which survives a scheduling fault |
| `RafflesService.RaffleDesk.SelectWinner` | backend/src/raffles/raffles.service.ts:1135-1218 | the same for a draw by an administrator |
| `RafflesService.RaffleDesk.RejectRaffleWinner` | backend/src/raffles/raffles.service.ts:1486-1525 | the same for a rejected winner |
| `RafflesService.RaffleTasks.CancelAndRefundRaffle` | backend/src/tasks/raffle-tasks.service.ts:193-226 | refund and cancel, or nothing |
| `RafflesService.RaffleTasks.ProcessExpiredRaffles` | backend/src/tasks/raffle-tasks.service.ts:42-136 | the loop is the specified expiry round |
| `RafflesService.RaffleTasks.AutoReleasePayments` | backend/src/tasks/raffle-tasks.service.ts:339-383 | the loop is the specified release round |
| `PaymentsService.Payments.CreateCreditTopUp` | backend/src/payments/payments.service.ts:232-314 | a session of the rounded amount, or an error |
| `PaymentsService.Payments.ApproveProviderTopUp` | backend/src/payments/payments.service.ts:704-763 | credit, session and transaction together, once |
| `PaymentsService.Payments.UpdateTopUpFromProvider` | backend/src/payments/payments.service.ts:775-798 | the matching session is relabelled and marked processed |
| `PaymentsService.Payments.SyncPaymentStatus` | backend/src/payments/payments.service.ts:419-453 | the tables and the error are those of the specified sync |
| `PaymentsService.Payments.HandleProviderWebhook` | backend/src/payments/payments.service.ts:390-417 | the event key is stored only after a successful sync, and a stored key stops everything |
| `PaymentsService.Payments.ApplyMockAction` | backend/src/payments/payments.service.ts:611-702 | the tables and the error are those of the specified mock action |
| `PaymentsService.Payments.RefundCreditTopUp` | backend/src/payments/payments.service.ts:455-529 | refunds within the rest and the balance, or changes nothing |
| `PromotionsService.PromotionBureau.BuildBonusPreview` | backend/src/social-promotions/social-promotions.service.ts:1312-1348 | the successive caps give the specified preview |
| `PromotionsService.PromotionBureau.ReserveBonusForCheckout` | backend/src/social-promotions/social-promotions.service.ts:360-415 | the tables and the error are those of the specified reservation |
| `PromotionsService.PromotionBureau.MarkRedemptionUsedByReservation` | backend/src/social-promotions/social-promotions.service.ts:420-469 | the held redemption of the reservation and grant is found if there is one, and consumed with its grant |
| `PromotionsService.PromotionBureau.ReleaseReservedRedemptionByReservation` | backend/src/social-promotions/social-promotions.service.ts:474-501 | the loop is the specified release |
| `PromotionsService.PromotionBureau.ReinstateRedemptionByPurchaseReference` | backend/src/social-promotions/social-promotions.service.ts:506-583 | the loop is the specified reversal |
| `PromotionsService.PromotionBureau.ValidateSocialPromotionPost` | backend/src/social-promotions/social-promotions.service.ts:686-846 | status and latest snapshot are the specified ones |
| `PromotionsService.PromotionBureau.RetryTechnicalReview` | backend/src/social-promotions/social-promotions.service.ts:1176-1213 | back to pending from any status |
| `PromotionsService.PromotionBureau.FindTier` | backend/src/social-promotions/social-promotions.service.ts:930-932 | the first tier reached in falling order |
| `PromotionsService.PromotionBureau.SettleSocialPromotionPost` | backend/src/social-promotions/social-promotions.service.ts:851-972 | settlement, grant and status are written in that order, and an interruption leaves exactly the earlier ones |
| `AuthService.Auth.RefreshAccessToken` | backend/src/auth/auth.service.ts:876-941 | the token table and the error are those of the specified rotation |
| `AuthService.Auth.FindRefreshTokenByValue` | backend/src/auth/auth.service.ts:1044-1055 | finds a row that names the value, if there is one |
| `AuthService.Auth.RevokeRefreshToken` | backend/src/auth/auth.service.ts:946-960 | every unrevoked row that names the value is revoked and scrubbed |
| `AuthService.Auth.RevokeAllUserRefreshTokens` | backend/src/auth/auth.service.ts:965-1003 | every unrevoked row of the user is revoked and scrubbed |
| `AuthService.Auth.CreateRefreshToken` | backend/src/auth/auth.service.ts:1008-1030 | a row with the hash only, seven days ahead |
| `AuthService.Auth.CleanupExpiredRefreshTokens` | backend/src/auth/auth.service.ts:1035-1042 | exactly the expired or revoked rows are deleted |
| `AuthService.Auth.CountRecent` | backend/src/auth/auth.service.ts:248-256 | counts the rows of the last hour |
| `AuthService.Auth.RequestPasswordReset` | backend/src/auth/auth.service.ts:283-343 | earlier live tokens are used up and one is created, unless three were created in the last hour |
| `AuthService.Auth.ResendVerificationCode` | backend/src/auth/auth.service.ts:235-281 | the same for codes |
| `AuthService.Auth.ResetPassword` | backend/src/auth/auth.service.ts:362-414 | succeeds exactly for a live token of an eligible user with a strong password, and then the user has no live refresh token |
| `PromotionScore.TierIsGreatestReached` | backend/src/social-promotions/social-promotions.service.ts:1899-1918 | sorting and taking the first match picks the most demanding tier the score reaches, and none exactly when none is reached |
| `PromotionScore.BetterFiguresNeverLowerTheTier` | backend/src/social-promotions/social-promotions.service.ts:908-932 | increasing any metric never selects a lower tier, despite the rounding of the score |
| `PromotionScore.DefaultsAlwaysGrant` | backend/src/social-promotions/social-promotions.service.ts:1913-1918 | with the default tiers the base score alone earns a bonus |
| `PromotionScore.SortIsFalling` | backend/src/social-promotions/social-promotions.service.ts:1899-1911 | the configured tiers are sorted by falling minimum score and none is lost or invented |
| `PromotionTheorems.GrantsAndRedemptionsAgree` | backend/src/social-promotions/social-promotions.service.ts:360-583 | in every reachable state a grant is reserved, used or available exactly when it has one held, one consumed or neither redemption |
| `PromotionTheorems.ReversalsAreOneToOne` | backend/src/social-promotions/social-promotions.service.ts:533-570 | reversal transactions and reversed redemptions correspond one to one, with the same discount |
| `PromotionTheorems.OneGrantPerPost` | backend/src/social-promotions/social-promotions.service.ts:877-957 | over any run each post has at most one settlement and earns at most one grant, even when it is put back to pending after being settled |
| `PromotionTheorems.GrantsCarryTheirTier` | backend/src/social-promotions/social-promotions.service.ts:930-957 | each grant carries the percentage and cap of the most demanding tier its score reached |
| `PromotionTheorems.InterruptedSettlementNeverGrants` | backend/src/social-promotions/social-promotions.service.ts:916-957 | when settling stops between settlement and grant, no continuation ever grants the bonus |
| `PromotionTheorems.ReservedExactly` | backend/src/social-promotions/social-promotions.service.ts:360-415 | a bonus is reserved exactly for an unexpired available grant of the buyer, on a foreign raffle, above the minimum charge |
| `PromotionTheorems.NoDoubleUse` | backend/src/social-promotions/social-promotions.service.ts:374-395 | a grant that is held or used cannot be reserved again |
| `PromotionTheorems.RunsHold` | backend/src/social-promotions/social-promotions.service.ts:360-583 | any promotion calls keep the invariant; redemptions, settlements and reversals only move forward |
| `PromotionInvariant.ReleaseFreesTheReservation` | backend/src/social-promotions/social-promotions.service.ts:474-501 | releasing a reservation frees exactly the redemptions held for it |
| `PromotionInvariant.ReinstateReversesFullRefunds` | backend/src/social-promotions/social-promotions.service.ts:506-583 | a refund reverses exactly the bonuses of the purchase that it covers to within a cent |
| `PromotionInvariant.SettleKeeps` | backend/src/social-promotions/social-promotions.service.ts:851-972 | settling a post, interrupted anywhere, keeps the invariant |
| `RefreshTokens.EachValueAcceptedOnce` | backend/src/auth/auth.service.ts:876-941 | over any run each issued value is accepted at most once |
| `RefreshTokens.RevokedForEver` | backend/src/auth/auth.service.ts:923-931 | a revocation is never cleared, and a row revoked by any call keeps no plain value |
| `RefreshTokens.IssuedWithoutPlain` | backend/src/auth/auth.service.ts:1008-1030 | a row issued by the service never holds a plain value |
| `RefreshTokens.ReplayRevokesEverything` | backend/src/auth/auth.service.ts:888-902 | presenting a stored revoked value leaves its user without live tokens and changes nobody else |
| `RefreshTokens.RotationKeepsTheCount` | backend/src/auth/auth.service.ts:920-940 | a successful refresh swaps one live token for another, so their number stays the same |
| `RefreshTokens.AcceptedExactly` | backend/src/auth/auth.service.ts:879-918 | a refresh succeeds exactly for a stored, unrevoked, unexpired value of a usable account |
| `RefreshTokens.RunsMove` | backend/src/auth/auth.service.ts:876-1042 | any token calls keep the table sound and only move its rows forward |
| `RefreshTokens.RevokeAllLeavesNone` | backend/src/auth/auth.service.ts:965-1003 | revoking all leaves the user no live token and touches nobody else |
| `RateLimits.LimitsHold` | backend/src/auth/auth.service.ts:248-330 | over any run no hour holds more than three reset tokens or three codes of one user, and at most one reset token of a user is usable |
| `RateLimits.CheckedRowStaysLimited` | backend/src/auth/auth.service.ts:307-330 | a row created after the check keeps every hour within the limit |
| `RateLimits.RequestLeavesOneLive` | backend/src/auth/auth.service.ts:318-330 | a created reset token is the only usable one of its user |
| `RateLimits.ClosedHourHoldsFour` | backend/src/auth/auth.service.ts:307-317 | the hour is half open: exactly an hour after the first of three, a fourth is created |
| `PayoutOutcomes.AttemptEndsExactly` | backend/src/payouts/payouts.service.ts:328-415 | an attempt on a releasable payout ends paid exactly when the seller is connected and covered, the provider completes and nothing fails; under way exactly when it accepts instead; given up exactly when not connected, not covered, thrown, refused or failed. Paid means completed, released now, finished, one payment of the net amount; paid and under way take the net amount from the seller, giving up leaves every balance as it was |
| `PayoutOutcomes.CompletedIsPaid` | backend/src/payouts/payouts.service.ts:625-669 | once accepted, a completion releases the payout now, finishes the raffle, records one payment of the net amount and leaves the seller with that much less |
| `PayoutOutcomes.ReversedIsGivenUp` | backend/src/payouts/payouts.service.ts:387-415 | a failure after the debit ends as failed, and no balance of anybody differs from before the attempt |
| `PayoutOutcomes.SyncEndsExactly` | backend/src/payouts/payouts.service.ts:487-557 | a payout under way is paid when the provider later completes it, given up with the net amount returned when it refuses, and otherwise nothing changes; nor does it for a payout not under way |
| `DrawOutcomes.DrawExactly` | backend/src/tickets/tickets.service.ts:1040-1075 | a draw takes place exactly on an open raffle never drawn before, for a paid ticket; that ticket is then on record and its buyer is the winner |
| `DrawOutcomes.WinnerBoughtTheDrawnTicket` | backend/src/tickets/tickets.service.ts:1052-1071 | in every reachable state the winner is the buyer of the ticket on record |
| `DrawOutcomes.ChancesAreTicketsHeld` | backend/src/tickets/tickets.service.ts:1052-1054 | a user wins for exactly as many of the equally likely random indexes as the paid tickets the user holds |
| `DrawOutcomes.DrawCallsExactly` | backend/src/raffles/raffles.service.ts:1135-1218 | a draw by an administrator and an automatic one succeed under the same condition, with the same winner and the payout row of the net amount; a storage fault afterwards leaves the draw in place |
| `DrawOutcomes.SellingOutDraws` | backend/src/tickets/tickets.service.ts:986-1023 | the raffle is drawn as soon as every ticket is paid, and not before |
| `DisputeMath.AmountsForBuyer` | backend/src/disputes/disputes.service.ts:268-304 | for the buyer: the amount set, or everything paid when none is, accepted exactly when positive and at most a cent above what was paid, and recorded to the nearest cent with nothing for the seller |
| `DisputeMath.AmountsForSeller` | backend/src/disputes/disputes.service.ts:271-304 | for the seller: the same for the amount of the seller, which may be zero, with nothing for the buyer |
| `DisputeMath.AmountsPartial` | backend/src/disputes/disputes.service.ts:274-304 | partial: both amounts positive, together at most a cent above what was paid, the missing one of the seller being the rest; both recorded to the nearest cent |
| `ResolutionOutcomes.ResolutionIsWritten` | backend/src/disputes/disputes.service.ts:306-420 | a resolution with acceptable amounts goes through exactly when its refund can be made; then decision, amounts and date are on record, exactly the refund moves from the seller to the buyer and no other balance changes, and as many of the oldest paid tickets as the refund pays for in full are refunded; otherwise nothing changes |
| `ResolutionOutcomes.CoveredPaysExactly` | backend/src/disputes/disputes.service.ts:512-521 | the refunded tickets cost at most the refund, and one ticket more would cost more |
| `ResolutionOutcomes.UnacceptableResolution` | backend/src/disputes/disputes.service.ts:225-304 | without an active dispute, or with unacceptable amounts, a resolution is refused and changes nothing |
| `PurchaseOutcomes.AcceptedExactly` | backend/src/tickets/tickets.service.ts:455-580 | a request is acceptable exactly on an active, visible, foreign raffle, for at least one ticket within half of all tickets and the stock, and for chosen numbers that are different, in range and free |
| `PurchaseOutcomes.BillAddsUp` | backend/src/tickets/tickets.service.ts:575-690 | charge and both discounts add up to gross price and premium; the pack discount is the price of the tickets granted beyond the request; the seller gets the gross price less the fee to the nearest cent; each chosen number costs the percentage of the price to the nearest cent, random ones nothing |
| `PurchaseOutcomes.PurchaseIsBilledRight` | backend/src/tickets/tickets.service.ts:575-790 | every purchase that goes through sells the granted tickets at the price for such a bill: exactly its charge leaves the buyer, exactly its share reaches the seller, and both are on record with each discount |
| `PurchaseOutcomes.PackTicketsAreFree` | backend/src/tickets/tickets.service.ts:637-644 | without a bonus the buyer pays the price of what was asked for, plus the premium: tickets granted on top are free |
| `PurchaseOutcomes.BilledExactly` | backend/src/tickets/tickets.service.ts:616-640 | a bill is refused only for a bonus that applies to a gross amount at or below its minimum charge |
| `PurchaseOutcomes.SaleIsUniform` | backend/src/tickets/tickets.service.ts:548-615 | a random purchase that goes through sells every ordered list of that many free numbers for exactly one sequence of random indexes, and nothing else |
| `PurchaseOutcomes.ChosenAreIssued` | backend/src/tickets/tickets.service.ts:548-615 | whoever chooses numbers gets exactly those |
| `PurchaseOutcomes.NetIsNearest` | backend/src/payments/payments.service.ts:558-563 | the net amount of a payout is the gross amount less the platform rate of it, to the nearest cent |
| `PromotionPricing.DiscountIsGreatestAllowed` | backend/src/social-promotions/social-promotions.service.ts:1312-1348 | the discount is the greatest number of cents within the percentage to the nearest cent, the cap and what is left above the minimum charge |
| `ScheduleOutcomes.ConfirmationExactly` | backend/src/raffles/raffles.service.ts:922-1000 | only the winner confirms and only after shipping; the delivery is then confirmed now, and without a fault the payout waits with a date seven days later |
| `ScheduleOutcomes.DateStays` | backend/src/payouts/payouts.service.ts:149-156 | on every continuation the date of a confirmed payout stays, and no dispute comes in between |
| `ScheduleOutcomes.ConfirmedIsPaidOnTime` | backend/src/payouts/payouts.service.ts:135-226 | whatever calls come in between, a tick seven days after an undisturbed confirmation has started the payout, and an earlier tick leaves the raffle as it is |
| `ScheduleOutcomes.UndatedIsNeverTicked` | backend/src/raffles/raffles.service.ts:975-1000 | a confirmation whose scheduling failed leaves a payout without a date: on every continuation no tick ever touches it |
| `LifecycleOutcomes.PublishedExactly` | backend/src/raffles/raffles.service.ts:289-390 | a raffle is offered exactly by a known seller with at least ten tickets and a price, as asked, unsold and active |
| `LifecycleOutcomes.RelaunchedExactly` | backend/src/raffles/raffles.service.ts:1029-1133 | exactly the seller of a cancelled raffle relaunches it, as a new row with the same number of tickets |
| `LifecycleOutcomes.RepricedExactly` | backend/src/raffles/raffles.service.ts:1399-1449 | only the seller of an active raffle changes its price or deadline, the deadline only to a later one in the future, and nothing else changes |
| `LifecycleOutcomes.CancelledExactly` | backend/src/raffles/raffles.service.ts:767-810 | only the seller cancels, only while active, and no ticket and no money is touched |
| `LifecycleOutcomes.ShippedExactly` | backend/src/raffles/raffles.service.ts:851-894 | in reachable states the seller ships exactly a drawn raffle without a dispute |
| `LifecycleOutcomes.RejectedExactly` | backend/src/raffles/raffles.service.ts:1486-1525 | in reachable states every drawn raffle can have its winner rejected; it is then active again and keeps its draw on record |
| `LifecycleOutcomes.DisputedExactly` | backend/src/disputes/disputes.service.ts:44-142 | in reachable states the winner can open the one dispute exactly until the delivery is confirmed |
| `LifecycleOutcomes.AnsweredExactly` | backend/src/disputes/disputes.service.ts:157-211 | in reachable states only the seller answers, only once, only while the dispute is as it was opened; it is then in mediation, answered now |
| `LifecycleOutcomes.EscalatedExactly` | backend/src/tasks/dispute-tasks.service.ts:69-106 | a dispute waiting for the seller goes to mediation exactly after forty-eight hours without an answer |
| `LifecycleOutcomes.TimesOutExactly` | backend/src/tasks/dispute-tasks.service.ts:111-130 | in reachable states a dispute times out exactly when active and fifteen days old |
| `LifecycleOutcomes.SeventyPercent` | backend/src/tasks/raffle-tasks.service.ts:72-86 | enough is sold exactly when paid tickets divided by all tickets reach 0.7 |
| `LifecycleOutcomes.ExpiryDecides` | backend/src/tasks/raffle-tasks.service.ts:42-136 | at the deadline a raffle with at least seventy percent sold is drawn for the buyer of the picked ticket; with less it is cancelled with every ticket refunded exactly when the seller can pay that; before it nothing happens |
| `LifecycleOutcomes.SoldOutIsDrawn` | backend/src/tasks/raffle-tasks.service.ts:68-72 | a sold-out raffle that was not drawn yet is drawn by the next round, whatever its deadline |
| `LifecycleOutcomes.ReleasesExactly` | backend/src/tasks/raffle-tasks.service.ts:339-360 | in reachable states the weekly release applies exactly to raffles drawn a week ago that were neither shipped nor disputed |
| `LifecycleOutcomes.ReleaseWrites` | backend/src/tasks/raffle-tasks.service.ts:360-383 | such a raffle is confirmed now, its payout is dated now, and no money moves |
| `TopUpOutcomes.ApprovalCredits` | backend/src/payments/payments.service.ts:704-763 | an approval credits an unprocessed session with exactly the approved amount, to its user and nobody else, and leaves a processed one alone |
| `TopUpOutcomes.NoticeDoesExactly` | backend/src/payments/payments.service.ts:419-453 | a matched notice credits an unprocessed session once on approval; any other one gives the session the state of the same name and moves no money |
| `TopUpOutcomes.NoticeIsRecorded` | backend/src/payments/payments.service.ts:419-453 | an applied notice leaves its payment on record, a failed one changes nothing, an unmatched one only leaves its record |
| `TopUpOutcomes.WebhookDoesItsNotice` | backend/src/payments/payments.service.ts:390-417 | a new webhook does what its notice does and is remembered exactly when that succeeds, so a failed one can be sent again |
| `TopUpOutcomes.MockApprovesExactly` | backend/src/payments/payments.service.ts:611-644 | a mock session is credited with the amount it was opened for exactly while it is unprocessed and not closed |
| `TopUpOutcomes.MockLabelsExactly` | backend/src/payments/payments.service.ts:646-702 | the other mock actions set their state and move no money |
| `TopUpOutcomes.RefundedExactly` | backend/src/payments/payments.service.ts:455-529 | a refund of the amount asked for, or of everything, is made exactly of an approved top-up, within what is left of it and within the credit of the user, when the provider agrees; exactly that amount leaves the wallet |
| `TopUpOutcomes.OpenedExactly` | backend/src/payments/payments.service.ts:232-314 | a session is opened exactly for a known user and an amount that rounds to at least one cent |
| `PriceSuggestion.SuggestionIsNearest` | backend/src/tasks/raffle-tasks.service.ts:228-239 | the suggestion is the nearest cent to the price less half its unsold share: all of it when everything is sold, half of it when nothing is |
| `PromotionScore.ScoreIsNearest` | backend/src/social-promotions/social-promotions.service.ts:908-928 | the score is the weighted sum of the figures to the nearest hundredth of a point |
| `PromotionTheorems.ReservationWritesExactly` | backend/src/social-promotions/social-promotions.service.ts:360-415 | a reservation holds just that grant and adds one redemption of the greatest discount its terms allow |
| `PromotionTheorems.ConsumptionWritesExactly` | backend/src/social-promotions/social-promotions.service.ts:420-469 | a held redemption is consumed with its purchase on record and its grant is used now; anything else changes nothing |
| `PromotionTheorems.FullRefundExactly` | backend/src/social-promotions/social-promotions.service.ts:523-533 | a refund counts as full without a positive amount, or from one and a half cents below the charge upwards |
| `PromotionTheorems.ValidationWritesExactly` | backend/src/social-promotions/social-promotions.service.ts:686-846 | a post is disqualified exactly when it was seen without access or token, validated when seen with both, and put to review when it could not be seen |
| `PromotionTheorems.PostsAreLabelled` | backend/src/social-promotions/social-promotions.service.ts:1176-1275 | a submitted post is pending; a retry puts any post back to pending and an administrator disqualifies any, whatever its status was |
| `PromotionTheorems.SettlementWritesExactly` | backend/src/social-promotions/social-promotions.service.ts:851-957 | an undisturbed settlement records the score, closes the post and grants the tier reached for thirty days; a settled post is left alone and one not in order is disqualified |
| `RefreshTokens.RotationWritesExactly` | backend/src/auth/auth.service.ts:920-941 | a rotation revokes and scrubs just the presented row and adds one row of the same user naming the new value, seven days ahead |
| `RefreshTokens.RefusedExactly` | backend/src/auth/auth.service.ts:879-918 | a refused refresh names the first thing wrong with the value |
| `RefreshTokens.LogoutEndsTheValue` | backend/src/auth/auth.service.ts:946-960 | after a logout no row that names the value is usable, and rows naming other values are as they were |
| `RefreshTokens.CleanupKeepsTheLive` | backend/src/auth/auth.service.ts:1035-1042 | the cleanup leaves the live tokens of every user and nothing else |
| `RefreshTokens.LoginAddsOne` | backend/src/auth/auth.service.ts:1008-1030 | a login adds exactly one live token of the user, naming the value handed out |
| `RateLimits.RecentIsCardinality` | backend/src/auth/auth.service.ts:248-256 | the count is the number of rows of the user created less than an hour ago |
| `RateLimits.CreatedExactly` | backend/src/auth/auth.service.ts:235-343 | a reset token for thirty minutes or a code for fifteen is created exactly with fewer than three in the last hour, and uses up the earlier ones |

## Left out

- Interleavings inside one call: several services read and then write outside a transaction; calls are atomic steps here.
- Notifications, e-mail, activity and audit logs, reputation counters, caches and events: they change no modelled row. A notification that throws between a refund and the cancellation that follows it is not modelled.
- Storage failures other than those named: before or after the payout row is created, before or after the payout debit, in the completion, between the writes of a settlement. A failure inside a failure handler is not modelled.
- markRedemptionUsedByReservation is called inside the checkout transaction with a client outside of it, so it may not see the redemption just created; what the database shows it is not part of this model, and the call is a step of its own.
- Purchases take the bonus terms as a parameter: that they are those of the reserved grant is the connection between the market and the promotion tables, which are modelled apart.
- Wallets are opened when a user signs up instead of on first use; an unknown user is an error in both.
- Floating point: amounts typed by administrators, percentages and rates are exact rationals and every rounding is half up; stored rates and fees of a payout are not rounded separately from its net amount.
- Calendar and daylight saving effects of adding days, and the exact moment of each clock read inside a call.
- Lookups that may match several rows take the row found as a parameter: any matching row may be the one.
- Random numbers are parameters restricted to what the random source can return; that they are uniform and independent is outside the model.
- Hashes are an injective function, token values never repeat, and access tokens, passwords, two-factor codes, captchas and attempt counters of codes are not modelled.
- Connecting a seller payment account, OAuth, the providers themselves, mock session identifiers, receipts and shipping addresses.
- Draft creation, page loading and parsing for promotion posts, attribution of clicks, registrations and purchases, and the schedule of checks: a validation takes what the loader saw as a parameter.
- Soft deletion, banning, reports, questions, messages, favourites, search, statistics and seed data.
- Bulk operations of sellers repeat single calls.
- Witnesses and Attribution cover the market only, not promotions or tokens.
