# Crash-game money protocol: a Dafny model

The repository is the backend of a crash game: players stake on a round, a hidden multiplier climbs,
and whoever cashes out before the crash is paid. This project models the parts where money can be
lost or made twice, and proves what the code is there to guarantee, for all inputs and all runs.

Money is an integer number of minor units and a multiplier an integer number of hundredths.
Times are integers. Identifiers are numbers, except where their text matters (`TxKeys.dfy`).

## How the model is built

**The bet protocol.** `BetProtocol.dfy` is the bet service and the recovery paths as one state
machine. Each awaited database statement of a call is an atomic step on a shared store of rounds,
bet rows and ledger; any number of calls run interleaved; a statement may fail, and a call may die
before any statement. The engine view that a call reads first may be stale, so calls begin at any
time. The iterations of a sweep are calls of their own, which allows every order and a death
at every position. `BetMoney.dfy` holds the inductive invariant, `BetResults.dfy`, `BetAudit.dfy`,
`ReconcileCheck.dfy`, `BetLimits.dfy` and `SessionAudit.dfy` what follows from it, and `BetWitnesses.dfy` concrete runs that show that
the timing assumptions are needed. `BetRows.dfy` and `BetWins.dfy` hold what needs no assumption at all.

Six timing facts that the code relies on, but does not check, are flags of the configuration
(`BetProtocol.Timing`); each theorem names the ones it needs:
`debitReturned` (recovery does not claim a slot whose debit call is outstanding),
`slotQuiet` (a slot is not reserved again while recovery works on an earlier bet in it),
`cashOutDone` (a void does not claim a bet whose cash-out is in flight),
`oneRound` (a session reserves in one round at a time, with no reservation carried over),
`reserveFirst` (no reservation commits after the first cash-out of its round),
`noVoids`. The exactly-once results need `debitReturned`, `slotQuiet` and one of `cashOutDone` and
`noVoids`, and they hold in all runs if and only if these do (`BetWitnesses.TimingIsExact`).

**The services as classes.** `Ledger.dfy`, `BetsService.dfy`, `GameEngine.dfy`, `Outbox.dfy`,
`SeamlessWallet.dfy`, `OperatorStub.dfy`, `Fairness.dfy` and `Election.dfy` hold the services as classes
with mutable fields and the loops of the source. `Sequential.dfy` proves that a bet-service
method is exactly one call of the protocol run alone, and that methods called one after
the other stay within the runs of the protocol, so that whatever holds in every run holds after them.
`Outcomes.dfy` says what such a call achieves: its exact outcome in closed form for every pattern of
failing statements, and what it comes to in money when the store is sound.

**Failover.** `SlotRecovery.dfy`, `RoundClosing.dfy` and `Ticks.dfy` describe what one
pass of a loop, broken anywhere, can do, and prove what any number of such passes comes to.
`BootSteps.dfy` takes boots and sweeps apart into the steps of single bets and rounds. Its invariant
admits what a broken boot leaves behind, bets that are refunded but still active; `RefundMask.dfy`
shows that recovery and cash-outs cannot tell such a store from one in which those bets are cancelled. The
methods of `GameEngine.dfy`, from single refunds to the whole start of a leader, are proved to take only such
steps, wherever they stop. `FailoverResults.dfy` draws the conclusions for any history of restarts,
`RestartWitnesses.dfy` shows two restarts that go wrong, and `AutoCashouts.dfy` lets the
protocol run in full concurrency until the resume.

**The rest.** `OutboxProtocol.dfy` adds a clock, leases and racing owners to the rollback outbox;
`LedgerConcurrency.dfy` runs ledger calls statement by statement under wallet locks;
`Crash.dfy`, `SeedChain.dfy`, `Epochs.dfy`, `Fairness.dfy` and `EthQuorum.dfy` are the provably-fair core:
`Epochs.dfy` has the operations on seed epochs as functions, with the theorems about any sequence
of them, and `Fairness.dfy` the service that computes them;
`TxKeys.dfy` and `DedupeText.dfy` treat idempotency keys and rollback identities as the text they are stored as;
`Election.dfy` is leader election with stale leaders.

## What the proofs found

- *A returned debit is not enough for recovery.* A first bet's debit fails and returns; recovery claims
  its slot; the placeBet releases the slot; a second bet takes the slot and is debited under the shared key;
  recovery finds that debit and refunds the first stake, which was never taken
  (`BetWitnesses.SlotMustBeQuiet`). The exactly-once theorem therefore needs `slotQuiet` as well.
- *A void takes back a payout that was never credited.* If the process dies between the claim of a
  cash-out and its credit, a later void reclaims the payout all the same. A voided bet nets to
  zero if and only if its payout was empty or had been credited (`BetResults.VoidNetsToZero`,
  `BetWitnesses.VoidOfAbandonedCashOut`).
- *The audit reports exactly the abandoned credits* (`ReconcileCheck.VerdictOfRun`): on a quiescent run it
  fails if and only if a cancelled stake was not refunded or a win not credited, which only a claimant
  that died or failed in its credit window can cause (`BetAudit.RunKeepsOwed`).
- *A refused claim busts a winner.* The tick swallows a failure per bet, also one before the claim; if the round
  is settled next, the bet is busted although its target was reached (`BetWitnesses.RefusedClaimBustsWinner`). For a
  resumed round `Ticks.ResumedOutcome` states this as an equivalence.
- *An owed payout of nothing stays owed*: the ledger refuses an empty credit (`Outcomes.PendingIsPaid`). Targets
  exceed 1.00x and a bet's own cap is positive, so it takes a house cap `RISK_MAX_WIN_PER_BET` of zero
  (`BetWitnesses.EmptyPayoutStaysOwed`).
- *A stake whose reversal failed is swept if and only if its round has no crash time*
  (`FailoverResults.StrandedStakeIsSwept`). An unresumable candidate that had crashed is force-completed
  with its crash time set, so a failed reversal on it is never retried
  (`RestartWitnesses.StakeIsStrandedForGood`; such a candidate has an anomalous row, without its seed for example).
- *A boot relies on the clock of the boot before it.* Whether a waiting or betting round is too old to be resumed depends
  on the node's clock. If a boot has begun to refund such a round and dies, and the next node's clock is behind, it
  resumes the round, and a bet is refunded and paid (`RestartWitnesses.ClockMustNotGoBack`). The results about
  histories of restarts therefore assume that the clock does not go back from one to the next.
- *At the millisecond its lease ends*, an outbox row is neither live nor selected by the drain: the one
  comparison is strict and so is the other (`OutboxProtocol.OwedIsReclaimable`, `OutboxProtocol.LeaseEnds`).
- *A follower whose dedicated connection has died never leads again* until its process is restarted: only a demotion
  replaces the connection (`Election.DeadFollowerNeverLeads`). The lock can be free and nobody take it
  (`Election.FreeLockNobodyLeads`).
- *The keys of a void cannot be looked up.* The comment on the query parser lists the formats of the idempotency keys;
  those of the two void reversals are missing there and in the code, and are rejected as unrecognized
  (`TxKeys.ParseOfFormat`). The model follows the code.

## Model

| member | source | states |
|---|---|---|
| Money.FloorPayout | src/common/money.ts:44-47 | the payout is the largest whole amount not above stake times multiplier |
| Money.CapPayout | src/game/risk.service.ts:146-149 | a payout is cut to the tighter of the house cap and the bet's own cap, and only to one of them |
| Money.PayoutIsExact | src/game/bets.service.ts:440-441 | a cash-out pays the largest whole amount not above stake times multiplier, the house cap, or the bet's own cap |
| Money.PotentialIsTighter | src/game/risk.service.ts:111-114 | the breaker reserves the tighter of the highest win and the house cap |
| Money.PayoutWithinPotential | src/game/risk.service.ts:111-114 | what a cash-out below the highest crash point pays never exceeds what the exposure breaker reserved for it |
| Ledger.PostKeepsValid | src/wallet/ledger.service.ts:147-173 | a locked move keeps every balance the opening balance plus its rows, every balanceAfter the running sum, no balance negative, and keys unique |
| Ledger.PostAnswers | src/wallet/ledger.service.ts:87-182 | a move under a new key is refused exactly for a missing wallet or an uncovered amount and else writes one row and moves one balance by its amount; a reset lands exactly on its target |
| Ledger.IssueEnters | src/wallet/ledger.service.ts:33-43 | a debit or credit is accepted exactly when it is not empty and its key is known or its wallet covers it |
| Ledger.PostIsIdempotent | src/wallet/ledger.service.ts:143-154 | a repeated key answers with the first row and changes nothing; a key exists afterwards exactly when the move was applied |
| Ledger.RetryIsFirst | src/wallet/ledger.service.ts:143-145 | whatever moves happen in between, a retry gets the very row the first call got, and moves nothing |
| Ledger.LedgerService.Record | src/wallet/ledger.service.ts:136-182 | the statements of the transaction come to the atomic move |
| Ledger.LedgerService.Debit | src/wallet/ledger.service.ts:33-37 | a positive amount is taken in one negative row if the wallet covers it, anything else refused without effect |
| Ledger.LedgerService.Credit | src/wallet/ledger.service.ts:39-43 | a positive amount is given in one row, anything else refused without effect |
| Ledger.LedgerService.ResetTo | src/wallet/ledger.service.ts:87-134 | the balance is the target afterwards: one adjustment row with the signed difference, none if it is there already; a negative target is refused and no other balance changes |
| Ledger.LedgerService.Reverse | src/wallet/ledger.service.ts:67-73 | a reversal posts the inverse move; a reclaim the balance cannot cover moves nothing |
| LedgerConcurrency.NextKeepsInv | src/wallet/ledger.service.ts:147-181 | every statement of any interleaving either leaves the journal alone or is exactly one atomic move |
| LedgerConcurrency.CommitLeavesOthersUpToDate | src/wallet/ledger.service.ts:149-160 | a commit under the wallet lock never makes stale a balance that another call has read for its own commit |
| LedgerConcurrency.RunIsSerial | src/wallet/ledger.service.ts:87-182 | any interleaving of moves and resets on any wallets, dying anywhere, is a sequence of atomic moves and leaves a valid journal |
| LedgerConcurrency.SameKeySameRow | src/wallet/ledger.service.ts:174-181 | two calls answered for one key hold the same row, also when they met at the unique index |
| LedgerConcurrency.LoneCallAnswers | src/wallet/ledger.service.ts:136-182 | a call that nobody hinders is answered after five statements, with the answer and the effect of the atomic move |
| BetSums.SessionAccounting | src/game/bets.service.ts:137-157 | the accumulated wagered, won and net are the sums over the wagered and won statuses of the session |
| BetSums.SumNoHeavier | src/game/bets.service.ts:227-240 | rows that each weigh no more than before sum to no more than before |
| BetMoney.ExecKeepsStore | src/game/bets.service.ts:216-361 | every statement of every call keeps each ledger row fitting its bet and each bet's status backed by its rows |
| BetMoney.ExecKeepsCall | src/game/bets.service.ts:374-475 | no statement of one call breaks what another call in flight relies on |
| BetMoney.ExecContinues | src/game/bets.service.ts:447-475 | after its statement a call knows what its next statement relies on |
| BetMoney.ExecKeepsNoClash | src/game/bets.service.ts:443-451 | a claim just won excludes every other claimant of the bet |
| BetMoney.NewRowFits | src/game/bets.service.ts:304-323 | the row a call is about to post has the wallet, kind, amount and status its bet demands |
| BetMoney.SettleKeepsStore | src/game/bets.service.ts:523-531 | busting the active bets of a round keeps the invariant |
| BetMoney.NextKeepsInv | src/game/bets.service.ts:160-742 | the exactly-once invariant is kept by every event |
| BetMoney.RunKeepsInv | src/game/bets.service.ts:160-742 | the exactly-once invariant holds in every run: any interleaving, any failures, any deaths |
| BetResults.MoneyExactlyOnce | src/game/bets.service.ts:216-475 | every key has at most one row, no bet has a payout together with a refund that stands, and what its rows sum to is fixed by its status: nothing, the lost stake, the win, or what a void of an uncredited payout takes |
| BetResults.NetByStatus | src/game/bets.service.ts:216-475 | the rows of a bet sum to what its status says, in every sound store |
| BetResults.EveryRowHasItsBet | src/game/bets.service.ts:314-323 | every ledger row belongs to a bet that exists and to that bet's wallet: no debit is orphaned |
| BetWins.RunKeepsWins | src/game/bets.service.ts:399-475 | in every run, with no timing assumption, every win and every cash-out in flight was claimed below its round's crash point for exactly what that pays |
| BetWins.PaidBelowCrash | src/game/bets.service.ts:413-451 | under any stale view and any timing a win was claimed strictly below its own round's crash point and is worth exactly what stake, multiplier, house cap and the bet's own cap allow |
| BetResults.PaidIsPayout | src/game/bets.service.ts:453-463 | what is credited to a winner is the payout of its row |
| BetResults.VoidNetsToZero | src/game/bets.service.ts:581-695 | a void refunds a stake only after the payout was reclaimed or was empty, and a voided bet nets to zero if and only if its payout was empty or credited |
| BetResults.FailedClawbackRefundsNothing | src/game/bets.service.ts:638-647 | a clawback the wallet cannot cover ends the void with nothing moved and the stake unrefunded |
| BetResults.RunKeepsJournal | src/wallet/ledger.service.ts:136-182 | the ledger is valid in every run of the protocol |
| BetWitnesses.DebitMustHaveReturned | src/game/game-engine.service.ts:614-635 | a run in which recovery does not wait for an outstanding debit, and money is taken for a bet that does not exist |
| BetWitnesses.SlotMustBeQuiet | src/game/game-engine.service.ts:606-635 | a run in which every debit has returned and recovery still refunds a stake that was never taken |
| BetWitnesses.VoidOfAbandonedCashOut | src/game/bets.service.ts:638-658 | a run in which a void takes a payout that was never credited |
| BetWitnesses.CashOutMustBeDone | src/game/bets.service.ts:464-473 | a run in which a void overlaps a cash-out: a payout that was never credited is reclaimed, and owed again |
| BetWitnesses.TimingIsExact | src/game/bets.service.ts:216-695 | money is moved exactly once and every row has its bet in all runs if and only if debits have returned, slots are quiet, and voids wait for cash-outs or nobody voids |
| BetWitnesses.RefusedClaimBustsWinner | src/game/bets.service.ts:498-531 | a run in which a refused claim busts a bet whose target lies below the crash point |
| BetWitnesses.EmptyPayoutStaysOwed | src/game/bets.service.ts:705-742 | a run with a house cap of zero that leaves a payout of nothing owed, which no reconcile closes |
| BetAudit.RunKeepsOwed | src/game/bets.service.ts:382-388 | in every run a stake or win that is not credited is still in flight or was abandoned by its claimant |
| BetAudit.StakeBalances | scripts/reconcile-check.ts:95-148 | per settled bet: the debit is the held stake, plus the refunds, plus what is still owed back |
| BetAudit.WinBalances | scripts/reconcile-check.ts:126-160 | per settled bet: the payout is what was credited plus what is still owed |
| BetAudit.AuditTotals | scripts/reconcile-check.ts:142-167 | over all bets the two sides of each identity differ by exactly what is still owed |
| BetAudit.AuditIdentities | scripts/reconcile-check.ts:142-240 | in every reachable quiescent state, for any number of bets: each identity holds if and only if nothing of its kind is owed, and no busted bet has a payout |
| BetAudit.AuditOfUnabandonedRun | scripts/reconcile-check.ts:142-167 | if no claimant died or failed in its credit window, both identities hold |
| ReconcileCheck.SumStakes | scripts/reconcile-check.ts:136-159 | the loops compute the held stakes and the paid payouts of all bets |
| ReconcileCheck.RunChecks | scripts/reconcile-check.ts:142-267 | each of the seven checks passes exactly when what it is named after holds of the rows, and all pass exactly when the store is reconciled |
| ReconcileCheck.Reconcile | scripts/reconcile-check.ts:279-289 | the verdict is positive exactly when every check passed, and exactly when the store is reconciled |
| ReconcileCheck.JournalMatchesBalances | scripts/reconcile-check.ts:169-191 | on a valid journal the newest balanceAfter of every wallet is its balance |
| ReconcileCheck.VerdictOfRun | scripts/reconcile-check.ts:142-289 | on every quiescent run the script reports a discrepancy exactly when a cancelled stake was not refunded or a win not credited |
| BetRows.ExecMovesRow | src/game/bets.service.ts:314-393 | whatever the money timing, a statement moves its bet's status along the life cycle, never changes its stake, and never back to a state of greater risk |
| BetRows.ExecKeepsTame | src/game/bets.service.ts:443-451 | the claims by which calls own a row survive every statement of other calls |
| BetRows.RunIsTame | src/game/bets.service.ts:216-362 | in every run, without any timing assumption, bet ids are fresh, stakes are fixed and the round lock is exclusive |
| BetLimits.StepIsNoHeavier | src/game/bets.service.ts:226-239 | no change of a row raises its exposure, its liability or its session weight |
| BetLimits.CheckLeavesRoom | src/game/bets.service.ts:225-269 | a passed check leaves room for the stake, although its reads are separate statements and rows change between them |
| BetLimits.CheckedAlone | src/game/bets.service.ts:225-241 | two stakes that passed a check never count towards the same limit |
| BetLimits.RunKeepsLimits | src/game/bets.service.ts:224-295 | in every run each limit holds with any one of the checked stakes added |
| BetLimits.ExposureIsCapped | src/game/risk.service.ts:130-139 | in every run, per round and currency, the potential payouts of reserving and active bets never exceed the breaker |
| BetLimits.WagerCapIsHard | src/game/bets.service.ts:255-263 | a session's wagered plus reserving stakes never exceed its wager cap |
| BetLimits.LossCapIsHard | src/game/bets.service.ts:255-269 | a session's net loss plus reserving stakes never exceeds its loss cap |
| BetLimits.PaidWithinExposure | src/game/bets.service.ts:224-241 | when reservations end before cash-outs begin and the multiplier covers the highest crash point, a round pays or owes no more than the breaker, per currency |
| SessionAudit.SessionLossIsLedgerLoss | src/game/bets.service.ts:137-157 | in every reachable quiescent state the net loss a session is charged with is the money its bets took from the wallet, less what is still owed back, which is nothing exactly when every cancelled stake was refunded and every win credited |
| SessionAudit.LedgerLossIsCapped | src/game/bets.service.ts:255-269 | so no run takes more money from a wallet than its loss cap and what failed claimants still owe it |
| Sequential.RunFromIsSound | src/game/bets.service.ts:365-475 | a call run alone, failing or dying anywhere, leaves ledger and bets sound |
| Sequential.RunCallTouchesOnly | src/game/bets.service.ts:365-475 | a call touches no bet but its own and adds no ledger row but its own bet's |
| Sequential.ReplayIsARun | src/game/bets.service.ts:365-742 | calls made one after the other form a run of the protocol |
| Sequential.PlaceIsARun | src/game/bets.service.ts:216-361 | a placeBet made alone is a run of the protocol |
| BetsService.BetsService.Accumulate | src/game/bets.service.ts:227-240 | the reduce over the round's rows is the sum the breaker compares |
| BetsService.BetsService.Reserve | src/game/bets.service.ts:224-295 | the reserve transaction inserts the slot exactly when no statement fails and breaker, caps, slot, round and wallet admit it, and else writes nothing |
| Outcomes.PlaceOutcome | src/game/bets.service.ts:216-361 | for every pattern of failures: nothing if not admitted, the slot released or left if the debit is refused, else debited and active if one of three attempts succeeds |
| Outcomes.PlaceTakesStake | src/game/bets.service.ts:300-361 | from a sound store an admitted, affordable bet whose statements succeed is active, and its wallet has paid exactly the stake in one row |
| Outcomes.PlaceRefused | src/game/bets.service.ts:325-345 | a stake the wallet does not cover leaves the store as it was |
| BetsService.BetsService.PlaceBet | src/game/bets.service.ts:216-361 | reserve, debit and up to three activation attempts come to the protocol's placeBet and to that outcome, and report success exactly when the bet is active |
| Outcomes.CancelOutcome | src/game/bets.service.ts:374-392 | an active bet whose claim succeeds is cancelled, and refunded exactly if the wallet call succeeds; any other is left alone |
| Outcomes.CancelReturnsStake | src/game/bets.service.ts:374-392 | from a sound store a cancel that does not fail cancels the bet, keeps its other columns, and gives the wallet exactly its stake in one row under the refund key |
| BetsService.BetsService.CancelBet | src/game/bets.service.ts:365-393 | claim and refund come to the protocol's cancel and to that outcome, and report success exactly when the stake is refunded |
| Outcomes.CashOutcome | src/game/bets.service.ts:426-475 | a bet that passes the gate and is claimed has won exactly what the caps allow, and the win is credited, recorded as owed, or left, by what succeeds |
| Outcomes.CashPaysOut | src/game/bets.service.ts:440-473 | from a sound store a win worth anything is credited in one row, or owed if only the credit fails |
| BetsService.BetsService.CashOut | src/game/bets.service.ts:399-475 | gate, claim, credit and fallback come to the protocol's cash-out and to that outcome, and report success exactly when the win is credited or recorded |
| BetsService.BetsService.EvaluateAutoCashouts | src/game/bets.service.ts:498-520 | an active bet of the running round whose target is reached and below the crash, and whose claim succeeds, is won at exactly that target; every other bet is unchanged |
| BetsService.BetsService.SettleRound | src/game/bets.service.ts:523-531 | exactly the active bets of the round are busted, and exactly those are reported |
| BetsService.BetsService.PerformVoidReversals | src/game/bets.service.ts:638-659 | the payout is reclaimed before the stake is refunded, and a failure ends the void where it is |
| Outcomes.VoidOutcome | src/game/bets.service.ts:558-659 | claimed or resumed, a void reclaims the payout, then returns the stake, then is done, and ends where the first of these fails |
| Outcomes.VoidReversesBet | src/game/bets.service.ts:558-659 | from a sound store a void that does not fail ends voided, with the wallet down by the payout and up by the stake |
| BetsService.BetsService.VoidBet | src/game/bets.service.ts:558-594 | a settled bet is claimed and reversed, an interrupted void is resumed, and any other bet is left alone, with exactly that outcome |
| BetsService.BetsService.ReconcileVoidingBets | src/game/bets.service.ts:670-695 | each interrupted void, up to the limit, is resumed once |
| BetsService.BetsService.ReconcilePendingPayouts | src/game/bets.service.ts:705-742 | each owed payout, up to the limit, is re-issued once |
| BetsService.BetsService.ReconcileOne | src/game/bets.service.ts:709-721 | one re-issued payout comes to the protocol's reconcile of that bet and to that outcome, and reports success exactly when it is credited and closed |
| Outcomes.PendingIsPaid | src/game/bets.service.ts:705-721 | an undisturbed reconcile closes an owed payout and credits it once if and only if it is not empty |
| Outcomes.RepayOutcome | src/game/bets.service.ts:705-721 | for every pattern of failures: an owed payout is credited exactly if the wallet accepts it, and closed if that is written too |
| Ticks.CashOutWins | src/game/bets.service.ts:447-473 | an auto-cashout that passes gate and claim wins exactly at the target, and the win is credited or recorded as owed if the process lives |
| Ticks.CashOutLoses | src/game/bets.service.ts:426-451 | a cash-out that fails its gate or its claim changes nothing |
| Ticks.ChainStaysOnTrack | src/game/bets.service.ts:498-520 | after any ticks, broken anywhere, a bet is still open or has won exactly at its target |
| Ticks.ResumedOutcome | src/game/game-engine.service.ts:500-520 | a resumed and settled bet gets the outcome its crash point commits it to, if and only if its resumed claim is not refused |
| Ticks.Confluence | src/game/game-engine.service.ts:482-520 | two dead leaders with any ticks of their own, each resumed and settled, leave the same multiplier, payout and outcome |
| AutoCashouts.RunStaysOnTrack | src/game/bets.service.ts:399-531 | through any concurrent run in which the player leaves the bet to its target and voids wait for cash-outs, it is still open or won exactly at its target |
| AutoCashouts.AnyPrefixSameOutcome | src/game/game-engine.service.ts:482-520 | after any such run, resume and settlement, a bet left to its target has exactly the outcome its crash point commits it to, and a win is worth exactly what target and caps allow |
| SlotRecovery.RecoverSlot | src/game/game-engine.service.ts:606-642 | one slot, broken anywhere: kept, claimed, refunded exactly if debited, or gone exactly if not |
| SlotRecovery.PassIsAbsorbed | src/game/game-engine.service.ts:597-644 | a broken pass followed by a complete one is one complete pass |
| SlotRecovery.PassesConverge | src/game/game-engine.service.ts:597-644 | any broken passes followed by a complete one are one complete pass over the first store |
| SlotRecovery.RecoverySettles | src/game/game-engine.service.ts:624-636 | afterwards every debited slot is cancelled and nets to zero, and every other slot is gone and named by no row |
| RefundMask.RunFromIsMasked | src/game/game-engine.service.ts:597-644 | a recovery or a cash-out does the same to a store with refunded but active bets and to the one in which they are cancelled |
| RoundClosing.LiveBet | src/game/game-engine.service.ts:238-255 | in whatever a broken boot leaves behind, a live stake was debited and neither paid nor refunded otherwise |
| RoundClosing.RefundAloneKeepsSound | src/game/game-engine.service.ts:245-272 | a restart refund, failing before or after its credit, leaves a store that can be booted from again |
| RoundClosing.CloseOneMore | src/game/game-engine.service.ts:310-334 | closing one more stale round extends the outcome-aware closing of all of them, bet by bet exactly as the statements succeed |
| BootSteps.UnresumableReason | src/game/game-engine.service.ts:405-438 | a round is resumable if and only if it has a seed, a crash point of at least 1.00x and a deadline, which before its outcome has passed by at most thirty seconds, and after it a start time |
| BootSteps.SoundIsBootable | src/game/game-engine.service.ts:354-366 | every store the protocol leaves behind is one a new leader can boot from |
| BootSteps.TimePasses | src/game/game-engine.service.ts:420-433 | a later clock keeps it that refunded bets are on rounds that every boot refunds |
| BootSteps.StepKeepsInv | src/game/game-engine.service.ts:238-334 | every step of a boot, a sweep or a start keeps the boot invariant, refunded but active bets included |
| BootSteps.LeadsKeepsInv | src/game/game-engine.service.ts:184-197 | so does any number of steps, and a boot broken anywhere can be followed by the next |
| BootSteps.CashOutsGoOn | src/game/game-engine.service.ts:500-510 | the honoured auto-cashouts of a resume are such steps, since no bet of a resumed round is refunded |
| GameEngine.GameEngine.RecoverOne | src/game/game-engine.service.ts:606-642 | one iteration of the loop comes to the protocol's recovery of that slot, and only a claim that throws, or a death, ends the loop |
| GameEngine.GameEngine.RecoverReservingBets | src/game/game-engine.service.ts:597-644 | from whatever an earlier boot left: the loop is a recovery pass wherever it stops; unless a claim throws or the process dies it reaches every slot, and each slot whose statements succeed is refunded or dropped |
| GameEngine.GameEngine.CloseAndRefundRound | src/game/game-engine.service.ts:238-277 | each active bet of the round is refunded exactly if its reversal succeeds, and cancelled exactly if that is written too, and the round is completed unless the process or that statement fails |
| GameEngine.GameEngine.CloseStaleExtra | src/game/game-engine.service.ts:310-334 | a round without outcome is refunded, one with a committed crash is stamped if it lacks its crash time and settled, exactly as the statements succeed; the boot goes on exactly if stamp and completion do |
| GameEngine.GameEngine.RecoverStrandedActiveBets | src/game/game-engine.service.ts:659-698 | from whatever an earlier boot left: the stranded bets, or a hundred of them, are refunded once more under the same key, each exactly as its statements succeed |
| GameEngine.GameEngine.ResumeRound | src/game/game-engine.service.ts:452-546 | by phase: nothing, honour the crash and its auto-cashouts behind two fence checks, stamp, or settle |
| GameEngine.GameEngine.ResumeOrRecover | src/game/game-engine.service.ts:354-397 | wherever it stops, the next boot can start; it goes through exactly if no claim throws and the rounds can be written, and then reservations are recovered, older rounds closed by their outcome, and the newest resumed exactly if its row allows it, else refunded |
| GameEngine.GameEngine.Start | src/game/game-engine.service.ts:171-198 | sweep, then resume or recover, then open the next round if none was resumed, with the exact outcome of each; one round at most is open afterwards, after any earlier boots and sweeps |
| FailoverResults.RefundedAtMostOnce | src/game/game-engine.service.ts:245-272 | wherever boots and sweeps stopped, all refunds of a bet add up to its stake or to nothing, and a restart refund leaves no payout and a net of zero |
| FailoverResults.RestartsRefundOnce | src/game/game-engine.service.ts:171-277 | over any history of starts, boots and sweeps, broken anywhere: at every point a bet is refunded once or not at all, a restart refund never meets a payout, and once at most one round is open, never are there two |
| FailoverResults.HistoryIsBootable | src/game/game-engine.service.ts:184-197 | every store of such a history can be booted from |
| FailoverResults.StaleBetOutcome | src/game/game-engine.service.ts:310-334 | a live bet of a stale round before its outcome has its stake back, once, exactly if a reversal succeeded now or in an earlier boot; after the outcome it is busted exactly if that statement succeeds and never refunded |
| FailoverResults.ClosedBetsAreKept | src/game/game-engine.service.ts:285-294 | bets that are already closed keep their row and their payout |
| FailoverResults.StrandedStakeIsSwept | src/game/game-engine.service.ts:659-669 | a stake stays on a force-completed round exactly if its refund fails, and is swept if and only if the round has no crash time |
| FailoverResults.ResumeHonoursCrash | src/game/game-engine.service.ts:482-520 | resume and settlement give every open bet the outcome of its crash point, whatever the dead leader had done |
| RestartWitnesses.StakeIsStrandedForGood | src/game/game-engine.service.ts:659-669 | a boot after which a stake is taken, its bet active and its round closed, and no sweep selects it |
| RestartWitnesses.ClockMustNotGoBack | src/game/game-engine.service.ts:424-431 | two boots, the second with a clock behind the first, between which a bet is refunded and after which it is paid |
| DedupeText.IdentityIsLogical | src/wallet/wallet-rollback.service.ts:44-46 | two reversals have the same stored identity if and only if they are about the same bet, or the same transaction where no bet is named, for the same reason |
| DedupeText.NumbersStandForText | src/wallet/wallet-rollback.service.ts:44-46 | the numbered identities of the outbox model are equal exactly when the stored texts are |
| Outbox.WalletRollbackService.ClaimRollback | src/wallet/wallet-rollback.service.ts:105-176 | a claim is refused exactly when the reversal is confirmed or under a live lease, and else leaves a live lease with the caller |
| Outbox.WalletRollbackService.Confirm | src/wallet/wallet-rollback.service.ts:200-214 | exactly the named row is confirmed and its lease dropped |
| Outbox.WalletRollbackService.RecordEmitFailure | src/wallet/wallet-rollback.service.ts:216-228 | exactly the named row is pending again and its lease dropped |
| Outbox.WalletRollbackService.Scan | src/wallet/wallet-rollback.service.ts:245-270 | the scan takes at most the limit, only owed rows, the oldest first, and all of them if they fit |
| Outbox.WalletRollbackService.DrainPending | src/wallet/wallet-rollback.service.ts:245-320 | each row taken is confirmed or released according to the operator's answer, no other row changes, and the count is of those confirmed |
| Outbox.DrainEmptiesOutbox | src/wallet/wallet-rollback.service.ts:230-244 | a pass whose limit fits confirms everything if and only if no lease is live and the operator accepts every rollback |
| OutboxProtocol.AdvanceKeepsInv | src/wallet/wallet-rollback.service.ts:188-194 | the compare-and-swap on status and lease never takes a row from a live owner |
| OutboxProtocol.OneEmitterPerReversal | src/wallet/wallet-rollback.service.ts:105-194 | in every run at most one caller or drain is emitting a given reversal |
| OutboxProtocol.ConfirmedIsFinal | src/wallet/wallet-rollback.service.ts:200-228 | a confirmed row stays confirmed and is never emitted again |
| OutboxProtocol.OwedIsReclaimable | src/wallet/wallet-rollback.service.ts:179-181 | an unconfirmed row is under a live lease or is selected by the drain once the clock has passed it |
| OutboxProtocol.LeaseEnds | src/wallet/wallet-rollback.service.ts:179-181 | a run that ends at the millisecond at which a row is neither live nor selected |
| OutboxProtocol.RowsStay | src/wallet/wallet-rollback.service.ts:245-262 | an owed reversal is never lost from the outbox, nor its transaction changed |
| OutboxProtocol.LoneDrainEnds | src/wallet/wallet-rollback.service.ts:245-320 | a drain that nobody hinders emits the reversal once and ends with the row confirmed, or pending with one more attempt, by the operator's answer |
| OutboxProtocol.LoneClaimOwns | src/wallet/wallet-rollback.service.ts:105-176 | a live caller that nobody hinders becomes the one emitter of a reversal unless it is confirmed or under a live lease |
| OperatorStub.ApplyOutcome | load/operator-wallet-stub.ts:91-103 | a new transaction is refused exactly when the balance does not cover it, and else changes its account by its delta and nothing else |
| OperatorStub.RollbackOutcome | load/operator-wallet-stub.ts:152-165 | a rollback takes back the delta of an applied transaction, whatever came after it, and of any other nothing |
| OperatorStub.ApplyIsIdempotent | load/operator-wallet-stub.ts:91-103 | a replayed transaction gets the stored result and moves nothing |
| OperatorStub.RollbackUndoes | load/operator-wallet-stub.ts:152-165 | a rollback restores the money exactly, and a second one does nothing more |
| OperatorStub.OperatorConserves | load/operator-wallet-stub.ts:91-165 | every balance stays the starting balance plus the deltas of the applied transactions |
| OperatorStub.StubServer.Bet | load/operator-wallet-stub.ts:135-142 | a stake is applied once, and the book counts only its first application |
| OperatorStub.StubServer.Win | load/operator-wallet-stub.ts:144-151 | a win is applied once, and the book counts only its first application |
| OperatorStub.StubServer.UndoTx | load/operator-wallet-stub.ts:152-165 | the operator rolls back, and the book records it exactly when something was undone |
| SeamlessWallet.AttemptsApplyOnce | src/wallet/seamless-operator-wallet.ts:143-202 | for every script of answers the retry loop applies at most once; success means applied, insufficient balance means not, and a payout never asks to be undone |
| SeamlessWallet.DebitEndsSo | src/wallet/seamless-operator-wallet.ts:157-199 | a debit is retried while it fails and decided by the first attempt that does not: accepted, refused, or ended by a time-out; failing to the last attempt it ends as a wallet error |
| SeamlessWallet.CreditEndsSo | src/wallet/seamless-operator-wallet.ts:170-180 | a payout ends as owed if and only if none of its attempts is answered |
| SeamlessWallet.PaidAtMostOnce | src/wallet/seamless-operator-wallet.ts:170-180 | over any number of retries and reconciles a payout is gained at most once, and exactly once if any was accepted |
| SeamlessWallet.SeamlessOperatorWallet.Attempt | src/wallet/seamless-operator-wallet.ts:160-202 | the retry loop ends as the script of fates determines, for debits and for payouts |
| SeamlessWallet.SeamlessOperatorWallet.RollbackOnce | src/wallet/seamless-operator-wallet.ts:232-289 | a rollback is skipped exactly when it is confirmed or owned by another; else it is emitted, and confirmed exactly when the operator answers, left pending when not |
| SeamlessWallet.SeamlessOperatorWallet.Debit | src/wallet/seamless-operator-wallet.ts:80-89 | by its script a debit returns with the stake applied exactly once, or throws with the operator's money unchanged or a rollback owed, recorded for the reason it failed |
| SeamlessWallet.SeamlessOperatorWallet.Credit | src/wallet/seamless-operator-wallet.ts:91-100 | a credit applies at most once, fails only as an owed payout, and never touches the outbox |
| SeamlessWallet.SeamlessOperatorWallet.Reverse | src/wallet/seamless-operator-wallet.ts:117-128 | a reversal succeeds exactly if it is taken by another or answered; answered, it has undone the transaction and is confirmed, and a failed one stays owed |
| Crash.HashValue | src/fairness/crash.ts:23-25 | thirteen hex digits are a 52-bit value |
| Crash.HashValueOrder | src/fairness/crash.ts:23-25 | the first thirteen digits, read from the left, decide the hash value, and nothing else does |
| Crash.HashValueIsReached | src/fairness/crash.ts:23-25 | every 52-bit value is that of some digits, so that counting hash values counts digests |
| Crash.CrashCents | src/fairness/crash.ts:26-29 | every crash point lies between 1.00x and 1,000,000.00x |
| Crash.PaidIsBelow | src/fairness/crash.ts:25-27 | the hash values that pay a target are exactly the smallest ones |
| Crash.CountOfPaid | src/fairness/crash.ts:16-29 | of the 2^52 hash values exactly floor(97 * (2^52 + 1) / (target + 1)) pay a target |
| Crash.HouseEdge | src/fairness/crash.ts:16-29 | for every stake and target the payouts over all hash values are at most stake * 97 * (2^52 + 1) / 100 |
| SeedChain.GenerateSeedChain | src/fairness/seed-chain.ts:16-24 | the descending loop fills the one chain that ends in the random seed and in which each seed is the hash of the next |
| SeedChain.HashesBackToCommit | src/fairness/seed-chain.ts:4-15 | the seed of round k hashes back k times to the public commit |
| SeedChain.CommitBinds | src/fairness/seed-chain.ts:16-29 | two seed sequences verified against one commit agree, or exhibit a collision of the hash |
| Epochs.Commit | src/fairness/salt.provider.ts:59-76 | a block commitment names the block ahead of the head by the configured lead, or by 128 if that is more, and never a salt; it fails exactly without a head |
| Epochs.Resolve | src/fairness/salt.provider.ts:78-84 | a salt that is known is never replaced, and an unknown one is exactly the hash of the committed block |
| Epochs.MoveKeepsInv | src/fairness/fairness.service.ts:64-95 | promoting, arming and retiring keep epochs in order and served seeds as they were served |
| Epochs.CreateKeepsInv | src/fairness/fairness.service.ts:113-177 | a new epoch has an unused chain and comes after everything there is; refusing one changes nothing and happens in strict mode only |
| Epochs.CreatedIsFresh | src/fairness/fairness.service.ts:181-222 | a new epoch takes a number of its own and a chain of the configured length that ends in the random seed, and no other epoch changes |
| Epochs.EnsureServes | src/fairness/fairness.service.ts:64-95 | what is returned is live, in strict mode has a block salt, and is fresh if nothing was live; seeds, sources and known salts are kept |
| Epochs.EnsureServesWhatItCan | src/fairness/fairness.service.ts:64-95 | a live epoch that may be served is returned as it is, else an armed one promoted, else a pending one armed with exactly its block's hash; only without any of these demo mode opens a new one and strict mode stalls |
| Epochs.AllocateStallsInNeedOnly | src/fairness/fairness.service.ts:291-304 | an allocation stalls if and only if strict mode has no epoch that could give a seed now |
| Epochs.OpenServesWhatItCan | src/fairness/fairness.service.ts:291-304 | a round is opened on one new seed unless there is none to get |
| Epochs.UpkeepKeepsInv | src/fairness/fairness.service.ts:249-285 | exactly the pending epochs whose salt can be had are armed with it; behind a live epoch another is queued, committed at least 128 blocks ahead, unless strict mode has no head |
| Epochs.RollOverAllocates | src/fairness/fairness.service.ts:295-302 | after a rollover the next epoch has a seed left, so the exhaustion error cannot occur |
| Epochs.NextIndexIsNext | src/fairness/fairness.service.ts:306-312 | the next seed is the first index after the used prefix, and there is none exactly when the chain is used up |
| Epochs.PerformKeepsInv | src/fairness/fairness.service.ts:64-312 | every operation, whatever the oracles answer, keeps the invariant, every known salt and what was served |
| Epochs.ServedSeedsAreFair | src/fairness/fairness.service.ts:64-312 | after any operations with any oracles, from any store the service can be started on: every served seed hashes back to its commit, is served once, keeps its salt, and in strict mode belongs to a block epoch, in epoch order |
| Epochs.NothingIsTakenBack | src/fairness/fairness.service.ts:64-312 | later operations change no seeds, no committed block and no known salt, and only append to what was served |
| Epochs.SaltsAreBlockHashes | src/fairness/salt.provider.ts:78-84 | where finalized blocks do not change, no operation takes a salt for a block epoch but the hash of its committed block |
| Epochs.StrictSaltsAreCommitted | src/fairness/fairness.service.ts:64-312 | in strict mode every served seed was played with the hash of the block that its epoch is committed to |
| Epochs.ChooseSalt | src/fairness/fairness.service.ts:121-153 | strict mode with the block provider refuses exactly a live epoch, or any without a head, and never takes a random salt; fallback mode never stalls |
| Fairness.FairnessService.CreateEpoch | src/fairness/fairness.service.ts:113-222 | a new epoch is added under a number of its own, unused and with a chain that ends in the random seed, and no other changes; or none is and nothing changes |
| Fairness.FairnessService.EnsureActiveChain | src/fairness/fairness.service.ts:64-95 | the method serves what it can, in the order live, armed, pending, new |
| Fairness.FairnessService.Maintain | src/fairness/fairness.service.ts:249-285 | all pending epochs that can be are armed, no other changes, and the next one is pre-committed |
| Fairness.FairnessService.NextUnusedSeed | src/fairness/fairness.service.ts:306-312 | the loop finds the lowest unused index from one up |
| Fairness.FairnessService.RollOver | src/fairness/fairness.service.ts:295-302 | the used-up epoch is retired, and the next one has a seed or strict mode stalls |
| Fairness.FairnessService.OpenRound | src/fairness/fairness.service.ts:291-304 | a round gets a seed never used before with its epoch's salt, and the seed is recorded as served; none if and only if strict mode has none to give |
| EthQuorum.FinalizedBlockHash | src/fairness/eth-block.ts:110-154 | the vote returns a hash if and only if more than half of all configured endpoints voted for it |
| EthQuorum.OrderDoesNotMatter | src/fairness/eth-block.ts:129-152 | the result does not depend on the order of the visits |
| EthQuorum.QuorumIsSafe | src/fairness/eth-block.ts:119-154 | with fewer liars than a majority, and any outages, no two calls differ and an honest endpoint reported what is returned |
| EthQuorum.MajorityOfLiarsWins | src/fairness/eth-block.ts:119-122 | with one liar more any hash can be made to win |
| Election.QuietKeepsNode | src/ha/election.service.ts:128-212 | no statement but a fence bump gives a node a fence to carry |
| Election.OneAuthority | src/ha/election.service.ts:110-123 | in every state at most one node passes the fence check |
| Election.FenceIncreases | src/ha/pg-advisory-lock.ts:69-84 | every acquisition has a fence above all earlier ones |
| Election.OneLateTransition | src/game/game-engine.service.ts:831-836 | after the fence has moved past a node, at most the one transition already past its check completes |
| Election.PassedStaysPassed | src/ha/election.service.ts:110-123 | a node whose fence is passed fails every later check |
| Election.DeadFollowerNeverLeads | src/ha/pg-advisory-lock.ts:46-66 | a follower with a dead connection keeps it and never leads again |
| Election.FreeLockNobodyLeads | src/ha/pg-advisory-lock.ts:46-66 | a run of two nodes after which the lock is free, one node polls, and it never leads |
| Election.ElectionService.Tick | src/ha/election.service.ts:128-154 | a poll leads exactly with the lock and a new fence; one that fails leaves a follower and the fence alone, and keeps the lock if it had taken it |
| Election.ElectionService.Beat | src/ha/election.service.ts:157-167 | a failed heartbeat demotes, frees the lock and drops the connection, so that the node can lead again, and a good one changes nothing |
| Election.ElectionService.StepDown | src/ha/election.service.ts:185-212 | after a step-down the node neither leads nor holds the lock nor a connection, however often it had taken the lock |
| Election.ElectionService.AssertStillLeader | src/ha/election.service.ts:110-123 | the check passes exactly for a leader whose fence is the current one, and fails closed |
| TxKeys.SplitOfJoin | src/operator/reporting-query.ts:125-125 | parts without colons survive formatting and splitting |
| TxKeys.KeysAreDistinct | src/game/bets.service.ts:642-653 | two logical moves, those of a void included, have the same key text if and only if they are the same move |
| TxKeys.ParseOfFormat | src/operator/reporting-query.ts:114-142 | every formatted key parses back to the move it stands for; the keys of a void are rejected |
| TxKeys.ParsedIsFormatted | src/operator/reporting-query.ts:125-141 | what parses is the text of exactly such a key |
| TxKeys.TrimIsExact | src/operator/reporting-query.ts:116-117 | trimming cuts space off both ends, all of it and nothing else |
| TxKeys.QueryByCases | src/operator/reporting-query.ts:114-124 | a query is refused as ambiguous or missing exactly if both or none of its parameters hold more than space; a bet is found by a UUID only |

## Left out

- Operator mode of the bet protocol: `BetProtocol` runs on the internal ledger; the operator wallet and its outbox are modelled on their own.
- Statements that commit although their answer is lost: a statement of the bet protocol either takes effect or fails. Lost answers are modelled for the operator's wallet.
- The age gates of the sweeps: the protocol's sweeps may run at any time, and the timing facts stand for what the gates buy.
- Full payment across a process death: a death between claim and credit loses the credit until someone intervenes; the audit theorem says so instead.
- BetSums.SessionAccounting: counts all bets of the wallet; the session's start time is not modelled.
- BetLimits.WagerCapIsHard: assumes one session per wallet, since session start times are not modelled.
- BetLimits.LossCapIsHard: assumes one session per wallet, since session start times are not modelled.
- BetsService.BetsService.PlaceBet: the cheap checks before the lock (stake bounds, reality check, session time, an existing slot) only reject earlier than the lock does and write nothing; the `debitTxId` stamp is not modelled.
- BetsService.BetsService.CancelBet: the gate on the cached phase is not modelled, so the model cancels in more states than the code does.
- BetsService.BetsService.VoidBet: the tenant gate and the texts of rejections are not modelled.
- GameEngine.GameEngine.CloseStaleExtra: the reveal of the seed is not modelled, and the settle handler runs before the round is completed or fails.
- GameEngine.GameEngine.ResumeRound: the crash time is a flag that says whether it has passed, since it is computed in floating point; new phase deadlines are not written, and timers and events are left out.
- GameEngine.GameEngine.Start: the seed chain is ensured elsewhere, and opening the round is one step; two open rounds created in the same millisecond are excluded, since the code leaves open which of them is the newest.
- A player's cancel racing the closing of its round: closing is modelled at boot, when no player call is in flight.
- Live play between two boots of a history, other than cash-outs and the opening of a round: the protocol's runs model it without boots.
- Outbox.WalletRollbackService.ClaimRollback: a failing store write, after which the code emits anyway, and a lost race for the row are not modelled here; `OutboxProtocol` has the race.
- Outbox.WalletRollbackService.DrainPending: a failing confirm or release write is not modelled.
- Leases that expire under a live emitter: the clock of `OutboxProtocol` does not pass the lease of a live owner.
- Drain fairness when failing rows fill the limit; the scan's order is modelled, progress beyond the limit is not claimed.
- SeamlessWallet.SeamlessOperatorWallet.Debit: assumes that nothing is applied after its timeout was reported and that no rollback of the transaction is confirmed beforehand.
- Ledger idempotence of a reset that found the balance already at its target: the code records no row for its key.
- Fairness: operations run one at a time and their writes do not fail halfway; progress of strict mode from an empty store is not claimed, because none exists.
- HMAC and SHA-256 are not modelled; seeds and hashes are values, and the hash of the seed chain is any function.
- Election: the Redis lease mirror and timers; a transition's writes are one step, so phase deadlines and late zombies of one node are not modelled.
- The `payoutTxId` back-reference, leaderboards, metrics, audit log, sockets, controllers, guards and reporting aggregates.
