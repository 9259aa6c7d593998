/** Entities shared by the whole model: identifiers, bet and round rows, ledger keys. */
module Domain {
  datatype Option<+T> = None | Some(value: T)

  type RoundId = nat
  type UserId = nat
  type BetId = nat
  type WalletId = nat
  type Currency = nat
  type CallId = nat

  datatype Panel = A | B

  /** The unique key of a bet row: one slot per round, user and panel. */
  datatype Slot = Slot(round: RoundId, user: UserId, panel: Panel)

  datatype Status =
    | Reserving | Active | Cancelled | CashedOut | PayoutPending
    | Busted | Cancelling | Voiding | Voided

  datatype Phase = Waiting | Betting | Running | Crashed | Settling | Completed

  /** The columns of a round row that only the engine uses; times are in milliseconds. */
  datatype RoundInfo = RoundInfo(
    created: nat, seed: bool, startedAt: Option<int>, phaseEndsAt: Option<int>,
    crashedAt: Option<int>, settledAt: Option<int>)

  /** A bet row. Money is in minor units; multipliers are integer hundredths. */
  datatype Bet = Bet(
    slot: Slot, wallet: WalletId, currency: Currency, amount: nat,
    auto: Option<nat>, cap: Option<nat>,
    status: Status, payout: nat, mult: nat)

  /** Idempotency keys, one constructor per key format. */
  datatype Key =
    | DebitKey(slot: Slot)
    | PayoutKey(bet: BetId)
    | RefundKey(bet: BetId)
    | RestartKey(bet: BetId)
    | ReclaimKey(bet: BetId)
    | VoidRefundKey(bet: BetId)
    | ResetKey(nonce: nat)

  /** The stake was debited and is still held (or already lost, or won back). */
  predicate IsWagered(st: Status) {
    st.Active? || st.CashedOut? || st.Busted? || st.PayoutPending?
  }

  /** A settled win, or one that is claimed and owed. */
  predicate IsWon(st: Status) {
    st.CashedOut? || st.PayoutPending?
  }

  predicate IsOpen(p: Phase) {
    !p.Completed?
  }
}
