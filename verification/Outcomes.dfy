/**
 * What a call run alone achieves: for every pattern of failing statements its exact outcome in
 * closed form, and what that means for the money when the store is sound.
 */
module Outcomes {
  import opened Domain
  import opened Money
  import opened Ledger
  import opened BetSums
  import opened BetProtocol
  import opened BetMoney
  import opened BetResults
  import opened Sequential
  import opened SlotRecovery

  /** Statement `i` is reached and succeeds, if those before it let the call go on. */
  predicate Ok(oks: seq<bool>, i: nat) {
    i < |oks| && oks[i]
  }

  function WithRow(st: Store, id: BetId, b: Bet): Store {
    st.(bets := st.bets[id := b])
  }

  // ----- placing -----

  /** What the account and insert statements check, given the reservations counted before. */
  ghost predicate Insertable(cfg: Config, st: Store, b: Bet, reserved: int) {
    && (b.wallet in cfg.caps ==>
          var caps := cfg.caps[b.wallet];
          && (caps.maxWager.Some? ==> Sum(st.bets, Wagered(b.wallet)) + reserved + b.amount <= caps.maxWager.value)
          && (caps.maxLoss.Some? ==> Sum(st.bets, Net(b.wallet)) + reserved + b.amount <= caps.maxLoss.value))
    && (forall id :: id in st.bets ==> st.bets[id].slot != b.slot)
    && b.slot.round in st.rounds && b.wallet in st.book.balances
  }

  /** The checks under the lock: the exposure breaker, the session's caps, a free slot, and that
      round and wallet exist. */
  ghost predicate Admitted(cfg: Config, st: Store, b: Bet) {
    && Sum(st.bets, Exposure(cfg.limits, b.slot.round, b.currency)) + PotentialPayout(cfg.limits, b.amount)
         <= cfg.limits.maxRoundExposure
    && Insertable(cfg, st, b, Sum(st.bets, ReservedIn(b.slot.round, b.wallet)))
  }

  ghost predicate Reserves(cfg: Config, st: Store, b: Bet, oks: seq<bool>) {
    Ok(oks, 0) && Ok(oks, 1) && Ok(oks, 2) && Ok(oks, 3) && Admitted(cfg, st, b)
  }

  ghost predicate Debits(cfg: Config, st: Store, id: BetId, b: Bet, oks: seq<bool>) {
    Reserves(cfg, st, b, oks) && Ok(oks, 4) && Covered(st.book, StakeDebit(id, b))
  }

  ghost predicate Places(cfg: Config, st: Store, id: BetId, b: Bet, oks: seq<bool>) {
    Debits(cfg, st, id, b, oks) && (Ok(oks, 5) || Ok(oks, 6) || Ok(oks, 7))
  }

  /** A refused debit releases the slot if that succeeds; a debited bet is active if one of three
      attempts succeeds, and else stays reserved. */
  function DebitResult(st: Store, id: BetId, b: Bet, oks: seq<bool>): Store {
    if |oks| == 0 then st
    else if oks[0] && Covered(st.book, StakeDebit(id, b)) then
      WithRow(st, id, if Ok(oks, 1) || Ok(oks, 2) || Ok(oks, 3) then b.(status := Active) else b)
        .(book := Entered(st.book, StakeDebit(id, b)))
    else if Ok(oks, 1) then st.(bets := st.bets - {id}) else st
  }

  /** A bet that is not admitted leaves nothing; an admitted one is debited. */
  ghost function PlaceResult(cfg: Config, st: Store, id: BetId, b: Bet, oks: seq<bool>): Store {
    if Reserves(cfg, st, b, oks) then DebitResult(WithRow(st, id, b), id, b, oks[4..]) else st
  }

  lemma PlaceOutcome(cfg: Config, st: Store, id: BetId, b: Bet, oks: seq<bool>)
    requires b.status.Reserving?
    ensures RunCall(cfg, st, PlaceLock(id, b), oks) == PlaceResult(cfg, st, id, b, oks)
  {
    ReserveOutcome(cfg, st, id, b, oks);
    if Reserves(cfg, st, b, oks) {
      DebitOutcome(cfg, WithRow(st, id, b), id, b, oks[4..]);
    }
  }

  lemma ReserveOutcome(cfg: Config, st: Store, id: BetId, b: Bet, oks: seq<bool>)
    ensures RunCall(cfg, st, PlaceLock(id, b), oks) ==
      if Reserves(cfg, st, b, oks) then RunCall(cfg, WithRow(st, id, b), PlaceDebit(id, b), oks[4..]) else st
  {
    var reserved := Sum(st.bets, ReservedIn(b.slot.round, b.wallet));
    RunCallStep(cfg, st, PlaceLock(id, b), oks);
    if Ok(oks, 0) {
      RunCallStep(cfg, st, PlaceExposure(id, b), oks[1..]);
      if Ok(oks, 1) {
        AccountOutcome(cfg, st, id, b, reserved, oks[1..][1..]);
        assert oks[1..][1..] == oks[2..];
        assert |oks| >= 4 ==> oks[2..][2..] == oks[4..];
      }
    }
  }

  lemma AccountOutcome(cfg: Config, st: Store, id: BetId, b: Bet, reserved: int, oks: seq<bool>)
    ensures RunCall(cfg, st, PlaceAccount(id, b, reserved), oks) ==
      if Ok(oks, 0) && Ok(oks, 1) && Insertable(cfg, st, b, reserved)
      then RunCall(cfg, WithRow(st, id, b), PlaceDebit(id, b), oks[2..]) else st
  {
    RunCallStep(cfg, st, PlaceAccount(id, b, reserved), oks);
    if Ok(oks, 0) {
      RunCallStep(cfg, st, PlaceInsert(id, b), oks[1..]);
      assert |oks| >= 2 ==> oks[1..][1..] == oks[2..];
    }
  }

  lemma DebitOutcome(cfg: Config, st: Store, id: BetId, b: Bet, oks: seq<bool>)
    requires id in st.bets && st.bets[id] == b && b.status.Reserving?
    ensures RunCall(cfg, st, PlaceDebit(id, b), oks) == DebitResult(st, id, b, oks)
  {
    IssueEnters(st.book, StakeDebit(id, b));
    RunCallStep(cfg, st, PlaceDebit(id, b), oks);
    if |oks| > 0 {
      if oks[0] && Covered(st.book, StakeDebit(id, b)) {
        AnyOfThree(oks[1..]);
        ActivateOutcome(cfg, st.(book := Entered(st.book, StakeDebit(id, b))), id, b, 1, oks[1..]);
      } else {
        RunCallStep(cfg, st, PlaceRelease(id, b), oks[1..]);
      }
    }
  }

  /** One of the next `n` attempts succeeds. */
  predicate AnyOk(oks: seq<bool>, n: nat) {
    n > 0 && |oks| > 0 && (oks[0] || AnyOk(oks[1..], n - 1))
  }

  lemma AnyOfThree(oks: seq<bool>)
    ensures AnyOk(oks, 3) <==> Ok(oks, 0) || Ok(oks, 1) || Ok(oks, 2)
  {
    assert AnyOk(oks, 3) <==> |oks| > 0 && (oks[0] || AnyOk(oks[1..], 2));
    if |oks| > 1 {
      assert AnyOk(oks[1..], 2) <==> oks[1..][0] || AnyOk(oks[1..][1..], 1);
      assert oks[1..][1..] == oks[2..];
    }
  }

  lemma {:induction false} ActivateOutcome(cfg: Config, st: Store, id: BetId, b: Bet, attempt: nat, oks: seq<bool>)
    requires id in st.bets && st.bets[id] == b && b.status.Reserving? && 1 <= attempt <= 3
    ensures RunCall(cfg, st, PlaceActivate(id, b, attempt), oks) ==
      WithRow(st, id, if AnyOk(oks, 4 - attempt) then b.(status := Active) else b)
    decreases 3 - attempt
  {
    assert st.bets[id := b] == st.bets;
    RunCallStep(cfg, st, PlaceActivate(id, b, attempt), oks);
    if |oks| > 0 && !oks[0] && attempt < 3 {
      ActivateOutcome(cfg, st, id, b, attempt + 1, oks[1..]);
    }
  }

  /** From a sound store: a bet that is admitted, affordable and not failed by the database is
      active, and its wallet has paid its stake, in one row of its own. */
  lemma PlaceTakesStake(cfg: Config, opening: map<WalletId, nat>, st: Store, id: BetId, b: Bet, oks: seq<bool>)
    requires Sound(cfg, opening, st) && Admitted(cfg, st, b) && b.status.Reserving?
    requires 0 < b.amount <= st.book.balances[b.wallet]
    requires Reserves(cfg, st, b, oks) && Ok(oks, 4) && (Ok(oks, 5) || Ok(oks, 6) || Ok(oks, 7))
    ensures var st' := RunCall(cfg, st, PlaceLock(id, b), oks);
      && st'.bets == st.bets[id := b.(status := Active)]
      && var after := st.book.balances[b.wallet] - b.amount;
         st'.book == Book(
           st.book.balances[b.wallet := after],
           st.book.rows + [Row(b.wallet, BetDebit, 0 - b.amount, after, DebitKey(b.slot), Some(id))])
  {
    PlaceOutcome(cfg, st, id, b, oks);
    FreeSlotHasNoDebit(st, b.slot);
  }

  lemma FreeSlotHasNoDebit(st: Store, slot: Slot)
    requires RowsOk(st) && forall id :: id in st.bets ==> st.bets[id].slot != slot
    ensures !Has(st.book, DebitKey(slot))
  {
    assert Has(st.book, DebitKey(slot)) ==> RowOk(st, DebitKey(slot), Find(st.book.rows, DebitKey(slot)).value);
  }

  /** A stake that the wallet does not cover is not taken, and the slot is free again. */
  lemma PlaceRefused(cfg: Config, opening: map<WalletId, nat>, st: Store, id: BetId, b: Bet, oks: seq<bool>)
    requires Sound(cfg, opening, st) && Admitted(cfg, st, b) && b.status.Reserving? && id !in st.bets
    requires st.book.balances[b.wallet] < b.amount
    requires Reserves(cfg, st, b, oks) && Ok(oks, 4) && Ok(oks, 5)
    ensures RunCall(cfg, st, PlaceLock(id, b), oks) == st
  {
    PlaceOutcome(cfg, st, id, b, oks);
    FreeSlotHasNoDebit(st, b.slot);
    assert st.bets[id := b] - {id} == st.bets;
  }

  // ----- cancelling -----

  predicate CancelClaims(st: Store, id: BetId, oks: seq<bool>) {
    HasStatus(st, id, Active) && Ok(oks, 0)
  }

  predicate CancelRefunds(st: Store, id: BetId, oks: seq<bool>) {
    CancelClaims(st, id, oks) && Ok(oks, 1) && Covered(st.book, StakeRefund(id, st.bets[id], RefundKey(id)))
  }

  /** An active bet whose claim succeeds is cancelled, and refunded if the wallet accepts it. */
  function CancelResult(st: Store, id: BetId, oks: seq<bool>): Store {
    if !CancelClaims(st, id, oks) then st
    else
      var cancelled := WithRow(st, id, st.bets[id].(status := Cancelled));
      if CancelRefunds(st, id, oks) then
        cancelled.(book := Entered(st.book, StakeRefund(id, st.bets[id], RefundKey(id))))
      else cancelled
  }

  lemma CancelOutcome(cfg: Config, st: Store, id: BetId, oks: seq<bool>)
    ensures RunFrom(cfg, st, BeginCancel(0, id), oks) == CancelResult(st, id, oks)
  {
    if HasStatus(st, id, Active) {
      var b := st.bets[id];
      RunCallStep(cfg, st, CancelClaim(id, b), oks);
      if Ok(oks, 0) {
        IssueEnters(st.book, StakeRefund(id, b, RefundKey(id)));
        RunCallStep(cfg, SetStatus(st, id, Cancelled), CancelCredit(id, b), oks[1..]);
      }
    }
  }

  /** From a sound store: a live bet whose cancel does not fail is cancelled, and its wallet has its
      stake back, in one row of its own. */
  lemma CancelReturnsStake(cfg: Config, opening: map<WalletId, nat>, st: Store, id: BetId, oks: seq<bool>)
    requires Sound(cfg, opening, st) && HasStatus(st, id, Active) && Ok(oks, 0) && Ok(oks, 1)
    ensures var b, st' := st.bets[id], RunFrom(cfg, st, BeginCancel(0, id), oks);
      && st'.bets == st.bets[id := b.(status := Cancelled)] && b.wallet in st.book.balances
      && var after := st.book.balances[b.wallet] + b.amount;
         st'.book == Book(
           st.book.balances[b.wallet := after],
           st.book.rows + [Row(b.wallet, Refund, b.amount, after, RefundKey(id), Some(id))])
  {
    CancelOutcome(cfg, st, id, oks);
    LiveRows(cfg, opening, st, id);
    CancelledIsRepaid(st, id, oks);
  }

  lemma CancelledIsRepaid(st: Store, id: BetId, oks: seq<bool>)
    requires HasStatus(st, id, Active) && Ok(oks, 0) && Ok(oks, 1) && !Has(st.book, RefundKey(id))
    requires var b := st.bets[id];
      b.amount > 0 && b.wallet in st.book.balances && st.book.balances[b.wallet] >= 0
    ensures var b, st' := st.bets[id], CancelResult(st, id, oks);
      && st'.bets == st.bets[id := b.(status := Cancelled)]
      && var after := st.book.balances[b.wallet] + b.amount;
         st'.book == Book(
           st.book.balances[b.wallet := after],
           st.book.rows + [Row(b.wallet, Refund, b.amount, after, RefundKey(id), Some(id))])
  {
  }

  /** A live bet is neither paid nor refunded, and its wallet is there. */
  lemma LiveRows(cfg: Config, opening: map<WalletId, nat>, st: Store, id: BetId)
    requires Sound(cfg, opening, st) && HasStatus(st, id, Active)
    ensures !Has(st.book, PayoutKey(id)) && !Has(st.book, RefundKey(id))
    ensures var b := st.bets[id];
      b.amount > 0 && b.wallet in st.book.balances && st.book.balances[b.wallet] >= 0
  {
    RowFactsHold(cfg, st, id);
    LiveWallet(cfg, opening, st, id);
  }

  lemma LiveWallet(cfg: Config, opening: map<WalletId, nat>, st: Store, id: BetId)
    requires Sound(cfg, opening, st) && WasDebited(st, id)
    ensures var b := st.bets[id];
      b.amount > 0 && b.wallet in st.book.balances && st.book.balances[b.wallet] >= 0
  {
    DebitRowOf(cfg, st, id);
    RowHasWallet(opening, st.book, DebitKey(st.bets[id].slot));
  }

  // ----- cashing out -----

  /** The bet is open, its round runs, and the multiplier is below the crash point. */
  predicate PassesGate(st: Store, id: BetId, mult: nat) {
    HasStatus(st, id, Active) && st.bets[id].slot.round in st.rounds
    && st.rounds[st.bets[id].slot.round].phase.Running? && mult < st.rounds[st.bets[id].slot.round].crash
  }

  predicate CashCredits(st: Store, id: BetId, row: Bet, oks: seq<bool>) {
    Ok(oks, 1) && Covered(st.book, PayoutCreditOp(id, row))
  }

  /** A cash-out that passes the gate and claims its bet has won exactly what the limits allow at
      its multiplier. The win is credited, or recorded as owed if the credit fails. */
  ghost predicate CashedSo(cfg: Config, st: Store, st': Store, id: BetId, mult: nat, oks: seq<bool>) {
    if !PassesGate(st, id, mult) || !Ok(oks, 0) then st' == st
    else
      && id in st'.bets
      && var row := st.bets[id].(status := CashedOut, mult := mult, payout := st'.bets[id].payout);
      && IsPayout(cfg.limits, st.bets[id], mult, row.payout)
      && st' ==
           if CashCredits(st, id, row, oks) then
             WithRow(st, id, row).(book := Entered(st.book, PayoutCreditOp(id, row)))
           else WithRow(st, id, if Ok(oks, 2) then row.(status := PayoutPending) else row)
  }

  /** The caller is told that it has won: the win is credited, or at least recorded. */
  predicate CashSucceeds(st: Store, st': Store, id: BetId, mult: nat, oks: seq<bool>) {
    PassesGate(st, id, mult) && WinSucceeds(st, st', id, oks)
  }

  predicate WinSucceeds(st: Store, st': Store, id: BetId, oks: seq<bool>) {
    Ok(oks, 0) && id in st'.bets && (CashCredits(st, id, st'.bets[id], oks) || Ok(oks, 2))
  }

  lemma CashOutcome(cfg: Config, st: Store, id: BetId, mult: nat, oks: seq<bool>)
    ensures CashedSo(cfg, st, RunFrom(cfg, st, BeginCash(0, id, mult), oks), id, mult, oks)
  {
    if PassesGate(st, id, mult) {
      ClaimOutcome(cfg, st, id, mult, oks);
    }
  }

  lemma ClaimOutcome(cfg: Config, st: Store, id: BetId, mult: nat, oks: seq<bool>)
    requires PassesGate(st, id, mult)
    ensures CashedSo(cfg, st, RunCall(cfg, st, CashClaim(id, st.bets[id], mult), oks), id, mult, oks)
  {
    var b := st.bets[id];
    RunCallStep(cfg, st, CashClaim(id, b, mult), oks);
    if Ok(oks, 0) {
      var row := b.(status := CashedOut, mult := mult, payout := PayoutAt(cfg.limits, b, mult));
      PayoutIsExact(cfg.limits, b, mult);
      CreditOutcome(cfg, WithRow(st, id, row), id, row, oks[1..]);
    }
  }

  lemma CreditOutcome(cfg: Config, st: Store, id: BetId, row: Bet, oks: seq<bool>)
    requires id in st.bets && st.bets[id] == row
    ensures RunCall(cfg, st, CashCredit(id, row), oks) ==
      if Ok(oks, 0) && Covered(st.book, PayoutCreditOp(id, row)) then
        st.(book := Entered(st.book, PayoutCreditOp(id, row)))
      else if Ok(oks, 1) then WithRow(st, id, row.(status := PayoutPending)) else st
  {
    IssueEnters(st.book, PayoutCreditOp(id, row));
    RunCallStep(cfg, st, CashCredit(id, row), oks);
    if |oks| > 0 && !(oks[0] && Covered(st.book, PayoutCreditOp(id, row))) {
      RunCallStep(cfg, st, CashPend(id, row), oks[1..]);
    }
  }

  /** A win that is worth anything is credited in one row of its own, unless the credit fails;
      if only the credit fails it is owed. */
  ghost predicate WinIsPaid(cfg: Config, st: Store, st': Store, id: BetId, mult: nat, oks: seq<bool>) {
    && id in st.bets && id in st'.bets && st'.bets[id].mult == mult && st.bets[id].wallet in st.book.balances
    && var b, p := st.bets[id], st'.bets[id].payout;
    && IsPayout(cfg.limits, b, mult, p)
    && (p > 0 && Ok(oks, 1) ==>
          && st'.bets[id].status.CashedOut?
          && var after := st.book.balances[b.wallet] + p;
             st'.book == Book(
               st.book.balances[b.wallet := after],
               st.book.rows + [Row(b.wallet, PayoutCredit, p, after, PayoutKey(id), Some(id))]))
    && (|oks| > 2 && !oks[1] && oks[2] ==> st'.bets[id].status.PayoutPending? && st'.book == st.book)
  }

  lemma CashPaysOut(cfg: Config, opening: map<WalletId, nat>, st: Store, id: BetId, mult: nat, oks: seq<bool>)
    requires Sound(cfg, opening, st) && PassesGate(st, id, mult) && Ok(oks, 0)
    ensures WinIsPaid(cfg, st, RunFrom(cfg, st, BeginCash(0, id, mult), oks), id, mult, oks)
  {
    LiveRows(cfg, opening, st, id);
    CashOutcome(cfg, st, id, mult, oks);
    WinIsCredited(cfg, st, RunFrom(cfg, st, BeginCash(0, id, mult), oks), id, mult, oks);
  }

  lemma WinIsCredited(cfg: Config, st: Store, st': Store, id: BetId, mult: nat, oks: seq<bool>)
    requires CashedSo(cfg, st, st', id, mult, oks) && PassesGate(st, id, mult) && Ok(oks, 0)
    requires !Has(st.book, PayoutKey(id))
    requires st.bets[id].wallet in st.book.balances && st.book.balances[st.bets[id].wallet] >= 0
    ensures WinIsPaid(cfg, st, st', id, mult, oks)
  {
  }

  // ----- voiding -----

  predicate VoidClaims(st: Store, id: BetId, oks: seq<bool>) {
    HasStatus(st, id, Voiding) || ((HasStatus(st, id, Busted) || HasStatus(st, id, CashedOut)) && Ok(oks, 0))
  }

  /** The answers that are left when the bet is claimed; an interrupted void is claimed already. */
  function AfterClaim(st: Store, id: BetId, oks: seq<bool>): seq<bool>
    requires VoidClaims(st, id, oks)
  {
    if HasStatus(st, id, Voiding) then oks else oks[1..]
  }

  predicate Reclaims(book: Book, id: BetId, b: Bet, oks: seq<bool>) {
    |oks| > 0 && (b.payout == 0 || (oks[0] && Covered(book, PayoutReclaim(id, b))))
  }

  function Reclaimed(book: Book, id: BetId, b: Bet, oks: seq<bool>): Book {
    if b.payout > 0 && Reclaims(book, id, b, oks) then Entered(book, PayoutReclaim(id, b)) else book
  }

  predicate Returns(book: Book, id: BetId, b: Bet, oks: seq<bool>) {
    && Reclaims(book, id, b, oks) && Ok(oks, 1)
    && Covered(Reclaimed(book, id, b, oks), StakeRefund(id, b, VoidRefundKey(id)))
  }

  /** The payout first, if there is one, then the stake; what fails ends the void where it is. */
  function Reversed(book: Book, id: BetId, b: Bet, oks: seq<bool>): Book {
    var reclaimed := Reclaimed(book, id, b, oks);
    if Returns(book, id, b, oks) then Entered(reclaimed, StakeRefund(id, b, VoidRefundKey(id))) else reclaimed
  }

  predicate VoidFinishes(st: Store, id: BetId, oks: seq<bool>) {
    VoidClaims(st, id, oks)
    && Returns(st.book, id, st.bets[id], AfterClaim(st, id, oks)) && Ok(AfterClaim(st, id, oks), 2)
  }

  function VoidResult(st: Store, id: BetId, oks: seq<bool>): Store {
    if !VoidClaims(st, id, oks) then st
    else
      WithRow(st, id, st.bets[id].(status := if VoidFinishes(st, id, oks) then Voided else Voiding))
        .(book := Reversed(st.book, id, st.bets[id], AfterClaim(st, id, oks)))
  }

  lemma VoidOutcome(cfg: Config, st: Store, id: BetId, oks: seq<bool>)
    requires !cfg.timing.noVoids
    ensures RunFrom(cfg, st, BeginVoid(0, id), oks) == VoidResult(st, id, oks)
  {
    VoidBegins(cfg, st, id, oks);
    if HasStatus(st, id, Voiding) {
      ReversalsOutcome(cfg, st, id, st.bets[id], oks);
    } else if HasStatus(st, id, Busted) || HasStatus(st, id, CashedOut) {
      ClaimedVoidOutcome(cfg, st, id, oks);
    }
  }

  lemma VoidBegins(cfg: Config, st: Store, id: BetId, oks: seq<bool>)
    requires !cfg.timing.noVoids
    ensures RunFrom(cfg, st, BeginVoid(0, id), oks) ==
      if HasStatus(st, id, Voiding) then RunCall(cfg, st, VoidReclaim(id, st.bets[id]), oks)
      else if HasStatus(st, id, Busted) || HasStatus(st, id, CashedOut) then
        RunCall(cfg, st, VoidClaim(id, st.bets[id]), oks)
      else st
  {
  }

  lemma ClaimedVoidOutcome(cfg: Config, st: Store, id: BetId, oks: seq<bool>)
    requires HasStatus(st, id, Busted) || HasStatus(st, id, CashedOut)
    ensures RunCall(cfg, st, VoidClaim(id, st.bets[id]), oks) == VoidResult(st, id, oks)
  {
    RunCallStep(cfg, st, VoidClaim(id, st.bets[id]), oks);
    if Ok(oks, 0) {
      var claimed := SetStatus(st, id, Voiding);
      ReversalsOutcome(cfg, claimed, id, st.bets[id], oks[1..]);
      ClaimedIsResult(st, id, oks);
    }
  }

  lemma ClaimedIsResult(st: Store, id: BetId, oks: seq<bool>)
    requires (HasStatus(st, id, Busted) || HasStatus(st, id, CashedOut)) && Ok(oks, 0)
    ensures var claimed, rest := SetStatus(st, id, Voiding), oks[1..];
      VoidResult(st, id, oks) ==
        WithRow(claimed, id,
          if Returns(st.book, id, st.bets[id], rest) && Ok(rest, 2) then claimed.bets[id].(status := Voided)
          else claimed.bets[id]).(book := Reversed(st.book, id, st.bets[id], rest))
  {
  }

  lemma ReversalsOutcome(cfg: Config, st: Store, id: BetId, b: Bet, oks: seq<bool>)
    requires HasStatus(st, id, Voiding)
    ensures RunCall(cfg, st, VoidReclaim(id, b), oks) ==
      WithRow(st, id,
        if Returns(st.book, id, b, oks) && Ok(oks, 2) then st.bets[id].(status := Voided) else st.bets[id])
        .(book := Reversed(st.book, id, b, oks))
  {
    assert st.bets[id := st.bets[id]] == st.bets;
    IssueEnters(st.book, PayoutReclaim(id, b));
    RunCallStep(cfg, st, VoidReclaim(id, b), oks);
    if Reclaims(st.book, id, b, oks) {
      RefundOutcome(cfg, st.(book := Reclaimed(st.book, id, b, oks)), id, b, oks[1..]);
    }
  }

  lemma RefundOutcome(cfg: Config, st: Store, id: BetId, b: Bet, oks: seq<bool>)
    requires HasStatus(st, id, Voiding)
    ensures var op := StakeRefund(id, b, VoidRefundKey(id));
      RunCall(cfg, st, VoidRefund(id, b), oks) ==
        if !(Ok(oks, 0) && Covered(st.book, op)) then st
        else
          WithRow(st, id, if Ok(oks, 1) then st.bets[id].(status := Voided) else st.bets[id])
            .(book := Entered(st.book, op))
  {
    var op := StakeRefund(id, b, VoidRefundKey(id));
    assert st.bets[id := st.bets[id]] == st.bets;
    IssueEnters(st.book, op);
    RunCallStep(cfg, st, VoidRefund(id, b), oks);
    if Ok(oks, 0) && Covered(st.book, op) {
      RunCallStep(cfg, st.(book := Entered(st.book, op)), VoidFinish(id, b), oks[1..]);
    }
  }

  /** From a sound store: a void that does not fail, of a bet whose payout the wallet still covers,
      ends voided, and the wallet is down by the payout and up by the stake. */
  lemma VoidReversesBet(cfg: Config, opening: map<WalletId, nat>, st: Store, id: BetId)
    requires Sound(cfg, opening, st) && !cfg.timing.noVoids
    requires HasStatus(st, id, Busted) || HasStatus(st, id, CashedOut)
    requires st.bets[id].wallet in st.book.balances && st.bets[id].payout <= st.book.balances[st.bets[id].wallet]
    ensures var b, st' := st.bets[id], RunFrom(cfg, st, BeginVoid(0, id), [true, true, true, true]);
      && st'.bets == st.bets[id := b.(status := Voided)]
      && st'.book.balances == st.book.balances[b.wallet := st.book.balances[b.wallet] - b.payout + b.amount]
  {
    VoidOutcome(cfg, st, id, [true, true, true, true]);
    VoidedRows(cfg, st, id);
    RowFactsHold(cfg, st, id);
    LiveWallet(cfg, opening, st, id);
    VoidIsDone(st, id);
  }

  lemma VoidIsDone(st: Store, id: BetId)
    requires (HasStatus(st, id, Busted) || HasStatus(st, id, CashedOut)) && st.bets[id].amount > 0
    requires st.bets[id].wallet in st.book.balances && st.bets[id].payout <= st.book.balances[st.bets[id].wallet]
    requires !Has(st.book, ReclaimKey(id)) && !Has(st.book, VoidRefundKey(id))
    ensures var b, st' := st.bets[id], VoidResult(st, id, [true, true, true, true]);
      && st'.bets == st.bets[id := b.(status := Voided)]
      && st'.book.balances == st.book.balances[b.wallet := st.book.balances[b.wallet] - b.payout + b.amount]
  {
    ReversedBalances(st.book, id, st.bets[id], [true, true, true, true][1..]);
  }

  lemma ReversedBalances(book: Book, id: BetId, b: Bet, oks: seq<bool>)
    requires |oks| == 3 && oks[0] && oks[1] && oks[2] && b.amount > 0
    requires b.wallet in book.balances && b.payout <= book.balances[b.wallet]
    requires !Has(book, ReclaimKey(id)) && !Has(book, VoidRefundKey(id))
    ensures Returns(book, id, b, oks)
    ensures Reversed(book, id, b, oks).balances ==
      book.balances[b.wallet := book.balances[b.wallet] - b.payout + b.amount]
  {
    ReclaimedBalances(book, id, b, oks);
    EnteredOnce(Reclaimed(book, id, b, oks), StakeRefund(id, b, VoidRefundKey(id)));
  }

  lemma ReclaimedBalances(book: Book, id: BetId, b: Bet, oks: seq<bool>)
    requires |oks| > 0 && oks[0] && b.wallet in book.balances && b.payout <= book.balances[b.wallet]
    requires !Has(book, ReclaimKey(id)) && !Has(book, VoidRefundKey(id))
    ensures Reclaims(book, id, b, oks) && !Has(Reclaimed(book, id, b, oks), VoidRefundKey(id))
    ensures Reclaimed(book, id, b, oks).balances == book.balances[b.wallet := book.balances[b.wallet] - b.payout]
  {
    if b.payout > 0 {
      EnteredOnce(book, PayoutReclaim(id, b));
    }
  }

  /** A new key is entered with its amount, and no other key. */
  lemma EnteredOnce(book: Book, op: Op)
    requires op.Move? && !Has(book, op.key) && op.amount != 0
    requires op.wallet in book.balances && book.balances[op.wallet] + op.amount >= 0
    ensures Covered(book, op)
    ensures Entered(book, op).balances == book.balances[op.wallet := book.balances[op.wallet] + op.amount]
    ensures forall k :: Has(Entered(book, op), k) <==> k == op.key || Has(book, k)
  {
    IssueEnters(book, op);
    PostEffect(book, op);
  }

  // ----- paying what is owed -----

  predicate Repays(st: Store, id: BetId, oks: seq<bool>) {
    HasStatus(st, id, PayoutPending) && Ok(oks, 0) && Covered(st.book, PayoutCreditOp(id, st.bets[id]))
  }

  /** An owed payout is credited if the wallet accepts it, and then closed if that succeeds too. */
  function RepayResult(st: Store, id: BetId, oks: seq<bool>): Store {
    if !Repays(st, id, oks) then st
    else
      WithRow(st, id, if Ok(oks, 1) then st.bets[id].(status := CashedOut) else st.bets[id])
        .(book := Entered(st.book, PayoutCreditOp(id, st.bets[id])))
  }

  lemma RepayOutcome(cfg: Config, st: Store, id: BetId, oks: seq<bool>)
    ensures RunFrom(cfg, st, BeginReconcile(0, id), oks) == RepayResult(st, id, oks)
  {
    if HasStatus(st, id, PayoutPending) {
      PendOutcome(cfg, st, id, oks);
    }
  }

  lemma PendOutcome(cfg: Config, st: Store, id: BetId, oks: seq<bool>)
    requires HasStatus(st, id, PayoutPending)
    ensures RunCall(cfg, st, PendCredit(id, st.bets[id]), oks) == RepayResult(st, id, oks)
  {
    var op := PayoutCreditOp(id, st.bets[id]);
    IssueEnters(st.book, op);
    RunCallStep(cfg, st, PendCredit(id, st.bets[id]), oks);
    if Repays(st, id, oks) {
      FinishOutcome(cfg, st.(book := Entered(st.book, op)), id, oks[1..]);
    }
  }

  lemma FinishOutcome(cfg: Config, st: Store, id: BetId, oks: seq<bool>)
    requires HasStatus(st, id, PayoutPending)
    ensures RunCall(cfg, st, PendFinish(id, st.bets[id]), oks) ==
      WithRow(st, id, if Ok(oks, 0) then st.bets[id].(status := CashedOut) else st.bets[id])
  {
    assert st.bets[id := st.bets[id]] == st.bets;
    RunCallStep(cfg, st, PendFinish(id, st.bets[id]), oks);
  }

  /** An owed payout is credited, once, by a reconcile that does not fail, if and only if it is
      not empty: the ledger refuses an empty credit, so an owed payout of nothing stays owed. */
  lemma PendingIsPaid(cfg: Config, opening: map<WalletId, nat>, st: Store, id: BetId)
    requires Sound(cfg, opening, st) && HasStatus(st, id, PayoutPending)
    ensures var b, st' := st.bets[id], RunFrom(cfg, st, BeginReconcile(0, id), [true, true]);
      && (HasStatus(st', id, CashedOut) <==> b.payout > 0)
      && (b.payout > 0 ==> Has(st'.book, PayoutKey(id)))
      && (b.payout > 0 && !Has(st.book, PayoutKey(id)) ==>
            st'.book.balances == st.book.balances[b.wallet := st.book.balances[b.wallet] + b.payout])
  {
    RepayOutcome(cfg, st, id, [true, true]);
    PaysIntoWallet(cfg, opening, st, id);
    IssueEnters(st.book, PayoutCreditOp(id, st.bets[id]));
  }

  lemma PaysIntoWallet(cfg: Config, opening: map<WalletId, nat>, st: Store, id: BetId)
    requires Sound(cfg, opening, st) && HasStatus(st, id, PayoutPending)
    ensures var b := st.bets[id];
      b.wallet in st.book.balances && st.book.balances[b.wallet] >= 0
  {
    assert BetOk(cfg, st, id);
    DebitRowOf(cfg, st, id);
    RowHasWallet(opening, st.book, DebitKey(st.bets[id].slot));
  }
}
