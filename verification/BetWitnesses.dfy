/**
 * Concrete runs that show what goes wrong when a timing fact fails, or when a process dies
 * in a credit window: the exactly-once results need exactly these assumptions.
 */
module BetWitnesses {
  import opened Domain
  import opened Money
  import opened Ledger
  import opened RowSums
  import opened BetSums
  import opened BetProtocol
  import opened BetMoney
  import opened BetResults
  import opened Sequential
  import opened Ticks

  const OPENING: map<WalletId, nat> := map[0 := 100]

  const SLOT: Slot := Slot(0, 0, A)

  /** A stake that is to be cashed out automatically at 1.50x. */
  function Stake(amount: nat): Bet {
    Bet(SLOT, 0, 0, amount, Some(150), None, Reserving, 0, 0)
  }

  function Demo(timing: Timing): Config {
    Config(RiskLimits(1_000, 1, 1_000), map[], timing)
  }

  /** Limits under which a stake of at most 100 passes every check. */
  predicate Generous(cfg: Config) {
    cfg.caps == map[] && cfg.limits.maxRoundExposure == 1_000 && cfg.limits.maxMultiplier == 1
  }

  ghost predicate Reachable(cfg: Config, s: State) {
    exists events :: Run(cfg, Init(OPENING), events) == s
  }

  lemma InitIsReachable(cfg: Config)
    ensures Reachable(cfg, Init(OPENING))
  {
    assert Run(cfg, Init(OPENING), []) == Init(OPENING);
  }

  lemma Go(cfg: Config, s: State, e: Event) returns (s': State)
    requires Reachable(cfg, s)
    ensures s' == Next(cfg, s, e) && Reachable(cfg, s')
  {
    s' := Next(cfg, s, e);
    var events :| Run(cfg, Init(OPENING), events) == s;
    assert (events + [e])[..|events|] == events;
    assert Run(cfg, Init(OPENING), events + [e]) == s';
  }

  lemma GoStep(cfg: Config, s: State, c: CallId, ok: bool) returns (s': State)
    requires Reachable(cfg, s) && c in s.calls
    ensures s' == Advance(cfg, s, c, ok) && Reachable(cfg, s')
  {
    s' := Go(cfg, s, Step(c, ok));
  }

  /** Round 0 is open with a crash point of 2.00x. */
  function Table(bets: Bets, rows: seq<Row>, balance: int, used: set<BetId>, calls: map<CallId, Call>): State {
    State(Store(map[0 := RoundRow(Running, 200)], bets, Book(map[0 := balance], rows), used), calls, {})
  }

  lemma OpenTable(cfg: Config) returns (s: State)
    ensures Reachable(cfg, s) && s == Table(map[], [], 100, {}, map[])
  {
    InitIsReachable(cfg);
    s := Go(cfg, Init(OPENING), OpenRound(0, 200));
    s := Go(cfg, s, SetPhase(0, Running));
  }

  // ----- the stretches of a call, on the free table -----

  lemma PlaceUntilExposure(
      cfg: Config, c: CallId, id: BetId, amount: nat, rows: seq<Row>, balance: int,
      used: set<BetId>, calls: map<CallId, Call>) returns (s: State)
    requires Reachable(cfg, Table(map[], rows, balance, used, calls)) && c !in calls && id !in used
    requires forall d :: d in calls ==> !calls[d].Unborn()
    ensures Reachable(cfg, s)
    ensures s == Table(map[], rows, balance, used + {id}, calls[c := PlaceExposure(id, Stake(amount))])
  {
    s := Go(cfg, Table(map[], rows, balance, used, calls), BeginPlace(c, id, SLOT, 0, 0, amount, Some(150), None));
    s := GoStep(cfg, s, c, true);
    assert s.calls == calls[c := PlaceExposure(id, Stake(amount))];
  }

  lemma PlaceUntilInsert(
      cfg: Config, c: CallId, id: BetId, amount: nat, rows: seq<Row>, balance: int,
      used: set<BetId>, calls: map<CallId, Call>) returns (s: State)
    requires Generous(cfg) && amount <= 100
    requires Reachable(cfg, Table(map[], rows, balance, used, calls[c := PlaceExposure(id, Stake(amount))]))
    ensures Reachable(cfg, s)
    ensures s == Table(map[], rows, balance, used, calls[c := PlaceInsert(id, Stake(amount))])
  {
    s := GoStep(cfg, Table(map[], rows, balance, used, calls[c := PlaceExposure(id, Stake(amount))]), c, true);
    assert s.calls == calls[c := PlaceAccount(id, Stake(amount), 0)];
    s := GoStep(cfg, s, c, true);
    assert s.calls == calls[c := PlaceInsert(id, Stake(amount))];
  }

  /** A placeBet on the free slot gets as far as its debit. */
  lemma PlaceUntilDebit(
      cfg: Config, c: CallId, id: BetId, amount: nat, rows: seq<Row>, balance: int,
      used: set<BetId>, calls: map<CallId, Call>) returns (s: State)
    requires Reachable(cfg, Table(map[], rows, balance, used, calls))
    requires Generous(cfg) && amount <= 100 && c !in calls && id !in used
    requires forall d :: d in calls ==> !calls[d].Unborn() && (cfg.timing.slotQuiet ==> !calls[d].Recovering())
    ensures Reachable(cfg, s)
    ensures s == Table(map[id := Stake(amount)], rows, balance, used + {id}, calls[c := PlaceDebit(id, Stake(amount))])
  {
    s := PlaceUntilExposure(cfg, c, id, amount, rows, balance, used, calls);
    s := PlaceUntilInsert(cfg, c, id, amount, rows, balance, used + {id}, calls);
    s := GoStep(cfg, s, c, true);
    assert s.calls == calls[c := PlaceDebit(id, Stake(amount))];
  }

  function DebitRow(id: BetId, amount: nat): Row {
    Row(0, BetDebit, 0 - amount, 100 - amount, DebitKey(SLOT), Some(id))
  }

  lemma StakeIsTaken(
      cfg: Config, c: CallId, id: BetId, amount: nat, bets: Bets, used: set<BetId>, calls: map<CallId, Call>)
    returns (s: State)
    requires 0 < amount <= 100
    requires Reachable(cfg, Table(bets, [], 100, used, calls[c := PlaceDebit(id, Stake(amount))]))
    ensures Reachable(cfg, s)
    ensures s == Table(bets, [DebitRow(id, amount)], 100 - amount, used,
      calls[c := PlaceActivate(id, Stake(amount), 1)])
  {
    s := GoStep(cfg, Table(bets, [], 100, used, calls[c := PlaceDebit(id, Stake(amount))]), c, true);
    assert s.calls == calls[c := PlaceActivate(id, Stake(amount), 1)];
    assert [] + [DebitRow(id, amount)] == [DebitRow(id, amount)];
  }

  lemma RecoverBegins(cfg: Config, c: CallId, id: BetId, amount: nat, calls: map<CallId, Call>) returns (s: State)
    requires Reachable(cfg, Table(map[id := Stake(amount)], [], 100, {id}, calls)) && c !in calls
    ensures Reachable(cfg, s)
    ensures s == Table(map[id := Stake(amount)], [], 100, {id}, calls[c := RecoverClaim(id, Stake(amount))])
  {
    s := Go(cfg, Table(map[id := Stake(amount)], [], 100, {id}, calls), BeginRecover(c, id));
  }

  /** Recovery claims the slot of bet `id`. */
  lemma RecoverUntilLookup(cfg: Config, c: CallId, id: BetId, amount: nat, calls: map<CallId, Call>) returns (s: State)
    requires Reachable(cfg, Table(map[id := Stake(amount)], [], 100, {id}, calls)) && c !in calls
    requires cfg.timing.debitReturned ==> forall d :: d in calls ==> !calls[d].PlaceDebit?
    ensures Reachable(cfg, s)
    ensures s == Table(map[id := Stake(amount).(status := Cancelling)], [], 100, {id},
                       calls[c := RecoverLookup(id, Stake(amount))])
  {
    s := RecoverBegins(cfg, c, id, amount, calls);
    s := SlotIsClaimed(cfg, c, id, Stake(amount), calls, s);
  }

  lemma SlotIsClaimed(cfg: Config, c: CallId, id: BetId, b: Bet, calls: map<CallId, Call>, s: State) returns (s': State)
    requires Reachable(cfg, s) && s == Table(map[id := b], [], 100, {id}, calls[c := RecoverClaim(id, b)])
    requires b.status.Reserving? && Enabled(cfg, s, RecoverClaim(id, b))
    ensures Reachable(cfg, s')
    ensures s' == Table(map[id := b.(status := Cancelling)], [], 100, {id}, calls[c := RecoverLookup(id, b)])
  {
    s' := GoStep(cfg, s, c, true);
    assert s'.calls == calls[c := RecoverLookup(id, b)];
  }

  /** Recovery finds no debit for the slot and deletes the bet. */
  lemma RecoverUntilDrop(cfg: Config, c: CallId, id: BetId, b: Bet, calls: map<CallId, Call>) returns (s: State)
    requires b.slot == SLOT
    requires Reachable(cfg, Table(map[id := b.(status := Cancelling)], [], 100, {id}, calls[c := RecoverLookup(id, b)]))
    ensures Reachable(cfg, s)
    ensures s == Table(map[id := b.(status := Cancelling)], [], 100, {id}, calls[c := RecoverDrop(id, b)])
  {
    s := GoStep(cfg, Table(map[id := b.(status := Cancelling)], [], 100, {id}, calls[c := RecoverLookup(id, b)]), c,
      true);
    assert s.calls == calls[c := RecoverDrop(id, b)];
  }

  lemma SlotIsFreed(cfg: Config, c: CallId, id: BetId, b: Bet, drop: Call, calls: map<CallId, Call>) returns (s: State)
    requires drop == RecoverDrop(id, b) || drop == PlaceRelease(id, b)
    requires c !in calls && Reachable(cfg, Table(map[id := b.(status := Cancelling)], [], 100, {id}, calls[c := drop]))
    ensures Reachable(cfg, s) && s == Table(map[], [], 100, {id}, calls)
  {
    s := GoStep(cfg, Table(map[id := b.(status := Cancelling)], [], 100, {id}, calls[c := drop]), c, true);
    assert s.calls == calls;
    assert s.store.bets == map[];
  }

  // ----- the witnesses -----

  predicate Holds(st: Store, balance: int) {
    0 in st.book.balances && st.book.balances[0] == balance
  }

  /** Recovery that does not wait for an outstanding debit deletes the slot of a stake that
      is debited a moment later: money is taken and no bet exists. */
  lemma DebitMustHaveReturned(timing: Timing) returns (s: State)
    requires !timing.debitReturned
    ensures Reachable(Demo(timing), s)
    ensures s.store.bets == map[] && Has(s.store.book, DebitKey(SLOT)) && Holds(s.store, 90)
  {
    var cfg, b := Demo(timing), Stake(10);
    s := OpenTable(cfg);
    s := PlaceUntilDebit(cfg, 0, 7, 10, [], 100, {}, map[]);
    s := RecoverUntilLookup(cfg, 1, 7, 10, map[0 := PlaceDebit(7, b)]);
    s := RecoverUntilDrop(cfg, 1, 7, b, map[0 := PlaceDebit(7, b)]);
    s := SlotIsFreed(cfg, 1, 7, b, RecoverDrop(7, b), map[0 := PlaceDebit(7, b)]);
    s := StakeIsTaken(cfg, 0, 7, 10, map[], {7}, map[0 := PlaceDebit(7, b)]);
  }

  /**
   * Waiting for the debit is not enough. A first bet's debit has failed and returned; recovery
   * claims its slot; the placeBet releases the slot; a second bet takes the slot and is
   * debited. Recovery now finds a debit under the shared key and refunds the first stake,
   * which was never taken: 100 - 10 + 30 is on the wallet, and the refunded bet does not exist.
   */
  lemma SlotMustBeQuiet(timing: Timing) returns (s: State)
    requires !timing.slotQuiet
    ensures Reachable(Demo(timing), s)
    ensures s.store.bets == map[8 := Stake(10)] && Holds(s.store, 120)
    ensures Has(s.store.book, RestartKey(7)) && Find(s.store.book.rows, RestartKey(7)).value.ref == Some(7)
  {
    var cfg, b := Demo(timing), Stake(30);
    s := ReservedAgain(cfg);
    s := StakeIsTaken(cfg, 2, 8, 10, map[8 := Stake(10)], {7, 8},
      map[1 := RecoverLookup(7, b), 2 := PlaceDebit(8, Stake(10))]);
    s := RefundNothing(cfg, s);
  }

  /** The slot of bet 7 has been claimed by recovery, released, and reserved again by bet 8. */
  lemma ReservedAgain(cfg: Config) returns (s: State)
    requires cfg == Demo(cfg.timing) && !cfg.timing.slotQuiet
    ensures Reachable(cfg, s)
    ensures s == Table(map[8 := Stake(10)], [], 100, {7, 8},
      map[1 := RecoverLookup(7, Stake(30)), 2 := PlaceDebit(8, Stake(10))])
  {
    var b := Stake(30);
    s := OpenTable(cfg);
    s := PlaceUntilDebit(cfg, 0, 7, 30, [], 100, {}, map[]);
    s := DebitFails(cfg, s);
    s := RecoverUntilLookup(cfg, 1, 7, 30, map[0 := PlaceRelease(7, b)]);
    assert s.calls == map[1 := RecoverLookup(7, b)][0 := PlaceRelease(7, b)];
    s := SlotIsFreed(cfg, 0, 7, b, PlaceRelease(7, b), map[1 := RecoverLookup(7, b)]);
    s := PlaceUntilDebit(cfg, 2, 8, 10, [], 100, {7}, map[1 := RecoverLookup(7, b)]);
    assert {7} + {8} == {7, 8};
  }

  lemma DebitFails(cfg: Config, s: State) returns (s': State)
    requires Reachable(cfg, s) && s == Table(map[7 := Stake(30)], [], 100, {7}, map[0 := PlaceDebit(7, Stake(30))])
    ensures Reachable(cfg, s') && s' == Table(map[7 := Stake(30)], [], 100, {7}, map[0 := PlaceRelease(7, Stake(30))])
  {
    s' := GoStep(cfg, s, 0, false);
    assert s'.calls == map[0 := PlaceRelease(7, Stake(30))];
  }

  lemma RefundNothing(cfg: Config, s: State) returns (s': State)
    requires Reachable(cfg, s)
    requires s == Table(map[8 := Stake(10)], [DebitRow(8, 10)], 90, {7, 8},
                        map[1 := RecoverLookup(7, Stake(30)), 2 := PlaceActivate(8, Stake(10), 1)])
    ensures Reachable(cfg, s') && s'.store.bets == map[8 := Stake(10)]
    ensures Holds(s'.store, 120)
    ensures Has(s'.store.book, RestartKey(7)) && Find(s'.store.book.rows, RestartKey(7)).value.ref == Some(7)
  {
    assert Find([DebitRow(8, 10)], DebitKey(SLOT)) == Some(DebitRow(8, 10));
    s' := GoStep(cfg, s, 1, true);
    assert s'.calls[1] == RecoverRefund(7, Stake(30)) && s'.store == s.store;
    s' := PostRefund(cfg, s');
  }

  lemma PostRefund(cfg: Config, s: State) returns (s': State)
    requires Reachable(cfg, s) && 1 in s.calls && s.calls[1] == RecoverRefund(7, Stake(30))
    requires s.store.bets == map[8 := Stake(10)] && s.store.book == Book(map[0 := 90], [DebitRow(8, 10)])
    ensures Reachable(cfg, s') && s'.store.bets == map[8 := Stake(10)]
    ensures Holds(s'.store, 120)
    ensures Has(s'.store.book, RestartKey(7)) && Find(s'.store.book.rows, RestartKey(7)).value.ref == Some(7)
  {
    assert Find([DebitRow(8, 10)], RestartKey(7)) == None;
    PostIsIdempotent(s.store.book, StakeRefund(7, Stake(30), RestartKey(7)));
    s' := GoStep(cfg, s, 1, true);
  }

  // ----- a void of an abandoned cash-out -----

  function Won(status: Status): Bet {
    Stake(10).(status := status, mult := 150, payout := 15)
  }

  lemma WonPays15(cfg: Config)
    requires cfg == Demo(cfg.timing)
    ensures PayoutAt(cfg.limits, Stake(10), 150) == 15
  {
    assert FloorPayout(10, 150) == 15;
  }

  /** The bet was claimed at 1.50x and the claimant died before the credit. */
  lemma CashOutIsAbandoned(cfg: Config) returns (s: State)
    requires cfg == Demo(cfg.timing)
    ensures Reachable(cfg, s)
    ensures s == Table(map[7 := Won(CashedOut)], [DebitRow(7, 10)], 90, {7}, map[]).(abandoned := {7})
  {
    s := CashOutHasRead(cfg);
    s := ClaimAndDie(cfg, s);
  }

  lemma ActivateAndRead(cfg: Config, s: State) returns (s': State)
    requires Reachable(cfg, s)
    requires s == Table(map[7 := Stake(10)], [DebitRow(7, 10)], 90, {7}, map[0 := PlaceActivate(7, Stake(10), 1)])
    ensures Reachable(cfg, s')
    ensures var b := Stake(10).(status := Active);
      s' == Table(map[7 := b], [DebitRow(7, 10)], 90, {7}, map[0 := CashClaim(7, b, 150)])
  {
    s' := GoStep(cfg, s, 0, true);
    assert s'.calls == map[];
    s' := Go(cfg, s', BeginCash(0, 7, 150));
  }

  lemma ClaimAndDie(cfg: Config, s: State) returns (s': State)
    requires Reachable(cfg, s) && cfg == Demo(cfg.timing)
    requires var b := Stake(10).(status := Active);
      s == Table(map[7 := b], [DebitRow(7, 10)], 90, {7}, map[0 := CashClaim(7, b, 150)])
    ensures Reachable(cfg, s')
    ensures s' == Table(map[7 := Won(CashedOut)], [DebitRow(7, 10)], 90, {7}, map[]).(abandoned := {7})
  {
    s' := ClaimIt(cfg, s);
    s' := Go(cfg, s', Die(0));
    assert s'.calls == map[];
  }

  /** Voiding a cash-out that was claimed but never credited takes the payout from the wallet
      all the same: 100 - 10 - 15 + 10 is left, although the bet was voided. */
  lemma VoidOfAbandonedCashOut(timing: Timing) returns (s: State)
    requires !timing.noVoids
    ensures Reachable(Demo(timing), s)
    ensures HasStatus(s.store, 7, Voided) && Holds(s.store, 85) && !Has(s.store.book, PayoutKey(7))
  {
    var cfg := Demo(timing);
    s := CashOutIsAbandoned(cfg);
    s := VoidUntilReclaim(cfg, s);
    s := ReclaimUnpaid(cfg, s);
    s := RefundAndFinish(cfg, s);
  }

  lemma VoidUntilReclaim(cfg: Config, s: State) returns (s': State)
    requires Reachable(cfg, s) && !cfg.timing.noVoids
    requires s == Table(map[7 := Won(CashedOut)], [DebitRow(7, 10)], 90, {7}, map[]).(abandoned := {7})
    ensures Reachable(cfg, s')
    ensures s' == Table(map[7 := Won(Voiding)], [DebitRow(7, 10)], 90, {7},
      map[0 := VoidReclaim(7, Won(CashedOut))]).(abandoned := {7})
  {
    s' := Go(cfg, s, BeginVoid(0, 7));
    assert s'.calls == map[0 := VoidClaim(7, Won(CashedOut))];
    s' := GoStep(cfg, s', 0, true);
    assert s'.calls == map[0 := VoidReclaim(7, Won(CashedOut))];
  }

  function ReclaimRow(): Row {
    Row(0, PayoutCredit, -15, 75, ReclaimKey(7), Some(7))
  }

  lemma ReclaimUnpaid(cfg: Config, s: State) returns (s': State)
    requires Reachable(cfg, s)
    requires s == Table(map[7 := Won(Voiding)], [DebitRow(7, 10)], 90, {7},
      map[0 := VoidReclaim(7, Won(CashedOut))]).(abandoned := {7})
    ensures Reachable(cfg, s')
    ensures s' == Table(map[7 := Won(Voiding)], [DebitRow(7, 10), ReclaimRow()], 75, {7},
                        map[0 := VoidRefund(7, Won(CashedOut))]).(abandoned := {7})
  {
    assert Find([DebitRow(7, 10)], ReclaimKey(7)) == None;
    s' := GoStep(cfg, s, 0, true);
    assert s'.calls == map[0 := VoidRefund(7, Won(CashedOut))];
    assert [DebitRow(7, 10)] + [ReclaimRow()] == [DebitRow(7, 10), ReclaimRow()];
  }

  const RECLAIMED: seq<Row> := [DebitRow(7, 10), ReclaimRow()]

  const VOID_REFUND: Row := Row(0, Refund, 10, 85, VoidRefundKey(7), Some(7))

  lemma RefundAndFinish(cfg: Config, s: State) returns (s': State)
    requires Reachable(cfg, s)
    requires s == Table(map[7 := Won(Voiding)], RECLAIMED, 75, {7},
      map[0 := VoidRefund(7, Won(CashedOut))]).(abandoned := {7})
    ensures Reachable(cfg, s')
    ensures HasStatus(s'.store, 7, Voided) && Holds(s'.store, 85) && !Has(s'.store.book, PayoutKey(7))
  {
    NothingUnder(PayoutKey(7));
    NothingUnder(VoidRefundKey(7));
    FindAppend(RECLAIMED, VOID_REFUND);
    s' := RefundStake(cfg, s);
    s' := GoStep(cfg, s', 0, true);
  }

  lemma NothingUnder(k: Key)
    requires k == PayoutKey(7) || k == VoidRefundKey(7)
    ensures Find(RECLAIMED, k) == None
  {
    assert RECLAIMED[..1] == [DebitRow(7, 10)];
  }

  lemma RefundStake(cfg: Config, s: State) returns (s': State)
    requires Reachable(cfg, s) && Find(RECLAIMED, VoidRefundKey(7)) == None
    requires s == Table(map[7 := Won(Voiding)], RECLAIMED, 75, {7},
      map[0 := VoidRefund(7, Won(CashedOut))]).(abandoned := {7})
    ensures Reachable(cfg, s')
    ensures s' == Table(map[7 := Won(Voiding)], RECLAIMED + [VOID_REFUND], 85, {7},
                        map[0 := VoidFinish(7, Won(CashedOut))]).(abandoned := {7})
  {
    s' := GoStep(cfg, s, 0, true);
    assert s'.calls == map[0 := VoidFinish(7, Won(CashedOut))];
  }

  // ----- a void of a cash-out that is still in flight -----

  /** The bet was claimed at 1.50x, and its credit is about to be posted. */
  lemma CashOutIsInFlight(cfg: Config) returns (s: State)
    requires cfg == Demo(cfg.timing)
    ensures Reachable(cfg, s)
    ensures s == Table(map[7 := Won(CashedOut)], [DebitRow(7, 10)], 90, {7}, map[0 := CashCredit(7, Won(CashedOut))])
  {
    s := CashOutHasRead(cfg);
    s := ClaimIt(cfg, s);
  }

  lemma ClaimIt(cfg: Config, s: State) returns (s': State)
    requires Reachable(cfg, s) && cfg == Demo(cfg.timing)
    requires var b := Stake(10).(status := Active);
      s == Table(map[7 := b], [DebitRow(7, 10)], 90, {7}, map[0 := CashClaim(7, b, 150)])
    ensures Reachable(cfg, s')
    ensures s' == Table(map[7 := Won(CashedOut)], [DebitRow(7, 10)], 90, {7}, map[0 := CashCredit(7, Won(CashedOut))])
  {
    WonPays15(cfg);
    s' := GoStep(cfg, s, 0, true);
    assert s'.calls == map[0 := CashCredit(7, Won(CashedOut))];
  }

  /**
   * A void that does not wait for a cash-out in flight: the void claims the bet, the credit
   * fails, and the cash-out marks the voided bet as an owed payout. Voiding goes on and
   * takes the payout back, on a bet whose payout is now owed once more: its rows add up to
   * -25, where a stake of 10 should be all that it has cost.
   */
  lemma CashOutMustBeDone(timing: Timing) returns (s: State)
    requires !timing.noVoids && !timing.cashOutDone
    ensures Reachable(Demo(timing), s)
    ensures HasStatus(s.store, 7, PayoutPending) && s.store.bets[7] == Won(PayoutPending)
      && s.store.book.rows == RECLAIMED
  {
    var cfg := Demo(timing);
    s := CashOutIsInFlight(cfg);
    s := VoidBesideCashOut(cfg, s);
    s := CreditFails(cfg, s);
    s := ReclaimOwed(cfg, s);
  }

  lemma VoidBesideCashOut(cfg: Config, s: State) returns (s': State)
    requires Reachable(cfg, s) && !cfg.timing.noVoids && !cfg.timing.cashOutDone
    requires s == Table(map[7 := Won(CashedOut)], [DebitRow(7, 10)], 90, {7}, map[0 := CashCredit(7, Won(CashedOut))])
    ensures Reachable(cfg, s')
    ensures s' == Table(map[7 := Won(Voiding)], [DebitRow(7, 10)], 90, {7},
                        map[0 := CashCredit(7, Won(CashedOut)), 1 := VoidReclaim(7, Won(CashedOut))])
  {
    s' := Go(cfg, s, BeginVoid(1, 7));
    assert s'.calls == map[0 := CashCredit(7, Won(CashedOut)), 1 := VoidClaim(7, Won(CashedOut))];
    s' := VoidIsClaimed(cfg, s');
  }

  lemma VoidIsClaimed(cfg: Config, s: State) returns (s': State)
    requires Reachable(cfg, s) && Enabled(cfg, s, VoidClaim(7, Won(CashedOut)))
    requires s == Table(map[7 := Won(CashedOut)], [DebitRow(7, 10)], 90, {7},
                        map[0 := CashCredit(7, Won(CashedOut)), 1 := VoidClaim(7, Won(CashedOut))])
    ensures Reachable(cfg, s')
    ensures s' == Table(map[7 := Won(Voiding)], [DebitRow(7, 10)], 90, {7},
                        map[0 := CashCredit(7, Won(CashedOut)), 1 := VoidReclaim(7, Won(CashedOut))])
  {
    s' := GoStep(cfg, s, 1, true);
    assert s'.calls == map[0 := CashCredit(7, Won(CashedOut)), 1 := VoidReclaim(7, Won(CashedOut))];
  }

  lemma CreditFails(cfg: Config, s: State) returns (s': State)
    requires Reachable(cfg, s)
    requires s == Table(map[7 := Won(Voiding)], [DebitRow(7, 10)], 90, {7},
                        map[0 := CashCredit(7, Won(CashedOut)), 1 := VoidReclaim(7, Won(CashedOut))])
    ensures Reachable(cfg, s')
    ensures s' == Table(map[7 := Won(PayoutPending)], [DebitRow(7, 10)], 90, {7},
      map[1 := VoidReclaim(7, Won(CashedOut))])
  {
    s' := GoStep(cfg, s, 0, false);
    assert s'.calls == map[0 := CashPend(7, Won(CashedOut)), 1 := VoidReclaim(7, Won(CashedOut))];
    s' := WinIsOwed(cfg, s');
  }

  lemma WinIsOwed(cfg: Config, s: State) returns (s': State)
    requires Reachable(cfg, s)
    requires s == Table(map[7 := Won(Voiding)], [DebitRow(7, 10)], 90, {7},
                        map[0 := CashPend(7, Won(CashedOut)), 1 := VoidReclaim(7, Won(CashedOut))])
    ensures Reachable(cfg, s')
    ensures s' == Table(map[7 := Won(PayoutPending)], [DebitRow(7, 10)], 90, {7},
      map[1 := VoidReclaim(7, Won(CashedOut))])
  {
    s' := GoStep(cfg, s, 0, true);
    assert s'.calls == map[1 := VoidReclaim(7, Won(CashedOut))];
  }

  lemma ReclaimOwed(cfg: Config, s: State) returns (s': State)
    requires Reachable(cfg, s)
    requires s == Table(map[7 := Won(PayoutPending)], [DebitRow(7, 10)], 90, {7},
      map[1 := VoidReclaim(7, Won(CashedOut))])
    ensures Reachable(cfg, s')
    ensures HasStatus(s'.store, 7, PayoutPending) && s'.store.bets[7] == Won(PayoutPending)
      && s'.store.book.rows == RECLAIMED
  {
    assert Find([DebitRow(7, 10)], ReclaimKey(7)) == None;
    assert [DebitRow(7, 10)] + [ReclaimRow()] == RECLAIMED;
    s' := GoStep(cfg, s, 1, true);
  }

  // ----- a winner that is busted -----

  /** The bet is active in the running round, and a cash-out at its target has read it. */
  lemma CashOutHasRead(cfg: Config) returns (s: State)
    requires Generous(cfg)
    ensures Reachable(cfg, s)
    ensures var b := Stake(10).(status := Active);
      s == Table(map[7 := b], [DebitRow(7, 10)], 90, {7}, map[0 := CashClaim(7, b, 150)])
  {
    s := OpenTable(cfg);
    s := PlaceUntilDebit(cfg, 0, 7, 10, [], 100, {}, map[]);
    s := StakeIsTaken(cfg, 0, 7, 10, map[7 := Stake(10)], {7}, map[0 := PlaceDebit(7, Stake(10))]);
    s := ActivateAndRead(cfg, s);
  }

  /** The database refuses the claim of an auto-cashout at 1.50x in a round that crashes at
      2.00x, and the round is settled: the bet is busted although its target was reached. */
  lemma RefusedClaimBustsWinner(timing: Timing) returns (s: State)
    ensures Reachable(Demo(timing), s) && HasStatus(s.store, 7, Busted)
    ensures 0 in s.store.rounds && BelowCrash(s.store.bets[7], s.store.rounds[0].crash)
  {
    var cfg := Demo(timing);
    s := CashOutHasRead(cfg);
    s := GoStep(cfg, s, 0, false);
    s := Go(cfg, s, Settle(0));
  }

  // ----- a payout of nothing -----

  /** The same table with a house cap of zero on every win. */
  function NoWins(timing: Timing): Config {
    Demo(timing).(limits := RiskLimits(0, 1, 1_000))
  }

  /** With a house cap of zero a win is worth nothing, the ledger refuses to credit it, and the
      bet is owed an empty payout for ever: no reconcile, however its statements fare, closes it. */
  lemma EmptyPayoutStaysOwed(timing: Timing) returns (s: State)
    ensures Reachable(NoWins(timing), s)
    ensures HasStatus(s.store, 7, PayoutPending) && s.store.bets[7].payout == 0
    ensures forall oks :: RunFrom(NoWins(timing), s.store, BeginReconcile(0, 7), oks) == s.store
  {
    var cfg := NoWins(timing);
    s := CashOutHasRead(cfg);
    s := WinNothing(cfg, s);
    s := OweNothing(cfg, s);
    forall oks
      ensures RunFrom(cfg, s.store, BeginReconcile(0, 7), oks) == s.store
    {
      NothingIsPaid(cfg, s.store, 7, oks);
    }
  }

  lemma OweNothing(cfg: Config, s: State) returns (s': State)
    requires Reachable(cfg, s)
    requires var b := Stake(10).(status := CashedOut, mult := 150);
      s == Table(map[7 := b], [DebitRow(7, 10)], 90, {7}, map[0 := CashCredit(7, b)])
    ensures Reachable(cfg, s') && HasStatus(s'.store, 7, PayoutPending) && s'.store.bets[7].payout == 0
  {
    s' := GoStep(cfg, s, 0, true);
    s' := GoStep(cfg, s', 0, true);
  }

  lemma NothingIsPaid(cfg: Config, st: Store, id: BetId, oks: seq<bool>)
    requires HasStatus(st, id, PayoutPending) && st.bets[id].payout == 0
    ensures RunFrom(cfg, st, BeginReconcile(0, id), oks) == st
  {
    RunCallStep(cfg, st, PendCredit(id, st.bets[id]), oks);
  }

  lemma WinNothing(cfg: Config, s: State) returns (s': State)
    requires Reachable(cfg, s) && cfg == NoWins(cfg.timing)
    requires var b := Stake(10).(status := Active);
      s == Table(map[7 := b], [DebitRow(7, 10)], 90, {7}, map[0 := CashClaim(7, b, 150)])
    ensures Reachable(cfg, s')
    ensures var b := Stake(10).(status := CashedOut, mult := 150);
      s' == Table(map[7 := b], [DebitRow(7, 10)], 90, {7}, map[0 := CashCredit(7, b)])
  {
    s' := GoStep(cfg, s, 0, true);
    assert s'.calls == map[0 := CashCredit(7, Stake(10).(status := CashedOut, mult := 150))];
  }

  // ----- exactly which timing facts are needed -----

  ghost predicate RowsHaveBets(st: Store) {
    forall i :: 0 <= i < |st.book.rows| ==> st.book.rows[i].ref.Some? && st.book.rows[i].ref.value in st.bets
  }

  ghost predicate MoneySound(st: Store) {
    RowsHaveBets(st) && forall id :: id in st.bets ==>
      OneOutcome(st, id) && NetOf(st.book.rows, id, All) == OutcomeNet(st, id)
  }

  /** In every run, under any limits and from any opening balances, the money is sound. */
  ghost predicate AlwaysSound(timing: Timing) {
    forall cfg: Config, opening, events :: cfg.timing == timing ==> MoneySound(Run(cfg, Init(opening), events).store)
  }

  /** Money is moved exactly once in all runs if and only if the timing is safe. */
  lemma TimingIsExact(timing: Timing)
    ensures AlwaysSound(timing) <==> SafeTiming(timing)
  {
    if SafeTiming(timing) {
      forall cfg: Config, opening, events | cfg.timing == timing
        ensures MoneySound(Run(cfg, Init(opening), events).store)
      {
        SafeIsSound(cfg, opening, events);
      }
    } else {
      var s := UnsafeRun(timing);
      var events :| Run(Demo(timing), Init(OPENING), events) == s;
    }
  }

  lemma SafeIsSound(cfg: Config, opening: map<WalletId, nat>, events: seq<Event>)
    requires SafeTiming(cfg.timing)
    ensures MoneySound(Run(cfg, Init(opening), events).store)
  {
    var st := Run(cfg, Init(opening), events).store;
    forall i | 0 <= i < |st.book.rows|
      ensures st.book.rows[i].ref.Some? && st.book.rows[i].ref.value in st.bets
    {
      EveryRowHasItsBet(cfg, opening, events, i);
    }
    forall id | id in st.bets
      ensures OneOutcome(st, id) && NetOf(st.book.rows, id, All) == OutcomeNet(st, id)
    {
      MoneyExactlyOnce(cfg, opening, events, id);
    }
  }

  lemma UnsafeRun(timing: Timing) returns (s: State)
    requires !SafeTiming(timing)
    ensures Reachable(Demo(timing), s) && !MoneySound(s.store)
  {
    if !timing.debitReturned {
      s := DebitMustHaveReturned(timing);
      OrphanedRow(s.store, DebitKey(SLOT));
    } else if !timing.slotQuiet {
      s := SlotMustBeQuiet(timing);
      assert Find(s.store.book.rows, RestartKey(7)).value.ref == Some(7);
      OrphanedRow(s.store, RestartKey(7));
    } else {
      s := CashOutMustBeDone(timing);
      OverdrawnWin(s.store);
    }
  }

  lemma OrphanedRow(st: Store, k: Key)
    requires Has(st.book, k) && var row := Find(st.book.rows, k).value; row.ref.Some? ==> row.ref.value !in st.bets
    ensures !RowsHaveBets(st)
  {
    var i :| 0 <= i < |st.book.rows| && st.book.rows[i] == Find(st.book.rows, k).value;
  }

  lemma OverdrawnWin(st: Store)
    requires 7 in st.bets && st.bets[7] == Won(PayoutPending) && st.book.rows == RECLAIMED
    ensures NetOf(st.book.rows, 7, All) != OutcomeNet(st, 7)
  {
    NothingUnder(PayoutKey(7));
    assert RECLAIMED[..1] == [DebitRow(7, 10)];
    assert [DebitRow(7, 10)][..0] == [];
  }
}
