/** What restarts guarantee about the money of a bet, however often they happen and wherever they break. */
module FailoverResults {
  import opened Domain
  import opened Ledger
  import opened RowSums
  import opened BetProtocol
  import opened BetMoney
  import opened BetResults
  import opened RefundMask
  import opened Sequential
  import opened Ticks
  import opened SlotRecovery
  import opened RoundClosing
  import opened BootSteps
  import opened GameEngine

  // ----- one store -----

  function RefundKeys(id: BetId): seq<Key> {
    [RefundKey(id), RestartKey(id), VoidRefundKey(id)]
  }

  /** A bet is refunded in full and once, or not at all; a restart refund leaves nothing else. */
  predicate RefundsAddUp(st: Store, id: BetId)
    requires id in st.bets
  {
    var rows, b := st.book.rows, st.bets[id];
    var restarted := Has(st.book, RestartKey(id));
    && NetOf(rows, id, Of(Refund)) ==
         (if Has(st.book, RefundKey(id)) || restarted || Has(st.book, VoidRefundKey(id)) then b.amount else 0)
    && (restarted ==> OnlyDebited(st, id) && NetOf(rows, id, All) == 0)
    && (restarted ==> b.status.Active? || IsRestart(b.status))
  }

  lemma SoundRefunds(cfg: Config, opening: map<WalletId, nat>, st: Store, id: BetId)
    requires Sound(cfg, opening, st) && id in st.bets
    ensures RefundsAddUp(st, id)
  {
    OneOutcomeHolds(cfg, st, id);
    RowFactsHold(cfg, st, id);
    AmountsOfBet(cfg, st, id);
    RefundsByKeys(st, id);
    RefundAmounts(st.book.rows, id);
    if Has(st.book, RestartKey(id)) {
      RestartedNetsToZero(cfg, opening, st, id);
    }
  }

  lemma RefundsByKeys(st: Store, id: BetId)
    requires RowsOk(st) && UniqueKeys(st.book.rows)
    ensures NetOf(st.book.rows, id, Of(Refund)) == Amounts(st.book.rows, RefundKeys(id))
  {
    var rows := st.book.rows;
    forall i | 0 <= i < |rows|
      ensures Selected(rows[i], id, Of(Refund)) <==> rows[i].key in RefundKeys(id)
    {
      RowIsFound(rows, i);
      assert RowOk(st, rows[i].key, rows[i]);
    }
    NetByKeys(rows, id, Of(Refund), RefundKeys(id));
  }

  lemma RefundAmounts(rows: seq<Row>, id: BetId)
    ensures Amounts(rows, RefundKeys(id)) ==
      Amount(rows, RefundKey(id)) + Amount(rows, RestartKey(id)) + Amount(rows, VoidRefundKey(id))
  {
    AmountsStep(rows, RefundKey(id), [RestartKey(id), VoidRefundKey(id)]);
    AmountsStep(rows, RestartKey(id), [VoidRefundKey(id)]);
    AmountsStep(rows, VoidRefundKey(id), []);
  }

  /** In every store that boots and sweeps leave behind, wherever they stopped. */
  lemma RefundedAtMostOnce(cfg: Config, opening: map<WalletId, nat>, d: Db, id: BetId)
    requires BootInv(cfg, opening, d) && id in d.store.bets
    ensures RefundsAddUp(d.store, id)
  {
    SoundRefunds(cfg, opening, Masked(d.store), id);
  }

  /** A bet with a restart refund is never dropped. */
  lemma RestartHasBet(cfg: Config, opening: map<WalletId, nat>, d: Db, id: BetId)
    requires BootInv(cfg, opening, d) && Has(d.store.book, RestartKey(id))
    ensures id in d.store.bets
  {
    assert RowOk(Masked(d.store), RestartKey(id), Find(d.store.book.rows, RestartKey(id)).value);
  }

  // ----- any history of restarts -----

  /**
   * A history of restarts: each store is what a start, a boot or a sweep made of the one
   * before it, in whole or up to where it broke, at a clock that has not gone back.
   */
  ghost predicate History(cfg: Config, dbs: seq<Db>) {
    && |dbs| > 0
    && forall i :: 0 <= i < |dbs| - 1 ==>
         dbs[i].now <= dbs[i + 1].now && Reaches(cfg, dbs[i].(now := dbs[i + 1].now), dbs[i + 1])
  }

  lemma {:induction false} HistoryIsBootable(cfg: Config, opening: map<WalletId, nat>, dbs: seq<Db>, at: nat)
    requires History(cfg, dbs) && BootInv(cfg, opening, dbs[0]) && at < |dbs|
    ensures BootInv(cfg, opening, dbs[at])
  {
    if at != 0 {
      HistoryIsBootable(cfg, opening, dbs, at - 1);
      var start := dbs[at - 1].(now := dbs[at].now);
      TimePasses(cfg, opening, dbs[at - 1], dbs[at].now);
      assert dbs[at] == dbs[(at - 1) + 1];
      var log :| Leads(cfg, start, log, dbs[at]);
      LeadsKeepsInv(cfg, opening, start, log, dbs[at]);
    }
  }

  /** Rows are never taken back, and once at most one round is open it stays so. */
  ghost predicate MovesOn(before: Store, after: Store) {
    && BookKept(before.book, after.book)
    && (|OpenIn(before.rounds)| <= 1 ==> |OpenIn(after.rounds)| <= 1)
  }

  lemma StepMovesOn(cfg: Config, d: Db, a: BootStep)
    requires d.store.rounds.Keys <= d.info.Keys && Legal(d, a)
    ensures MovesOn(d.store, Take(cfg, d, a).store)
  {
    match a
    case RecoverStep(id, oks) => CallMovesOn(cfg, d.store, BeginRecover(0, id), oks);
    case CashStep(id, mult, oks) => CallMovesOn(cfg, d.store, BeginCash(0, id, mult), oks);
    case RefundStep(id, oks) =>
      RepaidAddsOneRow(d.store.book, id, d.store.bets[id]);
      RefundAloneCases(d.store, id, oks);
    case OpenStep(r, crash, _) =>
      OneIsOpen(d.store.rounds[r := RoundRow(Waiting, crash)], r);
    case _ =>
      FewerAreOpen(d.store.rounds, Take(cfg, d, a).store.rounds);
  }

  lemma OneIsOpen(rounds: Rounds, r: RoundId)
    requires OpenIn(rounds) <= {r}
    ensures |OpenIn(rounds)| <= 1
  {
    assert OpenIn(rounds) == {} || OpenIn(rounds) == {r};
  }

  lemma FewerAreOpen(before: Rounds, after: Rounds)
    requires OpenIn(after) <= OpenIn(before)
    ensures |OpenIn(after)| <= |OpenIn(before)|
  {
    CardinalityGrows(OpenIn(after), OpenIn(before));
  }

  lemma CardinalityGrows<T>(a: set<T>, b: set<T>)
    requires a <= b
    ensures |a| <= |b|
  {
    assert b == a + (b - a);
  }

  lemma CallMovesOn(cfg: Config, st: Store, e: Event, oks: seq<bool>)
    requires e.BeginRecover? || e.BeginCash?
    ensures MovesOn(st, RunFrom(cfg, st, e, oks))
  {
    var first := FirstRead(cfg, st, e);
    if first.Some? {
      if e.BeginRecover? {
        RecoveryTouchesOnly(cfg, st, first.value, oks);
      } else {
        CashOutTouchesOnly(cfg, st, first.value, oks);
      }
    }
  }

  lemma {:induction false} LeadsMovesOn(cfg: Config, before: Db, log: seq<BootStep>, after: Db)
    requires Leads(cfg, before, log, after)
    ensures MovesOn(before.store, after.store)
    decreases |log|
  {
    if log != [] {
      var next := Take(cfg, before, log[0]);
      StepMovesOn(cfg, before, log[0]);
      LeadsMovesOn(cfg, next, log[1..], after);
    }
  }

  lemma {:induction false} HistoryMovesOn(cfg: Config, dbs: seq<Db>, i: nat, j: nat)
    requires History(cfg, dbs) && i <= j < |dbs|
    ensures MovesOn(dbs[i].store, dbs[j].store)
    decreases j
  {
    if i < j {
      HistoryMovesOn(cfg, dbs, i, j - 1);
      assert dbs[j] == dbs[(j - 1) + 1];
      var log :| Leads(cfg, dbs[j - 1].(now := dbs[j].now), log, dbs[j]);
      LeadsMovesOn(cfg, dbs[j - 1].(now := dbs[j].now), log, dbs[j]);
    }
  }

  /**
   * Over any history of restarts that begins with a store the protocol left behind, with
   * boots and sweeps in any order, reversals and status writes failing at any bets and
   * processes dying anywhere: at every point all refunds of a bet add up to its stake or to
   * nothing, and a restart refund never meets a payout, then or later. Once a start has
   * left one round open, never are there two again.
   */
  lemma RestartsRefundOnce(cfg: Config, opening: map<WalletId, nat>, dbs: seq<Db>, id: BetId, i: nat, j: nat)
    requires History(cfg, dbs) && Sound(cfg, opening, dbs[0].store) && WellTimed(dbs[0].store.rounds, dbs[0].info)
    requires i <= j < |dbs|
    ensures id in dbs[i].store.bets ==> RefundsAddUp(dbs[i].store, id)
    ensures Has(dbs[i].store.book, RestartKey(id)) ==>
      id in dbs[j].store.bets && Has(dbs[j].store.book, RestartKey(id)) && !Has(dbs[j].store.book, PayoutKey(id))
    ensures Has(dbs[i].store.book, PayoutKey(id)) ==> !Has(dbs[j].store.book, RestartKey(id))
    ensures |OpenIn(dbs[i].store.rounds)| <= 1 ==> |OpenIn(dbs[j].store.rounds)| <= 1
  {
    SoundIsBootable(cfg, opening, dbs[0]);
    HistoryIsBootable(cfg, opening, dbs, i);
    HistoryIsBootable(cfg, opening, dbs, j);
    if id in dbs[i].store.bets {
      RefundedAtMostOnce(cfg, opening, dbs[i], id);
    }
    HistoryMovesOn(cfg, dbs, i, j);
    if Has(dbs[j].store.book, RestartKey(id)) {
      RestartHasBet(cfg, opening, dbs[j], id);
      RefundedAtMostOnce(cfg, opening, dbs[j], id);
    }
  }

  // ----- closing stale rounds -----

  /**
   * A live bet of a stale round, whether or not an earlier boot has refunded it. Before the
   * outcome it gets its stake back, once, if the reversal succeeds now or did before, and is
   * cancelled if that is written too; after the outcome it is busted if that statement
   * succeeds, and never refunded.
   */
  lemma StaleBetOutcome(
      cfg: Config, opening: map<WalletId, nat>, before: Db, after: Db, stale: set<RoundId>, plan: ClosePlan,
      id: BetId)
    requires BootInv(cfg, opening, before) && BootInv(cfg, opening, after)
    requires StaleClosed(before.store, after.store, stale, plan) && forall r :: r in stale ==> IsStale(before, r)
    requires HasStatus(before.store, id, Active) && before.store.bets[id].slot.round in stale
    ensures id in after.store.bets
    ensures var rows, b, r := after.store.book.rows, after.store.bets[id], before.store.bets[id].slot.round;
      if PostOutcome(before.store.rounds[r].phase) then
        b.status == (if plan.busted(r) then Busted else Active) && NetOf(rows, id, Of(Refund)) == 0
      else
        && b.status == (if BothOk(plan.refunds(id)) then Cancelled else Active)
        && NetOf(rows, id, Of(Refund)) ==
             if Has(before.store.book, RestartKey(id)) || ClaimOk(plan.refunds(id)) then b.amount else 0
  {
    assert BetClosed(before.store, after.store, stale, plan, id);
    RefundedAtMostOnce(cfg, opening, after, id);
    LiveBet(cfg, opening, before.store, id);
    StaleRows(before.store, after.store, stale, plan, id);
    if PostOutcome(before.store.rounds[before.store.bets[id].slot.round].phase) {
      assert !IsRefunded(before.store, id);
    }
  }

  lemma StaleRows(before: Store, after: Store, stale: set<RoundId>, plan: ClosePlan, id: BetId)
    requires StaleClosed(before, after, stale, plan)
    ensures Has(after.book, RefundKey(id)) <==> Has(before.book, RefundKey(id))
    ensures Has(after.book, VoidRefundKey(id)) <==> Has(before.book, VoidRefundKey(id))
  {
  }

  /** Bets that are already closed keep their rows, and the journal only grows. */
  lemma ClosedBetsAreKept(
      before: Store, after: Store, stale: set<RoundId>, plan: ClosePlan, id: BetId, k: Key)
    requires StaleClosed(before, after, stale, plan) && id in before.bets && !before.bets[id].status.Active?
    ensures after.bets[id] == before.bets[id]
    ensures k in KeysOf(id, before.bets[id].slot) && k.PayoutKey? ==> (Has(after.book, k) <==> Has(before.book, k))
  {
    assert BetClosed(before, after, stale, plan, id);
  }

  /**
   * A stake whose refund failed when its round was force-completed is picked up by the
   * sweep if and only if the round has no crash time. With one, the bet stays active on a
   * completed round, and neither the sweep nor a later boot ever selects it.
   */
  lemma StrandedStakeIsSwept(
      before: Store, after: Store, info: map<RoundId, RoundInfo>, r: RoundId, refunds: Plan, id: BetId, cutoff: int)
    requires RoundRefunded(before, after, r, refunds) && id in ActiveIn(before, r)
    requires r in info && info[r].settledAt.Some? && info[r].settledAt.value < cutoff
    ensures HasStatus(after, id, Active) <==> !BothOk(refunds(id))
    ensures IsStranded(after, info, id, cutoff) <==> !BothOk(refunds(id)) && info[r].crashedAt.None?
    ensures r !in OpenRounds(after)
  {
    assert BetRefunded(before, after.(rounds := before.rounds), id, refunds(id));
  }

  /**
   * The failover gap: a running round whose crash time passed is resumed and then settled. A
   * bet open when the dead leader began to tick ends as the crash point commits it, whatever
   * ticks the dead leader had run, if its claim is not refused on resume.
   */
  lemma ResumeHonoursCrash(
      cfg: Config, stores: seq<Store>, ticks: seq<Tick>, after: Store, r: RoundId, plan: BootPlan, id: BetId)
    requires Chain(cfg, stores, ticks, r) && HasStatus(stores[0], id, Active) && stores[0].bets[id].slot.round == r
    requires r in stores[0].rounds && stores[0].rounds[r].phase.Running? && plan.payFence
    requires RoundResumed(cfg, stores[|ticks|], after, r, true, plan) && ClaimOk(plan.cashOuts(id))
    ensures id in after.bets
    ensures Fate(cfg, stores[0].rounds[r].crash, stores[0].bets[id], BustActive(after.bets, r)[id])
  {
    ChainStaysOnTrack(cfg, stores, ticks, r, id);
    var last := stores[|ticks|];
    var resume := Tick(last.rounds[r].crash, plan.cashOuts);
    assert Ticked(cfg, last, after.(rounds := last.rounds), r, resume);
    ResumedOutcome(cfg, stores[0], last, after.(rounds := last.rounds), r, resume, id);
  }
}
