/** The reconciliation identities, proved for every quiescent state of every run. */
module BetAudit {
  import opened Domain
  import opened Ledger
  import opened RowSums
  import opened Totals
  import opened BetSums
  import opened BetProtocol
  import opened BetMoney
  import opened BetResults

  // ----- who owes what -----

  /** A claim of this bet is still on its way to the ledger. */
  ghost predicate InFlight(calls: map<CallId, Call>, id: BetId) {
    exists c :: c in calls && calls[c].InWindow() && calls[c].id == id
  }

  /** A cancelled stake that was never refunded. */
  predicate Unrefunded(st: Store, id: BetId) {
    HasStatus(st, id, Cancelled) && !Has(st.book, RefundKey(id)) && !Has(st.book, RestartKey(id))
  }

  /** A win, standing or voided, that was never credited. */
  predicate Unpaid(st: Store, id: BetId) {
    id in st.bets && (st.bets[id].status.CashedOut? || IsVoid(st.bets[id].status)) && st.bets[id].payout > 0
    && !Has(st.book, PayoutKey(id))
  }

  /** An owed credit is in flight or has been abandoned by its claimant; a voided win cannot be in flight. */
  ghost predicate OwedOk(s: State, id: BetId) {
    && (Unrefunded(s.store, id) ==> id in s.abandoned || InFlight(s.calls, id))
    && (Unpaid(s.store, id) ==> id in s.abandoned || (s.store.bets[id].status.CashedOut? && InFlight(s.calls, id)))
  }

  ghost predicate AllOwedOk(s: State) {
    forall id :: id in s.store.bets ==> OwedOk(s, id)
  }

  lemma OthersStayInFlight(s: State, s': State, c: CallId, id: BetId)
    requires InFlight(s.calls, id) && c in s.calls && !(s.calls[c].InWindow() && s.calls[c].id == id)
    requires s'.calls - {c} == s.calls - {c}
    ensures InFlight(s'.calls, id)
  {
    var d :| d in s.calls && s.calls[d].InWindow() && s.calls[d].id == id;
    assert d in s.calls - {c} && (s.calls - {c})[d] == s.calls[d];
    assert d in s'.calls && s'.calls[d] == s.calls[d];
  }

  lemma ExecBookGrows(cfg: Config, st: Store, call: Call, ok: bool)
    ensures forall k :: Has(st.book, k) ==> Has(Exec(cfg, st, call, ok).0.book, k)
  {
    ExecPostsItsOp(cfg, st, call, ok);
    if MoneyOp(call).Some? {
      PostGrows(st.book, MoneyOp(call).value);
    }
  }

  lemma ExecLeavesOthersOwed(cfg: Config, st: Store, call: Call, ok: bool, id: BetId)
    requires id != call.id
    ensures var st' := Exec(cfg, st, call, ok).0;
      && (Unrefunded(st', id) ==> Unrefunded(st, id))
      && (Unpaid(st', id) ==> Unpaid(st, id) && st'.bets[id] == st.bets[id])
  {
    var st' := Exec(cfg, st, call, ok).0;
    ExecTouchesOwnBet(cfg, st, call, ok);
    ExecBookGrows(cfg, st, call, ok);
    assert id in st'.bets ==> id in st'.bets - {call.id} && (st'.bets - {call.id})[id] == st'.bets[id];
    assert id in st.bets ==> id in st.bets - {call.id} && (st.bets - {call.id})[id] == st.bets[id];
  }

  /** Closing a credit window either posts the credit, hands it on, or abandons the bet. */
  lemma WindowOwes(cfg: Config, st: Store, call: Call, ok: bool)
    requires CallOk(st, call) && call.InWindow()
    ensures var (st', after) := Exec(cfg, st, call, ok);
      after.Finish? ==> !Unrefunded(st', call.id) && !Unpaid(st', call.id)
  {
    if MoneyOp(call).Some? {
      PostGrows(st.book, MoneyOp(call).value);
    }
  }

  lemma WindowGoesOn(cfg: Config, st: Store, call: Call, ok: bool)
    requires CallOk(st, call) && call.InWindow()
    ensures var (st', after) := Exec(cfg, st, call, ok);
      && (after.Continue? ==> after.call.InWindow())
      && call.id in st'.bets && !IsVoid(st'.bets[call.id].status)
  {
  }

  /** The statement has claimed the bet and opens its credit window. */
  ghost predicate OpensWindow(cfg: Config, st: Store, call: Call, ok: bool) {
    var after := Exec(cfg, st, call, ok).1;
    after.Continue? && after.call.InWindow()
  }

  lemma NewlyCancelled(cfg: Config, st: Store, call: Call, ok: bool)
    requires CallOk(st, call) && !call.InWindow()
    ensures HasStatus(Exec(cfg, st, call, ok).0, call.id, Cancelled) ==>
      HasStatus(st, call.id, Cancelled) || OpensWindow(cfg, st, call, ok) || Has(st.book, RestartKey(call.id))
  {
  }

  /** Outside a window, a stake is newly owed only by a claim that opens its own window. */
  lemma ClaimOwesRefund(cfg: Config, st: Store, call: Call, ok: bool)
    requires CallOk(st, call) && !call.InWindow()
    ensures Unrefunded(Exec(cfg, st, call, ok).0, call.id) ==> Unrefunded(st, call.id) || OpensWindow(cfg, st, call, ok)
  {
    NewlyCancelled(cfg, st, call, ok);
    ExecBookGrows(cfg, st, call, ok);
  }

  /** A win, standing or voided, that is worth something. */
  predicate IsWin(st: Store, id: BetId) {
    id in st.bets && (st.bets[id].status.CashedOut? || IsVoid(st.bets[id].status)) && st.bets[id].payout > 0
  }

  lemma NewlyWon(cfg: Config, st: Store, call: Call, ok: bool)
    requires CallOk(st, call) && !call.InWindow() && (call.id in st.bets ==> RowFacts(st, call.id))
    ensures IsWin(Exec(cfg, st, call, ok).0, call.id) ==>
      || IsWin(st, call.id) || Has(st.book, PayoutKey(call.id))
      || (OpensWindow(cfg, st, call, ok) && HasStatus(Exec(cfg, st, call, ok).0, call.id, CashedOut))
  {
  }

  /** Outside a window, a win is newly owed only by a claim that opens its own window. */
  lemma ClaimOwesPayout(cfg: Config, st: Store, call: Call, ok: bool)
    requires CallOk(st, call) && !call.InWindow() && (call.id in st.bets ==> RowFacts(st, call.id))
    ensures var st' := Exec(cfg, st, call, ok).0;
      Unpaid(st', call.id) ==>
        Unpaid(st, call.id) || (OpensWindow(cfg, st, call, ok) && HasStatus(st', call.id, CashedOut))
  {
    NewlyWon(cfg, st, call, ok);
    ExecBookGrows(cfg, st, call, ok);
  }

  /** Only a void's claim turns a standing win into a voided one. */
  lemma OnlyClaimsVoid(cfg: Config, st: Store, call: Call, ok: bool)
    requires !call.VoidClaim? && !call.Unborn() && call.id in st.bets
    ensures var st' := Exec(cfg, st, call, ok).0;
      call.id in st'.bets && IsVoid(st'.bets[call.id].status) ==> IsVoid(st.bets[call.id].status)
  {
  }

  lemma AdvanceKeepsOthersOwed(cfg: Config, s: State, c: CallId, ok: bool, id: BetId)
    requires c in s.calls && Enabled(cfg, s, s.calls[c]) && id != s.calls[c].id && OwedOk(s, id)
    ensures OwedOk(Advance(cfg, s, c, ok), id)
  {
    var s' := Advance(cfg, s, c, ok);
    ExecLeavesOthersOwed(cfg, s.store, s.calls[c], ok, id);
    assert s'.calls - {c} == s.calls - {c};
    if InFlight(s.calls, id) {
      OthersStayInFlight(s, s', c, id);
    }
  }

  lemma WindowKeepsOwed(cfg: Config, s: State, c: CallId, ok: bool)
    requires Inv(cfg, s) && c in s.calls && s.calls[c].InWindow()
    ensures OwedOk(Advance(cfg, s, c, ok), s.calls[c].id)
  {
    var s' := Advance(cfg, s, c, ok);
    WindowOwes(cfg, s.store, s.calls[c], ok);
    WindowGoesOn(cfg, s.store, s.calls[c], ok);
    ExecContinues(cfg, s.store, s.calls[c], ok);
    if c in s'.calls {
      assert s'.calls[c].InWindow() && s'.calls[c].id == s.calls[c].id;
    }
  }

  /** A void never claims a bet whose credit is in flight. */
  lemma VoidFindsNoWindow(cfg: Config, s: State, c: CallId)
    requires Inv(cfg, s) && SafeTiming(cfg.timing) && c in s.calls && s.calls[c].VoidClaim?
    requires Enabled(cfg, s, s.calls[c])
    ensures !InFlight(s.calls, s.calls[c].id)
  {
    forall d | d in s.calls && s.calls[d].InWindow()
      ensures s.calls[d].id != s.calls[c].id
    {
      assert CallOk(s.store, s.calls[d]) && CallOk(s.store, s.calls[c]);
    }
  }

  lemma ClaimKeepsInFlight(cfg: Config, s: State, c: CallId, ok: bool)
    requires c in s.calls && !s.calls[c].InWindow() && Enabled(cfg, s, s.calls[c])
    ensures InFlight(s.calls, s.calls[c].id) ==> InFlight(Advance(cfg, s, c, ok).calls, s.calls[c].id)
    ensures var after := Exec(cfg, s.store, s.calls[c], ok).1;
      after.Continue? && after.call.InWindow() && after.call.id == s.calls[c].id ==>
        InFlight(Advance(cfg, s, c, ok).calls, s.calls[c].id)
  {
    var s' := Advance(cfg, s, c, ok);
    assert s'.calls - {c} == s.calls - {c};
    if InFlight(s.calls, s.calls[c].id) {
      OthersStayInFlight(s, s', c, s.calls[c].id);
    }
    assert c in s'.calls ==> Exec(cfg, s.store, s.calls[c], ok).1 == Continue(s'.calls[c]);
  }

  lemma ClaimKeepsOwed(cfg: Config, s: State, c: CallId, ok: bool)
    requires Inv(cfg, s) && SafeTiming(cfg.timing) && c in s.calls && !s.calls[c].InWindow()
    requires Enabled(cfg, s, s.calls[c]) && OwedOk(s, s.calls[c].id)
    ensures OwedOk(Advance(cfg, s, c, ok), s.calls[c].id)
  {
    var call := s.calls[c];
    if call.id in s.store.bets {
      RowFactsHold(cfg, s.store, call.id);
    }
    ClaimOwesRefund(cfg, s.store, call, ok);
    ClaimOwesPayout(cfg, s.store, call, ok);
    ExecContinues(cfg, s.store, call, ok);
    ClaimKeepsInFlight(cfg, s, c, ok);
    if call.VoidClaim? {
      VoidFindsNoWindow(cfg, s, c);
    } else if call.id in s.store.bets {
      assert !call.Unborn();
      OnlyClaimsVoid(cfg, s.store, call, ok);
    }
    AdvanceIsExec(cfg, s, c, ok);
  }

  lemma AdvanceIsExec(cfg: Config, s: State, c: CallId, ok: bool)
    requires c in s.calls && Enabled(cfg, s, s.calls[c])
    ensures Advance(cfg, s, c, ok).store == Exec(cfg, s.store, s.calls[c], ok).0
    ensures Advance(cfg, s, c, ok).abandoned >= s.abandoned
  {
  }

  lemma AdvanceKeepsOwed(cfg: Config, s: State, c: CallId, ok: bool)
    requires Inv(cfg, s) && SafeTiming(cfg.timing) && AllOwedOk(s) && c in s.calls
    ensures AllOwedOk(Advance(cfg, s, c, ok))
  {
    var s' := Advance(cfg, s, c, ok);
    if Enabled(cfg, s, s.calls[c]) {
      forall id | id in s'.store.bets
        ensures OwedOk(s', id)
      {
        if id != s.calls[c].id {
          ExecTouchesOwnBet(cfg, s.store, s.calls[c], ok);
          assert id in s'.store.bets - {s.calls[c].id};
          AdvanceKeepsOthersOwed(cfg, s, c, ok, id);
        } else if s.calls[c].InWindow() {
          WindowKeepsOwed(cfg, s, c, ok);
        } else {
          assert id in s.store.bets ==> OwedOk(s, id);
          ClaimKeepsOwed(cfg, s, c, ok);
        }
      }
    }
  }

  lemma NextKeepsOwed(cfg: Config, s: State, e: Event)
    requires Inv(cfg, s) && SafeTiming(cfg.timing) && AllOwedOk(s)
    ensures AllOwedOk(Next(cfg, s, e))
  {
    var s' := Next(cfg, s, e);
    if e.Step? {
      if e.call in s.calls {
        AdvanceKeepsOwed(cfg, s, e.call, e.ok);
      }
    } else {
      forall id | id in s'.store.bets
        ensures OwedOk(s', id)
      {
        assert OwedOk(s, id);
        QuietKeepsOwed(cfg, s, e, id);
      }
    }
  }

  lemma QuietKeepsOwed(cfg: Config, s: State, e: Event, id: BetId)
    requires !e.Step? && OwedOk(s, id)
    ensures OwedOk(Next(cfg, s, e), id)
  {
    var s' := Next(cfg, s, e);
    if InFlight(s.calls, id) {
      var d :| d in s.calls && s.calls[d].InWindow() && s.calls[d].id == id;
      assert d in s'.calls ==> s'.calls[d] == s.calls[d];
    }
  }

  lemma {:induction false} RunKeepsOwed(cfg: Config, opening: map<WalletId, nat>, events: seq<Event>)
    requires SafeTiming(cfg.timing)
    ensures AllOwedOk(Run(cfg, Init(opening), events))
  {
    if events != [] {
      var s := Run(cfg, Init(opening), events[..|events| - 1]);
      RunKeepsOwed(cfg, opening, events[..|events| - 1]);
      RunKeepsInv(cfg, opening, events[..|events| - 1]);
      NextKeepsOwed(cfg, s, events[|events| - 1]);
    }
  }

  // ----- the identities -----

  /** No call in flight, and no row in a transient status. */
  ghost predicate Quiescent(s: State) {
    && s.calls == map[]
    && forall id :: id in s.store.bets ==>
         var st := s.store.bets[id].status;
         !st.Reserving? && !st.Cancelling? && !st.Voiding? && !st.PayoutPending?
  }

  function StakeOf(bets: Bets): BetId -> int {
    (id: BetId) => if id in bets then Staked(bets[id]) else 0
  }

  function PaidWin(bets: Bets): BetId -> int {
    (id: BetId) => if id in bets && bets[id].status.CashedOut? then bets[id].payout else 0
  }

  function UnrefundedStake(st: Store): BetId -> int {
    (id: BetId) => if Unrefunded(st, id) then st.bets[id].amount else 0
  }

  function UnpaidWin(st: Store): BetId -> int {
    (id: BetId) => if Unpaid(st, id) then st.bets[id].payout else 0
  }

  /** The bets whose debit is in the journal; only their refunds offset a debit. */
  function Debited(rows: seq<Row>, ids: set<BetId>): set<BetId> {
    set id | id in ids && exists i :: 0 <= i < |rows| && rows[i].ref == Some(id) && rows[i].kind == BetDebit
  }

  function DebitsNetOfRefunds(st: Store): int {
    0 - Joined(st.book.rows, st.bets.Keys, BetDebit) - Joined(st.book.rows, Debited(st.book.rows, st.bets.Keys), Refund)
  }

  function PayoutCredits(st: Store): int {
    Joined(st.book.rows, st.bets.Keys, PayoutCredit)
  }

  ghost function HeldStakes(st: Store): int {
    Total(st.bets.Keys, StakeOf(st.bets))
  }

  ghost function PaidPayouts(st: Store): int {
    Total(st.bets.Keys, PaidWin(st.bets))
  }

  /** The audit's first identity: debits net of refunds are the stakes still held. */
  ghost predicate StakesConserved(st: Store) {
    DebitsNetOfRefunds(st) == HeldStakes(st)
  }

  /** The audit's second identity: payout credits are the payouts of cashed-out bets. */
  ghost predicate PayoutsConserved(st: Store) {
    PayoutCredits(st) == PaidPayouts(st)
  }

  /** The rows of one kind that a bet has are exactly those under the keys of that kind. */
  function KeysOfKind(id: BetId, slot: Slot, kind: Kind): seq<Key> {
    match kind
    case BetDebit => [DebitKey(slot)]
    case PayoutCredit => [PayoutKey(id), ReclaimKey(id)]
    case Refund => [RefundKey(id), RestartKey(id), VoidRefundKey(id)]
    case Adjustment => []
  }

  lemma KindOfKey(st: Store, id: BetId, k: Key, kind: Kind)
    requires RowsOk(st) && SlotsUnique(st.bets) && id in st.bets && Has(st.book, k)
    ensures Selected(Find(st.book.rows, k).value, id, Of(kind)) <==> k in KeysOfKind(id, st.bets[id].slot, kind)
  {
    assert RowOk(st, k, Find(st.book.rows, k).value);
  }

  lemma NetOfKind(opening: map<WalletId, nat>, cfg: Config, st: Store, id: BetId, kind: Kind)
    requires StoreOk(cfg, st) && Valid(opening, st.book) && id in st.bets
    ensures NetOf(st.book.rows, id, Of(kind)) == Amounts(st.book.rows, KeysOfKind(id, st.bets[id].slot, kind))
  {
    var rows, keys := st.book.rows, KeysOfKind(id, st.bets[id].slot, kind);
    forall i | 0 <= i < |rows|
      ensures Selected(rows[i], id, Of(kind)) <==> rows[i].key in keys
    {
      RowIsFound(rows, i);
      KindOfKey(st, id, rows[i].key, kind);
    }
    NetByKeys(rows, id, Of(kind), keys);
  }

  lemma NetsOfBet(opening: map<WalletId, nat>, cfg: Config, st: Store, id: BetId)
    requires StoreOk(cfg, st) && Valid(opening, st.book) && id in st.bets
    ensures var slot, rows := st.bets[id].slot, st.book.rows;
      && NetOf(rows, id, Of(BetDebit)) == Amount(rows, DebitKey(slot))
      && NetOf(rows, id, Of(PayoutCredit)) == Amount(rows, PayoutKey(id)) + Amount(rows, ReclaimKey(id))
      && NetOf(rows, id, Of(Refund)) ==
           Amount(rows, RefundKey(id)) + Amount(rows, RestartKey(id)) + Amount(rows, VoidRefundKey(id))
  {
    var slot, rows := st.bets[id].slot, st.book.rows;
    NetOfKind(opening, cfg, st, id, BetDebit);
    NetOfKind(opening, cfg, st, id, PayoutCredit);
    NetOfKind(opening, cfg, st, id, Refund);
    AmountsStep(rows, DebitKey(slot), []);
    AmountsStep(rows, PayoutKey(id), [ReclaimKey(id)]);
    AmountsStep(rows, ReclaimKey(id), []);
    AmountsStep(rows, RefundKey(id), [RestartKey(id), VoidRefundKey(id)]);
    AmountsStep(rows, RestartKey(id), [VoidRefundKey(id)]);
    AmountsStep(rows, VoidRefundKey(id), []);
  }

  predicate Settled(st: Status) {
    !st.Reserving? && !st.Cancelling? && !st.Voiding? && !st.PayoutPending?
  }

  /** A settled bet's stake is held unless the bet was cancelled or voided. */
  lemma HeldUnlessReturned(st: Store, id: BetId)
    requires id in st.bets && Settled(st.bets[id].status)
    ensures var b := st.bets[id];
      StakeOf(st.bets)(id) == if b.status.Cancelled? || b.status.Voided? then 0 else b.amount
  {
  }

  /** Debit conservation of one bet, with the stake that is still owed back. */
  lemma StakeBalances(opening: map<WalletId, nat>, cfg: Config, st: Store, id: BetId)
    requires StoreOk(cfg, st) && Valid(opening, st.book) && id in st.bets && Settled(st.bets[id].status)
    ensures var rows := st.book.rows;
      0 - NetOf(rows, id, Of(BetDebit)) == StakeOf(st.bets)(id) + UnrefundedStake(st)(id) + NetOf(rows, id, Of(Refund))
  {
    NetsOfBet(opening, cfg, st, id);
    AmountsOfBet(cfg, st, id);
    RefundsOfSettled(cfg, st, id);
    HeldUnlessReturned(st, id);
  }

  lemma RefundsOfSettled(cfg: Config, st: Store, id: BetId)
    requires StoreOk(cfg, st) && id in st.bets && Settled(st.bets[id].status)
    ensures var refunded, restarted, voided := Has(st.book, RefundKey(id)), Has(st.book, RestartKey(id)),
      Has(st.book, VoidRefundKey(id));
      && Has(st.book, DebitKey(st.bets[id].slot))
      && (refunded || restarted ==> st.bets[id].status.Cancelled?) && !(refunded && restarted)
      && (voided <==> st.bets[id].status.Voided?)
  {
    RowFactsHold(cfg, st, id);
    VoidedRows(cfg, st, id);
    assert BetOk(cfg, st, id);
  }

  /** Payout conservation of one bet, with the win that is still owed. */
  lemma WinBalances(opening: map<WalletId, nat>, cfg: Config, st: Store, id: BetId)
    requires StoreOk(cfg, st) && Valid(opening, st.book) && id in st.bets && Settled(st.bets[id].status)
    ensures PaidWin(st.bets)(id) == NetOf(st.book.rows, id, Of(PayoutCredit)) + UnpaidWin(st)(id)
  {
    NetsOfBet(opening, cfg, st, id);
    AmountsOfBet(cfg, st, id);
    VoidedRows(cfg, st, id);
    OneOutcomeHolds(cfg, st, id);
    RowFactsHold(cfg, st, id);
  }

  /** A bet without a debit row has no refund row either. */
  lemma RefundsArePaired(opening: map<WalletId, nat>, cfg: Config, st: Store, id: BetId)
    requires StoreOk(cfg, st) && Valid(opening, st.book) && id in st.bets - Debited(st.book.rows, st.bets.Keys)
    ensures NetOf(st.book.rows, id, Of(Refund)) == 0
  {
    var debit := DebitKey(st.bets[id].slot);
    if Has(st.book, debit) {
      KindOfKey(st, id, debit, BetDebit);
      assert false;
    }
    OneOutcomeHolds(cfg, st, id);
    NetsOfBet(opening, cfg, st, id);
  }

  /** What the audit compares, over all bets: the difference is exactly what is still owed. */
  lemma AuditTotals(opening: map<WalletId, nat>, cfg: Config, s: State)
    requires Inv(cfg, s) && Valid(opening, s.store.book) && Quiescent(s)
    ensures DebitsNetOfRefunds(s.store) == HeldStakes(s.store) + Total(s.store.bets.Keys, UnrefundedStake(s.store))
    ensures PaidPayouts(s.store) == PayoutCredits(s.store) + Total(s.store.bets.Keys, UnpaidWin(s.store))
  {
    var st, ids, rows := s.store, s.store.bets.Keys, s.store.book.rows;
    var held, owed := StakeOf(st.bets), UnrefundedStake(st);
    var refunds := NetFor(rows, Of(Refund));
    forall id | id in ids
      ensures 0 - NetOf(rows, id, Of(BetDebit)) == held(id) + owed(id) + refunds(id)
      ensures PaidWin(st.bets)(id) == NetFor(rows, Of(PayoutCredit))(id) + UnpaidWin(st)(id)
      ensures id !in Debited(rows, ids) ==> refunds(id) == 0
    {
      assert Settled(st.bets[id].status);
      StakeBalances(opening, cfg, st, id);
      WinBalances(opening, cfg, st, id);
      if id !in Debited(rows, ids) {
        RefundsArePaired(opening, cfg, st, id);
      }
    }
    SplitStakes(rows, ids, held, owed);
    JoinedByBet(rows, ids, PayoutCredit);
    TotalOfSum(ids, PaidWin(st.bets), NetFor(rows, Of(PayoutCredit)), UnpaidWin(st));
  }

  lemma SplitStakes(rows: seq<Row>, ids: set<BetId>, held: BetId -> int, owed: BetId -> int)
    requires forall id :: id in ids ==>
      0 - NetOf(rows, id, Of(BetDebit)) == held(id) + owed(id) + NetFor(rows, Of(Refund))(id)
    requires forall id :: id in ids && id !in Debited(rows, ids) ==> NetFor(rows, Of(Refund))(id) == 0
    ensures 0 - Joined(rows, ids, BetDebit) - Joined(rows, Debited(rows, ids), Refund) ==
      Total(ids, held) + Total(ids, owed)
  {
    var debits, refunds := NetFor(rows, Of(BetDebit)), NetFor(rows, Of(Refund));
    var kept: BetId -> int := (id: BetId) => held(id) + owed(id);
    var returned: BetId -> int := (id: BetId) => debits(id) + refunds(id);
    var nothing: BetId -> int := (id: BetId) => 0;
    JoinedByBet(rows, ids, BetDebit);
    JoinedByBet(rows, Debited(rows, ids), Refund);
    TotalOfSubset(ids, Debited(rows, ids), refunds);
    TotalOfSum(ids, kept, held, owed);
    TotalOfSum(ids, returned, debits, refunds);
    TotalOfSum(ids, nothing, kept, returned);
    TotalOfZeros(ids, nothing);
  }

  /**
   * In every reachable quiescent state, for any number of bets and wallets: debits net of
   * refunds equal the stakes still held if and only if no cancelled stake went unrefunded;
   * payout credits equal the payouts of cashed-out bets if and only if no win went uncredited;
   * and no busted bet has a payout.
   */
  lemma AuditIdentities(cfg: Config, opening: map<WalletId, nat>, events: seq<Event>)
    requires SafeTiming(cfg.timing) && Quiescent(Run(cfg, Init(opening), events))
    ensures var st := Run(cfg, Init(opening), events).store;
      && (StakesConserved(st) <==> NothingUnrefunded(st))
      && (PayoutsConserved(st) <==> NothingUnpaid(st))
      && (forall id :: id in st.bets && st.bets[id].status.Busted? ==> !Has(st.book, PayoutKey(id)))
  {
    var s := Run(cfg, Init(opening), events);
    RunKeepsInv(cfg, opening, events);
    RunKeepsJournal(cfg, opening, events);
    AuditOf(opening, cfg, s);
  }

  lemma AuditOf(opening: map<WalletId, nat>, cfg: Config, s: State)
    requires Inv(cfg, s) && Valid(opening, s.store.book) && Quiescent(s)
    ensures StakesConserved(s.store) <==> NothingUnrefunded(s.store)
    ensures PayoutsConserved(s.store) <==> NothingUnpaid(s.store)
    ensures forall id :: id in s.store.bets && s.store.bets[id].status.Busted? ==> !Has(s.store.book, PayoutKey(id))
  {
    BustedAreUnpaid(cfg, s.store);
    AuditTotals(opening, cfg, s);
    OwedTotals(cfg, s.store);
    IdentitiesOf(s.store, NothingUnrefunded(s.store), NothingUnpaid(s.store));
  }

  ghost predicate NothingUnrefunded(st: Store) {
    forall id :: id in st.bets ==> !Unrefunded(st, id)
  }

  ghost predicate NothingUnpaid(st: Store) {
    forall id :: id in st.bets ==> !Unpaid(st, id)
  }

  lemma IdentitiesOf(st: Store, refunded: bool, paid: bool)
    requires DebitsNetOfRefunds(st) == HeldStakes(st) + Total(st.bets.Keys, UnrefundedStake(st))
    requires PaidPayouts(st) == PayoutCredits(st) + Total(st.bets.Keys, UnpaidWin(st))
    requires Total(st.bets.Keys, UnrefundedStake(st)) == 0 <==> refunded
    requires Total(st.bets.Keys, UnpaidWin(st)) == 0 <==> paid
    ensures (StakesConserved(st) <==> refunded) && (PayoutsConserved(st) <==> paid)
  {
  }

  lemma BustedAreUnpaid(cfg: Config, st: Store)
    requires StoreOk(cfg, st)
    ensures forall id :: id in st.bets && st.bets[id].status.Busted? ==> !Has(st.book, PayoutKey(id))
  {
    forall id | id in st.bets
      ensures st.bets[id].status.Busted? ==> !Has(st.book, PayoutKey(id))
    {
      RowFactsHold(cfg, st, id);
    }
  }

  /** A total of what is owed is zero only if nothing is owed. */
  lemma OwedTotals(cfg: Config, st: Store)
    requires StoreOk(cfg, st)
    ensures Total(st.bets.Keys, UnrefundedStake(st)) == 0 <==> NothingUnrefunded(st)
    ensures Total(st.bets.Keys, UnpaidWin(st)) == 0 <==> NothingUnpaid(st)
  {
    var ids := st.bets.Keys;
    TotalOfNonNegatives(ids, UnrefundedStake(st));
    TotalOfNonNegatives(ids, UnpaidWin(st));
    forall id | id in ids
      ensures UnrefundedStake(st)(id) == 0 <==> !Unrefunded(st, id)
      ensures UnpaidWin(st)(id) == 0 <==> !Unpaid(st, id)
    {
      DebitedStakeIsPositive(cfg, st, id);
    }
  }

  lemma DebitedStakeIsPositive(cfg: Config, st: Store, id: BetId)
    requires StoreOk(cfg, st) && id in st.bets
    ensures st.bets[id].status.Cancelled? ==> st.bets[id].amount > 0
  {
    assert BetOk(cfg, st, id);
    assert Has(st.book, DebitKey(st.bets[id].slot)) ==>
      RowOk(st, DebitKey(st.bets[id].slot), Find(st.book.rows, DebitKey(st.bets[id].slot)).value);
    if Has(st.book, DebitKey(st.bets[id].slot)) {
      KeyOwner(st, id, DebitKey(st.bets[id].slot));
    }
  }

  /** If no claimant died or failed inside its credit window, both identities hold. */
  lemma AuditOfUnabandonedRun(cfg: Config, opening: map<WalletId, nat>, events: seq<Event>)
    requires SafeTiming(cfg.timing)
    requires Quiescent(Run(cfg, Init(opening), events)) && Run(cfg, Init(opening), events).abandoned == {}
    ensures StakesConserved(Run(cfg, Init(opening), events).store)
      && PayoutsConserved(Run(cfg, Init(opening), events).store)
  {
    var s := Run(cfg, Init(opening), events);
    RunKeepsOwed(cfg, opening, events);
    AuditIdentities(cfg, opening, events);
    forall id | id in s.store.bets
      ensures !Unrefunded(s.store, id) && !Unpaid(s.store, id)
    {
      assert OwedOk(s, id);
    }
  }
}
