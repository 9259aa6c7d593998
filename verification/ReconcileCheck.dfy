/** The reconciliation script, and what its verdict means for the runs of the protocol. */
module ReconcileCheck {
  import opened Domain
  import opened Ledger
  import opened Totals
  import opened BetSums
  import opened BetProtocol
  import opened BetMoney
  import opened BetResults
  import opened BetAudit

  datatype CheckName =
    | DebitConservation | PayoutConservation | LedgerBalance | PayoutLinkage
    | BustedPurity | BacklogDrained | RollbacksDrained

  datatype Check = Check(name: CheckName, ok: bool)

  // ----- what each check is about -----

  /** The newest row of a wallet. */
  function LastRow(rows: seq<Row>, w: WalletId): (r: Option<Row>)
    ensures r.Some? ==> r.value in rows && r.value.wallet == w
  {
    if rows == [] then None
    else if rows[|rows| - 1].wallet == w then Some(rows[|rows| - 1])
    else LastRow(rows[..|rows| - 1], w)
  }

  predicate BalanceMatches(book: Book, w: WalletId) {
    LastRow(book.rows, w).Some? && w in book.balances ==> LastRow(book.rows, w).value.balanceAfter == book.balances[w]
  }

  ghost predicate BalancesMatch(book: Book) {
    forall w :: w in book.balances ==> BalanceMatches(book, w)
  }

  function PayoutKeys(rows: seq<Row>): set<Key> {
    set i | 0 <= i < |rows| && rows[i].kind == PayoutCredit :: rows[i].key
  }

  predicate MissesItsPayout(st: Store, id: BetId) {
    HasStatus(st, id, CashedOut) && st.bets[id].payout > 0 && PayoutKey(id) !in PayoutKeys(st.book.rows)
  }

  predicate PaidAlthoughBusted(st: Store, id: BetId) {
    HasStatus(st, id, Busted) && PayoutKey(id) in PayoutKeys(st.book.rows)
  }

  predicate InBacklog(st: Store, id: BetId) {
    id in st.bets && !Settled(st.bets[id].status)
  }

  ghost predicate Nobody(st: Store, bad: (Store, BetId) -> bool) {
    forall id :: id in st.bets ==> !bad(st, id)
  }

  ghost predicate Reconciled(st: Store, pendingRollbacks: nat) {
    && StakesConserved(st) && PayoutsConserved(st) && BalancesMatch(st.book)
    && Nobody(st, MissesItsPayout) && Nobody(st, PaidAlthoughBusted) && Nobody(st, InBacklog)
    && pendingRollbacks == 0
  }

  // ----- the script -----

  method SumStakes(bets: Bets) returns (held: int, paid: int)
    ensures held == Total(bets.Keys, StakeOf(bets)) && paid == Total(bets.Keys, PaidWin(bets))
  {
    held, paid := 0, 0;
    var left := bets.Keys;
    while left != {}
      invariant left <= bets.Keys
      invariant held + Total(left, StakeOf(bets)) == Total(bets.Keys, StakeOf(bets))
      invariant paid + Total(left, PaidWin(bets)) == Total(bets.Keys, PaidWin(bets))
      decreases |left|
    {
      var id :| id in left;
      TotalRemove(left, StakeOf(bets), id);
      TotalRemove(left, PaidWin(bets), id);
      held := held + StakeOf(bets)(id);
      paid := paid + PaidWin(bets)(id);
      left := left - {id};
    }
  }

  method FindBad(st: Store, bad: (Store, BetId) -> bool) returns (found: seq<BetId>)
    ensures forall id :: id in found <==> id in st.bets && bad(st, id)
  {
    found := [];
    var left := st.bets.Keys;
    while left != {}
      invariant left <= st.bets.Keys
      invariant forall id :: id in found <==> id in st.bets.Keys - left && bad(st, id)
      decreases |left|
    {
      var id :| id in left;
      if bad(st, id) { found := found + [id]; }
      left := left - {id};
    }
  }

  method BalanceMismatches(book: Book) returns (found: seq<WalletId>)
    ensures forall w :: w in found <==> w in book.balances && !BalanceMatches(book, w)
  {
    found := [];
    var left := book.balances.Keys;
    while left != {}
      invariant left <= book.balances.Keys
      invariant forall w :: w in found <==> w in book.balances.Keys - left && !BalanceMatches(book, w)
      decreases |left|
    {
      var w :| w in left;
      if !BalanceMatches(book, w) { found := found + [w]; }
      left := left - {w};
    }
  }

  /** No later row belongs to the same wallet. */
  predicate IsLatest(rows: seq<Row>, i: nat)
    requires i < |rows|
  {
    forall j :: i < j < |rows| ==> rows[j].wallet != rows[i].wallet
  }

  /** The journal has a payout credit under the bet's key. */
  predicate IsCredited(book: Book, id: BetId) {
    exists i :: 0 <= i < |book.rows| && book.rows[i].kind == PayoutCredit && book.rows[i].key == PayoutKey(id)
  }

  lemma NobodyExplicit(st: Store)
    ensures Nobody(st, MissesItsPayout) <==>
      forall id :: id in st.bets && st.bets[id].status.CashedOut? && st.bets[id].payout > 0 ==> IsCredited(st.book, id)
    ensures Nobody(st, PaidAlthoughBusted) <==>
      forall id :: id in st.bets && st.bets[id].status.Busted? ==> !IsCredited(st.book, id)
    ensures Nobody(st, InBacklog) <==>
      forall id :: id in st.bets ==> st.bets[id].status !in {Reserving, Cancelling, PayoutPending, Voiding}
  {
    assert forall id :: PayoutKey(id) in PayoutKeys(st.book.rows) <==> IsCredited(st.book, id);
  }

  lemma {:induction false} LastRowIsLatest(rows: seq<Row>, i: nat)
    requires i < |rows| && IsLatest(rows, i)
    ensures LastRow(rows, rows[i].wallet) == Some(rows[i])
  {
    if i < |rows| - 1 {
      LastRowIsLatest(rows[..|rows| - 1], i);
    }
  }

  lemma {:induction false} LatestExists(rows: seq<Row>, w: WalletId) returns (i: nat)
    requires LastRow(rows, w).Some?
    ensures i < |rows| && rows[i].wallet == w && IsLatest(rows, i)
  {
    if rows[|rows| - 1].wallet == w {
      i := |rows| - 1;
    } else {
      i := LatestExists(rows[..|rows| - 1], w);
    }
  }

  lemma LatestIsLast(book: Book)
    ensures BalancesMatch(book) <==>
      forall i :: 0 <= i < |book.rows| && IsLatest(book.rows, i) && book.rows[i].wallet in book.balances ==>
        book.rows[i].balanceAfter == book.balances[book.rows[i].wallet]
  {
    forall i | 0 <= i < |book.rows| && IsLatest(book.rows, i) && book.rows[i].wallet in book.balances
      ensures BalanceMatches(book, book.rows[i].wallet) <==>
        book.rows[i].balanceAfter == book.balances[book.rows[i].wallet]
    {
      LastRowIsLatest(book.rows, i);
    }
    forall w | w in book.balances && LastRow(book.rows, w).Some?
      ensures exists i :: 0 <= i < |book.rows| && IsLatest(book.rows, i) && book.rows[i].wallet == w
    {
      var i := LatestExists(book.rows, w);
    }
  }

  /** Each check is appended in turn. */
  method RunChecks(st: Store, pendingRollbacks: nat) returns (checks: seq<Check>)
    ensures |checks| == 7
    ensures checks[0] == Check(DebitConservation, DebitsNetOfRefunds(st) == Total(st.bets.Keys, StakeOf(st.bets)))
    ensures checks[1] == Check(PayoutConservation, PayoutCredits(st) == Total(st.bets.Keys, PaidWin(st.bets)))
    ensures checks[2].name == LedgerBalance && (checks[2].ok <==>
      forall i :: 0 <= i < |st.book.rows| && IsLatest(st.book.rows, i) && st.book.rows[i].wallet in st.book.balances ==>
        st.book.rows[i].balanceAfter == st.book.balances[st.book.rows[i].wallet])
    ensures checks[3].name == PayoutLinkage && (checks[3].ok <==>
      forall id :: id in st.bets && st.bets[id].status.CashedOut? && st.bets[id].payout > 0 ==> IsCredited(st.book, id))
    ensures checks[4].name == BustedPurity && (checks[4].ok <==>
      forall id :: id in st.bets && st.bets[id].status.Busted? ==> !IsCredited(st.book, id))
    ensures checks[5].name == BacklogDrained && (checks[5].ok <==>
      forall id :: id in st.bets ==> st.bets[id].status !in {Reserving, Cancelling, PayoutPending, Voiding})
    ensures checks[6] == Check(RollbacksDrained, pendingRollbacks == 0)
    ensures Reconciled(st, pendingRollbacks) <==>
      checks[0].ok && checks[1].ok && checks[2].ok && checks[3].ok && checks[4].ok && checks[5].ok && checks[6].ok
  {
    var held, paid := SumStakes(st.bets);
    var debitsKept := DebitsNetOfRefunds(st);
    checks := [Check(DebitConservation, debitsKept == held)];
    checks := checks + [Check(PayoutConservation, PayoutCredits(st) == paid)];
    var balMismatches := BalanceMismatches(st.book);
    checks := checks + [Check(LedgerBalance, |balMismatches| == 0)];
    var missingLedger := FindBad(st, MissesItsPayout);
    checks := checks + [Check(PayoutLinkage, |missingLedger| == 0)];
    var paidBusted := FindBad(st, PaidAlthoughBusted);
    checks := checks + [Check(BustedPurity, |paidBusted| == 0)];
    var backlog := FindBad(st, InBacklog);
    checks := checks + [Check(BacklogDrained, |backlog| == 0)];
    checks := checks + [Check(RollbacksDrained, pendingRollbacks == 0)];
    NobodyExplicit(st);
    LatestIsLast(st.book);
    EmptyMeansNobody(st, MissesItsPayout, missingLedger);
    EmptyMeansNobody(st, PaidAlthoughBusted, paidBusted);
    EmptyMeansNobody(st, InBacklog, backlog);
    assert |balMismatches| == 0 <==> BalancesMatch(st.book) by {
      if |balMismatches| != 0 { assert balMismatches[0] in balMismatches; }
    }
  }

  /** The verdict: every check passed. */
  method Reconcile(st: Store, pendingRollbacks: nat) returns (checks: seq<Check>, allOk: bool)
    ensures allOk <==> Reconciled(st, pendingRollbacks)
    ensures allOk <==> forall i :: 0 <= i < |checks| ==> checks[i].ok
  {
    checks := RunChecks(st, pendingRollbacks);
    allOk := EveryOk(checks);
  }

  method EveryOk(checks: seq<Check>) returns (allOk: bool)
    ensures allOk <==> forall i :: 0 <= i < |checks| ==> checks[i].ok
  {
    allOk := true;
    for i := 0 to |checks|
      invariant allOk <==> forall j :: 0 <= j < i ==> checks[j].ok
    {
      allOk := allOk && checks[i].ok;
    }
  }

  lemma EmptyMeansNobody(st: Store, bad: (Store, BetId) -> bool, found: seq<BetId>)
    requires forall id :: id in found <==> id in st.bets && bad(st, id)
    ensures |found| == 0 <==> Nobody(st, bad)
  {
    if |found| != 0 {
      assert found[0] in found;
    }
  }

  // ----- the verdict on a run -----

  lemma {:induction false} LastRowHoldsBalance(rows: seq<Row>, w: WalletId, opening: map<WalletId, nat>)
    requires RunningSums(opening, rows) && LastRow(rows, w).Some?
    ensures w in opening && LastRow(rows, w).value.balanceAfter == opening[w] + WalletSum(rows, w)
  {
    var init := rows[..|rows| - 1];
    if rows[|rows| - 1].wallet == w {
      assert rows[..|rows|] == rows;
    } else {
      forall i | 0 <= i < |init|
        ensures init[i].balanceAfter == opening[init[i].wallet] + WalletSum(init[..i + 1], init[i].wallet)
      {
        assert init[..i + 1] == rows[..i + 1];
        assert rows[i] == init[i];
      }
      LastRowHoldsBalance(init, w, opening);
    }
  }

  lemma JournalMatchesBalances(opening: map<WalletId, nat>, book: Book)
    requires Valid(opening, book)
    ensures BalancesMatch(book)
  {
    forall w | w in book.balances && LastRow(book.rows, w).Some?
      ensures LastRow(book.rows, w).value.balanceAfter == book.balances[w]
    {
      LastRowHoldsBalance(book.rows, w, opening);
    }
  }

  lemma PayoutKeyIsFound(cfg: Config, opening: map<WalletId, nat>, st: Store, id: BetId)
    requires StoreOk(cfg, st) && Valid(opening, st.book)
    ensures PayoutKey(id) in PayoutKeys(st.book.rows) <==> Has(st.book, PayoutKey(id))
  {
    var k := PayoutKey(id);
    if Has(st.book, k) {
      assert RowOk(st, k, Find(st.book.rows, k).value);
    }
  }

  /**
   * In every quiescent state of every run, with no rollback outstanding, the script reports
   * a discrepancy exactly when some claimant died or failed between its claim and its credit:
   * a cancelled stake was not refunded, or a win was not credited.
   */
  lemma VerdictOfRun(cfg: Config, opening: map<WalletId, nat>, events: seq<Event>)
    requires SafeTiming(cfg.timing) && Quiescent(Run(cfg, Init(opening), events))
    ensures var st := Run(cfg, Init(opening), events).store;
      Reconciled(st, 0) <==> forall id :: id in st.bets ==> !Unrefunded(st, id) && !Unpaid(st, id)
  {
    var s := Run(cfg, Init(opening), events);
    RunKeepsInv(cfg, opening, events);
    RunKeepsJournal(cfg, opening, events);
    AuditOf(opening, cfg, s);
    JournalMatchesBalances(opening, s.store.book);
    LinkageOf(cfg, opening, s);
  }

  lemma LinkageOf(cfg: Config, opening: map<WalletId, nat>, s: State)
    requires StoreOk(cfg, s.store) && Valid(opening, s.store.book) && Quiescent(s)
    ensures Nobody(s.store, PaidAlthoughBusted) && Nobody(s.store, InBacklog)
    ensures (forall id :: id in s.store.bets ==> !Unpaid(s.store, id)) ==> Nobody(s.store, MissesItsPayout)
  {
    BustedAreUnpaid(cfg, s.store);
    forall id | id in s.store.bets
      ensures PayoutKey(id) in PayoutKeys(s.store.book.rows) <==> Has(s.store.book, PayoutKey(id))
    {
      PayoutKeyIsFound(cfg, opening, s.store, id);
    }
  }
}
