/** The responsible-gambling totals, read off bet rows, measured against the money in the ledger. */
module SessionAudit {
  import opened Domain
  import opened Ledger
  import opened RowSums
  import opened Totals
  import opened BetSums
  import opened BetProtocol
  import opened BetMoney
  import opened BetResults
  import opened BetAudit
  import opened BetLimits

  /** Of the bets of one wallet only. */
  function Its(bets: Bets, w: WalletId, f: BetId -> int): BetId -> int {
    (id: BetId) => if id in bets && bets[id].wallet == w then f(id) else 0
  }

  /** What the session total counts a bet as lost. */
  function LossOf(bets: Bets): BetId -> int {
    (id: BetId) => if id in bets then Staked(bets[id]) - PaidOrOwedFor(bets[id]) else 0
  }

  /** What a bet's claimants failed to return: a cancelled stake, or a win. */
  function StillOwed(st: Store): BetId -> int {
    (id: BetId) => UnrefundedStake(st)(id) + UnpaidWin(st)(id)
  }

  lemma {:induction false} SumIsTotal(all: Bets, bets: Bets, w: WalletId)
    requires forall id :: id in bets ==> id in all && all[id] == bets[id]
    ensures Sum(bets, Net(w)) == Total(bets.Keys, Its(all, w, LossOf(all)))
    decreases |bets|
  {
    if bets != map[] {
      var id :| id in bets;
      SumRemove(bets, Net(w), id);
      TotalRemove(bets.Keys, Its(all, w, LossOf(all)), id);
      SumIsTotal(all, bets - {id}, w);
      assert (bets - {id}).Keys == bets.Keys - {id};
      LossIsWeight(all, w, id);
    }
  }

  lemma LossIsWeight(bets: Bets, w: WalletId, id: BetId)
    requires id in bets
    ensures Its(bets, w, LossOf(bets))(id) == Weight(Net(w), bets[id])
  {
    assert LossOf(bets)(id) == Staked(bets[id]) - PaidOrOwedFor(bets[id]);
  }

  predicate RowsHaveBets(rows: seq<Row>, bets: Bets) {
    forall i :: 0 <= i < |rows| ==>
      rows[i].ref.Some? && rows[i].ref.value in bets && bets[rows[i].ref.value].wallet == rows[i].wallet
  }

  /** The rows of a wallet are the rows of its bets. */
  lemma {:induction false} WalletByBet(rows: seq<Row>, bets: Bets, w: WalletId)
    requires RowsHaveBets(rows, bets)
    ensures WalletSum(rows, w) == Total(bets.Keys, Its(bets, w, NetFor(rows, All)))
  {
    if rows == [] {
      TotalOfZeros(bets.Keys, Its(bets, w, NetFor(rows, All)));
    } else {
      var init, last := rows[..|rows| - 1], rows[|rows| - 1];
      WalletByBet(init, bets, w);
      TotalUpdate(bets.Keys, Its(bets, w, NetFor(rows, All)), Its(bets, w, NetFor(init, All)), last.ref.value);
    }
  }

  /** The rows of a settled bet take what it has lost, and what is still owed for it. */
  lemma BetLoss(opening: map<WalletId, nat>, cfg: Config, st: Store, id: BetId)
    requires StoreOk(cfg, st) && Valid(opening, st.book) && id in st.bets && Settled(st.bets[id].status)
    ensures NetOf(st.book.rows, id, All) + LossOf(st.bets)(id) + StillOwed(st)(id) == 0
  {
    StakeBalances(opening, cfg, st, id);
    WinBalances(opening, cfg, st, id);
    NetOfBet(opening, cfg, st, id);
    SixAmounts(st.book.rows, id, st.bets[id].slot);
    NetsOfBet(opening, cfg, st, id);
  }

  lemma WalletLoss(opening: map<WalletId, nat>, cfg: Config, s: State, w: WalletId)
    requires Inv(cfg, s) && Valid(opening, s.store.book) && Quiescent(s) && w in opening
    requires RowsHaveBets(s.store.book.rows, s.store.bets)
    ensures var st := s.store;
      opening[w] - st.book.balances[w] == Sum(st.bets, Net(w)) + Total(st.bets.Keys, Its(st.bets, w, StillOwed(st)))
  {
    var st, ids := s.store, s.store.bets.Keys;
    var rows, lost, owed := Its(st.bets, w, NetFor(st.book.rows, All)), Its(st.bets, w, LossOf(st.bets)),
      Its(st.bets, w, StillOwed(st));
    var taken: BetId -> int := (id: BetId) => lost(id) + owed(id);
    var nothing: BetId -> int := (id: BetId) => 0;
    forall id | id in ids
      ensures rows(id) + taken(id) == 0
    {
      assert Settled(st.bets[id].status);
      BetLoss(opening, cfg, st, id);
    }
    SumIsTotal(st.bets, st.bets, w);
    WalletByBet(st.book.rows, st.bets, w);
    TotalOfSum(ids, taken, lost, owed);
    TotalOfSum(ids, nothing, rows, taken);
    TotalOfZeros(ids, nothing);
  }

  /**
   * In every reachable quiescent state the session total of a wallet's net loss is the money
   * its bets have really taken from it, less what claimants that died or failed still owe it;
   * and nothing is owed only if every cancelled stake was refunded and every win credited.
   */
  lemma SessionLossIsLedgerLoss(cfg: Config, opening: map<WalletId, nat>, events: seq<Event>, w: WalletId)
    requires SafeTiming(cfg.timing) && Quiescent(Run(cfg, Init(opening), events)) && w in opening
    ensures var st := Run(cfg, Init(opening), events).store;
      var owed := Total(st.bets.Keys, Its(st.bets, w, StillOwed(st)));
      && w in st.book.balances && owed >= 0
      && opening[w] - st.book.balances[w] == Sum(st.bets, Net(w)) + owed
      && (owed == 0 <==>
            forall id :: id in st.bets && st.bets[id].wallet == w ==> !Unrefunded(st, id) && !Unpaid(st, id))
  {
    var s := Run(cfg, Init(opening), events);
    RunKeepsInv(cfg, opening, events);
    RunKeepsJournal(cfg, opening, events);
    forall i | 0 <= i < |s.store.book.rows|
      ensures RowsHaveBets([s.store.book.rows[i]], s.store.bets)
    {
      EveryRowHasItsBet(cfg, opening, events, i);
    }
    assert forall i :: 0 <= i < |s.store.book.rows| ==> [s.store.book.rows[i]][0] == s.store.book.rows[i];
    WalletLoss(opening, cfg, s, w);
    OwedIsZero(cfg, s.store, w);
  }

  lemma OwedOf(cfg: Config, st: Store, id: BetId)
    requires StoreOk(cfg, st) && id in st.bets
    ensures StillOwed(st)(id) >= 0
    ensures StillOwed(st)(id) == 0 <==> !Unrefunded(st, id) && !Unpaid(st, id)
  {
    DebitedStakeIsPositive(cfg, st, id);
    assert UnrefundedStake(st)(id) == if Unrefunded(st, id) then st.bets[id].amount else 0;
    assert UnpaidWin(st)(id) == if Unpaid(st, id) then st.bets[id].payout else 0;
    assert StillOwed(st)(id) == UnrefundedStake(st)(id) + UnpaidWin(st)(id);
  }

  lemma OwedIsZero(cfg: Config, st: Store, w: WalletId)
    requires StoreOk(cfg, st)
    ensures var owed := Total(st.bets.Keys, Its(st.bets, w, StillOwed(st)));
      && owed >= 0
      && (owed == 0 <==>
            forall id :: id in st.bets && st.bets[id].wallet == w ==> !Unrefunded(st, id) && !Unpaid(st, id))
  {
    var owed := Its(st.bets, w, StillOwed(st));
    forall id | id in st.bets
      ensures owed(id) >= 0
      ensures owed(id) == 0 <==> (st.bets[id].wallet == w ==> !Unrefunded(st, id) && !Unpaid(st, id))
    {
      OwedOf(cfg, st, id);
    }
    TotalOfNonNegatives(st.bets.Keys, owed);
  }

  /** So the loss cap bounds real money: no run takes more from a wallet than its cap and what
      failed claimants still owe it. */
  lemma LedgerLossIsCapped(cfg: Config, opening: map<WalletId, nat>, events: seq<Event>, w: WalletId)
    requires SafeTiming(cfg.timing) && cfg.timing.oneRound && cfg.timing.noVoids
    requires Quiescent(Run(cfg, Init(opening), events)) && w in opening
    requires w in cfg.caps && cfg.caps[w].maxLoss.Some?
    ensures var st := Run(cfg, Init(opening), events).store;
      && w in st.book.balances
      && opening[w] - st.book.balances[w] <=
           cfg.caps[w].maxLoss.value + Total(st.bets.Keys, Its(st.bets, w, StillOwed(st)))
    ensures Run(cfg, Init(opening), events).abandoned == {} ==>
      opening[w] - Run(cfg, Init(opening), events).store.book.balances[w] <= cfg.caps[w].maxLoss.value
  {
    var s := Run(cfg, Init(opening), events);
    SessionLossIsLedgerLoss(cfg, opening, events, w);
    LossCapIsHard(cfg, opening, events, w);
    ReservedIsNotNegative(s.store.bets, w);
    if s.abandoned == {} {
      RunKeepsOwed(cfg, opening, events);
      forall id | id in s.store.bets
        ensures !Unrefunded(s.store, id) && !Unpaid(s.store, id)
      {
        assert OwedOk(s, id);
      }
    }
  }

  lemma {:induction false} ReservedIsNotNegative(bets: Bets, w: WalletId)
    ensures Sum(bets, Reserved(w)) >= 0
    decreases |bets|
  {
    if bets != map[] {
      var id :| id in bets;
      SumRemove(bets, Reserved(w), id);
      ReservedIsNotNegative(bets - {id}, w);
    }
  }
}
