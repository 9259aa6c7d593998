/** Wins below the crash point, in every run, whatever the timing. */
module BetWins {
  import opened Domain
  import opened Money
  import opened BetSums
  import opened BetProtocol
  import opened BetMoney
  import opened BetRows

  /** The row was claimed strictly below its round's crash point, for exactly what that pays. */
  predicate ClaimedFairly(cfg: Config, rounds: map<RoundId, RoundRow>, b: Bet) {
    b.slot.round in rounds && b.mult < rounds[b.slot.round].crash && b.payout == PayoutAt(cfg.limits, b, b.mult)
  }

  ghost predicate WinsFair(cfg: Config, st: Store) {
    forall id :: id in st.bets && IsWon(st.bets[id].status) ==> ClaimedFairly(cfg, st.rounds, st.bets[id])
  }

  /** A cash-out has passed the gate; once it has claimed, its row is claimed fairly whatever its status. */
  predicate CashesFairly(cfg: Config, st: Store, call: Call) {
    && (call.CashClaim? ==> call.b.slot.round in st.rounds && call.mult < st.rounds[call.b.slot.round].crash)
    && (Cashing(call) && call.id in st.bets ==> ClaimedFairly(cfg, st.rounds, st.bets[call.id]))
  }

  ghost predicate WinInv(cfg: Config, s: State) {
    WinsFair(cfg, s.store) && forall c :: c in s.calls ==> CashesFairly(cfg, s.store, s.calls[c])
  }

  /** The row a statement leaves: a win by a fair claim or as it was, and no fair claim is spoilt. */
  predicate RowFair(cfg: Config, rounds: map<RoundId, RoundRow>, id: BetId, before: Bets, after: Bets) {
    id in after ==>
      && (IsWon(after[id].status) ==>
            || ClaimedFairly(cfg, rounds, after[id])
            || (id in before && IsWon(before[id].status) && after[id] == before[id].(status := after[id].status)))
      && (id in before && ClaimedFairly(cfg, rounds, before[id]) ==> ClaimedFairly(cfg, rounds, after[id]))
  }

  lemma ExecKeepsRowFair(cfg: Config, st: Store, call: Call, ok: bool)
    requires Tame(cfg.timing, st, call) && CashesFairly(cfg, st, call)
    ensures RowFair(cfg, st.rounds, call.id, st.bets, Exec(cfg, st, call, ok).0.bets)
  {
    if call.CashClaim? {
      ClaimIsFair(cfg, st, call, ok);
    } else if MoneyOp(call).Some? {
      MoneyMoves(cfg, st, call, ok);
    } else if call.Unborn() {
      NoWinIsMade(cfg, st, call, ok);
    } else {
      WriteKeepsRowFair(cfg, st, call, ok);
    }
  }

  lemma ClaimIsFair(cfg: Config, st: Store, call: Call, ok: bool)
    requires Tame(cfg.timing, st, call) && CashesFairly(cfg, st, call) && call.CashClaim?
    ensures RowFair(cfg, st.rounds, call.id, st.bets, Exec(cfg, st, call, ok).0.bets)
  {
  }

  lemma NoWinIsMade(cfg: Config, st: Store, call: Call, ok: bool)
    requires Tame(cfg.timing, st, call) && call.Unborn()
    ensures RowFair(cfg, st.rounds, call.id, st.bets, Exec(cfg, st, call, ok).0.bets)
  {
  }

  lemma WriteKeepsRowFair(cfg: Config, st: Store, call: Call, ok: bool)
    requires Tame(cfg.timing, st, call) && CashesFairly(cfg, st, call)
    requires !call.CashClaim? && !call.Unborn() && MoneyOp(call).None?
    ensures RowFair(cfg, st.rounds, call.id, st.bets, Exec(cfg, st, call, ok).0.bets)
  {
  }

  lemma ExecContinuesFair(cfg: Config, st: Store, call: Call, ok: bool)
    requires Tame(cfg.timing, st, call) && CashesFairly(cfg, st, call)
    ensures var (st', after) := Exec(cfg, st, call, ok);
      after.Continue? ==> CashesFairly(cfg, st', after.call)
  {
  }

  lemma AdvanceKeepsWins(cfg: Config, s: State, c: CallId, ok: bool)
    requires AllTame(cfg.timing, s.store, s.calls) && WinInv(cfg, s) && c in s.calls
    ensures WinInv(cfg, Advance(cfg, s, c, ok))
  {
    var call := s.calls[c];
    if Enabled(cfg, s, call) {
      var st' := Exec(cfg, s.store, call, ok).0;
      ExecKeepsIds(cfg, s.store, call, ok);
      ExecTouchesOwnBet(cfg, s.store, call, ok);
      ExecKeepsRowFair(cfg, s.store, call, ok);
      ExecContinuesFair(cfg, s.store, call, ok);
      forall d | d in s.calls && d != c
        ensures CashesFairly(cfg, st', s.calls[d])
      {
        assert !Rivals(cfg.timing, call, s.calls[d]);
        OthersCashFairly(cfg, s.store, call, ok, s.calls[d]);
      }
      RowKeepsWins(cfg, s.store, st', call.id);
    }
  }

  lemma RowKeepsWins(cfg: Config, st: Store, st': Store, id: BetId)
    requires WinsFair(cfg, st) && st'.rounds == st.rounds && st'.bets - {id} == st.bets - {id}
    requires RowFair(cfg, st.rounds, id, st.bets, st'.bets)
    ensures WinsFair(cfg, st')
  {
    forall other | other in st'.bets && other != id
      ensures other in st.bets && st'.bets[other] == st.bets[other]
    {
      OtherRowIsSame(st.bets, st'.bets, id, other);
    }
  }

  lemma OthersCashFairly(cfg: Config, st: Store, call: Call, ok: bool, other: Call)
    requires Tame(cfg.timing, st, call) && Tame(cfg.timing, st, other) && !Rivals(cfg.timing, call, other)
    requires CashesFairly(cfg, st, call) && CashesFairly(cfg, st, other)
    ensures CashesFairly(cfg, Exec(cfg, st, call, ok).0, other)
  {
    var st' := Exec(cfg, st, call, ok).0;
    ExecKeepsIds(cfg, st, call, ok);
    ExecKeepsRowFair(cfg, st, call, ok);
    ExecMovesRow(cfg, st, call, ok);
    if other.id != call.id {
      ExecTouchesOwnBet(cfg, st, call, ok);
      OtherRowIsSame(st.bets, st'.bets, call.id, other.id);
    }
  }

  lemma NextKeepsWins(cfg: Config, s: State, e: Event)
    requires AllTame(cfg.timing, s.store, s.calls) && WinInv(cfg, s)
    ensures WinInv(cfg, Next(cfg, s, e))
  {
    if e.Step? {
      if e.call in s.calls {
        AdvanceKeepsWins(cfg, s, e.call, e.ok);
      }
    } else {
      QuietKeepsWins(cfg, s, e);
    }
  }

  lemma QuietKeepsWins(cfg: Config, s: State, e: Event)
    requires WinInv(cfg, s) && !e.Step?
    ensures WinInv(cfg, Next(cfg, s, e))
  {
    var s' := Next(cfg, s, e);
    forall c | c in s'.calls
      ensures CashesFairly(cfg, s'.store, s'.calls[c])
    {
      assert c in s.calls ==> CashesFairly(cfg, s.store, s.calls[c]);
    }
  }

  lemma {:induction false} RunKeepsWins(cfg: Config, opening: map<WalletId, nat>, events: seq<Event>)
    ensures WinInv(cfg, Run(cfg, Init(opening), events))
  {
    if events != [] {
      RunIsTame(cfg, opening, events[..|events| - 1]);
      RunKeepsWins(cfg, opening, events[..|events| - 1]);
      NextKeepsWins(cfg, Run(cfg, Init(opening), events[..|events| - 1]), events[|events| - 1]);
    }
  }

  /** Under any stale engine view and any timing, a win was cashed out strictly below the crash
      point of its own round, and is worth exactly what it may pay: the largest whole amount not
      above stake times multiplier, the house cap, or the bet's own cap. */
  lemma PaidBelowCrash(cfg: Config, opening: map<WalletId, nat>, events: seq<Event>, id: BetId)
    requires var st := Run(cfg, Init(opening), events).store; id in st.bets && IsWon(st.bets[id].status)
    ensures var st := Run(cfg, Init(opening), events).store;
      var b := st.bets[id];
      ClaimedFairly(cfg, st.rounds, b) && IsPayout(cfg.limits, b, b.mult, b.payout)
  {
    RunKeepsWins(cfg, opening, events);
    var b := Run(cfg, Init(opening), events).store.bets[id];
    PayoutIsExact(cfg.limits, b, b.mult);
  }
}
