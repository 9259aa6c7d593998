/** What every run keeps about bet rows and the calls on them, whatever the money timing. */
module BetRows {
  import opened Domain
  import opened Money
  import opened BetSums
  import opened BetProtocol
  import opened BetMoney

  // ----- what holds of calls whatever the money timing -----

  predicate Cashing(call: Call) {
    call.CashCredit? || call.CashPend?
  }

  predicate NotPlaced(st: Status) {
    st.Reserving? || st.Cancelling? || st.Cancelled?
  }

  /** The claims by which calls exclude each other from a row. */
  predicate OwnsRow(st: Store, call: Call) {
    && ((call.PlaceDebit? || call.PlaceRelease?) && call.id in st.bets ==> NotPlaced(st.bets[call.id].status))
    && (call.Recovering() && call.id in st.bets ==> IsRestart(st.bets[call.id].status))
    && (Cashing(call) ==> HasStatus(st, call.id, CashedOut))
  }

  predicate Tame(t: Timing, st: Store, call: Call) {
    var id, b := call.id, call.b;
    && id in st.used
    && (id in st.bets ==> SameBet(b, st.bets[id]))
    && (call.Unborn() ==> id !in st.bets && b.status.Reserving? && b.payout == 0)
    && (CashQuiet(t) ==> OwnsRow(st, call))
    && (call.CashClaim? ==> call.mult <= MAX_CENTS)
    && (call.VoidClaim? ==> b.status.CashedOut? || b.status.Busted?)
    && (t.noVoids ==> !Voids(call))
  }

  /** Calls that cannot be in flight together. */
  predicate Rivals(t: Timing, a: Call, b: Call) {
    || (a.id == b.id && (a.Unborn() || b.Unborn() || (a.Debiting() && b.Debiting())))
    || (a.id == b.id && CashQuiet(t) && Cashing(a) && Cashing(b))
    || (a.HoldsLock(a.b.slot.round) && b.HoldsLock(a.b.slot.round))
  }

  ghost predicate NoRivals(t: Timing, calls: map<CallId, Call>) {
    forall c, d :: c in calls && d in calls && c != d ==> !Rivals(t, calls[c], calls[d])
  }

  ghost predicate AllTame(t: Timing, st: Store, calls: map<CallId, Call>) {
    && st.bets.Keys <= st.used
    && (forall r :: r in st.rounds ==> st.rounds[r].crash <= MAX_CENTS)
    && (forall c :: c in calls ==> Tame(t, st, calls[c]))
    && NoRivals(t, calls)
  }

  // ----- what a statement does to its row -----

  /** The changes of a row: its stake never changes, and it never gets back to a state of greater risk. */
  predicate BetStep(cfg: Config, before: Bet, after: Bet) {
    && SameBet(before, after)
    && match after.status
       case Active => before.status.Reserving? && after.payout == before.payout
       case Cancelling => before.status.Reserving?
       case Cancelled => !CashQuiet(cfg.timing) || before.status.Active? || IsRestart(before.status)
       case CashedOut =>
         || (before.status.PayoutPending? && after.payout == before.payout)
         || (before.status.Active? && after.mult <= MAX_CENTS
               && after.payout == PayoutAt(cfg.limits, before, after.mult))
       case PayoutPending => !CashQuiet(cfg.timing) || (before.status.CashedOut? && after.payout == before.payout)
       case Busted => before.status.Active?
       case Voiding => !cfg.timing.noVoids && (before.status.CashedOut? || before.status.Busted?)
       case Voided => !cfg.timing.noVoids && before.status.Voiding?
       case Reserving => false
  }

  predicate RowMove(cfg: Config, call: Call, before: Bets, after: Bets) {
    var id := call.id;
    && (id in before && id in after ==> after[id] == before[id] || BetStep(cfg, before[id], after[id]))
    && (id in before && id in after && after[id].status.Active? ==> after[id] == before[id] || call.PlaceActivate?)
    && (id in before && id !in after && CashQuiet(cfg.timing) ==> NotPlaced(before[id].status))
    && (id !in before && id in after ==> call.PlaceInsert? && after[id] == call.b)
  }

  lemma ExecMovesRow(cfg: Config, st: Store, call: Call, ok: bool)
    requires Tame(cfg.timing, st, call)
    ensures RowMove(cfg, call, st.bets, Exec(cfg, st, call, ok).0.bets)
  {
    if call.PlaceRelease? || call.RecoverDrop? || call.PlaceInsert? || call.PlaceDebit? {
    } else if call.RecoverFinish? || call.CashPend? || call.CashClaim? {
    } else {
      OthersMoveByCas(cfg, st, call, ok);
    }
  }

  lemma OthersMoveByCas(cfg: Config, st: Store, call: Call, ok: bool)
    requires Tame(cfg.timing, st, call)
    requires !call.PlaceRelease? && !call.RecoverDrop? && !call.PlaceInsert?
    requires !call.RecoverFinish? && !call.CashPend? && !call.CashClaim?
    ensures RowMove(cfg, call, st.bets, Exec(cfg, st, call, ok).0.bets)
  {
  }

  // ----- calls stay tame -----

  /** What the guard of `call` says about the other calls when it executes. */
  predicate VoidIsQuiet(t: Timing, call: Call, other: Call) {
    call.VoidClaim? && t.cashOutDone && Cashing(other) ==> other.id != call.id
  }

  lemma ExecKeepsTame(cfg: Config, st: Store, call: Call, ok: bool, other: Call)
    requires Tame(cfg.timing, st, call) && Tame(cfg.timing, st, other)
    requires !Rivals(cfg.timing, call, other) && VoidIsQuiet(cfg.timing, call, other)
    ensures Tame(cfg.timing, Exec(cfg, st, call, ok).0, other)
  {
    ExecKeepsIds(cfg, st, call, ok);
    ExecTouchesOwnBet(cfg, st, call, ok);
    ExecMovesRow(cfg, st, call, ok);
    if other.id == call.id && Cashing(other) && CashQuiet(cfg.timing) {
      CashedOutStays(cfg, st, call, ok, other);
    }
    TameSurvives(cfg, st, Exec(cfg, st, call, ok).0, call, other);
  }

  lemma TameSurvives(cfg: Config, st: Store, st': Store, call: Call, other: Call)
    requires RowMove(cfg, call, st.bets, st'.bets) && st'.used == st.used && st'.bets - {call.id} == st.bets - {call.id}
    requires Tame(cfg.timing, st, call) && Tame(cfg.timing, st, other) && !Rivals(cfg.timing, call, other)
    requires other.id == call.id && Cashing(other) && CashQuiet(cfg.timing) ==> HasStatus(st', other.id, CashedOut)
    ensures Tame(cfg.timing, st', other)
  {
    if other.id != call.id {
      OtherRowIsSame(st.bets, st'.bets, call.id, other.id);
    } else if !(Cashing(other) && CashQuiet(cfg.timing)) {
      MoveKeepsTame(cfg, st, st', call, other);
    }
  }

  lemma MoveKeepsTame(cfg: Config, st: Store, st': Store, call: Call, other: Call)
    requires RowMove(cfg, call, st.bets, st'.bets) && st'.used == st.used && other.id == call.id
    requires Tame(cfg.timing, st, call) && Tame(cfg.timing, st, other) && !Rivals(cfg.timing, call, other)
    requires !(Cashing(other) && CashQuiet(cfg.timing))
    ensures Tame(cfg.timing, st', other)
  {
  }

  /** Nobody else moves a row out of cashed_out while its claimant has not credited it. */
  lemma CashedOutStays(cfg: Config, st: Store, call: Call, ok: bool, other: Call)
    requires Tame(cfg.timing, st, call) && Tame(cfg.timing, st, other)
    requires !Rivals(cfg.timing, call, other) && VoidIsQuiet(cfg.timing, call, other)
    requires other.id == call.id && Cashing(other) && CashQuiet(cfg.timing)
    ensures HasStatus(Exec(cfg, st, call, ok).0, other.id, CashedOut)
  {
    assert !call.RecoverFinish? && !call.RecoverDrop? && !call.PlaceRelease? && !call.CashPend?;
    assert !call.VoidClaim?;
  }

  lemma ExecKeepsIds(cfg: Config, st: Store, call: Call, ok: bool)
    ensures var st' := Exec(cfg, st, call, ok).0; st'.used == st.used && st'.rounds == st.rounds
  {
  }

  lemma OtherRowIsSame(before: Bets, after: Bets, at: BetId, id: BetId)
    requires before - {at} == after - {at} && id != at
    ensures id in before <==> id in after
    ensures id in before ==> before[id] == after[id]
  {
    assert id in before ==> (before - {at})[id] == before[id];
    assert id in after ==> (after - {at})[id] == after[id];
    assert id in before - {at} <==> id in after - {at};
  }

  lemma ExecContinuesTame(cfg: Config, st: Store, call: Call, ok: bool)
    requires Tame(cfg.timing, st, call)
    ensures var (st', after) := Exec(cfg, st, call, ok);
      after.Continue? ==> after.call.id == call.id && SameBet(after.call.b, call.b) && Tame(cfg.timing, st', after.call)
  {
    ExecKeepsIds(cfg, st, call, ok);
    if call.Unborn() || call.PlaceDebit? || call.CashClaim? {
      PlaceOrCashContinues(cfg, st, call, ok);
    }
  }

  lemma PlaceOrCashContinues(cfg: Config, st: Store, call: Call, ok: bool)
    requires Tame(cfg.timing, st, call) && (call.Unborn() || call.PlaceDebit? || call.CashClaim?)
    ensures var (st', after) := Exec(cfg, st, call, ok);
      after.Continue? ==> after.call.id == call.id && SameBet(after.call.b, call.b) && Tame(cfg.timing, st', after.call)
  {
  }

  lemma ExecKeepsNoRivals(cfg: Config, s: State, c: CallId, ok: bool, d: CallId)
    requires c in s.calls && d in s.calls && c != d && Enabled(cfg, s, s.calls[c])
    requires Tame(cfg.timing, s.store, s.calls[c]) && Tame(cfg.timing, s.store, s.calls[d])
    requires !Rivals(cfg.timing, s.calls[c], s.calls[d]) && !Rivals(cfg.timing, s.calls[d], s.calls[c])
    ensures var after := Exec(cfg, s.store, s.calls[c], ok).1;
      after.Continue? ==> !Rivals(cfg.timing, after.call, s.calls[d]) && !Rivals(cfg.timing, s.calls[d], after.call)
  {
    var call, other := s.calls[c], s.calls[d];
    if call.PlaceLock? {
      assert !other.HoldsLock(call.b.slot.round);
    }
  }

  lemma AdvanceKeepsTame(cfg: Config, s: State, c: CallId, ok: bool)
    requires AllTame(cfg.timing, s.store, s.calls) && c in s.calls
    ensures AllTame(cfg.timing, Advance(cfg, s, c, ok).store, Advance(cfg, s, c, ok).calls)
  {
    var call, t := s.calls[c], cfg.timing;
    if Enabled(cfg, s, call) {
      var (st', after) := Exec(cfg, s.store, call, ok);
      var s' := Advance(cfg, s, c, ok);
      ExecKeepsIds(cfg, s.store, call, ok);
      ExecContinuesTame(cfg, s.store, call, ok);
      forall d | d in s.calls && d != c
        ensures Tame(t, st', s.calls[d])
        ensures after.Continue? ==> !Rivals(t, after.call, s.calls[d]) && !Rivals(t, s.calls[d], after.call)
      {
        ExecKeepsTame(cfg, s.store, call, ok, s.calls[d]);
        ExecKeepsNoRivals(cfg, s, c, ok, d);
      }
      ExecKeepsUsed(cfg, s.store, call, ok);
    }
  }

  lemma ExecKeepsUsed(cfg: Config, st: Store, call: Call, ok: bool)
    requires Tame(cfg.timing, st, call) && st.bets.Keys <= st.used
    ensures Exec(cfg, st, call, ok).0.bets.Keys <= st.used
  {
    ExecTouchesOwnBet(cfg, st, call, ok);
    var bets' := Exec(cfg, st, call, ok).0.bets;
    forall id | id in bets'
      ensures id in st.used
    {
      if id != call.id {
        OtherRowIsSame(st.bets, bets', call.id, id);
      }
    }
  }

  lemma NextKeepsTame(cfg: Config, s: State, e: Event)
    requires AllTame(cfg.timing, s.store, s.calls)
    ensures AllTame(cfg.timing, Next(cfg, s, e).store, Next(cfg, s, e).calls)
  {
    if e.Step? {
      if e.call in s.calls {
        AdvanceKeepsTame(cfg, s, e.call, e.ok);
      }
    } else if e.Settle? {
      SettleKeepsTame(cfg, s, e.round);
    } else if e.OpenRound? || e.SetPhase? || e.Die? {
    } else {
      BeginKeepsTame(cfg, s, e);
    }
  }

  lemma SettleKeepsTame(cfg: Config, s: State, r: RoundId)
    requires AllTame(cfg.timing, s.store, s.calls)
    ensures AllTame(cfg.timing, Next(cfg, s, Settle(r)).store, s.calls)
  {
    var st' := Next(cfg, s, Settle(r)).store;
    forall c | c in s.calls
      ensures Tame(cfg.timing, st', s.calls[c])
    {
    }
  }

  lemma BeginKeepsTame(cfg: Config, s: State, e: Event)
    requires AllTame(cfg.timing, s.store, s.calls)
    requires !e.Step? && !e.Settle? && !e.OpenRound? && !e.SetPhase? && !e.Die?
    ensures AllTame(cfg.timing, Next(cfg, s, e).store, Next(cfg, s, e).calls)
  {
    var s' := Next(cfg, s, e);
    if s' == s {
    } else if e.BeginPlace? {
      PlaceKeepsTame(cfg, s, e);
    } else {
      FirstReadIsTame(cfg, s.store, e);
    }
  }

  lemma PlaceKeepsTame(cfg: Config, s: State, e: Event)
    requires AllTame(cfg.timing, s.store, s.calls) && e.BeginPlace? && e.call !in s.calls && e.id !in s.store.used
    ensures AllTame(cfg.timing, Next(cfg, s, e).store, Next(cfg, s, e).calls)
  {
    var s' := Next(cfg, s, e);
    assert forall c :: c in s.calls ==> Tame(cfg.timing, s'.store, s.calls[c]);
    assert Tame(cfg.timing, s'.store, s'.calls[e.call]);
  }

  lemma FirstReadIsTame(cfg: Config, st: Store, e: Event)
    requires st.bets.Keys <= st.used && (forall r :: r in st.rounds ==> st.rounds[r].crash <= MAX_CENTS)
    requires FirstRead(cfg, st, e).Some?
    ensures var call := FirstRead(cfg, st, e).value;
      && Tame(cfg.timing, st, call) && call.id in st.bets
      && !call.Unborn() && !call.Debiting() && !Cashing(call) && !call.HoldsLock(call.b.slot.round)
  {
  }

  lemma {:induction false} RunIsTame(cfg: Config, opening: map<WalletId, nat>, events: seq<Event>)
    ensures var s := Run(cfg, Init(opening), events); AllTame(cfg.timing, s.store, s.calls)
  {
    if events != [] {
      RunIsTame(cfg, opening, events[..|events| - 1]);
      NextKeepsTame(cfg, Run(cfg, Init(opening), events[..|events| - 1]), events[|events| - 1]);
    }
  }
}
