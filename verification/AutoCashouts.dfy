/**
 * Failover in full concurrency: between the moment a bet is open in a running round and the
 * resume, the protocol may run in any way, on any nodes, with any failures and deaths,
 * recovery as hasty as it likes. If the player does not close the bet himself, its outcome
 * is still the committed one.
 */
module AutoCashouts {
  import opened Domain
  import opened Money
  import opened BetProtocol
  import opened BetMoney
  import opened BetRows
  import opened BetWins
  import opened Ticks

  /** The call does not close the bet for the player: no cancel, no void, no cash-out off its target. */
  predicate OnTarget(call: Call, id: BetId, first: Bet) {
    call.id == id ==>
      && !call.CancelClaim? && !call.CancelCredit? && !Voids(call)
      && (call.CashClaim? ==> call.b == first && Some(call.mult) == first.auto)
  }

  ghost predicate Untouched(s: State, id: BetId, first: Bet) {
    forall c :: c in s.calls ==> OnTarget(s.calls[c], id, first)
  }

  /** Events that the player's own closing of the bet, a void of it and its settlement are not among. */
  predicate LeavesToAuto(e: Event, id: BetId, first: Bet) {
    match e
    case BeginCancel(_, other) => other != id
    case BeginVoid(_, other) => other != id
    case BeginCash(_, other, mult) => other == id ==> Some(mult) == first.auto
    case Settle(r) => r != first.slot.round
    case _ => true
  }

  /** A statement of a call on target keeps the bet on track. */
  lemma ExecStaysOnTrack(cfg: Config, st: Store, call: Call, ok: bool, id: BetId, first: Bet)
    requires CashQuiet(cfg.timing) && Tame(cfg.timing, st, call) && OnTarget(call, id, first) && first.status.Active?
    requires id in st.bets && OnTrack(cfg, first, st.bets[id])
    ensures var st' := Exec(cfg, st, call, ok).0; id in st'.bets && OnTrack(cfg, first, st'.bets[id])
  {
    if call.id != id {
      ExecTouchesOwnBet(cfg, st, call, ok);
      OtherRowIsSame(st.bets, Exec(cfg, st, call, ok).0.bets, call.id, id);
    } else {
      OwnStaysOnTrack(cfg, st, call, ok, first);
    }
  }

  lemma OwnStaysOnTrack(cfg: Config, st: Store, call: Call, ok: bool, first: Bet)
    requires CashQuiet(cfg.timing) && Tame(cfg.timing, st, call) && OnTarget(call, call.id, first)
      && first.status.Active?
    requires call.id in st.bets && OnTrack(cfg, first, st.bets[call.id])
    ensures var st' := Exec(cfg, st, call, ok).0; call.id in st'.bets && OnTrack(cfg, first, st'.bets[call.id])
  {
    if call.CashClaim? && ok && HasStatus(st, call.id, Active) {
      assert st.bets[call.id] == first;
    }
  }

  lemma ExecStaysOnTarget(cfg: Config, st: Store, call: Call, ok: bool, id: BetId, first: Bet)
    requires OnTarget(call, id, first)
    ensures var after := Exec(cfg, st, call, ok).1; after.Continue? ==> OnTarget(after.call, id, first)
  {
  }

  lemma NextStaysOnTrack(cfg: Config, s: State, e: Event, id: BetId, first: Bet)
    requires CashQuiet(cfg.timing) && AllTame(cfg.timing, s.store, s.calls)
    requires Untouched(s, id, first) && LeavesToAuto(e, id, first) && first.status.Active?
    requires id in s.store.bets && OnTrack(cfg, first, s.store.bets[id])
    ensures var s' := Next(cfg, s, e);
      Untouched(s', id, first) && id in s'.store.bets && OnTrack(cfg, first, s'.store.bets[id])
  {
    if e.Step? {
      if e.call in s.calls {
        AdvanceStaysOnTrack(cfg, s, e.call, e.ok, id, first);
      }
    } else {
      QuietStaysOnTrack(cfg, s, e, id, first);
    }
  }

  lemma AdvanceStaysOnTrack(cfg: Config, s: State, c: CallId, ok: bool, id: BetId, first: Bet)
    requires CashQuiet(cfg.timing) && c in s.calls && Tame(cfg.timing, s.store, s.calls[c])
    requires Untouched(s, id, first) && first.status.Active?
    requires id in s.store.bets && OnTrack(cfg, first, s.store.bets[id])
    ensures var s' := Advance(cfg, s, c, ok);
      Untouched(s', id, first) && id in s'.store.bets && OnTrack(cfg, first, s'.store.bets[id])
  {
    if Enabled(cfg, s, s.calls[c]) {
      ExecStaysOnTrack(cfg, s.store, s.calls[c], ok, id, first);
      ExecStaysOnTarget(cfg, s.store, s.calls[c], ok, id, first);
    }
  }

  lemma QuietStaysOnTrack(cfg: Config, s: State, e: Event, id: BetId, first: Bet)
    requires !e.Step? && Untouched(s, id, first) && LeavesToAuto(e, id, first) && first.status.Active?
    requires id in s.store.bets && OnTrack(cfg, first, s.store.bets[id])
    ensures var s' := Next(cfg, s, e);
      Untouched(s', id, first) && id in s'.store.bets && OnTrack(cfg, first, s'.store.bets[id])
  {
    var s' := Next(cfg, s, e);
    forall c | c in s'.calls
      ensures OnTarget(s'.calls[c], id, first)
    {
      assert c in s.calls ==> OnTarget(s.calls[c], id, first);
    }
  }

  lemma {:induction false} RunStaysOnTrack(cfg: Config, s: State, events: seq<Event>, id: BetId, first: Bet)
    requires CashQuiet(cfg.timing) && AllTame(cfg.timing, s.store, s.calls) && WinInv(cfg, s)
    requires Untouched(s, id, first) && first.status.Active? && id in s.store.bets && s.store.bets[id] == first
    requires forall i :: 0 <= i < |events| ==> LeavesToAuto(events[i], id, first)
    ensures var s' := Run(cfg, s, events);
      && AllTame(cfg.timing, s'.store, s'.calls) && WinInv(cfg, s') && Untouched(s', id, first)
      && id in s'.store.bets && OnTrack(cfg, first, s'.store.bets[id])
  {
    if events != [] {
      var init, last := events[..|events| - 1], events[|events| - 1];
      RunStaysOnTrack(cfg, s, init, id, first);
      NextKeepsTame(cfg, Run(cfg, s, init), last);
      NextKeepsWins(cfg, Run(cfg, s, init), last);
      NextStaysOnTrack(cfg, Run(cfg, s, init), last, id, first);
    }
  }

  /**
   * From a bet that is open in any reachable state, through any further run in which the
   * player leaves it to its target, to a resume whose claim of it is not refused, and the
   * settlement: the bet is won at exactly its target, for exactly the capped floor of
   * stake times target, if the target is below the crash point, and busted otherwise.
   */
  lemma AnyPrefixSameOutcome(
      cfg: Config, opening: map<WalletId, nat>, before: seq<Event>, gap: seq<Event>, resumed: Store, resume: Tick,
      id: BetId)
    requires CashQuiet(cfg.timing) && HasStatus(Run(cfg, Init(opening), before).store, id, Active)
    requires var s := Run(cfg, Init(opening), before);
      && Untouched(s, id, s.store.bets[id])
      && forall i :: 0 <= i < |gap| ==> LeavesToAuto(gap[i], id, s.store.bets[id])
    requires var s, s' := Run(cfg, Init(opening), before), Run(cfg, Run(cfg, Init(opening), before), gap);
      var r := s.store.bets[id].slot.round;
      && r in s'.store.rounds && s'.store.rounds[r].phase.Running? && resume.multiplier == s'.store.rounds[r].crash
      && Ticked(cfg, s'.store, resumed, r, resume) && ClaimOk(resume.plan(id))
    ensures var s, s' := Run(cfg, Init(opening), before), Run(cfg, Run(cfg, Init(opening), before), gap);
      var first := s.store.bets[id];
      && id in resumed.bets
      && Fate(cfg, s'.store.rounds[first.slot.round].crash, first, AfterSettle(resumed.bets[id], first.slot.round))
      && (BelowCrash(first, s'.store.rounds[first.slot.round].crash) ==>
            IsPayout(cfg.limits, first, first.auto.value, resumed.bets[id].payout))
  {
    var s := Run(cfg, Init(opening), before);
    var first := s.store.bets[id];
    RunIsTame(cfg, opening, before);
    RunKeepsWins(cfg, opening, before);
    RunStaysOnTrack(cfg, s, gap, id, first);
    var st := Run(cfg, s, gap).store;
    WonIsBelowCrash(cfg, st, id, first);
    if first.auto.Some? {
      PayoutIsExact(cfg.limits, first, first.auto.value);
    }
    ResumedOutcome(cfg, s.store, st, resumed, first.slot.round, resume, id);
  }

  lemma WonIsBelowCrash(cfg: Config, st: Store, id: BetId, first: Bet)
    requires WinsFair(cfg, st) && id in st.bets && OnTrack(cfg, first, st.bets[id]) && first.slot.round in st.rounds
    ensures st.bets[id] == first || BelowCrash(first, st.rounds[first.slot.round].crash)
  {
    assert IsWon(st.bets[id].status) ==> ClaimedFairly(cfg, st.rounds, st.bets[id]);
  }
}
