/**
 * Hard limits under concurrency: the round-exposure breaker and the responsible-gambling
 * caps. Both are check-then-insert, and the rows they sum keep changing between the check
 * and the insert; they hold because no row can grow, and no rival can insert.
 */
module BetLimits {
  import opened Domain
  import opened Money
  import opened BetSums
  import opened BetProtocol
  import opened BetMoney
  import opened BetRows

  // ----- no row grows -----

  /** The sums that nothing but an insert can raise, and the timing each one needs. */
  predicate Watched(cfg: Config, m: Measure) {
    match m
    case Exposure(limits, _, _) => true
    case Liability(limits, _, _) => limits == cfg.limits && CashQuiet(cfg.timing) && 1_000_000 <= limits.maxMultiplier
    case Reserved(_) => true
    case WageredOrReserved(_) => CashQuiet(cfg.timing)
    case NetOrReserved(_) => cfg.timing.noVoids
    case _ => false
  }

  lemma StepIsNoHeavier(cfg: Config, m: Measure, before: Bet, after: Bet)
    requires Watched(cfg, m) && BetStep(cfg, before, after)
    ensures Weight(m, after) <= Weight(m, before)
  {
    if m.Liability? && after.status.CashedOut? && before.status.Active? {
      PayoutWithinPotential(cfg.limits, before, after.mult);
    }
  }

  lemma MoveIsNoHeavier(cfg: Config, m: Measure, call: Call, before: Bets, after: Bets)
    requires Watched(cfg, m) && RowMove(cfg, call, before, after)
    requires before - {call.id} == after - {call.id} && (call.id in after ==> call.id in before)
    ensures Sum(after, m) <= Sum(before, m)
  {
    forall id | id in before || id in after
      ensures id in after ==> id in before && Weight(m, after[id]) <= Weight(m, before[id])
      ensures id in before && id !in after ==> Weight(m, before[id]) >= 0
    {
      if id != call.id {
        OtherRowIsSame(before, after, call.id, id);
      } else if id in after && after[id] != before[id] {
        StepIsNoHeavier(cfg, m, before[id], after[id]);
      }
    }
    SumNoHeavier(before, after, m);
  }

  lemma SettleIsNoHeavier(cfg: Config, m: Measure, bets: Bets, r: RoundId)
    requires Watched(cfg, m)
    ensures Sum(BustActive(bets, r), m) <= Sum(bets, m)
  {
    SumNoHeavier(bets, BustActive(bets, r), m);
  }

  // ----- checks with room left -----

  /** The checked limits: what is summed, and what it must not exceed. */
  predicate Limited(cfg: Config, m: Measure, max: nat) {
    match m
    case Exposure(limits, _, _) => limits == cfg.limits && max == limits.maxRoundExposure
    case WageredOrReserved(w) =>
      CashQuiet(cfg.timing) && cfg.timing.oneRound && w in cfg.caps && cfg.caps[w].maxWager == Some(max)
    case NetOrReserved(w) =>
      cfg.timing.noVoids && cfg.timing.oneRound && w in cfg.caps && cfg.caps[w].maxLoss == Some(max)
    case _ => false
  }

  /** A placeBet that has passed the check of the limit on `m`. */
  predicate Checked(m: Measure, call: Call) {
    call.PlaceInsert? || (m.Exposure? && call.PlaceAccount?)
  }

  /** The sum is within its limit, and stays so with any one of the checked stakes added. */
  ghost predicate Room(bets: Bets, calls: map<CallId, Call>, m: Measure, max: nat) {
    && Sum(bets, m) <= max
    && forall c :: c in calls && Checked(m, calls[c]) ==> Sum(bets, m) + Weight(m, calls[c].b) <= max
  }

  ghost predicate AllRoom(cfg: Config, s: State) {
    forall m, max :: Limited(cfg, m, max) ==> Room(s.store.bets, s.calls, m, max)
  }

  /** All reservations of a wallet, committed or being made, are in one round. */
  ghost predicate RoundsAgree(s: State) {
    forall c :: c in s.calls && s.calls[c].HoldsLock(s.calls[c].b.slot.round) ==>
      OneRound(s, s.calls[c].b.wallet, s.calls[c].b.slot.round)
  }

  /** The reserved stakes that a call has read cover those that are there now. */
  ghost predicate ReadCovers(bets: Bets, call: Call) {
    call.PlaceAccount? ==> Sum(bets, Reserved(call.b.wallet)) <= call.reserved
  }

  ghost predicate ReadsCover(s: State) {
    forall c :: c in s.calls ==> ReadCovers(s.store.bets, s.calls[c])
  }

  ghost predicate Limits(cfg: Config, s: State) {
    && AllTame(cfg.timing, s.store, s.calls)
    && AllRoom(cfg, s)
    && (cfg.timing.oneRound ==> RoundsAgree(s) && ReadsCover(s))
  }

  // ----- one statement -----

  /** Does the statement insert its bet? */
  ghost predicate Inserts(cfg: Config, st: Store, call: Call, ok: bool) {
    call.PlaceInsert? && Exec(cfg, st, call, ok).1.Continue?
  }

  lemma ExecSums(cfg: Config, st: Store, call: Call, ok: bool, m: Measure)
    requires Tame(cfg.timing, st, call) && Watched(cfg, m)
    ensures var bets' := Exec(cfg, st, call, ok).0.bets;
      if Inserts(cfg, st, call, ok) then Sum(bets', m) == Sum(st.bets, m) + Weight(m, call.b)
      else Sum(bets', m) <= Sum(st.bets, m)
  {
    ExecMovesRow(cfg, st, call, ok);
    ExecTouchesOwnBet(cfg, st, call, ok);
    if Inserts(cfg, st, call, ok) {
      SumInsert(st.bets, m, call.id, call.b);
    } else {
      MoveIsNoHeavier(cfg, m, call, st.bets, Exec(cfg, st, call, ok).0.bets);
    }
  }

  /** Two checked stakes never count towards the same limit. */
  lemma CheckedAlone(cfg: Config, s: State, c: CallId, d: CallId, m: Measure, max: nat)
    requires Limits(cfg, s) && Limited(cfg, m, max) && c in s.calls && d in s.calls && c != d
    requires Checked(m, s.calls[c]) && Checked(m, s.calls[d])
    ensures Weight(m, s.calls[c].b) == 0 || Weight(m, s.calls[d].b) == 0
  {
    var a, b := s.calls[c], s.calls[d];
    assert !Rivals(cfg.timing, a, b);
    assert cfg.timing.oneRound && a.b.wallet == b.b.wallet ==> a.b.slot.round == b.b.slot.round;
  }

  /** The check leaves room for the stake it lets pass. */
  lemma CheckLeavesRoom(cfg: Config, st: Store, call: Call, ok: bool, m: Measure, max: nat)
    requires Limited(cfg, m, max) && Sum(st.bets, m) <= max
    requires Checked(m, call) ==> Sum(st.bets, m) + Weight(m, call.b) <= max
    requires !m.Exposure? ==> ReadCovers(st.bets, call)
    requires Tame(cfg.timing, st, call)
    ensures var (st', after) := Exec(cfg, st, call, ok);
      after.Continue? && Checked(m, after.call) ==>
        st' == st && after.call.b == call.b && Sum(st.bets, m) + Weight(m, call.b) <= max
  {
    if call.PlaceAccount? {
      AccountLeavesRoom(cfg, st, call, ok, m, max);
    } else if call.PlaceExposure? {
      ExposureLeavesRoom(cfg, st, call, ok, m, max);
    } else {
      OnlyChecksLeaveRoom(cfg, st, call, ok, m);
    }
  }

  lemma AccountLeavesRoom(cfg: Config, st: Store, call: Call, ok: bool, m: Measure, max: nat)
    requires Limited(cfg, m, max) && call.PlaceAccount? && Tame(cfg.timing, st, call) && Sum(st.bets, m) <= max
    requires Checked(m, call) ==> Sum(st.bets, m) + Weight(m, call.b) <= max
    requires !m.Exposure? ==> ReadCovers(st.bets, call)
    ensures var (st', after) := Exec(cfg, st, call, ok);
      after.Continue? && Checked(m, after.call) ==>
        st' == st && after.call.b == call.b && Sum(st.bets, m) + Weight(m, call.b) <= max
  {
    if !m.Exposure? && call.b.wallet == m.wallet {
      SumSplits(st.bets, WageredOrReserved(m.wallet), Wagered(m.wallet), Reserved(m.wallet));
      SumSplits(st.bets, NetOrReserved(m.wallet), Net(m.wallet), Reserved(m.wallet));
    }
  }

  lemma ExposureLeavesRoom(cfg: Config, st: Store, call: Call, ok: bool, m: Measure, max: nat)
    requires Limited(cfg, m, max) && call.PlaceExposure? && Tame(cfg.timing, st, call) && Sum(st.bets, m) <= max
    ensures var (st', after) := Exec(cfg, st, call, ok);
      after.Continue? && Checked(m, after.call) ==>
        st' == st && after.call.b == call.b && Sum(st.bets, m) + Weight(m, call.b) <= max
  {
  }

  lemma OnlyChecksLeaveRoom(cfg: Config, st: Store, call: Call, ok: bool, m: Measure)
    requires !call.PlaceAccount? && !call.PlaceExposure?
    ensures var after := Exec(cfg, st, call, ok).1;
      after.Continue? ==> !Checked(m, after.call)
  {
  }

  lemma AdvanceKeepsRoom(cfg: Config, s: State, c: CallId, ok: bool, m: Measure, max: nat)
    requires Limits(cfg, s) && Limited(cfg, m, max) && c in s.calls && Enabled(cfg, s, s.calls[c])
    ensures var s' := Advance(cfg, s, c, ok); Room(s'.store.bets, s'.calls, m, max)
  {
    var call, s' := s.calls[c], Advance(cfg, s, c, ok);
    var (st', after) := Exec(cfg, s.store, call, ok);
    assert Room(s.store.bets, s.calls, m, max);
    ExecSums(cfg, s.store, call, ok, m);
    CheckLeavesRoom(cfg, s.store, call, ok, m, max);
    forall d | d in s'.calls && Checked(m, s'.calls[d])
      ensures Sum(st'.bets, m) + Weight(m, s'.calls[d].b) <= max
    {
      if d != c && Inserts(cfg, s.store, call, ok) {
        CheckedAlone(cfg, s, c, d, m, max);
      }
    }
  }

  // ----- reservations stay in one round, and reads stay covering -----

  lemma AdvanceKeepsReads(cfg: Config, s: State, c: CallId, ok: bool)
    requires Limits(cfg, s) && cfg.timing.oneRound && c in s.calls && Enabled(cfg, s, s.calls[c])
    ensures ReadsCover(Advance(cfg, s, c, ok))
  {
    var call, s' := s.calls[c], Advance(cfg, s, c, ok);
    forall d | d in s'.calls && s'.calls[d].PlaceAccount?
      ensures ReadCovers(s'.store.bets, s'.calls[d])
    {
      ExecSums(cfg, s.store, call, ok, Reserved(s'.calls[d].b.wallet));
      if d == c {
        ReservedAreHere(cfg, s, c);
      } else if Inserts(cfg, s.store, call, ok) {
        OtherWallet(cfg, s, c, d);
      }
    }
  }

  /** With all reservations in the round, the round's reserving stakes are all there are. */
  lemma ReservedAreHere(cfg: Config, s: State, c: CallId)
    requires RoundsAgree(s) && c in s.calls && s.calls[c].HoldsLock(s.calls[c].b.slot.round)
    ensures var b := s.calls[c].b;
      Sum(s.store.bets, Reserved(b.wallet)) <= Sum(s.store.bets, ReservedIn(b.slot.round, b.wallet))
  {
    var b := s.calls[c].b;
    assert OneRound(s, b.wallet, b.slot.round);
    SumAtMost(s.store.bets, Reserved(b.wallet), ReservedIn(b.slot.round, b.wallet));
  }

  lemma OtherWallet(cfg: Config, s: State, c: CallId, d: CallId)
    requires NoRivals(cfg.timing, s.calls) && RoundsAgree(s) && c in s.calls && d in s.calls && c != d
    requires s.calls[c].PlaceInsert? && s.calls[d].PlaceAccount?
    ensures s.calls[c].b.wallet != s.calls[d].b.wallet
  {
    assert !Rivals(cfg.timing, s.calls[c], s.calls[d]);
  }

  /** In `s`, all reservations of the call's wallet are in the call's round. */
  ghost predicate Agreed(s: State, call: Call) {
    OneRound(s, call.b.wallet, call.b.slot.round)
  }

  /** A call that holds the lock after a step held it before, or has just taken it under its guard. */
  lemma HolderWasAgreed(cfg: Config, s: State, c: CallId, ok: bool, d: CallId)
    requires RoundsAgree(s) && cfg.timing.oneRound && c in s.calls && Enabled(cfg, s, s.calls[c])
    requires var s' := Advance(cfg, s, c, ok); d in s'.calls && s'.calls[d].HoldsLock(s'.calls[d].b.slot.round)
    ensures var s' := Advance(cfg, s, c, ok);
      d in s.calls && s'.calls[d].b == s.calls[d].b && Agreed(s, s.calls[d])
      && (d == c || s.calls[d].HoldsLock(s.calls[d].b.slot.round))
  {
  }

  lemma AdvanceKeepsRounds(cfg: Config, s: State, c: CallId, ok: bool)
    requires Limits(cfg, s) && cfg.timing.oneRound && c in s.calls && Enabled(cfg, s, s.calls[c])
    ensures RoundsAgree(Advance(cfg, s, c, ok))
  {
    var s' := Advance(cfg, s, c, ok);
    forall d | d in s'.calls && s'.calls[d].HoldsLock(s'.calls[d].b.slot.round)
      ensures OneRound(s', s'.calls[d].b.wallet, s'.calls[d].b.slot.round)
    {
      HolderWasAgreed(cfg, s, c, ok, d);
      var w, r := s.calls[d].b.wallet, s.calls[d].b.slot.round;
      forall e | e in s'.calls && s'.calls[e].b.wallet == w && s'.calls[e].HoldsLock(s'.calls[e].b.slot.round)
        ensures s'.calls[e].b.slot.round == r
      {
        HolderWasAgreed(cfg, s, c, ok, e);
      }
      forall id | id in s'.store.bets && s'.store.bets[id].wallet == w && s'.store.bets[id].status.Reserving?
        ensures s'.store.bets[id].slot.round == r
      {
        ReservingWasThere(cfg, s.store, s.calls[c], ok, id);
      }
    }
  }

  /** A reserving row is one that was there already, or the one just inserted. */
  lemma ReservingWasThere(cfg: Config, st: Store, call: Call, ok: bool, id: BetId)
    requires Tame(cfg.timing, st, call)
    requires var bets' := Exec(cfg, st, call, ok).0.bets; id in bets' && bets'[id].status.Reserving?
    ensures var bets' := Exec(cfg, st, call, ok).0.bets;
      (id in st.bets && st.bets[id] == bets'[id]) || (call.PlaceInsert? && bets'[id] == call.b)
  {
    ExecMovesRow(cfg, st, call, ok);
    ExecTouchesOwnBet(cfg, st, call, ok);
    if id != call.id {
      OtherRowIsSame(st.bets, Exec(cfg, st, call, ok).0.bets, call.id, id);
    }
  }

  // ----- whole steps -----

  lemma AdvanceKeepsLimits(cfg: Config, s: State, c: CallId, ok: bool)
    requires Limits(cfg, s) && c in s.calls
    ensures Limits(cfg, Advance(cfg, s, c, ok))
  {
    if Enabled(cfg, s, s.calls[c]) {
      AdvanceKeepsTame(cfg, s, c, ok);
      forall m, max | Limited(cfg, m, max)
        ensures Room(Advance(cfg, s, c, ok).store.bets, Advance(cfg, s, c, ok).calls, m, max)
      {
        AdvanceKeepsRoom(cfg, s, c, ok, m, max);
      }
      if cfg.timing.oneRound {
        AdvanceKeepsReads(cfg, s, c, ok);
        AdvanceKeepsRounds(cfg, s, c, ok);
      }
    }
  }

  lemma SettleKeepsLimits(cfg: Config, s: State, r: RoundId)
    requires Limits(cfg, s)
    ensures Limits(cfg, Next(cfg, s, Settle(r)))
  {
    var s' := Next(cfg, s, Settle(r));
    SettleKeepsTame(cfg, s, r);
    forall m, max | Limited(cfg, m, max)
      ensures Room(s'.store.bets, s'.calls, m, max)
    {
      SettleIsNoHeavier(cfg, m, s.store.bets, r);
      assert Room(s.store.bets, s.calls, m, max);
    }
    forall c | c in s.calls
      ensures cfg.timing.oneRound ==> ReadCovers(s'.store.bets, s'.calls[c])
    {
      SettleIsNoHeavier(cfg, Reserved(s.calls[c].b.wallet), s.store.bets, r);
    }
    if cfg.timing.oneRound {
      SettleKeepsRounds(s, r);
    }
  }

  lemma SettleKeepsRounds(s: State, r: RoundId)
    requires RoundsAgree(s)
    ensures RoundsAgree(s.(store := s.store.(bets := BustActive(s.store.bets, r))))
  {
    forall c | c in s.calls && s.calls[c].HoldsLock(s.calls[c].b.slot.round)
      ensures OneRound(s.(store := s.store.(bets := BustActive(s.store.bets, r))), s.calls[c].b.wallet,
        s.calls[c].b.slot.round)
    {
      assert OneRound(s, s.calls[c].b.wallet, s.calls[c].b.slot.round);
    }
  }

  /** Events that neither execute a statement nor settle a round touch no row, and no lock is taken. */
  lemma QuietKeepsLimits(cfg: Config, s: State, e: Event)
    requires Limits(cfg, s) && !e.Step? && !e.Settle?
    ensures Limits(cfg, Next(cfg, s, e))
  {
    var s' := Next(cfg, s, e);
    NextKeepsTame(cfg, s, e);
    QuietKeepsRows(cfg, s, e);
    forall m, max | Limited(cfg, m, max)
      ensures Room(s'.store.bets, s'.calls, m, max)
    {
      assert Room(s.store.bets, s.calls, m, max);
    }
    if cfg.timing.oneRound {
      forall c | c in s'.calls && s'.calls[c].HoldsLock(s'.calls[c].b.slot.round)
        ensures OneRound(s', s'.calls[c].b.wallet, s'.calls[c].b.slot.round)
      {
        assert OneRound(s, s'.calls[c].b.wallet, s'.calls[c].b.slot.round);
      }
    }
  }

  lemma QuietKeepsRows(cfg: Config, s: State, e: Event)
    requires !e.Step? && !e.Settle?
    ensures var s' := Next(cfg, s, e);
      && s'.store.bets == s.store.bets
      && forall c :: c in s'.calls ==>
           (c in s.calls && s'.calls[c] == s.calls[c]) || !s'.calls[c].HoldsLock(s'.calls[c].b.slot.round)
  {
  }

  lemma NextKeepsLimits(cfg: Config, s: State, e: Event)
    requires Limits(cfg, s)
    ensures Limits(cfg, Next(cfg, s, e))
  {
    if e.Step? {
      if e.call in s.calls {
        AdvanceKeepsLimits(cfg, s, e.call, e.ok);
      }
    } else if e.Settle? {
      SettleKeepsLimits(cfg, s, e.round);
    } else {
      QuietKeepsLimits(cfg, s, e);
    }
  }

  lemma {:induction false} RunKeepsLimits(cfg: Config, opening: map<WalletId, nat>, events: seq<Event>)
    ensures Limits(cfg, Run(cfg, Init(opening), events))
  {
    if events != [] {
      RunKeepsLimits(cfg, opening, events[..|events| - 1]);
      NextKeepsLimits(cfg, Run(cfg, Init(opening), events[..|events| - 1]), events[|events| - 1]);
    }
  }

  // ----- main results -----

  /** The exposure of open bets never exceeds the breaker, per round and currency, in any run. */
  lemma ExposureIsCapped(cfg: Config, opening: map<WalletId, nat>, events: seq<Event>, r: RoundId, ccy: Currency)
    ensures Sum(Run(cfg, Init(opening), events).store.bets, Exposure(cfg.limits, r, ccy)) <= cfg.limits.maxRoundExposure
  {
    RunKeepsLimits(cfg, opening, events);
    assert Limited(cfg, Exposure(cfg.limits, r, ccy), cfg.limits.maxRoundExposure);
  }

  /** What a session has wagered, with the stakes being reserved, never exceeds its cap. */
  lemma WagerCapIsHard(cfg: Config, opening: map<WalletId, nat>, events: seq<Event>, w: WalletId)
    requires w in cfg.caps && cfg.caps[w].maxWager.Some? && cfg.timing.oneRound && CashQuiet(cfg.timing)
    ensures var bets := Run(cfg, Init(opening), events).store.bets;
      Sum(bets, Wagered(w)) + Sum(bets, Reserved(w)) <= cfg.caps[w].maxWager.value
  {
    RunKeepsLimits(cfg, opening, events);
    assert Limited(cfg, WageredOrReserved(w), cfg.caps[w].maxWager.value);
    SumSplits(Run(cfg, Init(opening), events).store.bets, WageredOrReserved(w), Wagered(w), Reserved(w));
  }

  /** What a session has lost, with the stakes being reserved, never exceeds its cap. */
  lemma LossCapIsHard(cfg: Config, opening: map<WalletId, nat>, events: seq<Event>, w: WalletId)
    requires w in cfg.caps && cfg.caps[w].maxLoss.Some? && cfg.timing.oneRound && cfg.timing.noVoids
    ensures var bets := Run(cfg, Init(opening), events).store.bets;
      Sum(bets, Net(w)) + Sum(bets, Reserved(w)) <= cfg.caps[w].maxLoss.value
  {
    RunKeepsLimits(cfg, opening, events);
    assert Limited(cfg, NetOrReserved(w), cfg.caps[w].maxLoss.value);
    SumSplits(Run(cfg, Init(opening), events).store.bets, NetOrReserved(w), Net(w), Reserved(w));
  }

  // ----- what a round can pay -----

  predicate ReservesFirst(cfg: Config) {
    cfg.timing.reserveFirst && CashQuiet(cfg.timing) && 1_000_000 <= cfg.limits.maxMultiplier
  }

  ghost predicate LiabilityCapped(cfg: Config, bets: Bets, r: RoundId, ccy: Currency) {
    Sum(bets, Liability(cfg.limits, r, ccy)) <= cfg.limits.maxRoundExposure
  }

  lemma NextKeepsLiability(cfg: Config, s: State, e: Event, r: RoundId, ccy: Currency)
    requires ReservesFirst(cfg) && Limits(cfg, s) && LiabilityCapped(cfg, s.store.bets, r, ccy)
    ensures LiabilityCapped(cfg, Next(cfg, s, e).store.bets, r, ccy)
  {
    if e.Step? {
      if e.call in s.calls && Enabled(cfg, s, s.calls[e.call]) {
        AdvanceKeepsLiability(cfg, s, e.call, e.ok, r, ccy);
      }
    } else if e.Settle? {
      SettleIsNoHeavier(cfg, Liability(cfg.limits, r, ccy), s.store.bets, e.round);
    } else {
      QuietKeepsRows(cfg, s, e);
    }
  }

  lemma AdvanceKeepsLiability(cfg: Config, s: State, c: CallId, ok: bool, r: RoundId, ccy: Currency)
    requires ReservesFirst(cfg) && Limits(cfg, s) && LiabilityCapped(cfg, s.store.bets, r, ccy)
    requires c in s.calls && Enabled(cfg, s, s.calls[c])
    ensures LiabilityCapped(cfg, Exec(cfg, s.store, s.calls[c], ok).0.bets, r, ccy)
  {
    var call, owed, open := s.calls[c], Liability(cfg.limits, r, ccy), Exposure(cfg.limits, r, ccy);
    ExecSums(cfg, s.store, call, ok, owed);
    if Inserts(cfg, s.store, call, ok) && Weight(owed, call.b) != 0 {
      assert NoCashOutYet(s.store.bets, r);
      SumAtMost(s.store.bets, owed, open);
      assert Limited(cfg, open, cfg.limits.maxRoundExposure);
      assert Room(s.store.bets, s.calls, open, cfg.limits.maxRoundExposure);
    }
  }

  lemma {:induction false} RunKeepsLiability(
      cfg: Config, opening: map<WalletId, nat>, events: seq<Event>, r: RoundId, ccy: Currency)
    requires ReservesFirst(cfg)
    ensures LiabilityCapped(cfg, Run(cfg, Init(opening), events).store.bets, r, ccy)
  {
    if events != [] {
      RunKeepsLimits(cfg, opening, events[..|events| - 1]);
      RunKeepsLiability(cfg, opening, events[..|events| - 1], r, ccy);
      NextKeepsLiability(cfg, Run(cfg, Init(opening), events[..|events| - 1]), events[|events| - 1], r, ccy);
    }
  }

  /** When reservations end before cash-outs begin, and the configured multiplier covers the
      highest crash point, a round never pays or owes more than the breaker allows. */
  lemma PaidWithinExposure(cfg: Config, opening: map<WalletId, nat>, events: seq<Event>, r: RoundId, ccy: Currency)
    requires ReservesFirst(cfg)
    ensures Sum(Run(cfg, Init(opening), events).store.bets, PaidOrOwed(r, ccy)) <= cfg.limits.maxRoundExposure
  {
    RunKeepsLiability(cfg, opening, events, r, ccy);
    SumAtMost(Run(cfg, Init(opening), events).store.bets, PaidOrOwed(r, ccy), Liability(cfg.limits, r, ccy));
  }
}
