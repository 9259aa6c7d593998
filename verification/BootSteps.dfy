/** The steps of boots and sweeps on the database, and what every one of them keeps. */
module BootSteps {
  import opened Domain
  import opened BetProtocol
  import opened BetMoney
  import opened RefundMask
  import opened RoundClosing
  import opened Sequential

  const PHASE_WAITING_MS: int := 3_000
  const RESUME_MAX_STALENESS_MS: int := 30_000

  datatype Reason = MissingSeed | CorruptCrashPoint | MissingPhaseEndsAt | Ancient | NoStartedAt

  /** Why a round cannot be resumed deterministically, if it cannot. */
  function UnresumableReason(row: RoundRow, info: RoundInfo, now: int): (reason: Option<Reason>)
    ensures reason == None <==>
      && info.seed && row.crash >= 100 && info.phaseEndsAt.Some?
      && (row.phase.Waiting? || row.phase.Betting? ==> now <= info.phaseEndsAt.value + 30_000)
      && (PostOutcome(row.phase) ==> info.startedAt.Some?)
  {
    if !info.seed then Some(MissingSeed)
    else if row.crash < 100 then Some(CorruptCrashPoint)
    else if info.phaseEndsAt.None? then Some(MissingPhaseEndsAt)
    else if (row.phase.Waiting? || row.phase.Betting?) && now - info.phaseEndsAt.value > RESUME_MAX_STALENESS_MS then
      Some(Ancient)
    else if PostOutcome(row.phase) && info.startedAt.None? then Some(NoStartedAt)
    else None
  }

  type Rounds = map<RoundId, RoundRow>
  type Infos = map<RoundId, RoundInfo>

  function OpenIn(rounds: Rounds): set<RoundId> {
    set r | r in rounds && IsOpen(rounds[r].phase)
  }

  predicate IsNewest(rounds: Rounds, info: Infos, r: RoundId)
    requires rounds.Keys <= info.Keys
  {
    r in OpenIn(rounds) && forall q :: q in OpenIn(rounds) ==> info[q].created <= info[r].created
  }

  /** No two open rounds were created at the same time, so that every boot sees the same newest one. */
  predicate WellTimed(rounds: Rounds, info: Infos) {
    && rounds.Keys <= info.Keys
    && forall q, r :: q in OpenIn(rounds) && r in OpenIn(rounds) && info[q].created == info[r].created ==> q == r
  }

  /** From now on, any boot refunds what is live on this round: the round is over without an
      outcome of its own, cannot be resumed, or is a stale one that has no outcome yet. */
  predicate WillRefund(rounds: Rounds, info: Infos, now: int, r: RoundId)
    requires rounds.Keys <= info.Keys
  {
    r in rounds
    && if rounds[r].phase.Completed? then true
       else if IsNewest(rounds, info, r) then UnresumableReason(rounds[r], info[r], now).Some?
       else !PostOutcome(rounds[r].phase)
  }

  /** The database as a boot finds it, and the clock of the node that boots. */
  datatype Db = Db(store: Store, info: Infos, now: int)

  /**
   * What boots and sweeps keep, wherever they stop: with every refunded bet shown as
   * cancelled the store is sound, and a bet is refunded only where nothing else can
   * become of it.
   */
  ghost predicate BootInv(cfg: Config, opening: map<WalletId, nat>, d: Db) {
    && WellTimed(d.store.rounds, d.info)
    && Sound(cfg, opening, Masked(d.store))
    && forall id :: id in d.store.bets && IsRefunded(d.store, id) ==>
         WillRefund(d.store.rounds, d.info, d.now, d.store.bets[id].slot.round)
  }

  /** Every store that the protocol leaves behind can be booted from. */
  lemma SoundIsBootable(cfg: Config, opening: map<WalletId, nat>, d: Db)
    requires Sound(cfg, opening, d.store) && WellTimed(d.store.rounds, d.info)
    ensures BootInv(cfg, opening, d)
  {
    SoundIsMasked(cfg, d.store);
    forall id | id in d.store.bets && IsRefunded(d.store, id)
      ensures false
    {
      RowFactsHold(cfg, d.store, id);
      assert false;
    }
  }

  lemma TimeKeepsPlan(rounds: Rounds, info: Infos, now: int, later: int, r: RoundId)
    requires rounds.Keys <= info.Keys && now <= later && WillRefund(rounds, info, now, r)
    ensures WillRefund(rounds, info, later, r)
  {
  }

  /** A round that was too old stays too old: the next boot may come later, or from a node whose
      clock is ahead, but not behind. */
  lemma TimePasses(cfg: Config, opening: map<WalletId, nat>, d: Db, now: int)
    requires BootInv(cfg, opening, d) && d.now <= now
    ensures BootInv(cfg, opening, d.(now := now))
  {
    forall id | id in d.store.bets && IsRefunded(d.store, id)
      ensures WillRefund(d.store.rounds, d.info, now, d.store.bets[id].slot.round)
    {
      TimeKeepsPlan(d.store.rounds, d.info, d.now, now, d.store.bets[id].slot.round);
    }
  }

  // ----- steps -----

  /** One step of a boot or a sweep; `oks` are the answers to the statements of a bet's step. */
  datatype BootStep =
    | RecoverStep(id: BetId, oks: seq<bool>)
    | RefundStep(id: BetId, oks: seq<bool>)
    | CashStep(id: BetId, mult: nat, oks: seq<bool>)
    | StampStep(r: RoundId)
    | BustStep(r: RoundId)
    | CrashStep(r: RoundId)
    | CloseStep(r: RoundId)
    | OpenStep(r: RoundId, crash: nat, created: nat)

  /** When a boot or a sweep takes the step. */
  predicate Legal(d: Db, a: BootStep)
    requires d.store.rounds.Keys <= d.info.Keys
  {
    var rounds, info := d.store.rounds, d.info;
    match a
    case RecoverStep(_, _) => true
    case RefundStep(id, _) =>
      HasStatus(d.store, id, Active) && WillRefund(rounds, info, d.now, d.store.bets[id].slot.round)
    case CashStep(id, _, _) => !IsRefunded(d.store, id)
    case StampStep(r) => r in info
    case BustStep(r) => !WillRefund(rounds, info, d.now, r)
    case CrashStep(r) => IsNewest(rounds, info, r) && rounds[r].phase.Running? && !WillRefund(rounds, info, d.now, r)
    case CloseStep(r) => r in OpenIn(rounds) && (IsNewest(rounds, info, r) ==> OpenIn(rounds) == {r})
    case OpenStep(r, _, _) => OpenIn(rounds) == {} && r !in rounds
  }

  /** The engine columns of a round that is opened now. */
  function FreshInfo(created: nat, now: int): RoundInfo {
    RoundInfo(created, true, None, Some(now + PHASE_WAITING_MS), None, None)
  }

  ghost function Take(cfg: Config, d: Db, a: BootStep): Db
    requires d.store.rounds.Keys <= d.info.Keys && Legal(d, a)
  {
    var st := d.store;
    match a
    case RecoverStep(id, oks) => d.(store := RunFrom(cfg, st, BeginRecover(0, id), oks))
    case RefundStep(id, oks) => d.(store := RefundAlone(st, id, oks))
    case CashStep(id, mult, oks) => d.(store := RunFrom(cfg, st, BeginCash(0, id, mult), oks))
    case StampStep(r) => d.(info := d.info[r := d.info[r].(crashedAt := Some(d.now))])
    case BustStep(r) => d.(store := st.(bets := BustActive(st.bets, r)))
    case CrashStep(r) =>
      Db(st.(rounds := st.rounds[r := st.rounds[r].(phase := Crashed)]),
        d.info[r := d.info[r].(crashedAt := Some(d.now))], d.now)
    case CloseStep(r) => Db(Close(st, r), d.info[r := d.info[r].(settledAt := Some(d.now))], d.now)
    case OpenStep(r, crash, created) =>
      Db(st.(rounds := st.rounds[r := RoundRow(Waiting, crash)]), d.info[r := FreshInfo(created, d.now)], d.now)
  }

  // ----- every step keeps the invariant -----

  /** Where rounds stay, whom the next boot refunds stays too. */
  lemma RefundsNobodyKeepsInv(cfg: Config, opening: map<WalletId, nat>, d: Db, st: Store)
    requires BootInv(cfg, opening, d) && Sound(cfg, opening, Masked(st)) && RefundsNobody(d.store, st)
    ensures BootInv(cfg, opening, d.(store := st))
  {
  }

  lemma RefundKeepsInv(cfg: Config, opening: map<WalletId, nat>, d: Db, id: BetId, oks: seq<bool>)
    requires BootInv(cfg, opening, d) && Legal(d, RefundStep(id, oks))
    ensures BootInv(cfg, opening, d.(store := RefundAlone(d.store, id, oks)))
  {
    RefundAloneKeepsSound(cfg, opening, d.store, id, oks);
    RefundAloneRefundsOnly(d.store, id, oks);
  }

  lemma MaskOfBust(st: Store, r: RoundId)
    requires forall id :: id in st.bets && IsRefunded(st, id) ==> st.bets[id].slot.round != r
    ensures Masked(st.(bets := BustActive(st.bets, r))).bets == BustActive(Masked(st).bets, r)
    ensures RefundsNobody(st, st.(bets := BustActive(st.bets, r)))
  {
  }

  lemma BustKeepsInv(cfg: Config, opening: map<WalletId, nat>, d: Db, r: RoundId)
    requires BootInv(cfg, opening, d) && !WillRefund(d.store.rounds, d.info, d.now, r)
    ensures BootInv(cfg, opening, d.(store := d.store.(bets := BustActive(d.store.bets, r))))
  {
    MaskOfBust(d.store, r);
    SettleKeepsStore(cfg, Masked(d.store), r);
    RefundsNobodyKeepsInv(cfg, opening, d, d.store.(bets := BustActive(d.store.bets, r)));
  }

  /** The columns on which it depends what a boot makes of a round. */
  predicate SameColumns(before: Infos, after: Infos) {
    && after.Keys == before.Keys
    && forall r :: r in before ==>
         after[r].created == before[r].created && after[r].seed == before[r].seed
         && after[r].startedAt == before[r].startedAt && after[r].phaseEndsAt == before[r].phaseEndsAt
  }

  lemma RoundsKeepMaskSound(cfg: Config, opening: map<WalletId, nat>, st: Store, rounds: Rounds)
    requires Sound(cfg, opening, Masked(st)) && RoundsGrow(st.rounds, rounds)
    ensures Sound(cfg, opening, Masked(st.(rounds := rounds)))
  {
    RoundsKeepStore(cfg, Masked(st), rounds);
    assert Masked(st.(rounds := rounds)) == Masked(st).(rounds := rounds);
  }

  /** A write to rounds is harmless if no round that was to be refunded is so no longer. */
  lemma RoundWriteKeepsInv(cfg: Config, opening: map<WalletId, nat>, d: Db, rounds: Rounds, info: Infos)
    requires BootInv(cfg, opening, d) && RoundsGrow(d.store.rounds, rounds) && WellTimed(rounds, info)
    requires forall r :: WillRefund(d.store.rounds, d.info, d.now, r) ==> WillRefund(rounds, info, d.now, r)
    ensures BootInv(cfg, opening, Db(d.store.(rounds := rounds), info, d.now))
  {
    RoundsKeepMaskSound(cfg, opening, d.store, rounds);
  }

  lemma StampKeepsPlan(rounds: Rounds, before: Infos, after: Infos, now: int)
    requires WellTimed(rounds, before) && SameColumns(before, after)
    ensures WellTimed(rounds, after)
    ensures forall r :: WillRefund(rounds, before, now, r) <==> WillRefund(rounds, after, now, r)
  {
    assert forall r :: IsNewest(rounds, before, r) <==> IsNewest(rounds, after, r);
  }

  lemma CrashKeepsPlan(before: Rounds, info: Infos, now: int, r: RoundId)
    requires WellTimed(before, info) && IsNewest(before, info, r) && before[r].phase.Running?
    ensures var after := before[r := before[r].(phase := Crashed)];
      WellTimed(after, info) && forall q :: WillRefund(before, info, now, q) <==> WillRefund(after, info, now, q)
  {
    var after := before[r := before[r].(phase := Crashed)];
    assert OpenIn(after) == OpenIn(before);
    assert forall q :: IsNewest(before, info, q) <==> IsNewest(after, info, q);
  }

  /** The newest round is closed last, so that no stale round takes its place. */
  lemma CloseKeepsPlan(before: Rounds, info: Infos, now: int, r: RoundId)
    requires WellTimed(before, info) && r in OpenIn(before) && (IsNewest(before, info, r) ==> OpenIn(before) == {r})
    ensures var after := before[r := before[r].(phase := Completed)];
      WellTimed(after, info) && forall q :: WillRefund(before, info, now, q) ==> WillRefund(after, info, now, q)
  {
    var after := before[r := before[r].(phase := Completed)];
    assert forall q :: q in OpenIn(after) <==> q in OpenIn(before) && q != r;
    forall q | q in OpenIn(after) && IsNewest(after, info, q)
      ensures IsNewest(before, info, q)
    {
      NewestRemains(before, info, r, q);
    }
    assert forall q :: q in OpenIn(after) && IsNewest(before, info, q) ==> IsNewest(after, info, q);
  }

  /** A round is opened only when all others are closed. */
  lemma OpenKeepsPlan(before: Rounds, info: Infos, now: int, r: RoundId, crash: nat, created: nat)
    requires WellTimed(before, info) && OpenIn(before) == {} && r !in before
    ensures var after, info' := before[r := RoundRow(Waiting, crash)], info[r := FreshInfo(created, now)];
      WellTimed(after, info') && forall q :: WillRefund(before, info, now, q) ==> WillRefund(after, info', now, q)
  {
    var after := before[r := RoundRow(Waiting, crash)];
    assert forall q :: q in OpenIn(after) ==> q == r || q in OpenIn(before);
    forall q | q in before
      ensures before[q].phase.Completed?
    {
      assert q !in OpenIn(before);
    }
  }

  lemma NewestRemains(before: Rounds, info: Infos, r: RoundId, q: RoundId)
    requires before.Keys <= info.Keys && r in OpenIn(before) && q in OpenIn(before) && q != r
    requires IsNewest(before, info, r) ==> OpenIn(before) == {r}
    requires forall p :: p in OpenIn(before) && p != r ==> info[p].created <= info[q].created
    ensures IsNewest(before, info, q)
  {
  }

  lemma StepKeepsInv(cfg: Config, opening: map<WalletId, nat>, d: Db, a: BootStep)
    requires BootInv(cfg, opening, d) && Legal(d, a)
    ensures BootInv(cfg, opening, Take(cfg, d, a))
  {
    var rounds, info := d.store.rounds, d.info;
    match a
    case RecoverStep(id, oks) =>
      RunFromKeepsMaskSound(cfg, opening, d.store, BeginRecover(0, id), oks);
      RefundsNobodyKeepsInv(cfg, opening, d, Take(cfg, d, a).store);
    case CashStep(id, mult, oks) =>
      RunFromKeepsMaskSound(cfg, opening, d.store, BeginCash(0, id, mult), oks);
      RefundsNobodyKeepsInv(cfg, opening, d, Take(cfg, d, a).store);
    case RefundStep(id, oks) =>
      RefundKeepsInv(cfg, opening, d, id, oks);
    case BustStep(r) =>
      BustKeepsInv(cfg, opening, d, r);
    case OpenStep(r, crash, created) =>
      OpenKeepsPlan(rounds, info, d.now, r, crash, created);
      RoundWriteKeepsInv(cfg, opening, d, Take(cfg, d, a).store.rounds, Take(cfg, d, a).info);
    case _ =>
      RoundStepKeepsInv(cfg, opening, d, a);
  }

  lemma RoundStepKeepsInv(cfg: Config, opening: map<WalletId, nat>, d: Db, a: BootStep)
    requires BootInv(cfg, opening, d) && Legal(d, a) && (a.StampStep? || a.CrashStep? || a.CloseStep?)
    ensures BootInv(cfg, opening, Take(cfg, d, a))
  {
    var d' := Take(cfg, d, a);
    if a.CrashStep? {
      CrashKeepsPlan(d.store.rounds, d.info, d.now, a.r);
    } else if a.CloseStep? {
      CloseKeepsPlan(d.store.rounds, d.info, d.now, a.r);
    }
    StampKeepsPlan(d'.store.rounds, d.info, d'.info, d.now);
    RoundWriteKeepsInv(cfg, opening, d, d'.store.rounds, d'.info);
  }

  // ----- many steps -----

  /** The steps of `log` lead from one database to the other. */
  ghost predicate Leads(cfg: Config, before: Db, log: seq<BootStep>, after: Db)
    decreases |log|
  {
    if log == [] then after == before
    else
      before.store.rounds.Keys <= before.info.Keys && Legal(before, log[0])
      && Leads(cfg, Take(cfg, before, log[0]), log[1..], after)
  }

  lemma {:induction false} LeadsKeepsInv(
      cfg: Config, opening: map<WalletId, nat>, before: Db, log: seq<BootStep>, after: Db)
    requires BootInv(cfg, opening, before) && Leads(cfg, before, log, after)
    ensures BootInv(cfg, opening, after) && after.now == before.now
    decreases |log|
  {
    if log != [] {
      StepKeepsInv(cfg, opening, before, log[0]);
      LeadsKeepsInv(cfg, opening, Take(cfg, before, log[0]), log[1..], after);
    }
  }

  lemma {:induction false} LeadsOn(cfg: Config, a: Db, first: seq<BootStep>, b: Db, second: seq<BootStep>, c: Db)
    requires Leads(cfg, a, first, b) && Leads(cfg, b, second, c)
    ensures Leads(cfg, a, first + second, c)
    decreases |first|
  {
    if first == [] {
      assert first + second == second;
    } else {
      LeadsOn(cfg, Take(cfg, a, first[0]), first[1..], b, second, c);
      assert (first + second)[1..] == first[1..] + second;
    }
  }

  ghost predicate Reaches(cfg: Config, before: Db, after: Db) {
    exists log :: Leads(cfg, before, log, after)
  }

  /** What a boot or a sweep that began at `before` has come to. */
  ghost predicate Booted(cfg: Config, opening: map<WalletId, nat>, before: Db, after: Db) {
    BootInv(cfg, opening, after) && Reaches(cfg, before, after) && after.now == before.now
  }

  lemma BootBegins(cfg: Config, opening: map<WalletId, nat>, d: Db)
    requires BootInv(cfg, opening, d)
    ensures Booted(cfg, opening, d, d)
  {
    assert Leads(cfg, d, [], d);
  }

  lemma BootGoesOn(cfg: Config, opening: map<WalletId, nat>, a: Db, b: Db, step: BootStep)
    requires Booted(cfg, opening, a, b) && Legal(b, step)
    ensures Booted(cfg, opening, a, Take(cfg, b, step))
  {
    var log :| Leads(cfg, a, log, b);
    var c := Take(cfg, b, step);
    assert Leads(cfg, c, [step][1..], c);
    assert Leads(cfg, b, [step], c);
    LeadsOn(cfg, a, log, b, [step], c);
    StepKeepsInv(cfg, opening, b, step);
  }

  lemma BootOfTwo(cfg: Config, opening: map<WalletId, nat>, a: Db, b: Db, c: Db)
    requires Booted(cfg, opening, a, b) && Booted(cfg, opening, b, c)
    ensures Booted(cfg, opening, a, c)
  {
    var first :| Leads(cfg, a, first, b);
    var second :| Leads(cfg, b, second, c);
    LeadsOn(cfg, a, first, b, second, c);
  }

  /** Cash-outs of bets that are not refunded are steps too. */
  lemma {:induction false} CashOutsGoOn(cfg: Config, opening: map<WalletId, nat>, a: Db, b: Db, log: seq<Alone>)
    requires Booted(cfg, opening, a, b)
    requires forall i :: 0 <= i < |log| ==>
      log[i].e.BeginCash? && log[i].e.call == 0 && !IsRefunded(b.store, log[i].e.id)
    ensures Booted(cfg, opening, a, b.(store := Replay(cfg, b.store, log)))
    ensures RefundsNobody(b.store, Replay(cfg, b.store, log))
  {
    if |log| == 0 {
      assert b.(store := Replay(cfg, b.store, log)) == b;
    } else {
      var last, c := log[|log| - 1], b.(store := Replay(cfg, b.store, log[..|log| - 1]));
      CashOutsGoOn(cfg, opening, a, b, log[..|log| - 1]);
      RunFromIsMasked(cfg, c.store, last.e, last.oks);
      BootGoesOn(cfg, opening, a, c, CashStep(last.e.id, last.e.mult, last.oks));
    }
  }
}
