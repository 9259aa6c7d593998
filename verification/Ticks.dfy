/** Auto-cashout ticks, and the outcome of a round that a new leader resumes after its crash. */
module Ticks {
  import opened Domain
  import opened Ledger
  import opened BetProtocol
  import opened BetMoney
  import opened BetRows
  import opened Sequential

  /** Which statements of each bet's cash-out succeed in one tick; an empty plan is a dead process. */
  type Plan = BetId -> seq<bool>

  datatype Tick = Tick(multiplier: nat, plan: Plan)

  predicate ClaimOk(oks: seq<bool>) {
    |oks| > 0 && oks[0]
  }

  /** The claim succeeds and the process lives to record the win as owed if the credit fails. */
  predicate Lives(oks: seq<bool>) {
    |oks| > 2 && oks[0] && oks[2]
  }

  /** The query of a tick: the active bets of the round whose target has been reached. */
  predicate Due(st: Store, id: BetId, r: RoundId, multiplier: nat) {
    HasStatus(st, id, Active) && st.bets[id].slot.round == r
    && st.bets[id].auto.Some? && st.bets[id].auto.value <= multiplier
  }

  /** A due bet that passes the crash gate. */
  predicate Pays(st: Store, id: BetId, r: RoundId, multiplier: nat) {
    Due(st, id, r, multiplier) && r in st.rounds && st.rounds[r].phase.Running?
      && st.bets[id].auto.value < st.rounds[r].crash
  }

  predicate BelowCrash(b: Bet, crash: nat) {
    b.auto.Some? && b.auto.value < crash
  }

  /** `after` is the win of `before` at exactly its target, paid or owed. */
  predicate WonAtTarget(cfg: Config, before: Bet, after: Bet) {
    before.auto.Some?
    && var row := Claimed(cfg, before, before.auto.value);
    after == row || after == row.(status := PayoutPending)
  }

  predicate PaidOrRecorded(st: Store, id: BetId) {
    id in st.bets && (st.bets[id].status.PayoutPending? || Has(st.book, PayoutKey(id)))
  }

  /** What one tick does to one bet. */
  predicate BetTicked(cfg: Config, before: Store, after: Store, r: RoundId, tick: Tick, id: BetId)
    requires id in before.bets && id in after.bets
  {
    if Pays(before, id, r, tick.multiplier) && ClaimOk(tick.plan(id)) then
      && WonAtTarget(cfg, before.bets[id], after.bets[id])
      && (Lives(tick.plan(id)) ==> PaidOrRecorded(after, id))
    else after.bets[id] == before.bets[id]
  }

  ghost predicate BookKept(before: Book, after: Book) {
    forall k :: Has(before, k) ==> Has(after, k) && Find(after.rows, k) == Find(before.rows, k)
  }

  ghost predicate Ticked(cfg: Config, before: Store, after: Store, r: RoundId, tick: Tick) {
    && after.rounds == before.rounds && after.bets.Keys == before.bets.Keys
    && BookKept(before.book, after.book)
    && forall id :: id in before.bets ==> BetTicked(cfg, before, after, r, tick, id)
  }

  // ----- one auto-cashout -----

  /** A cash-out run alone at the target of a bet that passes the gate. */
  lemma CashOutWins(cfg: Config, st: Store, id: BetId, oks: seq<bool>)
    requires HasStatus(st, id, Active) && st.bets[id].auto.Some? && ClaimOk(oks)
    requires Pays(st, id, st.bets[id].slot.round, st.bets[id].auto.value)
    ensures var st' := RunFrom(cfg, st, BeginCash(0, id, st.bets[id].auto.value), oks);
      && id in st'.bets && WonAtTarget(cfg, st.bets[id], st'.bets[id])
      && (Lives(oks) ==> PaidOrRecorded(st', id))
  {
    var b, mult := st.bets[id], st.bets[id].auto.value;
    var row := Claimed(cfg, b, mult);
    var claimed := st.(bets := st.bets[id := row]);
    RunCallStep(cfg, st, CashClaim(id, b, mult), oks);
    assert RunFrom(cfg, st, BeginCash(0, id, mult), oks) == RunCall(cfg, claimed, CashCredit(id, row), oks[1..]);
    CreditOrPend(cfg, claimed, id, row, oks[1..]);
  }

  lemma CreditOrPend(cfg: Config, st: Store, id: BetId, row: Bet, oks: seq<bool>)
    requires id in st.bets && st.bets[id] == row && row.status.CashedOut?
    ensures var st' := RunCall(cfg, st, CashCredit(id, row), oks);
      && id in st'.bets && (st'.bets[id] == row || st'.bets[id] == row.(status := PayoutPending))
      && (|oks| > 1 && oks[1] ==> PaidOrRecorded(st', id))
  {
    RunCallStep(cfg, st, CashCredit(id, row), oks);
    PostGrows(st.book, PayoutCreditOp(id, row));
    if |oks| > 0 && Exec(cfg, st, CashCredit(id, row), oks[0]).1.Continue? {
      RunCallStep(cfg, st, CashPend(id, row), oks[1..]);
    }
  }

  /** A cash-out that fails the gate or its claim leaves everything as it was. */
  lemma CashOutLoses(cfg: Config, st: Store, id: BetId, mult: nat, oks: seq<bool>)
    requires id in st.bets
    requires !ClaimOk(oks) || !HasStatus(st, id, Active) || st.bets[id].slot.round !in st.rounds
          || !st.rounds[st.bets[id].slot.round].phase.Running? || mult >= st.rounds[st.bets[id].slot.round].crash
    ensures RunFrom(cfg, st, BeginCash(0, id, mult), oks) == st
  {
    if FirstRead(cfg, st, BeginCash(0, id, mult)).Some? {
      RunCallStep(cfg, st, CashClaim(id, st.bets[id], mult), oks);
    }
  }

  // ----- one tick, bet by bet -----

  /** The tick has handled all due bets but those in `left`. */
  ghost predicate TickedBut(cfg: Config, start: Store, now: Store, r: RoundId, tick: Tick, left: set<BetId>) {
    && now.rounds == start.rounds && now.bets.Keys == start.bets.Keys
    && BookKept(start.book, now.book)
    && (forall id :: id in left ==>
          Due(start, id, r, tick.multiplier) && id in now.bets && now.bets[id] == start.bets[id])
    && (forall id :: id in start.bets && id !in left ==> BetTicked(cfg, start, now, r, tick, id))
  }

  lemma {:induction false} CashOutTouchesOnly(cfg: Config, st: Store, call: Call, oks: seq<bool>)
    requires call.CashClaim? || call.CashCredit? || call.CashPend?
    requires call.id in st.bets ==> SameBet(call.b, st.bets[call.id])
    ensures TouchesOnly(st, RunCall(cfg, st, call, oks), call.id, call.b)
    decreases |oks|
  {
    RunCallStep(cfg, st, call, oks);
    if |oks| != 0 {
      var (st', after) := Exec(cfg, st, call, oks[0]);
      ExecTouchesOnly(cfg, st, call, oks[0]);
      if after.Continue? {
        CashGoesOn(cfg, st, call, oks[0]);
        CashOutTouchesOnly(cfg, st', after.call, oks[1..]);
        TouchesTwice(st, st', RunCall(cfg, st', after.call, oks[1..]), call.id, call.b, after.call.b);
      }
    }
  }

  lemma CashGoesOn(cfg: Config, st: Store, call: Call, ok: bool)
    requires call.CashClaim? || call.CashCredit? || call.CashPend?
    requires call.id in st.bets ==> SameBet(call.b, st.bets[call.id])
    ensures var (st', after) := Exec(cfg, st, call, ok);
      after.Continue? ==>
        && (after.call.CashCredit? || after.call.CashPend?) && after.call.id == call.id
              && after.call.b.slot == call.b.slot
        && (call.id in st'.bets ==> SameBet(after.call.b, st'.bets[call.id]))
  {
  }

  lemma CashOutTicks(cfg: Config, start: Store, before: Store, r: RoundId, tick: Tick, id: BetId)
    requires Due(start, id, r, tick.multiplier)
    requires id in before.bets && before.bets[id] == start.bets[id] && before.rounds == start.rounds
    ensures var after := RunFrom(cfg, before, BeginCash(0, id, start.bets[id].auto.value), tick.plan(id));
      id in after.bets && BetTicked(cfg, start, after, r, tick, id)
  {
    if ClaimOk(tick.plan(id)) && Pays(start, id, r, tick.multiplier) {
      CashOutWins(cfg, before, id, tick.plan(id));
    } else {
      CashOutLoses(cfg, before, id, start.bets[id].auto.value, tick.plan(id));
    }
  }

  lemma OthersStayTicked(
      cfg: Config, start: Store, before: Store, after: Store, r: RoundId, tick: Tick, id: BetId, at: BetId)
    requires at in before.bets && TouchesOnly(before, after, at, before.bets[at]) && id != at
    requires id in start.bets && id in before.bets && BetTicked(cfg, start, before, r, tick, id)
    ensures id in after.bets && BetTicked(cfg, start, after, r, tick, id)
  {
    OtherRowIsSame(before.bets, after.bets, at, id);
  }

  /** One iteration of the tick's loop. */
  lemma TickOneMore(cfg: Config, start: Store, before: Store, r: RoundId, tick: Tick, left: set<BetId>, id: BetId)
    requires TickedBut(cfg, start, before, r, tick, left) && id in left
    ensures TickedBut(cfg, start, RunFrom(cfg, before, BeginCash(0, id, start.bets[id].auto.value), tick.plan(id)), r,
      tick, left - {id})
  {
    var e := BeginCash(0, id, start.bets[id].auto.value);
    var after := RunFrom(cfg, before, e, tick.plan(id));
    assert TouchesOnly(before, after, id, before.bets[id]) by {
      if FirstRead(cfg, before, e).Some? {
        CashOutTouchesOnly(cfg, before, FirstRead(cfg, before, e).value, tick.plan(id));
      }
    }
    CashOutTicks(cfg, start, before, r, tick, id);
    forall other | other in start.bets && other != id
      ensures other in after.bets && after.bets[other] == before.bets[other]
      ensures other !in left ==> BetTicked(cfg, start, after, r, tick, other)
    {
      OtherRowIsSame(before.bets, after.bets, id, other);
      if other !in left {
        OthersStayTicked(cfg, start, before, after, r, tick, other, id);
      }
    }
    KeysAreSame(before, after, id);
  }

  lemma KeysAreSame(before: Store, after: Store, at: BetId)
    requires before.bets - {at} == after.bets - {at} && at in before.bets && at in after.bets
    ensures before.bets.Keys == after.bets.Keys
  {
    forall id | id != at
      ensures id in before.bets <==> id in after.bets
    {
      OtherRowIsSame(before.bets, after.bets, at, id);
    }
  }

  // ----- from tick to tick -----

  /** The bet is still open, or it has won at exactly its target. */
  predicate OnTrack(cfg: Config, first: Bet, now: Bet) {
    now == first || WonAtTarget(cfg, first, now)
  }

  ghost predicate Chain(cfg: Config, stores: seq<Store>, ticks: seq<Tick>, r: RoundId) {
    && |stores| == |ticks| + 1
    && forall i :: 0 <= i < |ticks| ==> Ticked(cfg, stores[i], stores[i + 1], r, ticks[i])
  }

  lemma {:induction false} ChainStaysOnTrack(cfg: Config, stores: seq<Store>, ticks: seq<Tick>, r: RoundId, id: BetId)
    requires Chain(cfg, stores, ticks, r) && HasStatus(stores[0], id, Active)
    ensures var last := stores[|ticks|];
      && last.rounds == stores[0].rounds && id in last.bets && OnTrack(cfg, stores[0].bets[id], last.bets[id])
      && (last.bets[id] != stores[0].bets[id] ==>
            r in last.rounds && BelowCrash(stores[0].bets[id], last.rounds[r].crash))
  {
    if |ticks| != 0 {
      ChainStaysOnTrack(cfg, stores[..|ticks|], ticks[..|ticks| - 1], r, id);
      assert Ticked(cfg, stores[|ticks| - 1], stores[|ticks|], r, ticks[|ticks| - 1]);
      assert BetTicked(cfg, stores[|ticks| - 1], stores[|ticks|], r, ticks[|ticks| - 1], id);
    }
  }

  // ----- the outcome of a resumed round -----

  /** The outcome the crash point commits an open bet to. */
  predicate Fate(cfg: Config, crash: nat, first: Bet, final: Bet) {
    if BelowCrash(first, crash) then WonAtTarget(cfg, first, final)
    else final == first.(status := Busted)
  }

  /** What settling the round makes of one bet. */
  function AfterSettle(b: Bet, r: RoundId): Bet {
    if b.slot.round == r && b.status.Active? then b.(status := Busted) else b
  }

  lemma OutcomeOf(cfg: Config, crash: nat, r: RoundId, first: Bet, last: Bet, resumed: Bet, claimed: bool)
    requires first.status.Active? && first.slot.round == r && OnTrack(cfg, first, last)
    requires if last.status.Active? && BelowCrash(last, crash) && claimed then WonAtTarget(cfg, last, resumed)
      else resumed == last
    ensures last == first || BelowCrash(first, crash) ==>
      (Fate(cfg, crash, first, AfterSettle(resumed, r)) <==> !BelowCrash(first, crash) || last != first || claimed)
    ensures last == first && BelowCrash(first, crash) && !claimed ==>
      AfterSettle(resumed, r) == first.(status := Busted)
  {
  }

  /**
   * A bet that was open when the round was running, and has since been touched by auto-cashouts
   * only, is resumed and settled. It gets exactly the outcome that the crash point commits it
   * to, unless the database refuses the very claim of its resumed cash-out: then, and only
   * then, a bet that should have won is busted. A win that the resume claims is credited or
   * recorded as owed when the process lives through it.
   */
  lemma ResumedOutcome(
      cfg: Config, first: Store, last: Store, resumed: Store, r: RoundId, resume: Tick, id: BetId)
    requires HasStatus(first, id, Active) && first.bets[id].slot.round == r
    requires r in last.rounds && last.rounds[r].phase.Running? && resume.multiplier == last.rounds[r].crash
    requires id in last.bets && OnTrack(cfg, first.bets[id], last.bets[id])
    requires last.bets[id] == first.bets[id] || BelowCrash(first.bets[id], last.rounds[r].crash)
    requires id in resumed.bets && Ticked(cfg, last, resumed, r, resume)
    ensures var b, final, crash := first.bets[id], AfterSettle(resumed.bets[id], r), last.rounds[r].crash;
      && BustActive(resumed.bets, r)[id] == final
      && (Fate(cfg, crash, b, final) <==> !BelowCrash(b, crash) || last.bets[id] != b || ClaimOk(resume.plan(id)))
      && (!Fate(cfg, crash, b, final) ==> final == b.(status := Busted))
    ensures last.bets[id] == first.bets[id] && BelowCrash(first.bets[id], last.rounds[r].crash) ==>
      Lives(resume.plan(id)) ==> PaidOrRecorded(resumed, id)
  {
    assert BetTicked(cfg, last, resumed, r, resume, id);
    OutcomeOf(cfg, last.rounds[r].crash, r, first.bets[id], last.bets[id], resumed.bets[id], ClaimOk(resume.plan(id)));
  }

  /**
   * Failover confluence: two leaders that died after any ticks of their own, each followed by
   * a resume whose claims are not refused, leave every bet in the same final state, up to
   * whether a win is already paid or still owed.
   */
  lemma Confluence(
      cfg: Config, a: seq<Store>, ticksA: seq<Tick>, resumedA: Store, resumeA: Tick,
      b: seq<Store>, ticksB: seq<Tick>, resumedB: Store, resumeB: Tick, r: RoundId, id: BetId)
    requires Chain(cfg, a, ticksA, r) && Chain(cfg, b, ticksB, r) && a[0] == b[0]
    requires HasStatus(a[0], id, Active) && a[0].bets[id].slot.round == r
    requires r in a[0].rounds && a[0].rounds[r].phase.Running?
    requires resumeA.multiplier == resumeB.multiplier == a[0].rounds[r].crash
    requires Ticked(cfg, a[|ticksA|], resumedA, r, resumeA) && Ticked(cfg, b[|ticksB|], resumedB, r, resumeB)
    requires ClaimOk(resumeA.plan(id)) && ClaimOk(resumeB.plan(id))
    ensures id in resumedA.bets && id in resumedB.bets
    ensures var x, y := AfterSettle(resumedA.bets[id], r), AfterSettle(resumedB.bets[id], r);
      && Fate(cfg, a[0].rounds[r].crash, a[0].bets[id], x)
      && x.payout == y.payout && x.mult == y.mult && IsWon(x.status) == IsWon(y.status) && (!IsWon(x.status) ==> x == y)
  {
    ChainStaysOnTrack(cfg, a, ticksA, r, id);
    ChainStaysOnTrack(cfg, b, ticksB, r, id);
    ResumedOutcome(cfg, a[0], a[|ticksA|], resumedA, r, resumeA, id);
    ResumedOutcome(cfg, b[0], b[|ticksB|], resumedB, r, resumeB, id);
  }
}
