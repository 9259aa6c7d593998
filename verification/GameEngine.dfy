/** Boot recovery and failover resume of the game engine. */
module GameEngine {
  import opened Domain
  import opened Ledger
  import opened BetProtocol
  import opened Sequential
  import opened Ticks
  import opened SlotRecovery
  import opened RoundClosing
  import opened BootSteps
  import opened BetsService

  /** Which statements of the closing of a round succeed. Where the process has died, none do. */
  datatype Closing = Closing(stamped: bool, busted: bool, completed: bool)

  /** The answers of the database and of the fence checks during one boot. */
  datatype BootPlan = BootPlan(
    sweep: Plan, slots: Plan, refunds: Plan, cashOuts: Plan, closings: RoundId -> Closing,
    payFence: bool, crashFence: bool, crashWritten: bool, created: bool)
  {
    /** The elapsed crash of a resumed round is written. */
    predicate Crashes() {
      payFence && crashFence && crashWritten
    }

    function Closes(): ClosePlan {
      ClosePlan((r: RoundId) => closings(r).busted, refunds)
    }
  }

  function OpenRounds(st: Store): set<RoundId> {
    OpenIn(st.rounds)
  }

  /** What resuming a round does to the store, by the phase it is found in. */
  ghost predicate RoundResumed(cfg: Config, before: Store, after: Store, r: RoundId, elapsed: bool, plan: BootPlan) {
    r in before.rounds
    && match before.rounds[r].phase
       case Running =>
         if elapsed && plan.payFence then
           && after.rounds == (if plan.Crashes() then before.rounds[r := before.rounds[r].(phase := Crashed)]
                else before.rounds)
           && Ticked(cfg, before, after.(rounds := before.rounds), r, Tick(before.rounds[r].crash, plan.cashOuts))
         else after == before
       case Settling => after == if plan.closings(r).busted then before.(bets := BustActive(before.bets, r)) else before
       case _ => after == before
  }

  /** The selection of the stranded-bet sweep: active, on a round completed long enough ago without a crash. */
  predicate IsStranded(st: Store, info: map<RoundId, RoundInfo>, id: BetId, cutoff: int) {
    HasStatus(st, id, Active)
    && var r := st.bets[id].slot.round;
    r in st.rounds && st.rounds[r].phase.Completed? && r in info
    && info[r].crashedAt.None? && info[r].settledAt.Some? && info[r].settledAt.value < cutoff
  }

  /** Stranded bets are refunded as far as their statements succeed: all of them, or a hundred. */
  ghost predicate Swept(
      before: Store, after: Store, info: Infos, handled: set<BetId>, plan: Plan, cutoff: int) {
    && RefundPass(before, after, handled, plan)
    && (forall id :: id in handled ==> IsStranded(before, info, id, cutoff))
    && (|handled| < 100 ==> forall id :: IsStranded(before, info, id, cutoff) ==> id in handled)
  }

  /** Crashing a round stamps its crash time; resuming a crashed one does so only if the stamp is missing. */
  predicate StampsCrash(phase: Phase, info: RoundInfo, crashes: bool, stamped: bool) {
    (phase.Running? && crashes) || (phase.Crashed? && info.crashedAt.None? && stamped)
  }

  /** The columns that resuming a round leaves. */
  function ResumedInfo(before: Db, r: RoundId, elapsed: bool, plan: BootPlan): Infos
    requires r in before.store.rounds && r in before.info
  {
    if StampsCrash(before.store.rounds[r].phase, before.info[r], elapsed && plan.Crashes(), plan.closings(r).stamped)
    then before.info[r := before.info[r].(crashedAt := Some(before.now))] else before.info
  }

  /** The next round is opened, unless the fence check or the insert fails. */
  function Opened(d: Db, plan: BootPlan, next: RoundId, crash: nat, created: nat): Db {
    if !plan.created then d
    else
      d.(store := d.store.(rounds := d.store.rounds[next := RoundRow(Waiting, crash)]),
         info := d.info[next := FreshInfo(created, d.now)])
  }

  // ----- how far a boot gets -----

  /** A slot's recovery does not stop the loop: the process lives, and a claim does not throw. */
  predicate PassesSlot(b: Bet, oks: seq<bool>) {
    if b.status.Reserving? then |oks| >= 4 && oks[0] else |oks| >= 3
  }

  ghost predicate AllSlotsPass(st: Store, plan: Plan) {
    forall id :: IsSlot(st, id) ==> PassesSlot(st.bets[id], plan(id))
  }

  /** A pass that no slot has stopped has recovered each slot whose own statements succeeded. */
  ghost predicate SlotsRecovered(before: Store, after: Store, plan: Plan) {
    RecoverPass(before, after) && forall id :: IsSlot(before, id) && AllOk(plan(id)) ==> SlotDone(before, after, id)
  }

  /** A stale round can be closed: it is completed, and stamped first if its crash time is missing. */
  predicate CanClose(phase: Phase, info: RoundInfo, closing: Closing) {
    closing.completed && (PostOutcome(phase) && info.crashedAt.None? ==> closing.stamped)
  }

  /** The columns of a stale round that is closed now. */
  function ClosedInfo(phase: Phase, info: RoundInfo, now: int): RoundInfo {
    info.(crashedAt := if PostOutcome(phase) && info.crashedAt.None? then Some(now) else info.crashedAt,
      settledAt := Some(now))
  }

  ghost predicate InfoClosed(start: Db, info: Infos, done: set<RoundId>) {
    && info.Keys == start.info.Keys && done <= start.store.rounds.Keys
    && forall r :: r in info ==>
         info[r] == if r in done then ClosedInfo(start.store.rounds[r].phase, start.info[r], start.now)
           else start.info[r]
  }

  /** Nothing stops a boot that finds these rounds: the newest is resumed or completed, the others are closed. */
  ghost predicate AllClose(d: Db, plan: BootPlan)
    requires d.store.rounds.Keys <= d.info.Keys
  {
    forall r :: r in OpenRounds(d.store) ==>
      if IsNewest(d.store.rounds, d.info, r) then
        UnresumableReason(d.store.rounds[r], d.info[r], d.now) == None || plan.closings(r).completed
      else CanClose(d.store.rounds[r].phase, d.info[r], plan.closings(r))
  }

  /** A boot in between: once stranded reservations are recovered, and once all open rounds but the
      newest, the `candidate`, are closed. */
  datatype Boot = Boot(cleared: Db, candidate: Option<RoundId>, closed: Db, resumed: bool)

  /** A start in between: once stranded bets are swept, and once the boot is over. */
  datatype StartRun = StartRun(swept: Db, handled: set<BetId>, boot: Boot, booted: Db)

  ghost predicate NewestDone(
      cfg: Config, closed: Db, after: Db, r: RoundId, resumed: bool, elapsed: bool, plan: BootPlan)
    requires r in closed.store.rounds && r in closed.info
  {
    if resumed then
      && RoundResumed(cfg, closed.store, after.store, r, elapsed, plan)
      && after.info == ResumedInfo(closed, r, elapsed, plan)
    else
      && RoundRefunded(closed.store, after.store, r, plan.refunds)
      && after.info == closed.info[r := closed.info[r].(settledAt := Some(closed.now))]
  }

  /** The stale rounds are closed by their outcome, and the newest one is resumed if its row allows it. */
  ghost predicate RoundsDone(cfg: Config, b: Boot, after: Db, r: RoundId, elapsed: bool, plan: BootPlan)
    requires b.cleared.store.rounds.Keys <= b.cleared.info.Keys
  {
    && IsNewest(b.cleared.store.rounds, b.cleared.info, r)
    && StaleClosed(b.cleared.store, b.closed.store, OpenRounds(b.cleared.store) - {r}, plan.Closes())
    && InfoClosed(b.cleared, b.closed.info, OpenRounds(b.cleared.store) - {r}) && b.closed.now == b.cleared.now
    && b.resumed == (UnresumableReason(b.cleared.store.rounds[r], b.cleared.info[r], b.cleared.now) == None)
    && NewestDone(cfg, b.closed, after, r, b.resumed, elapsed, plan)
  }

  /** What a boot that nothing stopped has done. */
  ghost predicate BootDone(cfg: Config, before: Db, b: Boot, after: Db, elapsed: bool, plan: BootPlan)
    requires before.store.rounds.Keys <= before.info.Keys
  {
    && b.cleared == before.(store := b.cleared.store) && SlotsRecovered(before.store, b.cleared.store, plan.slots)
    && match b.candidate
       case None => OpenRounds(b.cleared.store) == {} && after == b.cleared && !b.resumed
       case Some(r) => RoundsDone(cfg, b, after, r, elapsed, plan)
  }

  class GameEngine {
    const cfg: Config
    const db: Database
    const bets: BetsService

    constructor (cfg: Config, db: Database, bets: BetsService)
      requires bets.db == db && bets.cfg == cfg
      ensures this.cfg == cfg && this.db == db && this.bets == bets
    {
      this.cfg := cfg;
      this.db := db;
      this.bets := bets;
    }

    ghost predicate Wired() {
      bets.db == db && bets.cfg == cfg
    }

    /** The database as the node sees it at this moment of its clock. */
    ghost function At(now: int): Db
      reads db
    {
      Db(db.store, db.info, now)
    }

    // ----- stranded reservations -----

    /** Claim the slot, look for its debit, then refund or drop it. Not `alive` means that the
        process died, or that the claim threw and ended the loop. */
    method RecoverOne(id: BetId, oks: seq<bool>) returns (alive: bool)
      requires Wired() && IsSlot(db.store, id)
      modifies db`store
      ensures db.store == RunFrom(cfg, old(db.store), BeginRecover(0, id), oks)
      ensures alive <==> PassesSlot(old(db.store.bets[id]), oks)
    {
      var b := db.store.bets[id];
      var at := 0;
      if b.status.Reserving? {
        RunCallStep(cfg, db.store, RecoverClaim(id, b), oks);
        if |oks| == 0 || !oks[0] {
          return false;
        }
        db.store := SetStatus(db.store, id, Cancelling);
        at := 1;
      }
      alive := LookUpAndReverse(id, b, oks[at..]);
    }

    method LookUpAndReverse(id: BetId, b: Bet, oks: seq<bool>) returns (alive: bool)
      requires Wired() && id in db.store.bets
      modifies db`store
      ensures db.store == RunCall(cfg, old(db.store), RecoverLookup(id, b), oks)
      ensures alive <==> |oks| >= 3
    {
      alive := |oks| >= 3;
      RunCallStep(cfg, db.store, RecoverLookup(id, b), oks);
      if |oks| == 0 || !oks[0] {
        return;
      }
      if Has(db.store.book, DebitKey(b.slot)) {
        RefundSlot(id, b, oks[1..]);
      } else {
        RunCallStep(cfg, db.store, RecoverDrop(id, b), oks[1..]);
        if |oks| > 1 && oks[1] {
          db.store := db.store.(bets := db.store.bets - {id});
        }
      }
    }

    method RefundSlot(id: BetId, b: Bet, oks: seq<bool>)
      requires Wired() && id in db.store.bets
      modifies db`store
      ensures db.store == RunCall(cfg, old(db.store), RecoverRefund(id, b), oks)
    {
      RunCallStep(cfg, db.store, RecoverRefund(id, b), oks);
      if |oks| > 0 {
        var refunded := bets.MoveWallet(StakeRefund(id, b, RestartKey(id)), oks[0]);
        RunCallStep(cfg, db.store, RecoverFinish(id, b), oks[1..]);
        if refunded && |oks| > 1 && oks[1] {
          db.store := SetStatus(db.store, id, Cancelled);
        }
      }
    }

    method RecoverReservingBets(ghost opening: map<WalletId, nat>, plan: Plan, ghost now: int)
      returns (alive: bool, ghost log: seq<Alone>)
      requires Wired() && BootInv(cfg, opening, At(now))
      modifies db`store
      ensures Booted(cfg, opening, old(At(now)), At(now)) && db.store == Replay(cfg, old(db.store), log)
      ensures RecoverPass(old(db.store), db.store) && (alive <==> AllSlotsPass(old(db.store), plan))
      ensures alive ==> SlotsRecovered(old(db.store), db.store, plan)
      ensures (forall id :: IsSlot(old(db.store), id) ==> AllOk(plan(id))) ==>
        alive && CompletePass(old(db.store), db.store)
    {
      log := [];
      var left := Slots(db.store);
      NothingRecovered(cfg, opening, At(now), plan);
      while left != {}
        invariant RecoveredBut(cfg, opening, old(At(now)), At(now), left, plan, log)
        invariant forall id :: IsSlot(old(db.store), id) && id !in left ==>
          PassesSlot(old(db.store).bets[id], plan(id))
        decreases |left|
      {
        var id :| id in left;
        RecoverIteration(cfg, opening, old(At(now)), At(now), left, plan, log, id);
        log := log + [Alone(BeginRecover(0, id), plan(id))];
        alive := RecoverOne(id, plan(id));
        left := left - {id};
        if !alive {
          return;
        }
      }
      alive := true;
    }

    // ----- rounds that cannot be resumed -----

    /** Reverse the stake of one active bet, then mark it cancelled; a failure is logged and skipped. */
    method RefundOne(id: BetId, oks: seq<bool>)
      requires Wired() && id in db.store.bets
      modifies db`store
      ensures db.store == RefundAlone(old(db.store), id, oks)
    {
      if |oks| > 0 {
        var reversed := bets.MoveWallet(StakeRefund(id, db.store.bets[id], RestartKey(id)), oks[0]);
        if reversed && |oks| > 1 && oks[1] {
          db.store := SetStatus(db.store, id, Cancelled);
        }
      }
    }

    method RefundAll(ghost opening: map<WalletId, nat>, ids: set<BetId>, plan: Plan, ghost now: int)
      requires Wired() && BootInv(cfg, opening, At(now)) && AllToRefund(At(now), ids)
      modifies db`store
      ensures Booted(cfg, opening, old(At(now)), At(now)) && RefundPass(old(db.store), db.store, ids, plan)
    {
      var left := ids;
      RefundingBegins(cfg, opening, At(now), ids, plan);
      while left != {}
        invariant RefundedBut(cfg, opening, old(At(now)), At(now), ids, left, plan)
        decreases |left|
      {
        var id :| id in left;
        RefundIteration(cfg, opening, old(At(now)), At(now), ids, left, id, plan);
        RefundOne(id, plan(id));
        left := left - {id};
      }
    }

    /** Refund what is live on a round that has no outcome, then complete it. */
    method CloseAndRefundRound(
        ghost opening: map<WalletId, nat>, r: RoundId, plan: BootPlan, now: int)
      returns (alive: bool)
      requires Wired() && BootInv(cfg, opening, At(now)) && Legal(At(now), CloseStep(r))
      requires WillRefund(db.store.rounds, db.info, now, r)
      modifies db
      ensures alive == plan.closings(r).completed && Booted(cfg, opening, old(At(now)), At(now))
      ensures if alive then RoundRefunded(old(db.store), db.store, r, plan.refunds)
        else RefundPass(old(db.store), db.store, ActiveIn(old(db.store), r), plan.refunds)
      ensures db.info == if alive then old(db.info)[r := old(db.info)[r].(settledAt := Some(now))] else old(db.info)
    {
      RefundAll(opening, ActiveIn(db.store, r), plan.refunds, now);
      alive := plan.closings(r).completed;
      if alive {
        BootGoesOn(cfg, opening, old(At(now)), At(now), CloseStep(r));
        db.store := Close(db.store, r);
        db.info := db.info[r := db.info[r].(settledAt := Some(now))];
      }
    }

    /** A stale round without an outcome is refunded; one whose crash is committed is settled. */
    method CloseStaleExtra(
        ghost opening: map<WalletId, nat>, r: RoundId, plan: BootPlan, now: int)
      returns (alive: bool)
      requires Wired() && BootInv(cfg, opening, At(now)) && IsStale(At(now), r)
      modifies db
      ensures Booted(cfg, opening, old(At(now)), At(now)) && SameColumns(old(db.info), db.info)
      ensures alive <==> CanClose(old(db.store).rounds[r].phase, old(db.info)[r], plan.closings(r))
      ensures alive ==> RoundClosed(old(db.store), db.store, r, plan.Closes())
      ensures alive ==>
        db.info == old(db.info)[r := ClosedInfo(old(db.store).rounds[r].phase, old(db.info)[r], now)]
    {
      if PostOutcome(db.store.rounds[r].phase) {
        alive := SettleStale(opening, r, plan, now);
      } else {
        alive := CloseAndRefundRound(opening, r, plan, now);
      }
    }

    /** Stamp a missing crash time, bust what is still active, complete the round. The bust runs
        in an event handler, so its failure does not stop the boot. */
    method SettleStale(ghost opening: map<WalletId, nat>, r: RoundId, plan: BootPlan, now: int) returns (alive: bool)
      requires Wired() && BootInv(cfg, opening, At(now)) && IsStale(At(now), r) && PostOutcome(db.store.rounds[r].phase)
      modifies db
      ensures Booted(cfg, opening, old(At(now)), At(now)) && SameColumns(old(db.info), db.info)
      ensures alive <==> CanClose(old(db.store).rounds[r].phase, old(db.info)[r], plan.closings(r))
      ensures alive ==> RoundClosed(old(db.store), db.store, r, plan.Closes())
      ensures alive ==>
        db.info == old(db.info)[r := ClosedInfo(old(db.store).rounds[r].phase, old(db.info)[r], now)]
    {
      if db.info[r].crashedAt.None? && !plan.closings(r).stamped {
        BootBegins(cfg, opening, At(now));
        return false;
      }
      StampIfMissing(opening, r, now);
      ghost var stamped := At(now);
      StampedIsStale(old(At(now)), db.info, r);
      alive := BustAndComplete(opening, r, plan, now);
      BootOfTwo(cfg, opening, old(At(now)), stamped, At(now));
    }

    method StampIfMissing(ghost opening: map<WalletId, nat>, r: RoundId, now: int)
      requires Wired() && BootInv(cfg, opening, At(now)) && r in db.info
      modifies db`info
      ensures Booted(cfg, opening, old(At(now)), At(now)) && SameColumns(old(db.info), db.info)
      ensures db.info ==
        if old(db.info)[r].crashedAt.Some? then old(db.info)
        else old(db.info)[r := old(db.info)[r].(crashedAt := Some(now))]
    {
      BootBegins(cfg, opening, At(now));
      if db.info[r].crashedAt.None? {
        BootGoesOn(cfg, opening, At(now), At(now), StampStep(r));
        db.info := db.info[r := db.info[r].(crashedAt := Some(now))];
      }
    }

    method BustAndComplete(
        ghost opening: map<WalletId, nat>, r: RoundId, plan: BootPlan, now: int)
      returns (alive: bool)
      requires Wired() && BootInv(cfg, opening, At(now)) && IsStale(At(now), r) && PostOutcome(db.store.rounds[r].phase)
      modifies db
      ensures Booted(cfg, opening, old(At(now)), At(now)) && alive == plan.closings(r).completed
      ensures alive ==> RoundClosed(old(db.store), db.store, r, plan.Closes())
      ensures db.info == if alive then old(db.info)[r := old(db.info)[r].(settledAt := Some(now))] else old(db.info)
    {
      BootBegins(cfg, opening, At(now));
      if plan.closings(r).busted {
        BootGoesOn(cfg, opening, old(At(now)), At(now), BustStep(r));
        var _ := bets.SettleRound(r);
      }
      alive := plan.closings(r).completed;
      if alive {
        BootGoesOn(cfg, opening, old(At(now)), At(now), CloseStep(r));
        db.store := Close(db.store, r);
        db.info := db.info[r := db.info[r].(settledAt := Some(now))];
      }
    }

    method TakeStranded(limit: nat, cutoff: int) returns (taken: set<BetId>)
      ensures forall id :: id in taken ==> IsStranded(db.store, db.info, id, cutoff)
      ensures |taken| < limit ==> forall id :: IsStranded(db.store, db.info, id, cutoff) ==> id in taken
    {
      taken := {};
      var rest := set id | id in db.store.bets && IsStranded(db.store, db.info, id, cutoff);
      while |taken| < limit && rest != {}
        invariant forall id :: id in taken + rest ==> IsStranded(db.store, db.info, id, cutoff)
        invariant forall id :: IsStranded(db.store, db.info, id, cutoff) ==> id in taken || id in rest
        decreases |rest|
      {
        var id :| id in rest;
        taken, rest := taken + {id}, rest - {id};
      }
    }

    /** Bets left active on a completed round that has no outcome, at most a hundred a sweep. */
    method RecoverStrandedActiveBets(ghost opening: map<WalletId, nat>, plan: Plan, cutoff: int, ghost now: int)
      returns (handled: set<BetId>)
      requires Wired() && BootInv(cfg, opening, At(now))
      modifies db`store
      ensures Booted(cfg, opening, old(At(now)), At(now))
      ensures Swept(old(db.store), db.store, db.info, handled, plan, cutoff)
    {
      handled := TakeStranded(100, cutoff);
      RefundAll(opening, handled, plan, now);
    }

    // ----- failover -----

    /** Continue the round from its persisted phase. The `elapsed` crash of a running round is
        honoured: the due auto-cashouts are paid first, then the round is crashed, each behind
        a fence check of its own. */
    method ResumeRound(ghost opening: map<WalletId, nat>, r: RoundId, elapsed: bool, plan: BootPlan, now: int)
      requires Wired() && BootInv(cfg, opening, At(now)) && CanResume(At(now), r)
      modifies db
      ensures Booted(cfg, opening, old(At(now)), At(now))
      ensures RoundResumed(cfg, old(db.store), db.store, r, elapsed, plan)
      ensures db.info == ResumedInfo(old(At(now)), r, elapsed, plan)
    {
      BootBegins(cfg, opening, At(now));
      match db.store.rounds[r].phase {
        case Running =>
          if elapsed && plan.payFence {
            HonourCrash(opening, r, plan, now);
          }
        case Crashed =>
          if db.info[r].crashedAt.None? && plan.closings(r).stamped {
            BootGoesOn(cfg, opening, At(now), At(now), StampStep(r));
            db.info := db.info[r := db.info[r].(crashedAt := Some(now))];
          }
        case Settling =>
          if plan.closings(r).busted {
            BootGoesOn(cfg, opening, At(now), At(now), BustStep(r));
            var _ := bets.SettleRound(r);
          }
        case _ =>
      }
    }

    method HonourCrash(ghost opening: map<WalletId, nat>, r: RoundId, plan: BootPlan, now: int)
      requires Wired() && BootInv(cfg, opening, At(now)) && CanResume(At(now), r)
      requires db.store.rounds[r].phase.Running? && plan.payFence
      modifies db
      ensures Booted(cfg, opening, old(At(now)), At(now))
      ensures RoundResumed(cfg, old(db.store), db.store, r, true, plan)
      ensures db.info ==
        if plan.Crashes() then old(db.info)[r := old(db.info)[r].(crashedAt := Some(now))] else old(db.info)
    {
      PayDue(opening, r, plan, now);
      if plan.crashFence && plan.crashWritten {
        BootGoesOn(cfg, opening, old(At(now)), At(now), CrashStep(r));
        db.store := db.store.(rounds := db.store.rounds[r := db.store.rounds[r].(phase := Crashed)]);
        db.info := db.info[r := db.info[r].(crashedAt := Some(now))];
      }
    }

    /** The auto-cashouts that are due at the crash point; no bet of this round is refunded. */
    method PayDue(ghost opening: map<WalletId, nat>, r: RoundId, plan: BootPlan, now: int)
      requires Wired() && BootInv(cfg, opening, At(now)) && CanResume(At(now), r)
      modifies db`store
      ensures Booted(cfg, opening, old(At(now)), At(now))
      ensures Ticked(cfg, old(db.store), db.store, r, Tick(old(db.store).rounds[r].crash, plan.cashOuts))
    {
      BootBegins(cfg, opening, At(now));
      ghost var log := bets.EvaluateAutoCashouts(r, Tick(db.store.rounds[r].crash, plan.cashOuts));
      CashOutsGoOn(cfg, opening, old(At(now)), old(At(now)), log);
    }

    method Newest(open: set<RoundId>) returns (newest: RoundId)
      requires open != {} && open <= db.info.Keys
      ensures newest in open && forall r :: r in open ==> db.info[r].created <= db.info[newest].created
    {
      newest :| newest in open;
      var left := open - {newest};
      while left != {}
        invariant left <= open && newest in open
        invariant forall r :: r in open && r !in left ==> db.info[r].created <= db.info[newest].created
        decreases |left|
      {
        var r :| r in left;
        if db.info[r].created > db.info[newest].created {
          newest := r;
        }
        left := left - {r};
      }
    }

    /** Close every open round but the newest. */
    method CloseStale(
        ghost opening: map<WalletId, nat>, newest: RoundId, plan: BootPlan, now: int)
      returns (alive: bool)
      requires Wired() && BootInv(cfg, opening, At(now)) && IsNewest(db.store.rounds, db.info, newest)
      modifies db
      ensures Booted(cfg, opening, old(At(now)), At(now)) && SameColumns(old(db.info), db.info)
      ensures alive <==> forall r :: r in OpenRounds(old(db.store)) - {newest} ==>
        CanClose(old(db.store).rounds[r].phase, old(db.info)[r], plan.closings(r))
      ensures alive ==> StaleClosed(old(db.store), db.store, OpenRounds(old(db.store)) - {newest}, plan.Closes())
      ensures alive ==> InfoClosed(old(At(now)), db.info, OpenRounds(old(db.store)) - {newest})
      ensures alive ==> OpenRounds(db.store) == {newest}
    {
      var left := OpenRounds(db.store) - {newest};
      ClosingBegins(cfg, opening, At(now), newest, plan);
      while left != {}
        invariant ClosedBut(cfg, opening, old(At(now)), At(now), newest, left, plan)
        invariant forall r :: r in OpenRounds(old(db.store)) - {newest} - left ==>
          CanClose(old(db.store).rounds[r].phase, old(db.info)[r], plan.closings(r))
        decreases |left|
      {
        var r :| r in left;
        alive := CloseNext(opening, old(At(now)), newest, left, r, plan, now);
        left := left - {r};
        if !alive {
          return;
        }
      }
      ClosingEnds(cfg, opening, old(At(now)), At(now), newest, plan);
      alive := true;
    }

    method CloseNext(
        ghost opening: map<WalletId, nat>, ghost start: Db, ghost newest: RoundId, ghost left: set<RoundId>,
        r: RoundId, plan: BootPlan, now: int)
      returns (alive: bool)
      requires Wired() && BootInv(cfg, opening, start) && IsNewest(start.store.rounds, start.info, newest)
      requires ClosedBut(cfg, opening, start, At(now), newest, left, plan) && r in left
      modifies db
      ensures Booted(cfg, opening, start, At(now)) && SameColumns(start.info, db.info)
      ensures alive <==> CanClose(start.store.rounds[r].phase, start.info[r], plan.closings(r))
      ensures alive ==> ClosedBut(cfg, opening, start, At(now), newest, left - {r}, plan)
    {
      ghost var before := At(now);
      StaysStale(start, At(now), newest, left, r, plan.Closes());
      alive := CloseStaleExtra(opening, r, plan, now);
      BootOfTwo(cfg, opening, start, before, At(now));
      if alive {
        CloseIteration(start, before, At(now), newest, left, r, plan.Closes());
      }
    }

    /**
     * What a new leader does before it plays. A boot that is not `alive` has stopped somewhere,
     * and what it left can be booted from.
     */
    method ResumeOrRecover(ghost opening: map<WalletId, nat>, elapsed: bool, plan: BootPlan, now: int)
      returns (alive: bool, resumed: bool, ghost boot: Boot)
      requires Wired() && BootInv(cfg, opening, At(now))
      modifies db
      ensures Booted(cfg, opening, old(At(now)), At(now)) && boot.cleared == old(At(now)).(store := boot.cleared.store)
      ensures RecoverPass(old(db.store), boot.cleared.store)
      ensures alive <==> AllSlotsPass(old(db.store), plan.slots) && AllClose(boot.cleared, plan)
      ensures alive ==> BootDone(cfg, old(At(now)), boot, At(now), elapsed, plan) && resumed == boot.resumed
      ensures alive ==> OpenRounds(db.store) == if resumed then {boot.candidate.value} else {}
    {
      ghost var log;
      resumed := false;
      alive, log := RecoverReservingBets(opening, plan.slots, now);
      ghost var cleared := At(now);
      boot := Boot(cleared, None, cleared, false);
      var open := OpenRounds(db.store);
      if !alive || open == {} {
        return;
      }
      var newest := Newest(open);
      ghost var closed;
      alive, resumed, closed := CloseAndResume(opening, newest, elapsed, plan, now);
      boot := Boot(cleared, Some(newest), closed, resumed);
      BootOfTwo(cfg, opening, old(At(now)), cleared, At(now));
    }

    method CloseAndResume(ghost opening: map<WalletId, nat>, newest: RoundId, elapsed: bool, plan: BootPlan, now: int)
      returns (alive: bool, resumed: bool, ghost closed: Db)
      requires Wired() && BootInv(cfg, opening, At(now)) && IsNewest(db.store.rounds, db.info, newest)
      modifies db
      ensures Booted(cfg, opening, old(At(now)), At(now))
      ensures alive <==> AllClose(old(At(now)), plan)
      ensures alive ==>
        RoundsDone(cfg, Boot(old(At(now)), Some(newest), closed, resumed), At(now), newest, elapsed, plan)
      ensures alive ==> OpenRounds(db.store) == if resumed then {newest} else {}
    {
      resumed := false;
      alive := CloseStale(opening, newest, plan, now);
      closed := At(now);
      if alive {
        assert db.info[newest] == old(db.info)[newest] && db.store.rounds[newest] == old(db.store).rounds[newest];
        alive, resumed := ResumeOrRefund(opening, newest, elapsed, plan, now);
        BootOfTwo(cfg, opening, old(At(now)), closed, At(now));
      }
      OnlyOneIsNewest(old(At(now)), newest);
    }

    /** The newest round, all others being closed: resumed if its row allows it, else refunded. */
    method ResumeOrRefund(ghost opening: map<WalletId, nat>, r: RoundId, elapsed: bool, plan: BootPlan, now: int)
      returns (alive: bool, resumed: bool)
      requires Wired() && BootInv(cfg, opening, At(now)) && OpenRounds(db.store) == {r}
      modifies db
      ensures Booted(cfg, opening, old(At(now)), At(now))
      ensures resumed == (UnresumableReason(old(db.store).rounds[r], old(db.info)[r], now) == None)
      ensures alive <==> resumed || plan.closings(r).completed
      ensures alive ==> NewestDone(cfg, old(At(now)), At(now), r, resumed, elapsed, plan)
      ensures alive ==> OpenRounds(db.store) == if resumed then {r} else {}
    {
      resumed := UnresumableReason(db.store.rounds[r], db.info[r], now) == None;
      if resumed {
        ResumeRound(opening, r, elapsed, plan, now);
        alive := true;
      } else {
        alive := CloseAndRefundRound(opening, r, plan, now);
      }
    }

    /** The first two steps of a start: sweep stranded bets, then resume or recover. */
    method SweepThenResume(ghost opening: map<WalletId, nat>, elapsed: bool, plan: BootPlan, now: int)
      returns (alive: bool, resumed: bool, ghost start: StartRun)
      requires Wired() && BootInv(cfg, opening, At(now))
      modifies db
      ensures Booted(cfg, opening, old(At(now)), At(now)) && start.booted == At(now)
      ensures start.swept == old(At(now)).(store := start.swept.store)
      ensures Swept(old(db.store), start.swept.store, old(db.info), start.handled, plan.sweep, now)
      ensures start.boot.cleared == old(At(now)).(store := start.boot.cleared.store)
      ensures start.boot.cleared.store.rounds == old(db.store).rounds
      ensures alive <==> AllSlotsPass(start.swept.store, plan.slots) && AllClose(start.boot.cleared, plan)
      ensures alive ==> BootDone(cfg, start.swept, start.boot, At(now), elapsed, plan) && resumed == start.boot.resumed
      ensures alive ==> OneOpen(old(db.store), db.store, resumed)
    {
      ghost var boot;
      var handled := RecoverStrandedActiveBets(opening, plan.sweep, now, now);
      ghost var swept := At(now);
      alive, resumed, boot := ResumeOrRecover(opening, elapsed, plan, now);
      BootOfTwo(cfg, opening, old(At(now)), swept, At(now));
      start := StartRun(swept, handled, boot, At(now));
      if alive && boot.candidate.Some? {
        KeysStay(cfg, boot.closed, At(now), boot.candidate.value, elapsed, resumed, plan);
      }
    }

    /** Open the next round, unless the fence check or the insert fails. */
    method EnterWaiting(
        ghost opening: map<WalletId, nat>, plan: BootPlan, now: int, next: RoundId, crash: nat, created: nat)
      requires Wired() && BootInv(cfg, opening, At(now)) && OpenRounds(db.store) == {} && next !in db.store.rounds
      modifies db
      ensures Booted(cfg, opening, old(At(now)), At(now)) && At(now) == Opened(old(At(now)), plan, next, crash, created)
      ensures OpenRounds(db.store) == if plan.created then {next} else {}
    {
      BootBegins(cfg, opening, At(now));
      if plan.created {
        BootGoesOn(cfg, opening, At(now), At(now), OpenStep(next, crash, created));
        db.store := db.store.(rounds := db.store.rounds[next := RoundRow(Waiting, crash)]);
        db.info := db.info[next := FreshInfo(created, now)];
      }
    }

    /**
     * Starting as the leader: sweep, resume or recover, and open the `next` round if none was
     * resumed. Whatever boots and sweeps came before, one round at most is open afterwards.
     */
    method Start(
        ghost opening: map<WalletId, nat>, elapsed: bool, plan: BootPlan, now: int, next: RoundId, crash: nat,
        created: nat)
      returns (alive: bool, resumed: bool, ghost start: StartRun)
      requires Wired() && BootInv(cfg, opening, At(now)) && next !in db.store.rounds
      modifies db
      ensures Booted(cfg, opening, old(At(now)), At(now))
      ensures start.swept == old(At(now)).(store := start.swept.store)
      ensures Swept(old(db.store), start.swept.store, old(db.info), start.handled, plan.sweep, now)
      ensures start.boot.cleared == old(At(now)).(store := start.boot.cleared.store)
      ensures start.boot.cleared.store.rounds == old(db.store).rounds
      ensures alive <==> AllSlotsPass(start.swept.store, plan.slots) && AllClose(start.boot.cleared, plan)
      ensures alive ==>
        BootDone(cfg, start.swept, start.boot, start.booted, elapsed, plan) && resumed == start.boot.resumed
      ensures At(now) == if alive && !resumed then Opened(start.booted, plan, next, crash, created) else start.booted
      ensures alive && resumed ==> exists r :: r in old(db.store).rounds && OpenRounds(db.store) == {r}
      ensures alive && !resumed ==> OpenRounds(db.store) == if plan.created then {next} else {}
    {
      alive, resumed, start := SweepThenResume(opening, elapsed, plan, now);
      if alive && !resumed {
        ghost var recovered := At(now);
        EnterWaiting(opening, plan, now, next, crash, created);
        BootOfTwo(cfg, opening, old(At(now)), recovered, At(now));
      }
    }
  }

  /** What a start leaves open: the round it resumed, which it found, or none. */
  ghost predicate OneOpen(before: Store, after: Store, resumed: bool) {
    && after.rounds.Keys == before.rounds.Keys
    && if resumed then exists r :: r in before.rounds && OpenRounds(after) == {r} else OpenRounds(after) == {}
  }

  lemma KeysStay(cfg: Config, before: Db, after: Db, r: RoundId, elapsed: bool, resumed: bool, plan: BootPlan)
    requires r in before.store.rounds && r in before.info && NewestDone(cfg, before, after, r, resumed, elapsed, plan)
    ensures after.store.rounds.Keys == before.store.rounds.Keys
  {
  }

  lemma StampedIsStale(d: Db, info: Infos, r: RoundId)
    requires d.store.rounds.Keys <= d.info.Keys && IsStale(d, r) && SameColumns(d.info, info)
    requires PostOutcome(d.store.rounds[r].phase)
    requires info == if d.info[r].crashedAt.Some? then d.info
      else d.info[r := d.info[r].(crashedAt := Some(d.now))]
    ensures IsStale(d.(info := info), r)
    ensures info[r := info[r].(settledAt := Some(d.now))] ==
      d.info[r := ClosedInfo(d.store.rounds[r].phase, d.info[r], d.now)]
    ensures SameColumns(d.info, d.info[r := ClosedInfo(d.store.rounds[r].phase, d.info[r], d.now)])
  {
  }

  lemma OnlyOneIsNewest(d: Db, newest: RoundId)
    requires WellTimed(d.store.rounds, d.info) && IsNewest(d.store.rounds, d.info, newest)
    ensures forall r :: IsNewest(d.store.rounds, d.info, r) <==> r == newest
  {
  }

  /** The recovery loop has handled all slots but those in `left`, each as one call of the protocol. */
  ghost predicate RecoveredBut(
      cfg: Config, opening: map<WalletId, nat>, start: Db, now: Db, left: set<BetId>, plan: Plan, log: seq<Alone>)
  {
    && PassBut(start.store, now.store, left) && now.store == Replay(cfg, start.store, log)
    && Booted(cfg, opening, start, now) && now.info == start.info
    && forall id :: IsSlot(start.store, id) && id !in left && AllOk(plan(id)) ==> SlotDone(start.store, now.store, id)
  }

  function Slots(st: Store): set<BetId> {
    set id | id in st.bets && IsSlot(st, id)
  }

  lemma NothingRecovered(cfg: Config, opening: map<WalletId, nat>, d: Db, plan: Plan)
    requires BootInv(cfg, opening, d)
    ensures RecoveredBut(cfg, opening, d, d, Slots(d.store), plan, [])
  {
    BootBegins(cfg, opening, d);
  }

  lemma RecoverIteration(
      cfg: Config, opening: map<WalletId, nat>, start: Db, now: Db, left: set<BetId>, plan: Plan, log: seq<Alone>,
      id: BetId)
    requires RecoveredBut(cfg, opening, start, now, left, plan, log) && id in left
    ensures IsSlot(now.store, id)
    ensures RecoveredBut(
      cfg, opening, start, now.(store := RunFrom(cfg, now.store, BeginRecover(0, id), plan(id))),
      left - {id}, plan, log + [Alone(BeginRecover(0, id), plan(id))])
  {
    RecoverOneMore(cfg, opening, start.store, now.store, left, id, plan(id));
    BootGoesOn(cfg, opening, start, now, RecoverStep(id, plan(id)));
    ReplayMore(cfg, start.store, log, Alone(BeginRecover(0, id), plan(id)));
  }

  predicate AllToRefund(d: Db, ids: set<BetId>)
    requires d.store.rounds.Keys <= d.info.Keys
  {
    forall id :: id in ids ==>
      HasStatus(d.store, id, Active) && WillRefund(d.store.rounds, d.info, d.now, d.store.bets[id].slot.round)
  }

  predicate IsStale(d: Db, r: RoundId)
    requires d.store.rounds.Keys <= d.info.Keys
  {
    r in OpenRounds(d.store) && !IsNewest(d.store.rounds, d.info, r)
  }

  predicate CanResume(d: Db, r: RoundId)
    requires d.store.rounds.Keys <= d.info.Keys
  {
    IsNewest(d.store.rounds, d.info, r) && UnresumableReason(d.store.rounds[r], d.info[r], d.now) == None
  }

  /** The refund loop over `ids` has handled all but those in `left`. */
  ghost predicate RefundedBut(
      cfg: Config, opening: map<WalletId, nat>, start: Db, now: Db, ids: set<BetId>, left: set<BetId>, plan: Plan)
    requires start.store.rounds.Keys <= start.info.Keys
  {
    && left <= ids && AllToRefund(start, ids) && Booted(cfg, opening, start, now) && now.info == start.info
    && RefundPass(start.store, now.store, ids - left, plan)
  }

  lemma RefundingBegins(cfg: Config, opening: map<WalletId, nat>, d: Db, ids: set<BetId>, plan: Plan)
    requires BootInv(cfg, opening, d) && AllToRefund(d, ids)
    ensures RefundedBut(cfg, opening, d, d, ids, ids, plan)
  {
    BootBegins(cfg, opening, d);
    assert ids - ids == {};
  }

  lemma RefundIteration(
      cfg: Config, opening: map<WalletId, nat>, start: Db, now: Db, ids: set<BetId>, left: set<BetId>, id: BetId,
      plan: Plan)
    requires start.store.rounds.Keys <= start.info.Keys
    requires RefundedBut(cfg, opening, start, now, ids, left, plan) && id in left
    ensures id in now.store.bets
    ensures RefundedBut(
      cfg, opening, start, now.(store := RefundAlone(now.store, id, plan(id))), ids, left - {id}, plan)
  {
    RefundOneMore(cfg, opening, start.store, now.store, ids - left, id, plan);
    assert ids - (left - {id}) == (ids - left) + {id};
    BootGoesOn(cfg, opening, start, now, RefundStep(id, plan(id)));
  }

  /** The closing loop has handled all stale rounds but those in `left`. */
  ghost predicate ClosedBut(
      cfg: Config, opening: map<WalletId, nat>, start: Db, now: Db, newest: RoundId, left: set<RoundId>, plan: BootPlan)
  {
    && left <= OpenRounds(start.store) - {newest} && Booted(cfg, opening, start, now)
         && SameColumns(start.info, now.info)
    && StaleClosed(start.store, now.store, OpenRounds(start.store) - {newest} - left, plan.Closes())
    && InfoClosed(start, now.info, OpenRounds(start.store) - {newest} - left)
  }

  lemma ClosingBegins(cfg: Config, opening: map<WalletId, nat>, d: Db, newest: RoundId, plan: BootPlan)
    requires BootInv(cfg, opening, d)
    ensures ClosedBut(cfg, opening, d, d, newest, OpenRounds(d.store) - {newest}, plan)
  {
    BootBegins(cfg, opening, d);
    NothingClosed(d.store, plan.Closes());
    assert OpenRounds(d.store) - {newest} - (OpenRounds(d.store) - {newest}) == {};
  }

  lemma NothingClosed(st: Store, plan: ClosePlan)
    ensures StaleClosed(st, st, {}, plan)
  {
  }

  lemma ClosingEnds(cfg: Config, opening: map<WalletId, nat>, start: Db, now: Db, newest: RoundId, plan: BootPlan)
    requires ClosedBut(cfg, opening, start, now, newest, {}, plan) && newest in OpenRounds(start.store)
    ensures StaleClosed(start.store, now.store, OpenRounds(start.store) - {newest}, plan.Closes())
    ensures InfoClosed(start, now.info, OpenRounds(start.store) - {newest}) && OpenRounds(now.store) == {newest}
  {
    var stale := OpenRounds(start.store) - {newest};
    assert stale - {} == stale;
    OnlyNewestIsOpen(start.store, now.store, newest, plan.Closes());
  }

  lemma OnlyNewestIsOpen(start: Store, now: Store, newest: RoundId, plan: ClosePlan)
    requires StaleClosed(start, now, OpenRounds(start) - {newest}, plan) && newest in OpenRounds(start)
    ensures OpenRounds(now) == {newest}
  {
    assert forall r :: r in OpenRounds(now) <==> r == newest;
  }

  /** Closing stale rounds leaves the others stale, and the newest round the newest. */
  lemma StaysStale(start: Db, now: Db, newest: RoundId, left: set<RoundId>, r: RoundId, plan: ClosePlan)
    requires start.store.rounds.Keys <= start.info.Keys && SameColumns(start.info, now.info)
    requires WellTimed(start.store.rounds, start.info) && IsNewest(start.store.rounds, start.info, newest)
    requires r in left && left <= OpenRounds(start.store) - {newest}
    requires StaleClosed(start.store, now.store, OpenRounds(start.store) - {newest} - left, plan)
    ensures now.store.rounds.Keys <= now.info.Keys && IsStale(now, r)
  {
    assert newest in OpenRounds(now.store) && r in OpenRounds(now.store);
  }

  lemma CloseIteration(
      start: Db, before: Db, after: Db, newest: RoundId, left: set<RoundId>, r: RoundId, plan: ClosePlan)
    requires r in left && left <= OpenRounds(start.store) - {newest}
    requires StaleClosed(start.store, before.store, OpenRounds(start.store) - {newest} - left, plan)
    requires RoundClosed(before.store, after.store, r, plan)
    requires InfoClosed(start, before.info, OpenRounds(start.store) - {newest} - left) && before.now == start.now
    requires r in before.info && after.info == before.info[r :=
      ClosedInfo(before.store.rounds[r].phase, before.info[r], before.now)]
    ensures StaleClosed(start.store, after.store, OpenRounds(start.store) - {newest} - (left - {r}), plan)
    ensures InfoClosed(start, after.info, OpenRounds(start.store) - {newest} - (left - {r}))
  {
    var stale := OpenRounds(start.store) - {newest};
    CloseOneMore(start.store, before.store, after.store, stale - left, plan, r);
    assert stale - (left - {r}) == (stale - left) + {r};
  }
}
