/**
 * The bet service, method by method. Each method is one call run alone: it ends in the
 * store that the statement machine ends in for the same answers of the database.
 */
module BetsService {
  import opened Domain
  import opened Money
  import opened Ledger
  import opened BetSums
  import opened BetProtocol
  import opened Outcomes
  import opened Sequential
  import opened Ticks

  class Database {
    var store: Store
    var info: map<RoundId, RoundInfo>

    constructor (store: Store, info: map<RoundId, RoundInfo>)
      ensures this.store == store && this.info == info
    {
      this.store := store;
      this.info := info;
    }
  }

  /** Every call of the log cashes out a bet that the tick found due. */
  predicate CashesDue(st: Store, r: RoundId, tick: Tick, log: seq<Alone>) {
    forall i :: 0 <= i < |log| ==>
      log[i].e.BeginCash? && log[i].e.call == 0 && Due(st, log[i].e.id, r, tick.multiplier)
  }

  /** The tick has reached the target of an active bet of this running round, and it is below the
      crash point; the claim is not refused. */
  predicate Reached(st: Store, id: BetId, r: RoundId, tick: Tick) {
    && HasStatus(st, id, Active) && st.bets[id].slot.round == r && st.bets[id].auto.Some?
    && st.bets[id].auto.value <= tick.multiplier
    && r in st.rounds && st.rounds[r].phase.Running? && st.bets[id].auto.value < st.rounds[r].crash
    && |tick.plan(id)| > 0 && tick.plan(id)[0]
  }

  lemma ReachedIsPaid(st: Store, id: BetId, r: RoundId, tick: Tick)
    ensures Reached(st, id, r, tick) <==> Pays(st, id, r, tick.multiplier) && ClaimOk(tick.plan(id))
  {
  }

  class BetsService {
    const cfg: Config
    const db: Database

    constructor (cfg: Config, db: Database)
      ensures this.cfg == cfg && this.db == db
    {
      this.cfg := cfg;
      this.db := db;
    }

    /** One wallet call. `ok` is false when it throws before it reaches the ledger. */
    method MoveWallet(op: Op, ok: bool) returns (applied: bool)
      modifies db`store
      ensures applied == (ok && Issue(old(db.store.book), op).1.Applied?)
      ensures db.store == if applied then old(db.store).(book := Post(old(db.store.book), op).0) else old(db.store)
      ensures op.Move? ==> (applied <==> ok && Covered(old(db.store.book), op))
      ensures op.Move? && applied ==> db.store.book == Entered(old(db.store.book), op)
    {
      if op.Move? {
        IssueEnters(db.store.book, op);
      }
      var (book, reply) := Issue(db.store.book, op);
      applied := ok && reply.Applied?;
      if applied {
        db.store := db.store.(book := book);
      }
    }

    method Accumulate(m: Measure) returns (total: int)
      ensures total == Sum(db.store.bets, m)
    {
      total := 0;
      var left := db.store.bets;
      while left != map[]
        invariant total + Sum(left, m) == Sum(db.store.bets, m)
        decreases |left|
      {
        var id :| id in left;
        SumRemove(left, m, id);
        total := total + Weight(m, left[id]);
        left := left - {id};
      }
    }

    // ----- placing a bet -----

    /** The reserve transaction. On a rejection or a failed statement nothing is written. */
    method Reserve(id: BetId, b: Bet, oks: seq<bool>) returns (reserved: bool)
      modifies db`store
      ensures reserved ==> |oks| >= 4
      ensures reserved <==> Reserves(cfg, old(db.store), b, oks)
      ensures RunCall(cfg, old(db.store), PlaceLock(id, b), oks) ==
        if reserved then RunCall(cfg, db.store, PlaceDebit(id, b), oks[4..]) else db.store
      ensures reserved ==> db.store == old(db.store).(bets := old(db.store).bets[id := b])
      ensures !reserved ==> db.store == old(db.store)
    {
      RunCallStep(cfg, db.store, PlaceLock(id, b), oks);
      if |oks| == 0 || !oks[0] {
        return false;
      }
      reserved := CheckExposure(id, b, oks[1..]);
      assert reserved ==> oks[1..][3..] == oks[4..];
    }

    method CheckExposure(id: BetId, b: Bet, oks: seq<bool>) returns (reserved: bool)
      modifies db`store
      ensures reserved <==> Ok(oks, 0) && Ok(oks, 1) && Ok(oks, 2) && Admitted(cfg, old(db.store), b)
      ensures RunCall(cfg, old(db.store), PlaceExposure(id, b), oks) ==
        if reserved then RunCall(cfg, db.store, PlaceDebit(id, b), oks[3..]) else db.store
      ensures db.store == if reserved then WithRow(old(db.store), id, b) else old(db.store)
    {
      RunCallStep(cfg, db.store, PlaceExposure(id, b), oks);
      var exposure := Accumulate(Exposure(cfg.limits, b.slot.round, b.currency));
      if |oks| == 0 || !oks[0] || exposure + PotentialPayout(cfg.limits, b.amount) > cfg.limits.maxRoundExposure {
        return false;
      }
      var inFlight := Accumulate(ReservedIn(b.slot.round, b.wallet));
      reserved := CheckAndInsert(id, b, inFlight, oks[1..]);
      assert reserved ==> oks[1..][2..] == oks[3..];
    }

    method CheckAndInsert(id: BetId, b: Bet, inFlight: int, oks: seq<bool>) returns (reserved: bool)
      modifies db`store
      ensures reserved ==> |oks| >= 2
      ensures reserved <==> Ok(oks, 0) && Ok(oks, 1) && Insertable(cfg, old(db.store), b, inFlight)
      ensures RunCall(cfg, old(db.store), PlaceAccount(id, b, inFlight), oks) ==
        if reserved then RunCall(cfg, db.store, PlaceDebit(id, b), oks[2..]) else db.store
      ensures reserved ==> db.store == old(db.store).(bets := old(db.store).bets[id := b])
      ensures !reserved ==> db.store == old(db.store)
    {
      RunCallStep(cfg, db.store, PlaceAccount(id, b, inFlight), oks);
      if |oks| == 0 || !oks[0] {
        return false;
      }
      if b.wallet in cfg.caps {
        var wagered, won, net := SessionAccounting(db.store.bets, b.wallet);
        if !WithinCaps(cfg.caps[b.wallet], wagered, net, inFlight, b.amount) {
          return false;
        }
      }
      RunCallStep(cfg, db.store, PlaceInsert(id, b), oks[1..]);
      var taken := FindSlot(b.slot);
      if |oks| == 1 || !oks[1] || taken || b.slot.round !in db.store.rounds || b.wallet !in db.store.book.balances {
        return false;
      }
      db.store := db.store.(bets := db.store.bets[id := b]);
      assert oks[1..][1..] == oks[2..];
      reserved := true;
    }

    method FindSlot(slot: Slot) returns (taken: bool)
      ensures taken <==> SlotTaken(db.store.bets, slot)
    {
      var left := db.store.bets.Keys;
      while left != {}
        invariant left <= db.store.bets.Keys
        invariant forall id :: id in db.store.bets && id !in left ==> db.store.bets[id].slot != slot
        decreases |left|
      {
        var id :| id in left;
        if db.store.bets[id].slot == slot {
          return true;
        }
        left := left - {id};
      }
      taken := false;
    }

    /** Reserve under the lock, debit outside it, then activate with up to three attempts. */
    method PlaceBet(id: BetId, b: Bet, oks: seq<bool>) returns (ok: bool)
      requires b.status.Reserving?
      modifies db`store
      ensures db.store == RunCall(cfg, old(db.store), PlaceLock(id, b), oks)
      ensures db.store == PlaceResult(cfg, old(db.store), id, b, oks)
      ensures ok <==> Places(cfg, old(db.store), id, b, oks)
    {
      PlaceOutcome(cfg, db.store, id, b, oks);
      ok := ReserveAndDebit(id, b, oks);
    }

    method ReserveAndDebit(id: BetId, b: Bet, oks: seq<bool>) returns (ok: bool)
      requires b.status.Reserving?
      modifies db`store
      ensures db.store == RunCall(cfg, old(db.store), PlaceLock(id, b), oks)
      ensures ok <==> Debits(cfg, old(db.store), id, b, oks) && HasStatus(db.store, id, Active)
    {
      ok := false;
      var reserved := Reserve(id, b, oks);
      if !reserved || |oks| == 4 {
        return;
      }
      ok := DebitAndActivate(id, b, oks[4..]);
    }

    method DebitAndActivate(id: BetId, b: Bet, oks: seq<bool>) returns (ok: bool)
      requires |oks| > 0 && id in db.store.bets && db.store.bets[id] == b && b.status.Reserving?
      modifies db`store
      ensures db.store == RunCall(cfg, old(db.store), PlaceDebit(id, b), oks)
      ensures ok <==> oks[0] && Covered(old(db.store.book), StakeDebit(id, b)) && HasStatus(db.store, id, Active)
    {
      RunCallStep(cfg, db.store, PlaceDebit(id, b), oks);
      var debited := MoveWallet(StakeDebit(id, b), oks[0]);
      if !debited {
        RunCallStep(cfg, db.store, PlaceRelease(id, b), oks[1..]);
        if |oks| > 1 && oks[1] {
          db.store := db.store.(bets := db.store.bets - {id});
        }
        return false;
      }
      ok := Activate(id, b, oks[1..]);
    }

    method Activate(id: BetId, b: Bet, oks: seq<bool>) returns (ok: bool)
      modifies db`store
      ensures db.store == RunCall(cfg, old(db.store), PlaceActivate(id, b, 1), oks)
      ensures ok <==> HasStatus(old(db.store), id, Reserving) && HasStatus(db.store, id, Active)
    {
      ok := false;
      var attempt, rest := 1, oks;
      while attempt <= 3
        invariant 1 <= attempt <= 4 && db.store == old(db.store)
        invariant attempt <= 3 ==>
          RunCall(cfg, db.store, PlaceActivate(id, b, 1), oks) ==
            RunCall(cfg, db.store, PlaceActivate(id, b, attempt), rest)
        invariant attempt == 4 ==> RunCall(cfg, db.store, PlaceActivate(id, b, 1), oks) == db.store
      {
        ActivateOnce(db.store, id, b, attempt, rest);
        if |rest| == 0 {
          return;
        }
        if rest[0] {
          if HasStatus(db.store, id, Reserving) {
            db.store := SetStatus(db.store, id, Active);
            ok := true;
          }
          return;
        }
        attempt, rest := attempt + 1, rest[1..];
      }
    }

    lemma ActivateOnce(st: Store, id: BetId, b: Bet, attempt: nat, oks: seq<bool>)
      requires 1 <= attempt <= 3
      ensures RunCall(cfg, st, PlaceActivate(id, b, attempt), oks) ==
        if |oks| == 0 then st
        else if oks[0] then (if HasStatus(st, id, Reserving) then SetStatus(st, id, Active) else st)
        else if attempt == 3 then st
        else RunCall(cfg, st, PlaceActivate(id, b, attempt + 1), oks[1..])
    {
      RunCallStep(cfg, st, PlaceActivate(id, b, attempt), oks);
    }

    // ----- closing a bet -----

    method CancelBet(id: BetId, oks: seq<bool>) returns (ok: bool)
      modifies db`store
      ensures db.store == RunFrom(cfg, old(db.store), BeginCancel(0, id), oks)
      ensures db.store == CancelResult(old(db.store), id, oks) && (ok <==> CancelRefunds(old(db.store), id, oks))
    {
      CancelOutcome(cfg, db.store, id, oks);
      if !HasStatus(db.store, id, Active) {
        return false;
      }
      var b := db.store.bets[id];
      RunCallStep(cfg, db.store, CancelClaim(id, b), oks);
      if |oks| == 0 || !oks[0] {
        return false;
      }
      db.store := SetStatus(db.store, id, Cancelled);
      if |oks| == 1 {
        return false;
      }
      IssueEnters(db.store.book, StakeRefund(id, b, RefundKey(id)));
      ok := MoveWallet(StakeRefund(id, b, RefundKey(id)), oks[1]);
    }

    /** `mult` is the auto target, or the live multiplier the engine shows. */
    method CashOut(id: BetId, mult: nat, oks: seq<bool>) returns (ok: bool)
      modifies db`store
      ensures db.store == RunFrom(cfg, old(db.store), BeginCash(0, id, mult), oks)
      ensures CashedSo(cfg, old(db.store), db.store, id, mult, oks)
      ensures ok <==> CashSucceeds(old(db.store), db.store, id, mult, oks)
    {
      CashOutcome(cfg, db.store, id, mult, oks);
      ok := ClaimAndCredit(id, mult, oks);
    }

    method ClaimAndCredit(id: BetId, mult: nat, oks: seq<bool>) returns (ok: bool)
      modifies db`store
      ensures db.store == RunFrom(cfg, old(db.store), BeginCash(0, id, mult), oks)
      ensures ok <==> CashSucceeds(old(db.store), db.store, id, mult, oks)
    {
      if !HasStatus(db.store, id, Active) {
        return false;
      }
      var b := db.store.bets[id];
      if b.slot.round !in db.store.rounds {
        return false;
      }
      var round := db.store.rounds[b.slot.round];
      if !round.phase.Running? || mult >= round.crash {
        return false;
      }
      ok := Win(id, mult, oks);
    }

    /** The claim fixes what the bet has won; the credit follows. */
    method Win(id: BetId, mult: nat, oks: seq<bool>) returns (ok: bool)
      requires HasStatus(db.store, id, Active)
      modifies db`store
      ensures db.store == RunCall(cfg, old(db.store), CashClaim(id, old(db.store.bets[id]), mult), oks)
      ensures ok <==> WinSucceeds(old(db.store), db.store, id, oks)
    {
      var b := db.store.bets[id];
      var payout := CapPayout(cfg.limits, FloorPayout(b.amount, mult), b.cap);
      RunCallStep(cfg, db.store, CashClaim(id, b, mult), oks);
      if |oks| == 0 || !oks[0] {
        return false;
      }
      var row := b.(status := CashedOut, mult := mult, payout := payout);
      db.store := db.store.(bets := db.store.bets[id := row]);
      ok := CreditOrRecord(id, row, oks[1..]);
    }

    /** Credit a claimed win; if that fails, record it as owed. */
    method CreditOrRecord(id: BetId, row: Bet, oks: seq<bool>) returns (ok: bool)
      requires id in db.store.bets && db.store.bets[id] == row
      modifies db`store
      ensures db.store == RunCall(cfg, old(db.store), CashCredit(id, row), oks)
      ensures ok <==> (Ok(oks, 0) && Covered(old(db.store.book), PayoutCreditOp(id, row))) || Ok(oks, 1)
    {
      RunCallStep(cfg, db.store, CashCredit(id, row), oks);
      if |oks| == 0 {
        return false;
      }
      ok := MoveWallet(PayoutCreditOp(id, row), oks[0]);
      if !ok {
        RunCallStep(cfg, db.store, CashPend(id, row), oks[1..]);
        if |oks| > 1 && oks[1] {
          db.store := SetStatus(db.store, id, PayoutPending);
          ok := true;
        }
      }
    }

    /** A cash-out whose failure the tick swallows. */
    method TryCashOut(id: BetId, mult: nat, oks: seq<bool>)
      modifies db`store
      ensures db.store == RunFrom(cfg, old(db.store), BeginCash(0, id, mult), oks)
    {
      var _ := CashOut(id, mult, oks);
    }

    /** The bets a tick finds due, each cashed out in turn; one bet's failure does not stop the others. */
    method EvaluateAutoCashouts(r: RoundId, tick: Tick) returns (ghost log: seq<Alone>)
      modifies db`store
      ensures Ticked(cfg, old(db.store), db.store, r, tick)
      ensures db.store.bets.Keys == old(db.store).bets.Keys && forall id :: id in db.store.bets ==>
        if Reached(old(db.store), id, r, tick) then WonAtTarget(cfg, old(db.store).bets[id], db.store.bets[id])
        else db.store.bets[id] == old(db.store).bets[id]
      ensures db.store == Replay(cfg, old(db.store), log) && CashesDue(old(db.store), r, tick, log)
    {
      var start := db.store;
      log := [];
      var left := set id | id in start.bets && Due(start, id, r, tick.multiplier);
      while left != {}
        invariant TickedBut(cfg, start, db.store, r, tick, left)
        invariant db.store == Replay(cfg, start, log) && CashesDue(start, r, tick, log)
        decreases |left|
      {
        var id :| id in left;
        var target := db.store.bets[id].auto.value;
        TickOneMore(cfg, start, db.store, r, tick, left, id);
        ReplayMore(cfg, start, log, Alone(BeginCash(0, id, target), tick.plan(id)));
        TryCashOut(id, target, tick.plan(id));
        log := log + [Alone(BeginCash(0, id, target), tick.plan(id))];
        left := left - {id};
      }
      forall id | id in start.bets
        ensures Reached(start, id, r, tick) <==> Pays(start, id, r, tick.multiplier) && ClaimOk(tick.plan(id))
      {
        ReachedIsPaid(start, id, r, tick);
      }
    }

    /** Every bet of the round that is still active is busted; the losers are reported. */
    method SettleRound(r: RoundId) returns (losers: seq<BetId>)
      modifies db`store
      ensures db.store == old(db.store).(bets := BustActive(old(db.store).bets, r))
      ensures forall id :: id in losers <==> id in old(db.store).bets && old(db.store).bets[id] != db.store.bets[id]
    {
      losers := [];
      var left := db.store.bets.Keys;
      while left != {}
        invariant left <= db.store.bets.Keys
        invariant forall id :: id in losers <==>
          id in db.store.bets.Keys - left && db.store.bets[id].slot.round == r && db.store.bets[id].status.Active?
        decreases |left|
      {
        var id :| id in left;
        if db.store.bets[id].slot.round == r && db.store.bets[id].status.Active? {
          losers := losers + [id];
        }
        left := left - {id};
      }
      if losers != [] {
        db.store := db.store.(bets := BustActive(db.store.bets, r));
      } else {
        assert forall id :: id in db.store.bets ==> id !in losers;
        assert db.store.bets == BustActive(db.store.bets, r);
      }
    }

    // ----- voids and sweeps -----

    /** Reclaim the payout first, then refund the stake; a failure leaves the rest undone. */
    method PerformVoidReversals(id: BetId, b: Bet, oks: seq<bool>) returns (done: bool)
      modifies db`store
      ensures done ==> |oks| >= 2
      ensures db.store == old(db.store).(book := db.store.book)
      ensures RunCall(cfg, old(db.store), VoidReclaim(id, b), oks) ==
        if done then RunCall(cfg, db.store, VoidFinish(id, b), oks[2..]) else db.store
    {
      done := ReclaimPayout(id, b, oks);
      if done {
        done := ReturnStake(id, b, oks[1..]);
        assert done ==> oks[1..][1..] == oks[2..];
      }
    }

    /** A bet without a payout has nothing to reclaim. */
    method ReclaimPayout(id: BetId, b: Bet, oks: seq<bool>) returns (done: bool)
      modifies db`store
      ensures done ==> |oks| >= 1
      ensures db.store == old(db.store).(book := db.store.book)
      ensures RunCall(cfg, old(db.store), VoidReclaim(id, b), oks) ==
        if done then RunCall(cfg, db.store, VoidRefund(id, b), oks[1..]) else db.store
    {
      RunCallStep(cfg, db.store, VoidReclaim(id, b), oks);
      done := |oks| > 0;
      if done && b.payout > 0 {
        done := MoveWallet(PayoutReclaim(id, b), oks[0]);
      }
    }

    method ReturnStake(id: BetId, b: Bet, oks: seq<bool>) returns (done: bool)
      modifies db`store
      ensures done ==> |oks| >= 1
      ensures db.store == old(db.store).(book := db.store.book)
      ensures RunCall(cfg, old(db.store), VoidRefund(id, b), oks) ==
        if done then RunCall(cfg, db.store, VoidFinish(id, b), oks[1..]) else db.store
    {
      RunCallStep(cfg, db.store, VoidRefund(id, b), oks);
      done := |oks| > 0;
      if done {
        done := MoveWallet(StakeRefund(id, b, VoidRefundKey(id)), oks[0]);
      }
    }

    method FinishVoid(id: BetId, b: Bet, oks: seq<bool>) returns (ok: bool)
      modifies db`store
      ensures db.store == RunCall(cfg, old(db.store), VoidReclaim(id, b), oks)
      ensures ok <==> HasStatus(old(db.store), id, Voiding) && HasStatus(db.store, id, Voided)
    {
      ok := PerformVoidReversals(id, b, oks);
      if ok {
        RunCallStep(cfg, db.store, VoidFinish(id, b), oks[2..]);
        ok := |oks| > 2 && oks[2] && HasStatus(db.store, id, Voiding);
        if ok {
          db.store := SetStatus(db.store, id, Voided);
        }
      }
    }

    /** Void a settled bet, or finish a void that was interrupted. */
    method VoidBet(id: BetId, oks: seq<bool>) returns (ok: bool)
      requires !cfg.timing.noVoids
      modifies db`store
      ensures db.store == RunFrom(cfg, old(db.store), BeginVoid(0, id), oks)
      ensures db.store == VoidResult(old(db.store), id, oks) && (ok <==> VoidFinishes(old(db.store), id, oks))
    {
      VoidOutcome(cfg, db.store, id, oks);
      ok := ResumeOrClaim(id, oks);
    }

    method ResumeOrClaim(id: BetId, oks: seq<bool>) returns (ok: bool)
      requires !cfg.timing.noVoids
      modifies db`store
      ensures db.store == RunFrom(cfg, old(db.store), BeginVoid(0, id), oks)
      ensures ok <==> !HasStatus(old(db.store), id, Voided) && HasStatus(db.store, id, Voided)
    {
      VoidBegins(cfg, db.store, id, oks);
      if HasStatus(db.store, id, Voiding) {
        ok := ResumeVoid(id, oks);
      } else if HasStatus(db.store, id, Busted) || HasStatus(db.store, id, CashedOut) {
        ok := ClaimAndVoid(id, oks);
      } else {
        ok := false;
      }
    }

    method ResumeVoid(id: BetId, oks: seq<bool>) returns (ok: bool)
      requires HasStatus(db.store, id, Voiding)
      modifies db`store
      ensures db.store == RunCall(cfg, old(db.store), VoidReclaim(id, old(db.store.bets[id])), oks)
      ensures ok <==> HasStatus(db.store, id, Voided)
    {
      ok := FinishVoid(id, db.store.bets[id], oks);
    }

    method ClaimAndVoid(id: BetId, oks: seq<bool>) returns (ok: bool)
      requires HasStatus(db.store, id, Busted) || HasStatus(db.store, id, CashedOut)
      modifies db`store
      ensures db.store == RunCall(cfg, old(db.store), VoidClaim(id, old(db.store.bets[id])), oks)
      ensures ok <==> HasStatus(db.store, id, Voided)
    {
      var b := db.store.bets[id];
      RunCallStep(cfg, db.store, VoidClaim(id, b), oks);
      if |oks| == 0 || !oks[0] {
        return false;
      }
      db.store := SetStatus(db.store, id, Voiding);
      ok := FinishVoid(id, b, oks[1..]);
    }

    /** Re-run the reversals of up to `limit` bets that are stuck in a void. */
    method ReconcileVoidingBets(limit: nat, plan: Plan) returns (ghost log: seq<Alone>)
      requires !cfg.timing.noVoids
      modifies db`store
      ensures db.store == Replay(cfg, old(db.store), log) && |log| <= limit
      ensures forall i :: 0 <= i < |log| ==>
        log[i].e.BeginVoid? && log[i].oks == plan(log[i].e.id) && HasStatus(old(db.store), log[i].e.id, Voiding)
      ensures forall i, j :: 0 <= i < j < |log| ==> log[i].e.id != log[j].e.id
      ensures |log| < limit ==>
        forall id :: HasStatus(old(db.store), id, Voiding) ==> Alone(BeginVoid(0, id), plan(id)) in log
    {
      var start := db.store;
      var stuck: set<BetId> := set id | id in start.bets && HasStatus(start, id, Voiding);
      var taken := 0;
      log := [];
      while taken < limit && stuck != {}
        invariant taken == |log| <= limit && db.store == Replay(cfg, start, log)
        invariant forall id :: id in stuck ==> HasStatus(start, id, Voiding)
        invariant forall i :: 0 <= i < |log| ==>
          log[i].e.BeginVoid? && log[i].oks == plan(log[i].e.id) && HasStatus(start, log[i].e.id, Voiding)
            && log[i].e.id !in stuck
        invariant forall i, j :: 0 <= i < j < |log| ==> log[i].e.id != log[j].e.id
        invariant forall id :: HasStatus(start, id, Voiding) ==> id in stuck || Alone(BeginVoid(0, id), plan(id)) in log
        decreases |stuck|
      {
        var id :| id in stuck;
        ReplayMore(cfg, start, log, Alone(BeginVoid(0, id), plan(id)));
        var _ := VoidBet(id, plan(id));
        log := log + [Alone(BeginVoid(0, id), plan(id))];
        stuck, taken := stuck - {id}, taken + 1;
      }
    }

    /** Credit the payout again under the same key, then close the bet if it is still pending. */
    method ReconcileOne(id: BetId, oks: seq<bool>) returns (ok: bool)
      modifies db`store
      ensures db.store == RunFrom(cfg, old(db.store), BeginReconcile(0, id), oks)
      ensures db.store == RepayResult(old(db.store), id, oks) && (ok <==> Repays(old(db.store), id, oks) && Ok(oks, 1))
    {
      RepayOutcome(cfg, db.store, id, oks);
      if !HasStatus(db.store, id, PayoutPending) {
        return false;
      }
      var b := db.store.bets[id];
      RunCallStep(cfg, db.store, PendCredit(id, b), oks);
      if |oks| == 0 {
        return false;
      }
      ok := MoveWallet(PayoutCreditOp(id, b), oks[0]);
      RunCallStep(cfg, db.store, PendFinish(id, b), oks[1..]);
      ok := ok && |oks| > 1 && oks[1];
      if ok {
        db.store := SetStatus(db.store, id, CashedOut);
      }
    }

    /** Re-issue up to `limit` payouts that are still owed. */
    method ReconcilePendingPayouts(limit: nat, plan: Plan) returns (ghost log: seq<Alone>)
      modifies db`store
      ensures db.store == Replay(cfg, old(db.store), log) && |log| <= limit
      ensures forall i :: 0 <= i < |log| ==>
        log[i].e.BeginReconcile? && log[i].oks == plan(log[i].e.id)
          && HasStatus(old(db.store), log[i].e.id, PayoutPending)
      ensures forall i, j :: 0 <= i < j < |log| ==> log[i].e.id != log[j].e.id
      ensures |log| < limit ==>
        forall id :: HasStatus(old(db.store), id, PayoutPending) ==> Alone(BeginReconcile(0, id), plan(id)) in log
    {
      var start := db.store;
      var pending: set<BetId> := set id | id in start.bets && HasStatus(start, id, PayoutPending);
      var taken := 0;
      log := [];
      while taken < limit && pending != {}
        invariant taken == |log| <= limit && db.store == Replay(cfg, start, log)
        invariant forall id :: id in pending ==> HasStatus(start, id, PayoutPending)
        invariant forall i :: 0 <= i < |log| ==>
          log[i].e.BeginReconcile? && log[i].oks == plan(log[i].e.id) && HasStatus(start, log[i].e.id, PayoutPending)
          && log[i].e.id !in pending
        invariant forall i, j :: 0 <= i < j < |log| ==> log[i].e.id != log[j].e.id
        invariant forall id :: HasStatus(start, id, PayoutPending) ==>
          id in pending || Alone(BeginReconcile(0, id), plan(id)) in log
        decreases |pending|
      {
        var id :| id in pending;
        ReplayMore(cfg, start, log, Alone(BeginReconcile(0, id), plan(id)));
        var _ := ReconcileOne(id, plan(id));
        log := log + [Alone(BeginReconcile(0, id), plan(id))];
        pending, taken := pending - {id}, taken + 1;
      }
    }
  }
}
