/**
 * The bet money protocol as a state machine. Every awaited database statement of a call
 * is one atomic step over the shared store; any number of calls run at once on any node.
 * A step may fail (the statement throws and has no effect), and a call may die anywhere.
 *
 * The engine view that a call reads before its first statement may be stale, so a call may
 * begin at any time, for any round and in any phase; only the authoritative re-reads in
 * the calls themselves are kept. A recovery or reconcile loop handles its rows one after
 * the other; here each iteration is a call of its own, which allows every order and a
 * death at every loop position.
 */
module BetProtocol {
  import opened Domain
  import opened Money
  import opened Ledger
  import opened BetSums

  datatype RoundRow = RoundRow(phase: Phase, crash: nat)

  /** Responsible-gambling limits of a wallet's session; an absent limit is not enforced. */
  datatype Caps = Caps(maxWager: Option<nat>, maxLoss: Option<nat>)

  /**
   * Timing facts that the deployment provides and the statements do not check:
   *  - debitReturned: recovery does not claim a slot whose debit call is outstanding;
   *  - slotQuiet: a slot is not reserved again while recovery works on an earlier bet in it;
   *  - cashOutDone: a void does not claim a bet while a cash-out of it is in flight;
   *  - oneRound: a wallet reserves in one round at a time, with no reservation carried over;
   *  - reserveFirst: no reservation commits after the first cash-out of its round;
   *  - noVoids: nobody voids.
   */
  datatype Timing = Timing(
    debitReturned: bool, slotQuiet: bool, cashOutDone: bool,
    oneRound: bool, reserveFirst: bool, noVoids: bool)

  datatype Config = Config(limits: RiskLimits, caps: map<WalletId, Caps>, timing: Timing)

  /** The next statement of a call; `b` is the row as the call last read or wrote it. */
  datatype Call =
    | PlaceLock(id: BetId, b: Bet)
    | PlaceExposure(id: BetId, b: Bet)
    | PlaceAccount(id: BetId, b: Bet, reserved: int)
    | PlaceInsert(id: BetId, b: Bet)
    | PlaceDebit(id: BetId, b: Bet)
    | PlaceRelease(id: BetId, b: Bet)
    | PlaceActivate(id: BetId, b: Bet, attempt: nat)
    | CancelClaim(id: BetId, b: Bet)
    | CancelCredit(id: BetId, b: Bet)
    | CashClaim(id: BetId, b: Bet, mult: nat)
    | CashCredit(id: BetId, b: Bet)
    | CashPend(id: BetId, b: Bet)
    | RecoverClaim(id: BetId, b: Bet)
    | RecoverLookup(id: BetId, b: Bet)
    | RecoverRefund(id: BetId, b: Bet)
    | RecoverFinish(id: BetId, b: Bet)
    | RecoverDrop(id: BetId, b: Bet)
    | PendCredit(id: BetId, b: Bet)
    | PendFinish(id: BetId, b: Bet)
    | VoidClaim(id: BetId, b: Bet)
    | VoidReclaim(id: BetId, b: Bet)
    | VoidRefund(id: BetId, b: Bet)
    | VoidFinish(id: BetId, b: Bet)
  {
    /** Inside the reserve transaction the per-round advisory lock is held. */
    predicate HoldsLock(r: RoundId) {
      (PlaceExposure? || PlaceAccount? || PlaceInsert?) && b.slot.round == r
    }

    /** A placeBet whose row does not exist yet. */
    predicate Unborn() {
      PlaceLock? || PlaceExposure? || PlaceAccount? || PlaceInsert?
    }

    /** A placeBet between its reservation and the end of its debit. */
    predicate Debiting() {
      PlaceDebit? || PlaceRelease? || PlaceActivate?
    }

    /** A bet has been claimed and its credit is not posted yet. */
    predicate InWindow() {
      CancelCredit? || CashCredit? || CashPend?
    }

    /** Recovery owns the slot and has not finished with it. */
    predicate Recovering() {
      RecoverLookup? || RecoverRefund? || RecoverFinish? || RecoverDrop?
    }
  }

  datatype Event =
    | OpenRound(round: RoundId, crash: nat)
    | SetPhase(round: RoundId, phase: Phase)
    | Settle(round: RoundId)
    | BeginPlace(call: CallId, id: BetId, slot: Slot, wallet: WalletId, currency: Currency,
                 amount: nat, auto: Option<nat>, cap: Option<nat>)
    | BeginCancel(call: CallId, id: BetId)
    | BeginCash(call: CallId, id: BetId, mult: nat)
    | BeginRecover(call: CallId, id: BetId)
    | BeginReconcile(call: CallId, id: BetId)
    | BeginVoid(call: CallId, id: BetId)
    | Step(call: CallId, ok: bool)
    | Die(call: CallId)

  /** The database: rounds, bet rows, the ledger, and the bet ids ever drawn. */
  datatype Store = Store(rounds: map<RoundId, RoundRow>, bets: Bets, book: Book, used: set<BetId>)

  /** `abandoned` are the bets that were claimed but whose credit was never posted by the claimant. */
  datatype State = State(store: Store, calls: map<CallId, Call>, abandoned: set<BetId>)

  function Init(opening: map<WalletId, nat>): State {
    State(Store(map[], map[], Book(opening, []), {}), map[], {})
  }

  /** What a call does after a statement; `Forsake` ends it inside its credit window. */
  datatype After = Continue(call: Call) | Finish | Forsake

  // ----- statements -----

  predicate HasStatus(st: Store, id: BetId, status: Status) {
    id in st.bets && st.bets[id].status == status
  }

  function SetStatus(st: Store, id: BetId, status: Status): Store
    requires id in st.bets
  {
    st.(bets := st.bets[id := st.bets[id].(status := status)])
  }

  /** A compare-and-swap on the status; the loser of the race does nothing and ends. */
  function Cas(st: Store, id: BetId, from: Status, to: Status, won: After): (Store, After) {
    if HasStatus(st, id, from) then (SetStatus(st, id, to), won) else (st, Finish)
  }

  /** A money move inside a call: continue as `applied` if it is posted, else as `refused`. */
  function MoveMoney(st: Store, op: Op, ok: bool, applied: After, refused: After): (Store, After) {
    var (book, reply) := Issue(st.book, op);
    if ok && reply.Applied? then (st.(book := book), applied) else (st, refused)
  }

  function StakeDebit(id: BetId, b: Bet): Op {
    Move(b.wallet, 0 - b.amount, BetDebit, DebitKey(b.slot), Some(id))
  }

  function PayoutCreditOp(id: BetId, b: Bet): Op {
    Move(b.wallet, b.payout, PayoutCredit, PayoutKey(id), Some(id))
  }

  function PayoutReclaim(id: BetId, b: Bet): Op {
    Move(b.wallet, 0 - b.payout, PayoutCredit, ReclaimKey(id), Some(id))
  }

  function StakeRefund(id: BetId, b: Bet, key: Key): Op {
    Move(b.wallet, b.amount, Refund, key, Some(id))
  }

  predicate WithinCaps(caps: Caps, wagered: int, net: int, reserved: int, amount: int) {
    && (caps.maxWager.Some? ==> wagered + reserved + amount <= caps.maxWager.value)
    && (caps.maxLoss.Some? ==> net + reserved + amount <= caps.maxLoss.value)
  }

  ghost predicate SlotTaken(bets: Bets, slot: Slot) {
    exists id :: id in bets && bets[id].slot == slot
  }

  /** The reserve transaction: exposure read, session read, insert, under the round lock. */
  ghost function Reserve(cfg: Config, st: Store, call: Call): (Store, After)
    requires call.PlaceExposure? || call.PlaceAccount? || call.PlaceInsert?
  {
    var id, b := call.id, call.b;
    match call
    case PlaceExposure(_, _) =>
      var current := Sum(st.bets, Exposure(cfg.limits, b.slot.round, b.currency));
      if current + PotentialPayout(cfg.limits, b.amount) > cfg.limits.maxRoundExposure then (st, Finish)
      else (st, Continue(PlaceAccount(id, b, Sum(st.bets, ReservedIn(b.slot.round, b.wallet)))))
    case PlaceAccount(_, _, reserved) =>
      if b.wallet in cfg.caps
         && !WithinCaps(cfg.caps[b.wallet], Sum(st.bets, Wagered(b.wallet)), Sum(st.bets, Net(b.wallet)), reserved,
              b.amount)
      then (st, Finish)
      else (st, Continue(PlaceInsert(id, b)))
    case PlaceInsert(_, _) =>
      if SlotTaken(st.bets, b.slot) || b.slot.round !in st.rounds || b.wallet !in st.book.balances then (st, Finish)
      else (st.(bets := st.bets[id := b]), Continue(PlaceDebit(id, b)))
  }

  /** One statement of a call against the store. `ok` is false when the statement throws. */
  ghost function Exec(cfg: Config, st: Store, call: Call, ok: bool): (Store, After) {
    var id, b := call.id, call.b;
    match call
    case PlaceLock(_, _) => (st, if ok then Continue(PlaceExposure(id, b)) else Finish)
    case PlaceExposure(_, _) => if ok then Reserve(cfg, st, call) else (st, Finish)
    case PlaceAccount(_, _, _) => if ok then Reserve(cfg, st, call) else (st, Finish)
    case PlaceInsert(_, _) => if ok then Reserve(cfg, st, call) else (st, Finish)
    case PlaceDebit(_, _) =>
      MoveMoney(st, StakeDebit(id, b), ok, Continue(PlaceActivate(id, b, 1)), Continue(PlaceRelease(id, b)))
    case PlaceRelease(_, _) => (if ok then st.(bets := st.bets - {id}) else st, Finish)
    case PlaceActivate(_, _, attempt) =>
      if ok then Cas(st, id, Reserving, Active, Finish)
      else (st, if attempt >= 3 then Finish else Continue(PlaceActivate(id, b, attempt + 1)))
    case CancelClaim(_, _) =>
      if ok then Cas(st, id, Active, Cancelled, Continue(CancelCredit(id, b))) else (st, Finish)
    case CancelCredit(_, _) => MoveMoney(st, StakeRefund(id, b, RefundKey(id)), ok, Finish, Forsake)
    case CashClaim(_, _, mult) =>
      if ok && HasStatus(st, id, Active) then
        var row := st.bets[id].(status := CashedOut, mult := mult, payout := PayoutAt(cfg.limits, b, mult));
        (st.(bets := st.bets[id := row]), Continue(CashCredit(id, row)))
      else (st, Finish)
    case CashCredit(_, _) => MoveMoney(st, PayoutCreditOp(id, b), ok, Finish, Continue(CashPend(id, b)))
    case CashPend(_, _) => if ok && id in st.bets then (SetStatus(st, id, PayoutPending), Finish) else (st, Forsake)
    case RecoverClaim(_, _) =>
      if ok then Cas(st, id, Reserving, Cancelling, Continue(RecoverLookup(id, b))) else (st, Finish)
    case RecoverLookup(_, _) =>
      (st, if !ok then Finish
           else if Has(st.book, DebitKey(b.slot)) then Continue(RecoverRefund(id, b))
           else Continue(RecoverDrop(id, b)))
    case RecoverRefund(_, _) =>
      MoveMoney(st, StakeRefund(id, b, RestartKey(id)), ok, Continue(RecoverFinish(id, b)), Finish)
    case RecoverFinish(_, _) => (if ok && id in st.bets then SetStatus(st, id, Cancelled) else st, Finish)
    case RecoverDrop(_, _) => (if ok then st.(bets := st.bets - {id}) else st, Finish)
    case PendCredit(_, _) => MoveMoney(st, PayoutCreditOp(id, b), ok, Continue(PendFinish(id, b)), Finish)
    case PendFinish(_, _) => if ok then Cas(st, id, PayoutPending, CashedOut, Finish) else (st, Finish)
    case VoidClaim(_, _) => if ok then Cas(st, id, b.status, Voiding, Continue(VoidReclaim(id, b))) else (st, Finish)
    case VoidReclaim(_, _) =>
      if b.payout == 0 then (st, Continue(VoidRefund(id, b)))
      else MoveMoney(st, PayoutReclaim(id, b), ok, Continue(VoidRefund(id, b)), Finish)
    case VoidRefund(_, _) =>
      MoveMoney(st, StakeRefund(id, b, VoidRefundKey(id)), ok, Continue(VoidFinish(id, b)), Finish)
    case VoidFinish(_, _) => if ok then Cas(st, id, Voiding, Voided, Finish) else (st, Finish)
  }

  /** The bulk update of settleRound: every active bet of the round is busted. */
  function BustActive(bets: Bets, r: RoundId): Bets {
    map id | id in bets :: if bets[id].slot.round == r && bets[id].status.Active? then bets[id].(status := Busted)
      else bets[id]
  }

  /** The first read of a call that works on an existing bet, if it lets the call go on. */
  function FirstRead(cfg: Config, st: Store, e: Event): Option<Call> {
    match e
    case BeginCancel(_, id) =>
      if HasStatus(st, id, Active) then Some(CancelClaim(id, st.bets[id])) else None
    case BeginCash(_, id, mult) =>
      if HasStatus(st, id, Active) && st.bets[id].slot.round in st.rounds
         && st.rounds[st.bets[id].slot.round].phase.Running? && mult < st.rounds[st.bets[id].slot.round].crash
      then Some(CashClaim(id, st.bets[id], mult)) else None
    case BeginRecover(_, id) =>
      if HasStatus(st, id, Reserving) then Some(RecoverClaim(id, st.bets[id]))
      else if HasStatus(st, id, Cancelling) then Some(RecoverLookup(id, st.bets[id])) else None
    case BeginReconcile(_, id) =>
      if HasStatus(st, id, PayoutPending) then Some(PendCredit(id, st.bets[id])) else None
    case BeginVoid(_, id) =>
      if cfg.timing.noVoids then None
      else if HasStatus(st, id, Busted) || HasStatus(st, id, CashedOut) then Some(VoidClaim(id, st.bets[id]))
      else if HasStatus(st, id, Voiding) then Some(VoidReclaim(id, st.bets[id])) else None
    case _ => None
  }

  // ----- locks and timing -----

  ghost predicate LockFree(calls: map<CallId, Call>, r: RoundId) {
    forall c :: c in calls ==> !calls[c].HoldsLock(r)
  }

  /** No placeBet of this bet is waiting for its debit. */
  ghost predicate DebitReturned(calls: map<CallId, Call>, id: BetId) {
    forall c :: c in calls && calls[c].PlaceDebit? ==> calls[c].id != id
  }

  ghost predicate SlotQuiet(calls: map<CallId, Call>, slot: Slot) {
    forall c :: c in calls && calls[c].Recovering() ==> calls[c].b.slot != slot
  }

  ghost predicate CashOutDone(calls: map<CallId, Call>, id: BetId) {
    forall c :: c in calls && (calls[c].CashCredit? || calls[c].CashPend?) ==> calls[c].id != id
  }

  /** No reservation of the wallet, committed or under way, belongs to another round. */
  ghost predicate OneRound(s: State, w: WalletId, r: RoundId) {
    && (forall id :: id in s.store.bets && s.store.bets[id].wallet == w && s.store.bets[id].status.Reserving? ==>
          s.store.bets[id].slot.round == r)
    && (forall c :: c in s.calls && s.calls[c].b.wallet == w && s.calls[c].HoldsLock(s.calls[c].b.slot.round) ==>
          s.calls[c].b.slot.round == r)
  }

  ghost predicate NoCashOutYet(bets: Bets, r: RoundId) {
    forall id :: id in bets && bets[id].slot.round == r ==> !IsWon(bets[id].status)
  }

  /** May the call execute its next statement now? The lock is the program's own; the rest is timing. */
  ghost predicate Enabled(cfg: Config, s: State, call: Call) {
    match call
    case PlaceLock(_, b) =>
      LockFree(s.calls, b.slot.round) && (cfg.timing.oneRound ==> OneRound(s, b.wallet, b.slot.round))
    case PlaceInsert(_, b) =>
      && (cfg.timing.slotQuiet ==> SlotQuiet(s.calls, b.slot))
      && (cfg.timing.reserveFirst ==> NoCashOutYet(s.store.bets, b.slot.round))
    case RecoverClaim(id, _) => cfg.timing.debitReturned ==> DebitReturned(s.calls, id)
    case VoidClaim(id, _) => cfg.timing.cashOutDone ==> CashOutDone(s.calls, id)
    case _ => true
  }

  // ----- transitions -----

  function Resume(s: State, c: CallId, after: After): State
    requires c in s.calls
  {
    match after
    case Continue(call) => s.(calls := s.calls[c := call])
    case Finish => s.(calls := s.calls - {c})
    case Forsake => s.(calls := s.calls - {c}, abandoned := s.abandoned + {s.calls[c].id})
  }

  ghost function Advance(cfg: Config, s: State, c: CallId, ok: bool): State
    requires c in s.calls
  {
    if Enabled(cfg, s, s.calls[c]) then
      var (store, after) := Exec(cfg, s.store, s.calls[c], ok);
      Resume(s.(store := store), c, after)
    else s
  }

  ghost function Next(cfg: Config, s: State, e: Event): State {
    var st := s.store;
    match e
    case OpenRound(r, crash) =>
      if r in st.rounds || !(100 <= crash <= MAX_CENTS) then s
      else s.(store := st.(rounds := st.rounds[r := RoundRow(Waiting, crash)]))
    case SetPhase(r, phase) =>
      if r in st.rounds then s.(store := st.(rounds := st.rounds[r := st.rounds[r].(phase := phase)])) else s
    case Settle(r) => s.(store := st.(bets := BustActive(st.bets, r)))
    case BeginPlace(c, id, slot, w, ccy, amount, auto, cap) =>
      if c in s.calls || id in st.used then s
      else s.(store := st.(used := st.used + {id}),
              calls := s.calls[c := PlaceLock(id, Bet(slot, w, ccy, amount, auto, cap, Reserving, 0, 0))])
    case Step(c, ok) => if c in s.calls then Advance(cfg, s, c, ok) else s
    case Die(c) =>
      if c in s.calls then Resume(s, c, if s.calls[c].InWindow() then Forsake else Finish) else s
    case _ =>
      var first := FirstRead(cfg, st, e);
      if e.call in s.calls || first.None? then s else s.(calls := s.calls[e.call := first.value])
  }

  ghost function Run(cfg: Config, s: State, events: seq<Event>): State {
    if events == [] then s else Next(cfg, Run(cfg, s, events[..|events| - 1]), events[|events| - 1])
  }
}
