/** Exactly-once money: the inductive invariant of the bet protocol. */
module BetMoney {
  import opened Domain
  import opened Money
  import opened Ledger
  import opened BetSums
  import opened BetProtocol

  // ----- the invariant -----

  /** The columns of a bet row that are written once. */
  predicate SameBet(a: Bet, b: Bet) {
    a.slot == b.slot && a.wallet == b.wallet && a.currency == b.currency && a.amount == b.amount
    && a.auto == b.auto && a.cap == b.cap
  }

  predicate IsVoid(st: Status) {
    st.Voiding? || st.Voided?
  }

  predicate IsOver(st: Status) {
    IsWon(st) || IsVoid(st) || st.Busted?
  }

  predicate IsRestart(st: Status) {
    st.Cancelling? || st.Cancelled?
  }

  /** What a ledger row says about the bet it belongs to. */
  predicate RowOk(st: Store, k: Key, row: Row) {
    && row.ref.Some? && row.ref.value in st.bets
    && var b := st.bets[row.ref.value];
    && row.wallet == b.wallet
    && match k
       case DebitKey(slot) => slot == b.slot && row.kind == BetDebit && row.amount + b.amount == 0 && b.amount > 0
       case PayoutKey(id) =>
         id == row.ref.value && row.kind == PayoutCredit && row.amount == b.payout && b.payout > 0
         && (IsWon(b.status) || IsVoid(b.status))
       case RefundKey(id) => id == row.ref.value && row.kind == Refund && row.amount == b.amount && b.status.Cancelled?
       case RestartKey(id) =>
         id == row.ref.value && row.kind == Refund && row.amount == b.amount && IsRestart(b.status)
         && Has(st.book, DebitKey(b.slot))
       case ReclaimKey(id) =>
         id == row.ref.value && row.kind == PayoutCredit && row.amount + b.payout == 0 && b.payout > 0
           && IsVoid(b.status)
       case VoidRefundKey(id) =>
         id == row.ref.value && row.kind == Refund && row.amount == b.amount && IsVoid(b.status)
         && (b.payout == 0 || Has(st.book, ReclaimKey(id)))
       case ResetKey(_) => false
  }

  ghost predicate RowsOk(st: Store) {
    forall k :: Has(st.book, k) ==> RowOk(st, k, Find(st.book.rows, k).value)
  }

  predicate BetOk(cfg: Config, st: Store, id: BetId)
    requires id in st.bets
  {
    var b := st.bets[id];
    && id in st.used
    && (!b.status.Reserving? && !b.status.Cancelling? ==> Has(st.book, DebitKey(b.slot)))
    && (IsWon(b.status) ==>
          b.slot.round in st.rounds && b.mult < st.rounds[b.slot.round].crash
            && b.payout == PayoutAt(cfg.limits, b, b.mult))
    && (!IsWon(b.status) && !IsVoid(b.status) ==> b.payout == 0)
    && (b.status.Voided? ==> Has(st.book, VoidRefundKey(id)))
    && !(Has(st.book, RefundKey(id)) && Has(st.book, RestartKey(id)))
  }

  ghost predicate BetsOk(cfg: Config, st: Store) {
    forall id :: id in st.bets ==> BetOk(cfg, st, id)
  }

  ghost predicate SlotsUnique(bets: Bets) {
    forall id, id' :: id in bets && id' in bets && bets[id].slot == bets[id'].slot ==> id == id'
  }

  ghost predicate StoreOk(cfg: Config, st: Store) {
    RowsOk(st) && BetsOk(cfg, st) && SlotsUnique(st.bets)
  }

  /** A slot that recovery works on holds the claimed bet, a recovered bet, or nothing at all. */
  ghost predicate RecoverOk(st: Store, id: BetId, b: Bet) {
    && (id in st.bets ==>
          st.bets[id].status.Cancelling? || (st.bets[id].status.Cancelled? && Has(st.book, RestartKey(id))))
    && (forall id' :: id' in st.bets && st.bets[id'].slot == b.slot ==> id' == id)
  }

  /** What a call in flight knows about the store. */
  ghost predicate CallOk(st: Store, call: Call) {
    var id, b := call.id, call.b;
    && id in st.used
    && (id in st.bets ==> SameBet(b, st.bets[id]))
    && (call.Unborn() ==> id !in st.bets && b.status.Reserving? && b.payout == 0)
    && match call
       case PlaceDebit(_, _) => HasStatus(st, id, Reserving) && !Has(st.book, DebitKey(b.slot))
       case PlaceRelease(_, _) =>
         id in st.bets ==>
           (st.bets[id].status.Reserving? || st.bets[id].status.Cancelling?) && !Has(st.book, DebitKey(b.slot))
       case PlaceActivate(_, _, _) => id in st.bets && Has(st.book, DebitKey(b.slot))
       case CancelCredit(_, _) => HasStatus(st, id, Cancelled) && !Has(st.book, RestartKey(id))
       case CashClaim(_, _, mult) => b.slot.round in st.rounds && mult < st.rounds[b.slot.round].crash
       case CashCredit(_, _) => HasStatus(st, id, CashedOut) && b.payout == st.bets[id].payout
       case CashPend(_, _) => HasStatus(st, id, CashedOut)
       case RecoverLookup(_, _) => RecoverOk(st, id, b)
       case RecoverRefund(_, _) => RecoverOk(st, id, b) && id in st.bets && Has(st.book, DebitKey(b.slot))
       case RecoverFinish(_, _) => RecoverOk(st, id, b) && id in st.bets && Has(st.book, RestartKey(id))
         && Has(st.book, DebitKey(b.slot))
       case RecoverDrop(_, _) => RecoverOk(st, id, b) && !Has(st.book, DebitKey(b.slot))
       case PendCredit(_, _) =>
         id in st.bets && b.payout == st.bets[id].payout
           && (st.bets[id].status.PayoutPending? || Has(st.book, PayoutKey(id)))
       case PendFinish(_, _) => Has(st.book, PayoutKey(id))
       case VoidClaim(_, _) =>
         id in st.bets && b.payout == st.bets[id].payout && (b.status.CashedOut? || b.status.Busted?)
           && IsOver(st.bets[id].status)
       case VoidReclaim(_, _) => id in st.bets && b.payout == st.bets[id].payout && IsVoid(st.bets[id].status)
       case VoidRefund(_, _) =>
         id in st.bets && b.payout == st.bets[id].payout && IsVoid(st.bets[id].status)
           && (b.payout == 0 || Has(st.book, ReclaimKey(id)))
       case VoidFinish(_, _) => Has(st.book, VoidRefundKey(id))
       case _ => true
  }

  ghost predicate CallsOk(st: Store, calls: map<CallId, Call>) {
    forall c :: c in calls ==> CallOk(st, calls[c])
  }

  /** Two calls that can never be in flight together: one placeBet per bet id, alone before
      its row exists, and one open credit window per bet. */
  predicate Clash(a: Call, b: Call) {
    a.id == b.id && (a.Unborn() || b.Unborn() || (a.Debiting() && b.Debiting()) || (a.InWindow() && b.InWindow()))
  }

  ghost predicate NoClash(calls: map<CallId, Call>) {
    forall c, d :: c in calls && d in calls && c != d ==> !Clash(calls[c], calls[d])
  }

  predicate Voids(call: Call) {
    call.VoidClaim? || call.VoidReclaim? || call.VoidRefund? || call.VoidFinish?
  }

  /** Where nobody voids, no void is in flight. */
  ghost predicate VoidsAllowed(t: Timing, calls: map<CallId, Call>) {
    t.noVoids ==> forall c :: c in calls ==> !Voids(calls[c])
  }

  ghost predicate Inv(cfg: Config, s: State) {
    StoreOk(cfg, s.store) && CallsOk(s.store, s.calls) && NoClash(s.calls) && VoidsAllowed(cfg.timing, s.calls)
  }

  /** No cash-out is voided under its own claimant. */
  predicate CashQuiet(t: Timing) {
    t.noVoids || t.cashOutDone
  }

  /** The timing facts that the exactly-once property needs. */
  predicate SafeTiming(t: Timing) {
    t.debitReturned && t.slotQuiet && CashQuiet(t)
  }

  // ----- one statement against the store -----

  /** What the guards say about the other calls when `call` executes. */
  predicate Quiet(call: Call, other: Call) {
    && !Clash(call, other)
    && (call.PlaceInsert? && other.Recovering() ==> other.b.slot != call.b.slot)
    && (call.RecoverClaim? && other.PlaceDebit? ==> other.id != call.id)
    && (call.VoidClaim? && (other.CashCredit? || other.CashPend?) ==> other.id != call.id)
  }

  /** The operation a call posts, if its next statement is a money move. */
  function MoneyOp(call: Call): Option<Op> {
    var id, b := call.id, call.b;
    match call
    case PlaceDebit(_, _) => Some(StakeDebit(id, b))
    case CancelCredit(_, _) => Some(StakeRefund(id, b, RefundKey(id)))
    case CashCredit(_, _) => Some(PayoutCreditOp(id, b))
    case PendCredit(_, _) => Some(PayoutCreditOp(id, b))
    case RecoverRefund(_, _) => Some(StakeRefund(id, b, RestartKey(id)))
    case VoidReclaim(_, _) => if b.payout == 0 then None else Some(PayoutReclaim(id, b))
    case VoidRefund(_, _) => Some(StakeRefund(id, b, VoidRefundKey(id)))
    case _ => None
  }

  /** Posting a row that fits its bet keeps all rows fitting theirs. */
  lemma PostKeepsRows(st: Store, op: Op)
    requires RowsOk(st) && op.Move?
    requires var (book, reply) := Post(st.book, op);
      reply.Applied? && !Has(st.book, op.key) ==> RowOk(st.(book := book), op.key, reply.row)
    ensures RowsOk(st.(book := Post(st.book, op).0))
  {
    PostEffect(st.book, op);
    var st' := st.(book := Post(st.book, op).0);
    forall k | Has(st'.book, k)
      ensures RowOk(st', k, Find(st'.book.rows, k).value)
    {
      if Has(st.book, k) {
        RowOutlivesPost(st, op, k);
      }
    }
  }

  lemma RowOutlivesPost(st: Store, op: Op, k: Key)
    requires Has(st.book, k) && RowOk(st, k, Find(st.book.rows, k).value)
    ensures var st' := st.(book := Post(st.book, op).0);
      Has(st'.book, k) && RowOk(st', k, Find(st'.book.rows, k).value)
  {
    PostEffect(st.book, op);
  }

  /** The row a call is about to post fits its bet. */
  lemma NewRowFits(cfg: Config, st: Store, call: Call, row: Row)
    requires StoreOk(cfg, st) && CallOk(st, call) && MoneyOp(call).Some?
    requires var op := MoneyOp(call).value;
      op.amount != 0 && !Has(st.book, op.key)
        && row == Row(op.wallet, op.kind, op.amount, row.balanceAfter, op.key, op.ref)
    ensures RowOk(st, row.key, row)
  {
    assert BetOk(cfg, st, call.id);
  }

  /** The status changes that the calls make, with what the ledger must show first. */
  predicate StatusStep(st: Store, id: BetId, to: Status)
    requires id in st.bets
  {
    var b := st.bets[id];
    match to
    case Active => b.status.Reserving? && Has(st.book, DebitKey(b.slot))
    case Cancelling => b.status.Reserving?
    case Cancelled =>
      || b.status.Active?
      || (IsRestart(b.status) && Has(st.book, RestartKey(id)))
    case PayoutPending => b.status.CashedOut?
    case CashedOut => b.status.PayoutPending? && Has(st.book, PayoutKey(id))
    case Voiding => b.status.CashedOut? || b.status.Busted?
    case Voided => b.status.Voiding? && Has(st.book, VoidRefundKey(id))
    case Busted => b.status.Active?
    case Reserving => false
  }

  lemma StatusKeepsRow(cfg: Config, st: Store, id: BetId, to: Status, k: Key)
    requires StoreOk(cfg, st) && id in st.bets && StatusStep(st, id, to) && Has(st.book, k)
    ensures RowOk(SetStatus(st, id, to), k, Find(st.book.rows, k).value)
  {
    assert RowOk(st, k, Find(st.book.rows, k).value);
    assert BetOk(cfg, st, id);
  }

  lemma StatusKeepsBet(cfg: Config, st: Store, id: BetId, to: Status)
    requires StoreOk(cfg, st) && id in st.bets && StatusStep(st, id, to)
    ensures BetOk(cfg, SetStatus(st, id, to), id)
  {
    assert BetOk(cfg, st, id);
    if Has(st.book, RestartKey(id)) {
      assert RowOk(st, RestartKey(id), Find(st.book.rows, RestartKey(id)).value);
    }
  }

  lemma StatusKeepsStore(cfg: Config, st: Store, id: BetId, to: Status)
    requires StoreOk(cfg, st) && id in st.bets && StatusStep(st, id, to)
    ensures StoreOk(cfg, SetStatus(st, id, to))
  {
    var st' := SetStatus(st, id, to);
    forall k | Has(st'.book, k)
      ensures RowOk(st', k, Find(st'.book.rows, k).value)
    {
      StatusKeepsRow(cfg, st, id, to, k);
    }
    StatusKeepsBet(cfg, st, id, to);
    assert forall id' :: id' in st.bets && id' != id ==> BetOk(cfg, st, id') && BetOk(cfg, st', id');
  }

  /** The row a cash-out claim writes. */
  function Claimed(cfg: Config, b: Bet, mult: nat): Bet {
    b.(status := CashedOut, mult := mult, payout := PayoutAt(cfg.limits, b, mult))
  }

  lemma ClaimKeepsStore(cfg: Config, st: Store, id: BetId, mult: nat)
    requires StoreOk(cfg, st) && HasStatus(st, id, Active)
    requires st.bets[id].slot.round in st.rounds && mult < st.rounds[st.bets[id].slot.round].crash
    ensures StoreOk(cfg, st.(bets := st.bets[id := Claimed(cfg, st.bets[id], mult)]))
  {
    var st' := st.(bets := st.bets[id := Claimed(cfg, st.bets[id], mult)]);
    assert BetOk(cfg, st, id);
    forall k | Has(st'.book, k)
      ensures RowOk(st', k, Find(st'.book.rows, k).value)
    {
      assert RowOk(st, k, Find(st.book.rows, k).value);
    }
    assert forall id' :: id' in st.bets && id' != id ==> BetOk(cfg, st, id') && BetOk(cfg, st', id');
  }

  /** No ledger row mentions a bet whose row does not exist. */
  lemma NoRowsWithoutBet(st: Store, id: BetId)
    requires RowsOk(st) && id !in st.bets
    ensures !Has(st.book, PayoutKey(id)) && !Has(st.book, RefundKey(id)) && !Has(st.book, RestartKey(id))
    ensures !Has(st.book, ReclaimKey(id)) && !Has(st.book, VoidRefundKey(id))
  {
    assert forall k :: Has(st.book, k) ==> RowOk(st, k, Find(st.book.rows, k).value);
  }

  lemma InsertKeepsStore(cfg: Config, st: Store, id: BetId, b: Bet)
    requires StoreOk(cfg, st) && id !in st.bets && id in st.used
    requires b.status.Reserving? && b.payout == 0 && !SlotTaken(st.bets, b.slot)
    ensures StoreOk(cfg, st.(bets := st.bets[id := b]))
    ensures !Has(st.book, DebitKey(b.slot))
  {
    var st' := st.(bets := st.bets[id := b]);
    NoRowsWithoutBet(st, id);
    if Has(st.book, DebitKey(b.slot)) {
      assert RowOk(st, DebitKey(b.slot), Find(st.book.rows, DebitKey(b.slot)).value);
    }
    forall k | Has(st'.book, k)
      ensures RowOk(st', k, Find(st'.book.rows, k).value)
    {
      assert RowOk(st, k, Find(st.book.rows, k).value);
    }
    assert forall id' :: id' in st.bets ==> BetOk(cfg, st, id') && BetOk(cfg, st', id');
  }

  lemma RemoveKeepsStore(cfg: Config, st: Store, id: BetId)
    requires StoreOk(cfg, st)
    requires id in st.bets ==>
      (st.bets[id].status.Reserving? || st.bets[id].status.Cancelling?) && !Has(st.book, DebitKey(st.bets[id].slot))
    ensures StoreOk(cfg, st.(bets := st.bets - {id}))
  {
    var st' := st.(bets := st.bets - {id});
    forall k | Has(st'.book, k)
      ensures RowOk(st', k, Find(st'.book.rows, k).value)
    {
      assert RowOk(st, k, Find(st.book.rows, k).value);
    }
    assert forall id' :: id' in st'.bets ==> BetOk(cfg, st, id') && BetOk(cfg, st', id');
  }

  /** Calls whose statement can only change one status. */
  predicate IsFlip(call: Call) {
    call.PlaceActivate? || call.CancelClaim? || call.CashPend? || call.RecoverClaim? || call.RecoverFinish?
    || call.PendFinish? || call.VoidClaim? || call.VoidFinish?
  }

  lemma FlipIsStatusStep(cfg: Config, st: Store, call: Call, ok: bool)
    requires StoreOk(cfg, st) && CallOk(st, call) && IsFlip(call)
    ensures var st' := Exec(cfg, st, call, ok).0;
      st' == st || (call.id in st.bets && exists to :: StatusStep(st, call.id, to) && st' == SetStatus(st, call.id, to))
  {
    var st' := Exec(cfg, st, call, ok).0;
    if st' != st {
      var to := st'.bets[call.id].status;
      assert StatusStep(st, call.id, to) && st' == SetStatus(st, call.id, to);
    }
  }

  /** A statement touches no bet row but its call's own. */
  lemma ExecTouchesOwnBet(cfg: Config, st: Store, call: Call, ok: bool)
    ensures Exec(cfg, st, call, ok).0.bets - {call.id} == st.bets - {call.id}
  {
  }

  /** One statement of a call keeps the store invariant. */
  lemma ExecKeepsStore(cfg: Config, st: Store, call: Call, ok: bool)
    requires StoreOk(cfg, st) && CallOk(st, call)
    ensures StoreOk(cfg, Exec(cfg, st, call, ok).0)
  {
    if IsFlip(call) {
      FlipKeepsStore(cfg, st, call, ok);
    } else if MoneyOp(call).Some? {
      MoneyMoves(cfg, st, call, ok);
      if MoneyOp(call).value.amount != 0 {
        MoneyKeepsStore(cfg, st, call);
      }
    } else {
      RowChangeKeepsStore(cfg, st, call, ok);
    }
  }

  lemma FlipKeepsStore(cfg: Config, st: Store, call: Call, ok: bool)
    requires StoreOk(cfg, st) && CallOk(st, call) && IsFlip(call)
    ensures StoreOk(cfg, Exec(cfg, st, call, ok).0)
  {
    FlipIsStatusStep(cfg, st, call, ok);
    var st' := Exec(cfg, st, call, ok).0;
    if st' != st {
      var to :| StatusStep(st, call.id, to) && st' == SetStatus(st, call.id, to);
      StatusKeepsStore(cfg, st, call.id, to);
    }
  }

  lemma RowChangeKeepsStore(cfg: Config, st: Store, call: Call, ok: bool)
    requires StoreOk(cfg, st) && CallOk(st, call) && !IsFlip(call) && MoneyOp(call).None?
    ensures StoreOk(cfg, Exec(cfg, st, call, ok).0)
  {
    if Exec(cfg, st, call, ok).0 == st {
    } else if call.PlaceInsert? {
      InsertKeepsStore(cfg, st, call.id, call.b);
    } else if call.PlaceRelease? || call.RecoverDrop? {
      RemoveKeepsStore(cfg, st, call.id);
    } else {
      assert call.CashClaim?;
      ClaimKeepsStore(cfg, st, call.id, call.mult);
    }
  }

  lemma MoneyKeepsStore(cfg: Config, st: Store, call: Call)
    requires StoreOk(cfg, st) && CallOk(st, call) && MoneyOp(call).Some?
    requires MoneyOp(call).value.amount != 0
    ensures StoreOk(cfg, st.(book := Post(st.book, MoneyOp(call).value).0))
  {
    var op := MoneyOp(call).value;
    PostEffect(st.book, op);
    var st' := st.(book := Post(st.book, op).0);
    if Post(st.book, op).1.Applied? && !Has(st.book, op.key) {
      NewRowFits(cfg, st, call, Post(st.book, op).1.row);
      assert RowOk(st', op.key, Post(st.book, op).1.row);
    }
    PostKeepsRows(st, op);
    forall id | id in st'.bets
      ensures BetOk(cfg, st', id)
    {
      OneRefund(cfg, st, call);
      MoneyKeepsBet(cfg, st, call, id);
    }
  }

  lemma MoneyKeepsBet(cfg: Config, st: Store, call: Call, id: BetId)
    requires id in st.bets && BetOk(cfg, st, id) && MoneyOp(call).Some?
    requires call.CancelCredit? ==> !Has(st.book, RestartKey(call.id))
    requires call.RecoverRefund? ==> !Has(st.book, RefundKey(call.id))
    ensures BetOk(cfg, st.(book := Post(st.book, MoneyOp(call).value).0), id)
  {
    PostEffect(st.book, MoneyOp(call).value);
    BetOutlives(cfg, st, Post(st.book, MoneyOp(call).value).0, id);
  }

  /** A bet stays backed when rows are added, unless they make it two refunds. */
  lemma BetOutlives(cfg: Config, st: Store, book: Book, id: BetId)
    requires id in st.bets && BetOk(cfg, st, id) && forall k :: Has(st.book, k) ==> Has(book, k)
    requires !(Has(book, RefundKey(id)) && Has(book, RestartKey(id)))
    ensures BetOk(cfg, st.(book := book), id)
  {
  }

  /** A cancel refund and a restart refund never meet on one bet. */
  lemma OneRefund(cfg: Config, st: Store, call: Call)
    requires StoreOk(cfg, st) && CallOk(st, call)
    ensures call.CancelCredit? ==> !Has(st.book, RestartKey(call.id))
    ensures call.RecoverRefund? ==> !Has(st.book, RefundKey(call.id))
  {
    var id := call.id;
    assert Has(st.book, RefundKey(id)) ==> RowOk(st, RefundKey(id), Find(st.book.rows, RefundKey(id)).value);
    assert id in st.bets ==> BetOk(cfg, st, id);
  }

  // ----- what one call's statement means for another call -----

  /** The facts that other calls rely on a row change to respect. */
  predicate Keeps(st: Store, id: BetId, to: Status, other: Call)
    requires id in st.bets
  {
    && StatusStep(st, id, to)
    && (other.id == id && other.PlaceDebit? ==> to != Cancelling && to != Active)
    && (other.id == id && (other.CashCredit? || other.CashPend?) ==> to != Voiding && to != PayoutPending)
  }

  /** What the ledger rows of a bet say about its status. */
  predicate RowFacts(st: Store, id: BetId)
    requires id in st.bets
  {
    var b := st.bets[id];
    && (Has(st.book, PayoutKey(id)) ==> IsWon(b.status) || IsVoid(b.status))
    && (Has(st.book, RestartKey(id)) ==> IsRestart(b.status) && Has(st.book, DebitKey(b.slot)))
    && (Has(st.book, RefundKey(id)) ==> b.status.Cancelled?)
    && (!b.status.Reserving? && !b.status.Cancelling? ==> Has(st.book, DebitKey(b.slot)))
    && (!IsWon(b.status) && !IsVoid(b.status) ==> b.payout == 0)
  }

  lemma RowFactsHold(cfg: Config, st: Store, id: BetId)
    requires StoreOk(cfg, st) && id in st.bets
    ensures RowFacts(st, id)
  {
    assert BetOk(cfg, st, id);
    assert Has(st.book, PayoutKey(id)) ==> RowOk(st, PayoutKey(id), Find(st.book.rows, PayoutKey(id)).value);
    assert Has(st.book, RestartKey(id)) ==> RowOk(st, RestartKey(id), Find(st.book.rows, RestartKey(id)).value);
    assert Has(st.book, RefundKey(id)) ==> RowOk(st, RefundKey(id), Find(st.book.rows, RefundKey(id)).value);
  }

  lemma StatusKeepsCall(st: Store, id: BetId, to: Status, other: Call)
    requires id in st.bets && RowFacts(st, id) && Keeps(st, id, to, other) && CallOk(st, other)
    ensures CallOk(SetStatus(st, id, to), other)
  {
    if other.Unborn() || other.Debiting() {
      StatusKeepsPlace(st, id, to, other);
    } else if other.RecoverClaim? || other.Recovering() {
      StatusKeepsRecover(st, id, to, other);
    } else if Voids(other) {
      StatusKeepsVoid(st, id, to, other);
    } else {
      StatusKeepsPayout(st, id, to, other);
    }
  }

  lemma StatusKeepsPlace(st: Store, id: BetId, to: Status, other: Call)
    requires id in st.bets && RowFacts(st, id) && Keeps(st, id, to, other) && CallOk(st, other)
    requires other.Unborn() || other.Debiting()
    ensures CallOk(SetStatus(st, id, to), other)
  {
  }

  lemma StatusKeepsRecover(st: Store, id: BetId, to: Status, other: Call)
    requires id in st.bets && RowFacts(st, id) && Keeps(st, id, to, other) && CallOk(st, other)
    requires other.RecoverClaim? || other.Recovering()
    ensures CallOk(SetStatus(st, id, to), other)
  {
    if other.Recovering() {
      StatusKeepsSlot(st, id, to, other.id, other.b);
    }
  }

  lemma StatusKeepsSlot(st: Store, id: BetId, to: Status, at: BetId, b: Bet)
    requires id in st.bets && RowFacts(st, id) && StatusStep(st, id, to) && RecoverOk(st, at, b)
    ensures RecoverOk(SetStatus(st, id, to), at, b)
  {
  }

  lemma StatusKeepsVoid(st: Store, id: BetId, to: Status, other: Call)
    requires id in st.bets && RowFacts(st, id) && Keeps(st, id, to, other) && CallOk(st, other) && Voids(other)
    ensures CallOk(SetStatus(st, id, to), other)
  {
  }

  /** Cancels, cash-outs and the sweep of owed payouts. */
  lemma StatusKeepsPayout(st: Store, id: BetId, to: Status, other: Call)
    requires id in st.bets && RowFacts(st, id) && Keeps(st, id, to, other) && CallOk(st, other)
    requires !other.Unborn() && !other.Debiting() && !other.RecoverClaim? && !other.Recovering() && !Voids(other)
    ensures CallOk(SetStatus(st, id, to), other)
  {
  }

  /** A call that relies on the absence of the row that `key` names. */
  predicate NeedsAbsent(st: Store, other: Call, key: Key) {
    || (key == DebitKey(other.b.slot)
          && (other.PlaceDebit? || other.RecoverDrop? || (other.PlaceRelease? && other.id in st.bets)))
    || (key == RestartKey(other.id) && other.CancelCredit?)
  }

  lemma PostKeepsCall(st: Store, op: Op, other: Call)
    requires CallOk(st, other) && !NeedsAbsent(st, other, op.key)
    ensures CallOk(st.(book := Post(st.book, op).0), other)
  {
    PostEffect(st.book, op);
  }

  lemma NobodyNeedsItAbsent(cfg: Config, st: Store, call: Call, other: Call)
    requires StoreOk(cfg, st) && CallOk(st, call) && CallOk(st, other) && Quiet(call, other)
    requires MoneyOp(call).Some?
    ensures !NeedsAbsent(st, other, MoneyOp(call).value.key)
  {
    assert call.id in st.bets;
  }

  lemma ClaimKeepsCall(cfg: Config, st: Store, id: BetId, mult: nat, other: Call)
    requires HasStatus(st, id, Active) && RowFacts(st, id) && CallOk(st, other)
    ensures CallOk(st.(bets := st.bets[id := Claimed(cfg, st.bets[id], mult)]), other)
  {
  }

  lemma InsertKeepsCall(st: Store, call: Call, other: Call)
    requires CallOk(st, call) && call.PlaceInsert? && !SlotTaken(st.bets, call.b.slot)
    requires CallOk(st, other) && Quiet(call, other)
    ensures CallOk(st.(bets := st.bets[call.id := call.b]), other)
  {
  }

  lemma RemoveKeepsCall(st: Store, id: BetId, other: Call)
    requires CallOk(st, other)
    requires id in st.bets ==>
      (st.bets[id].status.Reserving? || st.bets[id].status.Cancelling?) && !Has(st.book, DebitKey(st.bets[id].slot))
    requires id in st.bets ==> RowFacts(st, id)
    requires other.PlaceDebit? ==> other.id != id
    ensures CallOk(st.(bets := st.bets - {id}), other)
  {
  }

  /** One statement of a call keeps what every other call knows. */
  lemma ExecKeepsCall(cfg: Config, st: Store, call: Call, ok: bool, other: Call)
    requires StoreOk(cfg, st) && CallOk(st, call) && CallOk(st, other) && Quiet(call, other)
    ensures CallOk(Exec(cfg, st, call, ok).0, other)
  {
    if IsFlip(call) {
      FlipKeepsCall(cfg, st, call, ok, other);
    } else if MoneyOp(call).Some? {
      MoneyMoves(cfg, st, call, ok);
      MoneyKeepsCall(cfg, st, call, other);
    } else {
      RowChangeKeepsCall(cfg, st, call, ok, other);
    }
  }

  lemma MoneyMoves(cfg: Config, st: Store, call: Call, ok: bool)
    requires MoneyOp(call).Some?
    ensures var st' := Exec(cfg, st, call, ok).0;
      st' == st || (MoneyOp(call).value.amount != 0 && st' == st.(book := Post(st.book, MoneyOp(call).value).0))
  {
  }

  lemma MoneyKeepsCall(cfg: Config, st: Store, call: Call, other: Call)
    requires StoreOk(cfg, st) && CallOk(st, call) && CallOk(st, other) && Quiet(call, other) && MoneyOp(call).Some?
    ensures CallOk(st.(book := Post(st.book, MoneyOp(call).value).0), other)
  {
    NobodyNeedsItAbsent(cfg, st, call, other);
    PostKeepsCall(st, MoneyOp(call).value, other);
  }

  lemma FlipKeepsCall(cfg: Config, st: Store, call: Call, ok: bool, other: Call)
    requires StoreOk(cfg, st) && CallOk(st, call) && CallOk(st, other) && Quiet(call, other) && IsFlip(call)
    ensures CallOk(Exec(cfg, st, call, ok).0, other)
  {
    var st' := Exec(cfg, st, call, ok).0;
    if st' != st {
      FlipIsStatusStep(cfg, st, call, ok);
      var to :| StatusStep(st, call.id, to) && st' == SetStatus(st, call.id, to);
      RowFactsHold(cfg, st, call.id);
      FlipRespects(cfg, st, call, ok, other, to);
      StatusKeepsCall(st, call.id, to, other);
    }
  }

  lemma FlipRespects(cfg: Config, st: Store, call: Call, ok: bool, other: Call, to: Status)
    requires CallOk(st, call) && CallOk(st, other) && Quiet(call, other) && IsFlip(call) && call.id in st.bets
    requires StatusStep(st, call.id, to) && Exec(cfg, st, call, ok).0 == SetStatus(st, call.id, to) != st
    ensures Keeps(st, call.id, to, other)
  {
    assert SetStatus(st, call.id, to).bets[call.id].status == to;
  }

  lemma RowChangeKeepsCall(cfg: Config, st: Store, call: Call, ok: bool, other: Call)
    requires StoreOk(cfg, st) && CallOk(st, call) && CallOk(st, other) && Quiet(call, other)
    requires !IsFlip(call) && MoneyOp(call).None?
    ensures CallOk(Exec(cfg, st, call, ok).0, other)
  {
    if call.id in st.bets {
      RowFactsHold(cfg, st, call.id);
    }
    if Exec(cfg, st, call, ok).0 == st {
    } else if call.PlaceInsert? {
      InsertKeepsCall(st, call, other);
    } else if call.PlaceRelease? || call.RecoverDrop? {
      RemoveKeepsCall(st, call.id, other);
    } else {
      assert call.CashClaim?;
      ClaimKeepsCall(cfg, st, call.id, call.mult, other);
    }
  }

  /** After its statement a call knows what its next statement relies on. */
  lemma ExecContinues(cfg: Config, st: Store, call: Call, ok: bool)
    requires StoreOk(cfg, st) && CallOk(st, call)
    ensures var (st', after) := Exec(cfg, st, call, ok);
      after.Continue? ==> CallOk(st', after.call) && after.call.id == call.id
  {
    if call.id in st.bets {
      RowFactsHold(cfg, st, call.id);
    }
    if MoneyOp(call).Some? {
      MoneyContinues(cfg, st, call, ok);
    } else if call.Unborn() {
      ReserveContinues(cfg, st, call, ok);
    } else if call.RecoverClaim? || call.Recovering() {
      RecoveryContinues(cfg, st, call, ok);
    } else {
      ClaimContinues(cfg, st, call, ok);
    }
  }

  lemma MoneyContinues(cfg: Config, st: Store, call: Call, ok: bool)
    requires CallOk(st, call) && MoneyOp(call).Some?
    ensures var (st', after) := Exec(cfg, st, call, ok);
      after.Continue? ==> CallOk(st', after.call) && after.call.id == call.id
  {
    var op := MoneyOp(call).value;
    var (st', after) := Exec(cfg, st, call, ok);
    PostGrows(st.book, op);
    if after.Continue? {
      if ok && Issue(st.book, op).1.Applied? {
        GrownBookContinues(st, Post(st.book, op).0, call, after.call);
      } else {
        assert st' == st;
      }
    }
  }

  /** Once the row of a call's operation is in the book, its next statement may run. */
  lemma GrownBookContinues(st: Store, book: Book, call: Call, next: Call)
    requires CallOk(st, call) && MoneyOp(call).Some?
    requires Has(book, MoneyOp(call).value.key)
    requires forall k :: Has(st.book, k) ==> Has(book, k)
    requires match call
      case PlaceDebit(id, b) => next == PlaceActivate(id, b, 1)
      case RecoverRefund(id, b) => next == RecoverFinish(id, b)
      case PendCredit(id, b) => next == PendFinish(id, b)
      case VoidReclaim(id, b) => next == VoidRefund(id, b)
      case VoidRefund(id, b) => next == VoidFinish(id, b)
      case _ => false
    ensures CallOk(st.(book := book), next)
  {
  }

  lemma PostGrows(book: Book, op: Op)
    ensures Post(book, op).1.Applied? ==> Has(Post(book, op).0, op.key)
    ensures forall k :: Has(book, k) ==> Has(Post(book, op).0, k)
  {
    PostEffect(book, op);
  }

  lemma ReserveContinues(cfg: Config, st: Store, call: Call, ok: bool)
    requires StoreOk(cfg, st) && CallOk(st, call) && call.Unborn()
    ensures var (st', after) := Exec(cfg, st, call, ok);
      after.Continue? ==> CallOk(st', after.call) && after.call.id == call.id
  {
    if call.PlaceInsert? && !SlotTaken(st.bets, call.b.slot) {
      InsertKeepsStore(cfg, st, call.id, call.b);
    }
  }

  lemma RecoveryContinues(cfg: Config, st: Store, call: Call, ok: bool)
    requires CallOk(st, call) && MoneyOp(call).None? && (call.RecoverClaim? || call.Recovering())
    requires SlotsUnique(st.bets) && DebitOk(st, call.b.slot)
    ensures var (st', after) := Exec(cfg, st, call, ok);
      after.Continue? ==> CallOk(st', after.call) && after.call.id == call.id
  {
    if call.RecoverClaim? {
      RecoveryBegins(cfg, st, call, ok);
    }
  }

  lemma RecoveryBegins(cfg: Config, st: Store, call: Call, ok: bool)
    requires CallOk(st, call) && call.RecoverClaim? && SlotsUnique(st.bets)
    ensures var (st', after) := Exec(cfg, st, call, ok);
      after.Continue? ==> CallOk(st', after.call) && after.call.id == call.id
  {
  }

  predicate DebitOk(st: Store, slot: Slot) {
    Has(st.book, DebitKey(slot)) ==> RowOk(st, DebitKey(slot), Find(st.book.rows, DebitKey(slot)).value)
  }

  lemma ClaimContinues(cfg: Config, st: Store, call: Call, ok: bool)
    requires CallOk(st, call) && MoneyOp(call).None? && !call.Unborn() && !call.RecoverClaim? && !call.Recovering()
    requires call.id in st.bets ==> RowFacts(st, call.id)
    ensures var (st', after) := Exec(cfg, st, call, ok);
      after.Continue? ==> CallOk(st', after.call) && after.call.id == call.id
  {
    if call.CashClaim? {
      CashContinues(cfg, st, call, ok);
    } else if call.VoidClaim? || call.VoidReclaim? {
      VoidContinues(cfg, st, call, ok);
    } else {
    }
  }

  lemma CashContinues(cfg: Config, st: Store, call: Call, ok: bool)
    requires CallOk(st, call) && call.CashClaim?
    ensures var (st', after) := Exec(cfg, st, call, ok);
      after.Continue? ==> CallOk(st', after.call) && after.call.id == call.id
  {
  }

  lemma VoidContinues(cfg: Config, st: Store, call: Call, ok: bool)
    requires CallOk(st, call) && MoneyOp(call).None? && (call.VoidClaim? || call.VoidReclaim?)
    ensures var (st', after) := Exec(cfg, st, call, ok);
      after.Continue? ==> CallOk(st', after.call) && after.call.id == call.id
  {
  }

  /** The call that goes on clashes with nobody: a claim it has just won excludes
      every other claimant of the bet. */
  lemma ExecKeepsNoClash(cfg: Config, st: Store, call: Call, ok: bool, other: Call)
    requires !Clash(call, other) && (other.InWindow() ==> !HasStatus(st, other.id, Active))
    ensures var (st', after) := Exec(cfg, st, call, ok);
      after.Continue? ==> !Clash(after.call, other) && !Clash(other, after.call)
  {
    NewWindowIsClaimed(cfg, st, call, ok);
  }

  lemma WindowIsNotActive(st: Store, call: Call)
    requires CallOk(st, call) && call.InWindow()
    ensures !HasStatus(st, call.id, Active)
  {
  }

  /** A window or a debit opens only behind the call's own earlier statements, or by a claim. */
  lemma NewWindowIsClaimed(cfg: Config, st: Store, call: Call, ok: bool)
    ensures var after := Exec(cfg, st, call, ok).1;
      after.Continue? ==>
        && after.call.id == call.id
        && (after.call.Unborn() ==> call.Unborn())
        && (after.call.Debiting() ==> call.Debiting() || call.Unborn())
        && (Voids(after.call) ==> Voids(call))
        && (after.call.InWindow() ==>
              call.InWindow() || ((call.CancelClaim? || call.CashClaim?) && HasStatus(st, call.id, Active)))
  {
  }

  // ----- whole steps -----

  lemma OtherIsUnharmed(cfg: Config, s: State, c: CallId, ok: bool, d: CallId)
    requires Inv(cfg, s) && SafeTiming(cfg.timing) && c in s.calls && d in s.calls && d != c
    requires Enabled(cfg, s, s.calls[c])
    ensures var (st', after) := Exec(cfg, s.store, s.calls[c], ok);
      && CallOk(st', s.calls[d])
      && (after.Continue? ==> !Clash(after.call, s.calls[d]) && !Clash(s.calls[d], after.call))
  {
    assert cfg.timing.noVoids ==> !s.calls[c].VoidClaim?;
    assert Quiet(s.calls[c], s.calls[d]);
    ExecKeepsCall(cfg, s.store, s.calls[c], ok, s.calls[d]);
    if s.calls[d].InWindow() {
      WindowIsNotActive(s.store, s.calls[d]);
    }
    ExecKeepsNoClash(cfg, s.store, s.calls[c], ok, s.calls[d]);
  }

  lemma AdvanceKeepsInv(cfg: Config, s: State, c: CallId, ok: bool)
    requires Inv(cfg, s) && SafeTiming(cfg.timing) && c in s.calls
    ensures Inv(cfg, Advance(cfg, s, c, ok))
  {
    var call := s.calls[c];
    if Enabled(cfg, s, call) {
      var (st', after) := Exec(cfg, s.store, call, ok);
      ExecKeepsStore(cfg, s.store, call, ok);
      ExecContinues(cfg, s.store, call, ok);
      NewWindowIsClaimed(cfg, s.store, call, ok);
      forall d | d in s.calls && d != c
        ensures CallOk(st', s.calls[d])
        ensures after.Continue? ==> !Clash(after.call, s.calls[d]) && !Clash(s.calls[d], after.call)
      {
        OtherIsUnharmed(cfg, s, c, ok, d);
      }
      ResumeKeepsInv(cfg, s, c, st', after);
    }
  }

  /** The call goes on, or is gone; nobody else is harmed. */
  lemma ResumeKeepsInv(cfg: Config, s: State, c: CallId, st: Store, after: After)
    requires NoClash(s.calls) && VoidsAllowed(cfg.timing, s.calls) && c in s.calls && StoreOk(cfg, st)
    requires forall d :: d in s.calls && d != c ==> CallOk(st, s.calls[d])
    requires after.Continue? ==> CallOk(st, after.call) && (Voids(after.call) ==> Voids(s.calls[c]))
    requires after.Continue? ==>
      forall d :: d in s.calls && d != c ==> !Clash(after.call, s.calls[d]) && !Clash(s.calls[d], after.call)
    ensures Inv(cfg, Resume(s.(store := st), c, after))
  {
    var s' := Resume(s.(store := st), c, after);
    assert CallsOk(st, s'.calls);
    assert NoClash(s'.calls);
  }

  lemma SettleKeepsStore(cfg: Config, st: Store, r: RoundId)
    requires StoreOk(cfg, st)
    ensures StoreOk(cfg, st.(bets := BustActive(st.bets, r)))
  {
    var st' := st.(bets := BustActive(st.bets, r));
    forall k | Has(st'.book, k)
      ensures RowOk(st', k, Find(st'.book.rows, k).value)
    {
      SettleKeepsRow(st, r, k, Find(st.book.rows, k).value);
    }
    forall id | id in st'.bets
      ensures BetOk(cfg, st', id)
    {
      SettleKeepsBet(cfg, st, r, id);
    }
  }

  lemma SettleKeepsRow(st: Store, r: RoundId, k: Key, row: Row)
    requires RowOk(st, k, row)
    ensures RowOk(st.(bets := BustActive(st.bets, r)), k, row)
  {
  }

  lemma SettleKeepsBet(cfg: Config, st: Store, r: RoundId, id: BetId)
    requires id in st.bets && BetOk(cfg, st, id)
    ensures BetOk(cfg, st.(bets := BustActive(st.bets, r)), id)
  {
  }

  lemma SettleKeepsCall(st: Store, r: RoundId, other: Call)
    requires CallOk(st, other)
    ensures CallOk(st.(bets := BustActive(st.bets, r)), other)
  {
  }

  /** The engine's own writes: rounds are opened and moved on, and their active bets are busted. */
  lemma EngineKeepsInv(cfg: Config, s: State, e: Event)
    requires Inv(cfg, s) && (e.OpenRound? || e.SetPhase? || e.Settle?)
    ensures Inv(cfg, Next(cfg, s, e))
  {
    var s' := Next(cfg, s, e);
    if e.Settle? {
      SettleKeepsStore(cfg, s.store, e.round);
      forall c | c in s.calls
        ensures CallOk(s'.store, s.calls[c])
      {
        SettleKeepsCall(s.store, e.round, s.calls[c]);
      }
    } else {
      RoundsKeepInv(cfg, s, s'.store.rounds);
    }
  }

  /** The crash point of a round never changes once the round exists. */
  ghost predicate RoundsGrow(before: map<RoundId, RoundRow>, after: map<RoundId, RoundRow>) {
    forall r :: r in before ==> r in after && after[r].crash == before[r].crash
  }

  lemma RoundsKeepStore(cfg: Config, st: Store, rounds: map<RoundId, RoundRow>)
    requires StoreOk(cfg, st) && RoundsGrow(st.rounds, rounds)
    ensures StoreOk(cfg, st.(rounds := rounds))
  {
    var st' := st.(rounds := rounds);
    forall k | Has(st'.book, k)
      ensures RowOk(st', k, Find(st'.book.rows, k).value)
    {
      assert RowOk(st, k, Find(st.book.rows, k).value);
    }
    forall id | id in st'.bets
      ensures BetOk(cfg, st', id)
    {
      assert BetOk(cfg, st, id);
    }
  }

  lemma RoundsKeepInv(cfg: Config, s: State, rounds: map<RoundId, RoundRow>)
    requires Inv(cfg, s) && RoundsGrow(s.store.rounds, rounds)
    ensures Inv(cfg, s.(store := s.store.(rounds := rounds)))
  {
    RoundsKeepStore(cfg, s.store, rounds);
    forall c | c in s.calls
      ensures CallOk(s.store.(rounds := rounds), s.calls[c])
    {
      RoundsKeepCall(s.store, rounds, s.calls[c]);
    }
  }

  lemma RoundsKeepCall(st: Store, rounds: map<RoundId, RoundRow>, other: Call)
    requires CallOk(st, other) && RoundsGrow(st.rounds, rounds)
    ensures CallOk(st.(rounds := rounds), other)
  {
  }

  lemma UsedKeepsInv(cfg: Config, s: State, used: set<BetId>)
    requires Inv(cfg, s) && s.store.used <= used
    ensures Inv(cfg, s.(store := s.store.(used := used)))
  {
    var st, st' := s.store, s.store.(used := used);
    forall k | Has(st'.book, k)
      ensures RowOk(st', k, Find(st'.book.rows, k).value)
    {
      assert RowOk(st, k, Find(st.book.rows, k).value);
    }
    assert forall id :: id in st'.bets ==> BetOk(cfg, st, id) && BetOk(cfg, st', id);
    forall c | c in s.calls
      ensures CallOk(st', s.calls[c])
    {
      UsedKeepsCall(st, used, s.calls[c]);
    }
  }

  lemma UsedKeepsCall(st: Store, used: set<BetId>, other: Call)
    requires CallOk(st, other) && st.used <= used
    ensures CallOk(st.(used := used), other)
  {
  }

  lemma FirstReadIsOk(cfg: Config, st: Store, e: Event)
    requires StoreOk(cfg, st) && FirstRead(cfg, st, e).Some?
    ensures CallOk(st, FirstRead(cfg, st, e).value)
  {
    var id := FirstRead(cfg, st, e).value.id;
    RowFactsHold(cfg, st, id);
    assert BetOk(cfg, st, id);
    FirstReadOfBet(cfg, st, e, id);
  }

  lemma FirstReadOfBet(cfg: Config, st: Store, e: Event, id: BetId)
    requires FirstRead(cfg, st, e).Some? && id == FirstRead(cfg, st, e).value.id
    requires id in st.bets && BetOk(cfg, st, id) && RowFacts(st, id) && SlotsUnique(st.bets)
    ensures CallOk(st, FirstRead(cfg, st, e).value)
  {
  }

  lemma FirstReadClashesNot(cfg: Config, st: Store, e: Event)
    requires FirstRead(cfg, st, e).Some?
    ensures var call := FirstRead(cfg, st, e).value;
      call.id in st.bets && !call.Unborn() && !call.Debiting() && !call.InWindow()
      && (cfg.timing.noVoids ==> !Voids(call))
  {
  }

  lemma BeginKeepsInv(cfg: Config, s: State, e: Event)
    requires Inv(cfg, s)
    requires !e.OpenRound? && !e.SetPhase? && !e.Settle? && !e.Step? && !e.Die?
    ensures Inv(cfg, Next(cfg, s, e))
  {
    var s' := Next(cfg, s, e);
    if s' == s {
    } else if e.BeginPlace? {
      PlaceKeepsInv(cfg, s, e);
    } else {
      FirstReadKeepsInv(cfg, s, e);
    }
  }

  lemma FirstReadKeepsInv(cfg: Config, s: State, e: Event)
    requires Inv(cfg, s) && FirstRead(cfg, s.store, e).Some? && e.call !in s.calls
    ensures Inv(cfg, s.(calls := s.calls[e.call := FirstRead(cfg, s.store, e).value]))
  {
    FirstReadIsOk(cfg, s.store, e);
    FirstReadClashesNot(cfg, s.store, e);
    NewCallKeepsInv(cfg, s, e.call, FirstRead(cfg, s.store, e).value);
  }

  lemma NewCallKeepsInv(cfg: Config, s: State, c: CallId, call: Call)
    requires Inv(cfg, s) && c !in s.calls && CallOk(s.store, call) && call.id in s.store.bets
    requires !call.Unborn() && !call.Debiting() && !call.InWindow() && (cfg.timing.noVoids ==> !Voids(call))
    ensures Inv(cfg, s.(calls := s.calls[c := call]))
  {
    var calls := s.calls[c := call];
    assert CallsOk(s.store, calls);
    assert NoClash(calls);
  }

  /** A placeBet begins with a bet id that was never used. */
  lemma PlaceKeepsInv(cfg: Config, s: State, e: Event)
    requires Inv(cfg, s) && e.BeginPlace? && e.call !in s.calls && e.id !in s.store.used
    ensures Inv(cfg, Next(cfg, s, e))
  {
    var s' := Next(cfg, s, e);
    UsedKeepsInv(cfg, s, s'.store.used);
    assert e.id !in s.store.bets by {
      assert e.id in s.store.bets ==> BetOk(cfg, s.store, e.id);
    }
    assert forall c :: c in s.calls ==> CallOk(s.store, s.calls[c]);
    assert NoClash(s'.calls);
  }

  lemma NextKeepsInv(cfg: Config, s: State, e: Event)
    requires Inv(cfg, s) && SafeTiming(cfg.timing)
    ensures Inv(cfg, Next(cfg, s, e))
  {
    if e.OpenRound? || e.SetPhase? || e.Settle? {
      EngineKeepsInv(cfg, s, e);
    } else if e.Step? {
      if e.call in s.calls {
        AdvanceKeepsInv(cfg, s, e.call, e.ok);
      }
    } else if e.Die? {
      assert forall c :: c in s.calls ==> CallOk(s.store, s.calls[c]);
    } else {
      BeginKeepsInv(cfg, s, e);
    }
  }

  /** The invariant holds in every run: any interleaving of any calls, failing or dying anywhere. */
  lemma {:induction false} RunKeepsInv(cfg: Config, opening: map<WalletId, nat>, events: seq<Event>)
    requires SafeTiming(cfg.timing)
    ensures Inv(cfg, Run(cfg, Init(opening), events))
  {
    if events != [] {
      RunKeepsInv(cfg, opening, events[..|events| - 1]);
      NextKeepsInv(cfg, Run(cfg, Init(opening), events[..|events| - 1]), events[|events| - 1]);
    }
  }
}
