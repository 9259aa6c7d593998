/** What the exactly-once invariant means for the money of every bet. */
module BetResults {
  import opened Domain
  import opened Ledger
  import opened RowSums
  import opened BetProtocol
  import opened BetMoney

  lemma {:induction false} RunKeepsJournal(cfg: Config, opening: map<WalletId, nat>, events: seq<Event>)
    ensures Valid(opening, Run(cfg, Init(opening), events).store.book)
  {
    if events == [] {
      EmptyIsValid(opening);
    } else {
      var s := Run(cfg, Init(opening), events[..|events| - 1]);
      RunKeepsJournal(cfg, opening, events[..|events| - 1]);
      NextPostsAtMostOnce(cfg, s, events[|events| - 1]);
      forall op {
        PostKeepsValid(opening, s.store.book, op);
      }
    }
  }

  lemma NextPostsAtMostOnce(cfg: Config, s: State, e: Event)
    ensures Next(cfg, s, e).store.book == s.store.book
         || exists op :: Next(cfg, s, e).store.book == Post(s.store.book, op).0
  {
    if e.Step? && e.call in s.calls {
      ExecPostsItsOp(cfg, s.store, s.calls[e.call], e.ok);
    }
  }

  lemma ExecPostsItsOp(cfg: Config, st: Store, call: Call, ok: bool)
    ensures var st' := Exec(cfg, st, call, ok).0;
      st'.book == st.book || (MoneyOp(call).Some? && st'.book == Post(st.book, MoneyOp(call).value).0)
  {
  }

  /** All the keys under which a bet can have a row. */
  function KeysOf(id: BetId, slot: Slot): seq<Key> {
    [DebitKey(slot), PayoutKey(id), RefundKey(id), RestartKey(id), ReclaimKey(id), VoidRefundKey(id)]
  }

  lemma KeyOwner(st: Store, id: BetId, k: Key)
    requires RowsOk(st) && SlotsUnique(st.bets) && id in st.bets && Has(st.book, k)
    ensures Find(st.book.rows, k).value.ref == Some(id) <==> k in KeysOf(id, st.bets[id].slot)
  {
    assert RowOk(st, k, Find(st.book.rows, k).value);
  }

  /** The rows of a bet are exactly those under its keys. */
  lemma NetOfBet(opening: map<WalletId, nat>, cfg: Config, st: Store, id: BetId)
    requires StoreOk(cfg, st) && Valid(opening, st.book) && id in st.bets
    ensures NetOf(st.book.rows, id, All) == Amounts(st.book.rows, KeysOf(id, st.bets[id].slot))
  {
    var rows := st.book.rows;
    forall i | 0 <= i < |rows|
      ensures Selected(rows[i], id, All) <==> rows[i].key in KeysOf(id, st.bets[id].slot)
    {
      RowIsFound(rows, i);
      KeyOwner(st, id, rows[i].key);
    }
    NetByKeys(rows, id, All, KeysOf(id, st.bets[id].slot));
  }

  lemma SixAmounts(rows: seq<Row>, id: BetId, slot: Slot)
    ensures Amounts(rows, KeysOf(id, slot)) ==
      Amount(rows, DebitKey(slot)) + Amount(rows, PayoutKey(id)) + Amount(rows, RefundKey(id))
      + Amount(rows, RestartKey(id)) + Amount(rows, ReclaimKey(id)) + Amount(rows, VoidRefundKey(id))
  {
    AmountsStep(rows, DebitKey(slot),
      [PayoutKey(id), RefundKey(id), RestartKey(id), ReclaimKey(id), VoidRefundKey(id)]);
    AmountsStep(rows, PayoutKey(id), [RefundKey(id), RestartKey(id), ReclaimKey(id), VoidRefundKey(id)]);
    AmountsStep(rows, RefundKey(id), [RestartKey(id), ReclaimKey(id), VoidRefundKey(id)]);
    AmountsStep(rows, RestartKey(id), [ReclaimKey(id), VoidRefundKey(id)]);
    AmountsStep(rows, ReclaimKey(id), [VoidRefundKey(id)]);
    AmountsStep(rows, VoidRefundKey(id), []);
  }

  lemma AmountsStep(rows: seq<Row>, k: Key, rest: seq<Key>)
    ensures Amounts(rows, []) == 0
    ensures Amounts(rows, [k] + rest) == Amount(rows, k) + Amounts(rows, rest)
  {
    assert ([k] + rest)[1..] == rest;
  }

  /** What the rows under a bet's keys are worth, given which of them exist. */
  lemma AmountsOfBet(cfg: Config, st: Store, id: BetId)
    requires StoreOk(cfg, st) && id in st.bets
    ensures var b, rows := st.bets[id], st.book.rows;
      && Amount(rows, DebitKey(b.slot)) == (if Has(st.book, DebitKey(b.slot)) then 0 - b.amount else 0)
      && Amount(rows, PayoutKey(id)) == (if Has(st.book, PayoutKey(id)) then b.payout else 0)
      && Amount(rows, RefundKey(id)) == (if Has(st.book, RefundKey(id)) then b.amount else 0)
      && Amount(rows, RestartKey(id)) == (if Has(st.book, RestartKey(id)) then b.amount else 0)
      && Amount(rows, ReclaimKey(id)) == (if Has(st.book, ReclaimKey(id)) then 0 - b.payout else 0)
      && Amount(rows, VoidRefundKey(id)) == (if Has(st.book, VoidRefundKey(id)) then b.amount else 0)
  {
    var debit := DebitKey(st.bets[id].slot);
    if Has(st.book, debit) {
      KeyOwner(st, id, debit);
    }
    KeysFit(st, id);
  }

  lemma KeysFit(st: Store, id: BetId)
    requires RowsOk(st) && id in st.bets
    ensures forall k :: k in KeysOf(id, st.bets[id].slot) && Has(st.book, k) ==>
      RowOk(st, k, Find(st.book.rows, k).value)
  {
  }

  /** Which rows of a bet can exist together: the refund classes exclude each other and a
      payout, and a stake is refunded by a void only after the payout was reclaimed. */
  predicate OneOutcome(st: Store, id: BetId)
    requires id in st.bets
  {
    var b := st.bets[id];
    var paid, refunded, restarted := Has(st.book, PayoutKey(id)), Has(st.book, RefundKey(id)),
      Has(st.book, RestartKey(id));
    var reclaimed, voided := Has(st.book, ReclaimKey(id)), Has(st.book, VoidRefundKey(id));
    && !(refunded && restarted)
    && (paid || reclaimed || voided ==> !refunded && !restarted)
    && (paid || refunded || restarted || reclaimed || voided ==> Has(st.book, DebitKey(b.slot)))
    && (reclaimed ==> b.payout > 0)
    && (voided ==> b.payout == 0 || reclaimed)
    && (paid ==> b.payout > 0)
  }

  lemma OneOutcomeHolds(cfg: Config, st: Store, id: BetId)
    requires StoreOk(cfg, st) && id in st.bets
    ensures OneOutcome(st, id)
  {
    KeysFit(st, id);
    assert BetOk(cfg, st, id);
  }

  /**
   * What a bet has moved, by its status: nothing before the debit and after a refund, the
   * stake while it is held or lost, the win less the stake once it is credited. A voided
   * bet has moved nothing, unless the payout it took back had never been credited.
   */
  function OutcomeNet(st: Store, id: BetId): int
    requires id in st.bets
  {
    var b := st.bets[id];
    var stake := 0 - b.amount;
    var paid, reclaimed := Has(st.book, PayoutKey(id)), Has(st.book, ReclaimKey(id));
    match b.status
    case Reserving => if Has(st.book, DebitKey(b.slot)) then stake else 0
    case Cancelling => if Has(st.book, DebitKey(b.slot)) && !Has(st.book, RestartKey(id)) then stake else 0
    case Cancelled => if Has(st.book, RefundKey(id)) || Has(st.book, RestartKey(id)) then 0 else stake
    case Active => stake
    case Busted => stake
    case CashedOut => if paid then b.payout + stake else stake
    case PayoutPending => if paid then b.payout + stake else stake
    case Voiding =>
      (if paid then b.payout else 0) - (if reclaimed then b.payout else 0)
      + (if Has(st.book, VoidRefundKey(id)) then 0 else stake)
    case Voided => if b.payout == 0 || paid then 0 else 0 - b.payout
  }

  /** Which rows a bet can have, by its status. */
  predicate StatusRows(st: Store, id: BetId)
    requires id in st.bets
  {
    var b := st.bets[id];
    && OneOutcome(st, id)
    && (Has(st.book, PayoutKey(id)) ==> IsWon(b.status) || IsVoid(b.status))
    && (Has(st.book, RefundKey(id)) ==> b.status.Cancelled?)
    && (Has(st.book, RestartKey(id)) ==> IsRestart(b.status))
    && (Has(st.book, ReclaimKey(id)) || Has(st.book, VoidRefundKey(id)) ==> IsVoid(b.status))
    && (!b.status.Reserving? && !b.status.Cancelling? ==> Has(st.book, DebitKey(b.slot)))
    && (b.status.Voided? ==> Has(st.book, VoidRefundKey(id)))
  }

  lemma StatusRowsHold(cfg: Config, st: Store, id: BetId)
    requires StoreOk(cfg, st) && id in st.bets
    ensures StatusRows(st, id)
  {
    OneOutcomeHolds(cfg, st, id);
    RowFactsHold(cfg, st, id);
    VoidedRows(cfg, st, id);
  }

  lemma NetByStatus(cfg: Config, opening: map<WalletId, nat>, st: Store, id: BetId)
    requires StoreOk(cfg, st) && Valid(opening, st.book) && id in st.bets
    ensures NetOf(st.book.rows, id, All) == OutcomeNet(st, id)
  {
    NetOfBet(opening, cfg, st, id);
    SixAmounts(st.book.rows, id, st.bets[id].slot);
    AmountsOfBet(cfg, st, id);
    StatusRowsHold(cfg, st, id);
    AddsUp(st, id, Amount(st.book.rows, DebitKey(st.bets[id].slot)), Amount(st.book.rows, PayoutKey(id)),
           Amount(st.book.rows, RefundKey(id)), Amount(st.book.rows, RestartKey(id)),
           Amount(st.book.rows, ReclaimKey(id)), Amount(st.book.rows, VoidRefundKey(id)));
  }

  lemma AddsUp(st: Store, id: BetId, debit: int, paid: int, refund: int, restart: int, reclaim: int, voided: int)
    requires id in st.bets && StatusRows(st, id)
    requires var b := st.bets[id];
      && debit == (if Has(st.book, DebitKey(b.slot)) then 0 - b.amount else 0)
      && paid == (if Has(st.book, PayoutKey(id)) then b.payout else 0)
      && refund == (if Has(st.book, RefundKey(id)) then b.amount else 0)
      && restart == (if Has(st.book, RestartKey(id)) then b.amount else 0)
      && reclaim == (if Has(st.book, ReclaimKey(id)) then 0 - b.payout else 0)
      && voided == (if Has(st.book, VoidRefundKey(id)) then b.amount else 0)
    ensures debit + paid + refund + restart + reclaim + voided == OutcomeNet(st, id)
  {
  }

  /**
   * Money is moved exactly once for every bet, in every run. No key has two rows, no bet has
   * both a payout and a refund that stand, and all its rows together add up to what its
   * status says.
   */
  lemma MoneyExactlyOnce(cfg: Config, opening: map<WalletId, nat>, events: seq<Event>, id: BetId)
    requires SafeTiming(cfg.timing)
    requires id in Run(cfg, Init(opening), events).store.bets
    ensures var st := Run(cfg, Init(opening), events).store;
      && OneOutcome(st, id) && UniqueKeys(st.book.rows)
      && NetOf(st.book.rows, id, All) == OutcomeNet(st, id)
  {
    var st := Run(cfg, Init(opening), events).store;
    RunKeepsInv(cfg, opening, events);
    RunKeepsJournal(cfg, opening, events);
    OneOutcomeHolds(cfg, st, id);
    NetByStatus(cfg, opening, st, id);
  }

  /** No ledger row outlives its bet, and every row belongs to the wallet of its bet. */
  lemma EveryRowHasItsBet(cfg: Config, opening: map<WalletId, nat>, events: seq<Event>, i: nat)
    requires SafeTiming(cfg.timing)
    requires i < |Run(cfg, Init(opening), events).store.book.rows|
    ensures var st := Run(cfg, Init(opening), events).store;
      var row := st.book.rows[i];
      row.ref.Some? && row.ref.value in st.bets && row.wallet == st.bets[row.ref.value].wallet
  {
    var st := Run(cfg, Init(opening), events).store;
    RunKeepsInv(cfg, opening, events);
    RunKeepsJournal(cfg, opening, events);
    RowIsFound(st.book.rows, i);
    assert Has(st.book, st.book.rows[i].key);
  }

  /** The credit of a win, once it is posted, is exactly the payout of the bet. */
  lemma PaidIsPayout(cfg: Config, opening: map<WalletId, nat>, events: seq<Event>, id: BetId)
    requires SafeTiming(cfg.timing)
    requires var st := Run(cfg, Init(opening), events).store; id in st.bets && Has(st.book, PayoutKey(id))
    ensures var st := Run(cfg, Init(opening), events).store;
      var row := Find(st.book.rows, PayoutKey(id)).value;
      && row.amount == st.bets[id].payout > 0 && row.wallet == st.bets[id].wallet
      && (IsWon(st.bets[id].status) || IsVoid(st.bets[id].status))
  {
    var st := Run(cfg, Init(opening), events).store;
    RunKeepsInv(cfg, opening, events);
    assert RowOk(st, PayoutKey(id), Find(st.book.rows, PayoutKey(id)).value);
  }

  // ----- voids -----

  /**
   * Over any number of concurrent or interrupted voids: the stake refund of a void exists
   * only after the payout was reclaimed (or there was none), and a voided bet nets to
   * exactly 0 if and only if the payout it reclaimed had been credited.
   */
  lemma VoidNetsToZero(cfg: Config, opening: map<WalletId, nat>, events: seq<Event>, id: BetId)
    requires SafeTiming(cfg.timing)
    requires id in Run(cfg, Init(opening), events).store.bets
    ensures var st := Run(cfg, Init(opening), events).store; VoidIsExact(st, id, NetOf(st.book.rows, id, All))
  {
    var st := Run(cfg, Init(opening), events).store;
    RunKeepsInv(cfg, opening, events);
    RunKeepsJournal(cfg, opening, events);
    VoidOf(cfg, opening, st, id);
  }

  predicate VoidIsExact(st: Store, id: BetId, net: int)
    requires id in st.bets
  {
    var b := st.bets[id];
    && (Has(st.book, VoidRefundKey(id)) ==> IsVoid(b.status) && (b.payout == 0 || Has(st.book, ReclaimKey(id))))
    && (b.status.Voided? ==> (net == 0 <==> b.payout == 0 || Has(st.book, PayoutKey(id))))
  }

  lemma VoidOf(cfg: Config, opening: map<WalletId, nat>, st: Store, id: BetId)
    requires StoreOk(cfg, st) && Valid(opening, st.book) && id in st.bets
    ensures VoidIsExact(st, id, NetOf(st.book.rows, id, All))
  {
    StatusRowsHold(cfg, st, id);
    NetByStatus(cfg, opening, st, id);
    VoidFromRows(st, id, NetOf(st.book.rows, id, All));
  }

  lemma VoidFromRows(st: Store, id: BetId, net: int)
    requires id in st.bets && StatusRows(st, id) && net == OutcomeNet(st, id)
    ensures VoidIsExact(st, id, net)
  {
  }

  lemma VoidedRows(cfg: Config, st: Store, id: BetId)
    requires StoreOk(cfg, st) && id in st.bets
    ensures Has(st.book, VoidRefundKey(id)) || Has(st.book, ReclaimKey(id)) ==> IsVoid(st.bets[id].status)
    ensures st.bets[id].status.Voided? ==> Has(st.book, VoidRefundKey(id)) && Has(st.book, DebitKey(st.bets[id].slot))
    ensures st.bets[id].status.Voided? ==> !Has(st.book, RefundKey(id)) && !Has(st.book, RestartKey(id))
  {
    KeysFit(st, id);
    assert BetOk(cfg, st, id);
  }

  /** A clawback the wallet cannot cover moves nothing: the stake stays unrefunded, the bet
      stays voiding, and the call ends, so a later sweep tries again. */
  lemma FailedClawbackRefundsNothing(cfg: Config, st: Store, call: Call)
    requires StoreOk(cfg, st) && CallOk(st, call) && call.VoidReclaim? && call.b.payout > 0
    requires !Has(st.book, ReclaimKey(call.id)) && call.b.wallet in st.book.balances
    requires st.book.balances[call.b.wallet] < call.b.payout
    ensures Exec(cfg, st, call, true) == (st, Finish)
    ensures !Has(st.book, VoidRefundKey(call.id))
  {
    var k := VoidRefundKey(call.id);
    assert Has(st.book, k) ==> RowOk(st, k, Find(st.book.rows, k).value);
  }
}
