/**
 * A boot posts the refund of a live bet before it writes the bet's status, and either may
 * fail. A bet that is refunded but still active is unsound by itself; shown as cancelled,
 * which is what it becomes, it is not. Recovery and cash-outs cannot tell the difference.
 */
module RefundMask {
  import opened Domain
  import opened Money
  import opened Ledger
  import opened BetProtocol
  import opened BetMoney
  import opened Sequential

  /** The restart refund is posted, the status write is still to come. */
  predicate IsRefunded(st: Store, id: BetId) {
    HasStatus(st, id, Active) && Has(st.book, RestartKey(id))
  }

  function Mask(book: Book, id: BetId, b: Bet): Bet {
    if b.status.Active? && Has(book, RestartKey(id)) then b.(status := Cancelled) else b
  }

  /** The store in which every refunded bet is cancelled. */
  function Masked(st: Store): Store {
    st.(bets := map id | id in st.bets :: Mask(st.book, id, st.bets[id]))
  }

  lemma SoundIsMasked(cfg: Config, st: Store)
    requires StoreOk(cfg, st)
    ensures Masked(st) == st
  {
    forall id | id in st.bets
      ensures Mask(st.book, id, st.bets[id]) == st.bets[id]
    {
      RowFactsHold(cfg, st, id);
    }
    assert Masked(st).bets == st.bets;
  }

  // ----- calls that do not see the mask -----

  predicate Cashes(call: Call) {
    call.CashClaim? || call.CashCredit? || call.CashPend?
  }

  predicate Recovers(call: Call) {
    call.RecoverClaim? || call.Recovering()
  }

  /** The call works on a bet whose row the mask shows as it is, before and after. */
  predicate SeesThrough(st: Store, call: Call) {
    (Recovers(call) && !HasStatus(st, call.id, Active)) || (Cashes(call) && !IsRefunded(st, call.id))
  }

  /** No bet becomes refunded, and rounds stay as they are. */
  predicate RefundsNobody(before: Store, after: Store) {
    && after.rounds == before.rounds
    && forall id :: id in after.bets && IsRefunded(after, id) ==>
         IsRefunded(before, id) && after.bets[id].slot == before.bets[id].slot
  }

  ghost predicate MaskCommutes(cfg: Config, st: Store, call: Call, ok: bool) {
    var (st', after) := Exec(cfg, st, call, ok);
    && Exec(cfg, Masked(st), call, ok) == (Masked(st'), after)
    && RefundsNobody(st, st') && (after.Continue? ==> SeesThrough(st', after.call))
  }

  lemma ExecIsMasked(cfg: Config, st: Store, call: Call, ok: bool)
    requires SeesThrough(st, call)
    ensures MaskCommutes(cfg, st, call, ok)
  {
    if MoneyOp(call).Some? {
      MoneyIsMasked(cfg, st, call, ok);
    } else if call.RecoverLookup? {
    } else {
      WriteIsMasked(cfg, st, call, ok);
    }
  }

  /** A new row in the journal is not seen unless it refunds a live bet. */
  lemma MaskOfPost(st: Store, op: Op)
    requires op.key.RestartKey? ==> !HasStatus(st, op.key.bet, Active)
    ensures var st' := st.(book := Post(st.book, op).0);
      Masked(st') == Masked(st).(book := Post(st.book, op).0) && RefundsNobody(st, st')
  {
    PostEffect(st.book, op);
    var st' := st.(book := Post(st.book, op).0);
    assert forall id :: id in st.bets && st.bets[id].status.Active? ==>
      (Has(st'.book, RestartKey(id)) <==> Has(st.book, RestartKey(id)));
    assert Masked(st').bets == Masked(st).bets;
  }

  /** A row that is not active is shown as it is. */
  lemma MaskOfRow(st: Store, id: BetId, b: Bet)
    requires !b.status.Active?
    ensures var st' := st.(bets := st.bets[id := b]);
      Masked(st') == Masked(st).(bets := Masked(st).bets[id := b]) && RefundsNobody(st, st')
  {
    assert Masked(st.(bets := st.bets[id := b])).bets == Masked(st).bets[id := b];
  }

  lemma MaskOfDrop(st: Store, id: BetId)
    ensures var st' := st.(bets := st.bets - {id});
      Masked(st') == Masked(st).(bets := Masked(st).bets - {id}) && RefundsNobody(st, st')
  {
    assert Masked(st.(bets := st.bets - {id})).bets == Masked(st).bets - {id};
  }

  lemma MoneyIsMasked(cfg: Config, st: Store, call: Call, ok: bool)
    requires SeesThrough(st, call) && MoneyOp(call).Some?
    ensures MaskCommutes(cfg, st, call, ok)
  {
    var op := MoneyOp(call).value;
    MaskOfPost(st, op);
    MoveIsMasked(st, op, ok, Continue(CashPend(call.id, call.b)), Finish);
    MoveIsMasked(st, op, ok, Finish, Continue(CashPend(call.id, call.b)));
    MoveIsMasked(st, op, ok, Continue(RecoverFinish(call.id, call.b)), Finish);
  }

  lemma MoveIsMasked(st: Store, op: Op, ok: bool, applied: After, refused: After)
    requires op.key.RestartKey? ==> !HasStatus(st, op.key.bet, Active)
    ensures var (st', after) := MoveMoney(st, op, ok, applied, refused);
      MoveMoney(Masked(st), op, ok, applied, refused) == (Masked(st'), after) && RefundsNobody(st, st')
  {
    MaskOfPost(st, op);
  }

  lemma WriteIsMasked(cfg: Config, st: Store, call: Call, ok: bool)
    requires SeesThrough(st, call) && MoneyOp(call).None? && !call.RecoverLookup?
    ensures MaskCommutes(cfg, st, call, ok)
  {
    if call.RecoverDrop? {
      MaskOfDrop(st, call.id);
    } else if call.CashClaim? {
      ClaimIsMasked(cfg, st, call, ok);
    } else {
      StatusIsMasked(cfg, st, call, ok);
    }
  }

  lemma ClaimIsMasked(cfg: Config, st: Store, call: Call, ok: bool)
    requires SeesThrough(st, call) && call.CashClaim?
    ensures MaskCommutes(cfg, st, call, ok)
  {
    if HasStatus(st, call.id, Active) {
      var payout := PayoutAt(cfg.limits, call.b, call.mult);
      MaskOfRow(st, call.id, st.bets[call.id].(status := CashedOut, mult := call.mult, payout := payout));
    }
  }

  lemma StatusIsMasked(cfg: Config, st: Store, call: Call, ok: bool)
    requires SeesThrough(st, call) && (call.RecoverClaim? || call.RecoverFinish? || call.CashPend?)
    ensures MaskCommutes(cfg, st, call, ok)
  {
    var to := if call.RecoverClaim? then Cancelling else if call.RecoverFinish? then Cancelled else PayoutPending;
    if call.id in st.bets {
      MaskOfRow(st, call.id, st.bets[call.id].(status := to));
    }
  }

  lemma {:induction false} RunCallIsMasked(cfg: Config, st: Store, call: Call, oks: seq<bool>)
    requires SeesThrough(st, call)
    ensures RunCall(cfg, Masked(st), call, oks) == Masked(RunCall(cfg, st, call, oks))
    ensures RefundsNobody(st, RunCall(cfg, st, call, oks))
    decreases |oks|
  {
    RunCallStep(cfg, st, call, oks);
    RunCallStep(cfg, Masked(st), call, oks);
    if |oks| != 0 {
      var (st', after) := Exec(cfg, st, call, oks[0]);
      ExecIsMasked(cfg, st, call, oks[0]);
      if after.Continue? {
        RunCallIsMasked(cfg, st', after.call, oks[1..]);
      }
    }
  }

  /** A recovery or a cash-out run alone does to the masked store what it does to the real one. */
  lemma RunFromIsMasked(cfg: Config, st: Store, e: Event, oks: seq<bool>)
    requires e.BeginRecover? || (e.BeginCash? && !IsRefunded(st, e.id))
    ensures RunFrom(cfg, Masked(st), e, oks) == Masked(RunFrom(cfg, st, e, oks))
    ensures RefundsNobody(st, RunFrom(cfg, st, e, oks))
  {
    var first := FirstRead(cfg, st, e);
    assert FirstRead(cfg, Masked(st), e) == first;
    if first.Some? {
      RunCallIsMasked(cfg, st, first.value, oks);
    }
  }

  lemma RunFromKeepsMaskSound(cfg: Config, opening: map<WalletId, nat>, st: Store, e: Event, oks: seq<bool>)
    requires Sound(cfg, opening, Masked(st)) && (e.BeginRecover? || (e.BeginCash? && !IsRefunded(st, e.id)))
    ensures Sound(cfg, opening, Masked(RunFrom(cfg, st, e, oks))) && RefundsNobody(st, RunFrom(cfg, st, e, oks))
  {
    RunFromIsMasked(cfg, st, e, oks);
    RunFromIsSound(cfg, opening, Masked(st), e, oks);
  }
}
