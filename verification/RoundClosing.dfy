/** Closing rounds that cannot be resumed: refunds before the outcome, busts after it. */
module RoundClosing {
  import opened Domain
  import opened Ledger
  import opened BetProtocol
  import opened BetMoney
  import opened BetResults
  import opened RefundMask
  import opened Sequential
  import opened Ticks
  import opened SlotRecovery

  // ----- the store at boot -----

  /** The rows that a live stake has, and a stake with a restart refund. */
  predicate OnlyDebited(st: Store, id: BetId) {
    WasDebited(st, id) && !Has(st.book, PayoutKey(id)) && !Has(st.book, RefundKey(id))
    && !Has(st.book, ReclaimKey(id)) && !Has(st.book, VoidRefundKey(id))
  }

  predicate CanBeRefunded(st: Store, id: BetId) {
    id in st.bets && st.bets[id].amount > 0
    && st.bets[id].wallet in st.book.balances && st.book.balances[st.bets[id].wallet] >= 0
  }

  lemma ActiveIsOnlyDebited(cfg: Config, st: Store, id: BetId)
    requires StoreOk(cfg, st) && id in st.bets
    requires st.bets[id].status.Active? || (st.bets[id].status.Cancelled? && Has(st.book, RestartKey(id)))
    ensures OnlyDebited(st, id)
  {
    assert BetOk(cfg, st, id);
    OneOutcomeHolds(cfg, st, id);
    if st.bets[id].status.Active? {
      KeysFit(st, id);
    }
  }

  lemma DebitedCanBeRefunded(cfg: Config, opening: map<WalletId, nat>, st: Store, id: BetId)
    requires Sound(cfg, opening, st) && WasDebited(st, id)
    ensures CanBeRefunded(st, id)
  {
    DebitRowOf(cfg, st, id);
    RowHasWallet(opening, st.book, DebitKey(st.bets[id].slot));
  }

  /** A live stake, refunded or not, was debited, and neither paid nor refunded otherwise. */
  lemma LiveBet(cfg: Config, opening: map<WalletId, nat>, st: Store, id: BetId)
    requires Sound(cfg, opening, Masked(st)) && HasStatus(st, id, Active)
    ensures OnlyDebited(st, id) && CanBeRefunded(st, id)
  {
    assert Masked(st).bets[id] == Mask(st.book, id, st.bets[id]);
    ActiveIsOnlyDebited(cfg, Masked(st), id);
    DebitedCanBeRefunded(cfg, opening, Masked(st), id);
  }

  // ----- refunding one bet -----

  /** Reverse the stake, then mark the bet cancelled; either statement may fail. */
  function RefundAlone(st: Store, id: BetId, oks: seq<bool>): Store
    requires id in st.bets
  {
    var (book, reply) := Issue(st.book, StakeRefund(id, st.bets[id], RestartKey(id)));
    if |oks| == 0 || !oks[0] || !reply.Applied? then st
    else if |oks| == 1 || !oks[1] then st.(book := book)
    else SetStatus(st.(book := book), id, Cancelled)
  }

  predicate BothOk(oks: seq<bool>) {
    |oks| > 1 && oks[0] && oks[1]
  }

  /** The stake is refunded if its reversal succeeds, and the bet cancelled if that is written too. */
  predicate BetRefunded(before: Store, after: Store, id: BetId, oks: seq<bool>) {
    && id in before.bets && id in after.bets
    && after.bets[id] == (if BothOk(oks) then before.bets[id].(status := Cancelled) else before.bets[id])
    && (Has(after.book, RestartKey(id)) <==> Has(before.book, RestartKey(id)) || (|oks| > 0 && oks[0]))
  }

  ghost predicate AddsOnlyRestarts(before: Book, after: Book, ids: set<BetId>) {
    BookKept(before, after)
    && forall k :: Has(after, k) && !Has(before, k) ==> k.RestartKey? && k.bet in ids
  }

  /** The journal once the restart refund of a bet was issued. */
  function Repaid(book: Book, id: BetId, b: Bet): Book {
    Post(book, StakeRefund(id, b, RestartKey(id))).0
  }

  lemma RepaidAddsOneRow(book: Book, id: BetId, b: Bet)
    ensures AddsOnlyRestarts(book, Repaid(book, id, b), {id})
    ensures Has(book, RestartKey(id)) ==> Repaid(book, id, b) == book
  {
    PostEffect(book, StakeRefund(id, b, RestartKey(id)));
  }

  /** The three places at which a refund can have stopped. */
  lemma RefundAloneCases(st: Store, id: BetId, oks: seq<bool>)
    requires id in st.bets
    ensures var st', posted := RefundAlone(st, id, oks), st.(book := Repaid(st.book, id, st.bets[id]));
      && (st' == st || (Has(posted.book, RestartKey(id)) && (st' == posted || st' == SetStatus(posted, id, Cancelled))))
      && (CanBeRefunded(st, id) && |oks| > 0 && oks[0] ==>
            st' == if BothOk(oks) then SetStatus(posted, id, Cancelled) else posted)
  {
    var op := StakeRefund(id, st.bets[id], RestartKey(id));
    PostGrows(st.book, op);
    if CanBeRefunded(st, id) {
      CreditIsAccepted(st.book, op);
    }
  }

  lemma RefundAloneEffect(st: Store, id: BetId, oks: seq<bool>)
    requires HasStatus(st, id, Active) && CanBeRefunded(st, id)
    ensures var st' := RefundAlone(st, id, oks);
      && AddsOnlyRestarts(st.book, st'.book, {id}) && BetRefunded(st, st', id, oks)
      && st' == st.(bets := st'.bets, book := st'.book) && st'.bets == st.bets[id := st'.bets[id]]
  {
    RepaidAddsOneRow(st.book, id, st.bets[id]);
    RefundAloneCases(st, id, oks);
    assert st.bets == st.bets[id := st.bets[id]];
  }

  /** A refund whose status is written too is what the mask shows from the post on. */
  function RefundDone(st: Store, id: BetId): Store
    requires id in st.bets
  {
    SetStatus(st.(book := Repaid(st.book, id, st.bets[id])), id, Cancelled)
  }

  lemma RefundAloneIsMasked(st: Store, id: BetId, oks: seq<bool>)
    requires HasStatus(st, id, Active)
    ensures var st' := RefundAlone(st, id, oks);
      Masked(st') == Masked(st) || (!IsRefunded(st, id) && Masked(st') == RefundDone(Masked(st), id))
  {
    RefundAloneCases(st, id, oks);
    RepaidAddsOneRow(st.book, id, st.bets[id]);
    if IsRefunded(st, id) {
      MaskOfRow(st, id, st.bets[id].(status := Cancelled));
      assert Masked(SetStatus(st, id, Cancelled)).bets == Masked(st).bets;
    } else if RefundAlone(st, id, oks) != st {
      MaskOfPosted(st, Repaid(st.book, id, st.bets[id]), id);
    }
  }

  lemma RefundAloneRefundsOnly(st: Store, id: BetId, oks: seq<bool>)
    requires HasStatus(st, id, Active)
    ensures RefundsOnly(st, RefundAlone(st, id, oks), id)
  {
    var book := Repaid(st.book, id, st.bets[id]);
    RefundAloneCases(st, id, oks);
    RepaidAddsOneRow(st.book, id, st.bets[id]);
    RepaidRefundsOnly(st, book, id);
  }

  lemma RepaidRefundsOnly(st: Store, book: Book, id: BetId)
    requires id in st.bets && AddsOnlyRestarts(st.book, book, {id})
    ensures RefundsOnly(st, st, id) && RefundsOnly(st, st.(book := book), id)
    ensures RefundsOnly(st, SetStatus(st.(book := book), id, Cancelled), id)
  {
  }

  /** Nobody but this bet becomes refunded. */
  predicate RefundsOnly(before: Store, after: Store, id: BetId) {
    && after.rounds == before.rounds && after.bets.Keys == before.bets.Keys
    && forall other :: other in after.bets ==>
         && after.bets[other].slot == before.bets[other].slot
         && (IsRefunded(after, other) ==> other == id || IsRefunded(before, other))
  }

  lemma MaskOfPosted(st: Store, book: Book, id: BetId)
    requires HasStatus(st, id, Active) && !Has(st.book, RestartKey(id)) && Has(book, RestartKey(id))
    requires forall other :: other != id ==> (Has(book, RestartKey(other)) <==> Has(st.book, RestartKey(other)))
    ensures Masked(st.(book := book)) == SetStatus(Masked(st).(book := book), id, Cancelled)
    ensures Masked(SetStatus(st.(book := book), id, Cancelled)) == SetStatus(Masked(st).(book := book), id, Cancelled)
  {
    var shown := SetStatus(Masked(st).(book := book), id, Cancelled);
    assert Masked(st.(book := book)).bets == shown.bets;
    assert Masked(SetStatus(st.(book := book), id, Cancelled)).bets == shown.bets;
  }

  lemma RefundDoneIsSound(cfg: Config, opening: map<WalletId, nat>, st: Store, id: BetId)
    requires Sound(cfg, opening, st) && HasStatus(st, id, Active)
    ensures Sound(cfg, opening, RefundDone(st, id))
  {
    var op := StakeRefund(id, st.bets[id], RestartKey(id));
    StatusKeepsStore(cfg, st, id, Cancelled);
    ActiveIsOnlyDebited(cfg, st, id);
    RestartKeepsStore(cfg, SetStatus(st, id, Cancelled), id);
    PostKeepsValid(opening, st.book, op);
  }

  lemma RestartKeepsStore(cfg: Config, st: Store, id: BetId)
    requires StoreOk(cfg, st) && HasStatus(st, id, Cancelled) && WasDebited(st, id) && !Has(st.book, RefundKey(id))
    ensures StoreOk(cfg, st.(book := Post(st.book, StakeRefund(id, st.bets[id], RestartKey(id))).0))
  {
    var op := StakeRefund(id, st.bets[id], RestartKey(id));
    PostEffect(st.book, op);
    PostKeepsRows(st, op);
    forall other | other in st.bets
      ensures BetOk(cfg, st.(book := Post(st.book, op).0), other)
    {
      assert BetOk(cfg, st, other);
      BetOutlives(cfg, st, Post(st.book, op).0, other);
    }
  }

  /** A refund that fails anywhere leaves a store that the next boot can start from. */
  lemma RefundAloneKeepsSound(cfg: Config, opening: map<WalletId, nat>, st: Store, id: BetId, oks: seq<bool>)
    requires Sound(cfg, opening, Masked(st)) && HasStatus(st, id, Active)
    ensures Sound(cfg, opening, Masked(RefundAlone(st, id, oks)))
  {
    RefundAloneIsMasked(st, id, oks);
    if !IsRefunded(st, id) {
      RefundDoneIsSound(cfg, opening, Masked(st), id);
    }
  }

  // ----- refunding the active bets of a round -----

  /** The bets `ids` are refunded as far as their statements succeed, and nothing else happens. */
  ghost predicate RefundPass(before: Store, after: Store, ids: set<BetId>, refunds: Plan) {
    && after.rounds == before.rounds && after.used == before.used && after.bets.Keys == before.bets.Keys
    && AddsOnlyRestarts(before.book, after.book, ids)
    && (forall id :: id in ids ==> HasStatus(before, id, Active) && BetRefunded(before, after, id, refunds(id)))
    && (forall id :: id in before.bets && id !in ids ==> after.bets[id] == before.bets[id])
  }

  /** One more bet is refunded. */
  lemma RefundOneMore(
      cfg: Config, opening: map<WalletId, nat>, start: Store, now: Store, done: set<BetId>, id: BetId, refunds: Plan)
    requires RefundPass(start, now, done, refunds) && Sound(cfg, opening, Masked(now))
    requires id !in done && HasStatus(start, id, Active)
    ensures RefundPass(start, RefundAlone(now, id, refunds(id)), done + {id}, refunds)
  {
    LiveBet(cfg, opening, now, id);
    RefundAloneEffect(now, id, refunds(id));
    AddRefund(start, now, RefundAlone(now, id, refunds(id)), done, id, refunds);
  }

  lemma AddRefund(start: Store, now: Store, st': Store, done: set<BetId>, id: BetId, refunds: Plan)
    requires RefundPass(start, now, done, refunds) && id !in done && HasStatus(start, id, Active)
    requires BetRefunded(now, st', id, refunds(id)) && AddsOnlyRestarts(now.book, st'.book, {id})
    requires st' == now.(bets := st'.bets, book := st'.book) && st'.bets == now.bets[id := st'.bets[id]]
    ensures RefundPass(start, st', done + {id}, refunds)
  {
  }

  function ActiveIn(st: Store, r: RoundId): set<BetId> {
    set id | id in st.bets && st.bets[id].status.Active? && st.bets[id].slot.round == r
  }

  function Close(st: Store, r: RoundId): Store
    requires r in st.rounds
  {
    st.(rounds := st.rounds[r := st.rounds[r].(phase := Completed)])
  }

  predicate PostOutcome(p: Phase) {
    p.Running? || p.Crashed? || p.Settling?
  }

  /** How far the statements of closing rounds succeed. */
  datatype ClosePlan = ClosePlan(busted: RoundId -> bool, refunds: Plan)

  /** The round is completed and its active bets are refunded, as far as the statements succeed. */
  ghost predicate RoundRefunded(before: Store, after: Store, r: RoundId, refunds: Plan) {
    r in before.rounds && after.rounds == Close(before, r).rounds
    && RefundPass(before, after.(rounds := before.rounds), ActiveIn(before, r), refunds)
  }

  /** The round is completed; its outcome decides between refund and bust. The bust is a
      statement of its own, whose failure stops nothing. */
  ghost predicate RoundClosed(before: Store, after: Store, r: RoundId, plan: ClosePlan) {
    r in before.rounds
    && if !PostOutcome(before.rounds[r].phase) then RoundRefunded(before, after, r, plan.refunds)
       else after == if plan.busted(r) then Close(before, r).(bets := BustActive(before.bets, r)) else Close(before, r)
  }

  // ----- closing all stale rounds -----

  /** What became of one bet after the rounds in `done` were closed. */
  predicate BetClosed(before: Store, after: Store, done: set<RoundId>, plan: ClosePlan, id: BetId)
    requires id in before.bets && id in after.bets && done <= before.rounds.Keys
  {
    var b := before.bets[id];
    if !b.status.Active? || b.slot.round !in done then after.bets[id] == b
    else if PostOutcome(before.rounds[b.slot.round].phase) then
      && after.bets[id] == (if plan.busted(b.slot.round) then b.(status := Busted) else b)
      && (Has(after.book, RestartKey(id)) ==> Has(before.book, RestartKey(id)))
    else BetRefunded(before, after, id, plan.refunds(id))
  }

  ghost predicate StaleClosed(before: Store, after: Store, done: set<RoundId>, plan: ClosePlan) {
    && done <= before.rounds.Keys && after.rounds.Keys == before.rounds.Keys
    && (forall r :: r in before.rounds ==>
          after.rounds[r] == if r in done then before.rounds[r].(phase := Completed) else before.rounds[r])
    && after.bets.Keys == before.bets.Keys && after.used == before.used
    && BookKept(before.book, after.book)
    && (forall k :: Has(after.book, k) && !Has(before.book, k) ==>
          k.RestartKey? && HasStatus(before, k.bet, Active) && before.bets[k.bet].slot.round in done
          && !PostOutcome(before.rounds[before.bets[k.bet].slot.round].phase))
    && (forall id :: id in before.bets ==> BetClosed(before, after, done, plan, id))
  }

  lemma CloseOneMore(start: Store, now: Store, st': Store, done: set<RoundId>, plan: ClosePlan, r: RoundId)
    requires StaleClosed(start, now, done, plan) && r in start.rounds && r !in done
    requires RoundClosed(now, st', r, plan)
    ensures StaleClosed(start, st', done + {r}, plan)
  {
    var done' := done + {r};
    forall id | id in start.bets
      ensures id in st'.bets && BetClosed(start, st', done', plan, id)
    {
      CloseOneBet(start, now, st', done, plan, r, id);
    }
    forall k | Has(st'.book, k) && !Has(start.book, k)
      ensures k.RestartKey? && HasStatus(start, k.bet, Active) && start.bets[k.bet].slot.round in done'
      ensures !PostOutcome(start.rounds[start.bets[k.bet].slot.round].phase)
    {
      if !Has(now.book, k) {
        assert k.bet in ActiveIn(now, r);
        assert BetClosed(start, now, done, plan, k.bet);
      }
    }
  }

  lemma CloseOneBet(start: Store, now: Store, st': Store, done: set<RoundId>, plan: ClosePlan, r: RoundId, id: BetId)
    requires StaleClosed(start, now, done, plan) && r in start.rounds && r !in done
    requires RoundClosed(now, st', r, plan) && id in start.bets
    ensures id in st'.bets && BetClosed(start, st', done + {r}, plan, id)
  {
    assert BetClosed(start, now, done, plan, id);
    assert id in ActiveIn(now, r) <==> now.bets[id].status.Active? && now.bets[id].slot.round == r;
  }
}
