/** Recovery of stranded reservations: any number of broken passes, then a complete one. */
module SlotRecovery {
  import opened Domain
  import opened Ledger
  import opened RowSums
  import opened BetProtocol
  import opened BetMoney
  import opened BetResults
  import opened BetRows
  import opened RefundMask
  import opened Sequential
  import opened Ticks

  /** What recovery selects: reservations, and slots that an earlier pass has claimed. */
  predicate IsSlot(st: Store, id: BetId) {
    HasStatus(st, id, Reserving) || HasStatus(st, id, Cancelling)
  }

  predicate WasDebited(st: Store, id: BetId) {
    id in st.bets && Has(st.book, DebitKey(st.bets[id].slot))
  }

  predicate AllOk(oks: seq<bool>) {
    |oks| >= 4 && oks[0] && oks[1] && oks[2] && oks[3]
  }

  /** How far a pass, broken anywhere, can have come with one slot. */
  predicate SlotStep(before: Store, after: Store, id: BetId) {
    id in before.bets
    && if id !in after.bets then !WasDebited(before, id)
       else
         var st := after.bets[id].status;
         && after.bets[id] == before.bets[id].(status := st)
         && (st == before.bets[id].status || st.Cancelling?
             || (st.Cancelled? && WasDebited(before, id) && Has(after.book, RestartKey(id))))
  }

  /** Where an unbroken pass gets with one slot: refunded exactly if it was debited, else gone. */
  predicate SlotDone(before: Store, after: Store, id: BetId) {
    id in before.bets
    && if WasDebited(before, id) then
         HasStatus(after, id, Cancelled) && after.bets[id] == before.bets[id].(status := Cancelled)
           && Has(after.book, RestartKey(id))
       else id !in after.bets
  }

  /** Everything that is not a slot, an activated bet in particular, is left alone. */
  ghost predicate OthersKept(before: Store, after: Store) {
    && after.rounds == before.rounds && after.used == before.used
    && (forall id :: !IsSlot(before, id) ==> (id in after.bets <==> id in before.bets))
    && (forall id :: !IsSlot(before, id) && id in before.bets ==> after.bets[id] == before.bets[id])
  }

  /** The journal gains nothing but restart refunds of debited slots. */
  ghost predicate OnlyRefunds(before: Store, after: Store) {
    && BookKept(before.book, after.book)
    && (forall k :: Has(after.book, k) && !Has(before.book, k) ==>
          k.RestartKey? && IsSlot(before, k.bet) && WasDebited(before, k.bet))
  }

  ghost predicate RecoverPass(before: Store, after: Store) {
    && OthersKept(before, after) && OnlyRefunds(before, after)
    && forall id :: IsSlot(before, id) ==> SlotStep(before, after, id)
  }

  ghost predicate CompletePass(before: Store, after: Store) {
    RecoverPass(before, after) && forall id :: IsSlot(before, id) ==> SlotDone(before, after, id)
  }

  // ----- one slot -----

  /** A wallet with a row in the journal exists and is not overdrawn. */
  lemma RowHasWallet(opening: map<WalletId, nat>, book: Book, k: Key)
    requires Valid(opening, book) && Has(book, k)
    ensures var w := Find(book.rows, k).value.wallet; w in book.balances && book.balances[w] >= 0
  {
    var row := Find(book.rows, k).value;
    var i :| 0 <= i < |book.rows| && book.rows[i] == row;
    assert book.rows[i].wallet in opening;
  }

  lemma DebitRowOf(cfg: Config, st: Store, id: BetId)
    requires StoreOk(cfg, st) && WasDebited(st, id)
    ensures var row := Find(st.book.rows, DebitKey(st.bets[id].slot)).value;
      row.wallet == st.bets[id].wallet && st.bets[id].amount > 0
  {
    var debit := DebitKey(st.bets[id].slot);
    KeyOwner(st, id, debit);
    assert RowOk(st, debit, Find(st.book.rows, debit).value);
  }

  lemma CreditIsAccepted(book: Book, op: Op)
    requires op.Move? && op.amount > 0 && op.wallet in book.balances && book.balances[op.wallet] >= 0
    ensures Issue(book, op).1.Applied?
  {
  }

  /** The refund of a debited slot is always accepted. */
  lemma RefundIsAccepted(cfg: Config, opening: map<WalletId, nat>, st: Store, id: BetId, b: Bet, key: Key)
    requires Sound(cfg, opening, st) && id in st.bets && SameBet(b, st.bets[id]) && WasDebited(st, id)
    ensures Issue(st.book, StakeRefund(id, b, key)).1.Applied?
  {
    DebitRowOf(cfg, st, id);
    RowHasWallet(opening, st.book, DebitKey(st.bets[id].slot));
    CreditIsAccepted(st.book, StakeRefund(id, b, key));
  }

  lemma RefundAndFinish(cfg: Config, opening: map<WalletId, nat>, st: Store, id: BetId, b: Bet, oks: seq<bool>)
    requires Sound(cfg, opening, st) && CallOk(st, RecoverRefund(id, b)) && HasStatus(st, id, Cancelling)
    ensures var st' := RunCall(cfg, st, RecoverRefund(id, b), oks);
      && SlotStep(st, st', id)
      && (|oks| > 1 && oks[0] && oks[1] ==> SlotDone(st, st', id))
  {
    RefundIsAccepted(cfg, opening, st, id, b, RestartKey(id));
    AcceptedRefund(cfg, st, id, b, oks);
  }

  lemma AcceptedRefund(cfg: Config, st: Store, id: BetId, b: Bet, oks: seq<bool>)
    requires HasStatus(st, id, Cancelling) && WasDebited(st, id)
    requires Issue(st.book, StakeRefund(id, b, RestartKey(id))).1.Applied?
    ensures var st' := RunCall(cfg, st, RecoverRefund(id, b), oks);
      && SlotStep(st, st', id)
      && (|oks| > 1 && oks[0] && oks[1] ==> SlotDone(st, st', id))
  {
    RunCallStep(cfg, st, RecoverRefund(id, b), oks);
    PostGrows(st.book, StakeRefund(id, b, RestartKey(id)));
    if |oks| > 0 && oks[0] {
      RunCallStep(cfg, Exec(cfg, st, RecoverRefund(id, b), true).0, RecoverFinish(id, b), oks[1..]);
    }
  }

  lemma LookUpAndReverse(cfg: Config, opening: map<WalletId, nat>, st: Store, id: BetId, b: Bet, oks: seq<bool>)
    requires Sound(cfg, opening, st) && CallOk(st, RecoverLookup(id, b)) && HasStatus(st, id, Cancelling)
    ensures var st' := RunCall(cfg, st, RecoverLookup(id, b), oks);
      && SlotStep(st, st', id)
      && (|oks| > 2 && oks[0] && oks[1] && oks[2] ==> SlotDone(st, st', id))
  {
    RunCallStep(cfg, st, RecoverLookup(id, b), oks);
    if |oks| > 0 && oks[0] {
      if Has(st.book, DebitKey(b.slot)) {
        RefundAndFinish(cfg, opening, st, id, b, oks[1..]);
      } else {
        RunCallStep(cfg, st, RecoverDrop(id, b), oks[1..]);
      }
    }
  }

  lemma RecoverSlot(cfg: Config, opening: map<WalletId, nat>, st: Store, id: BetId, oks: seq<bool>)
    requires Sound(cfg, opening, st) && IsSlot(st, id)
    ensures var st' := RunFrom(cfg, st, BeginRecover(0, id), oks);
      SlotStep(st, st', id) && (AllOk(oks) ==> SlotDone(st, st', id))
  {
    var b := st.bets[id];
    FirstReadIsOk(cfg, st, BeginRecover(0, id));
    if b.status.Cancelling? {
      LookUpAndReverse(cfg, opening, st, id, b, oks);
    } else {
      RunCallStep(cfg, st, RecoverClaim(id, b), oks);
      if |oks| > 0 && oks[0] {
        ExecIsSound(cfg, opening, st, RecoverClaim(id, b), true);
        ExecContinues(cfg, st, RecoverClaim(id, b), true);
        LookUpAndReverse(cfg, opening, SetStatus(st, id, Cancelling), id, b, oks[1..]);
      }
    }
  }

  /** Recovering one slot is a pass over it: the only row it can add is its restart refund. */
  lemma {:induction false} RecoveryAddsRefund(cfg: Config, st: Store, call: Call, oks: seq<bool>)
    requires call.RecoverClaim? || call.Recovering()
    requires call.RecoverRefund? ==> Has(st.book, DebitKey(call.b.slot))
    ensures var st' := RunCall(cfg, st, call, oks);
      && BookKept(st.book, st'.book)
      && forall k :: Has(st'.book, k) && !Has(st.book, k) ==>
           k == RestartKey(call.id) && Has(st.book, DebitKey(call.b.slot))
    decreases |oks|
  {
    RunCallStep(cfg, st, call, oks);
    if |oks| != 0 {
      var (st', after) := Exec(cfg, st, call, oks[0]);
      RecoveryExecAddsRefund(cfg, st, call, oks[0]);
      RecoveryGoesOn(cfg, st, call, oks[0]);
      if after.Continue? {
        RecoveryAddsRefund(cfg, st', after.call, oks[1..]);
      }
    }
  }

  lemma RecoveryExecAddsRefund(cfg: Config, st: Store, call: Call, ok: bool)
    requires call.RecoverClaim? || call.Recovering()
    requires call.RecoverRefund? ==> Has(st.book, DebitKey(call.b.slot))
    ensures var st' := Exec(cfg, st, call, ok).0;
      && BookKept(st.book, st'.book)
      && forall k :: Has(st'.book, k) && !Has(st.book, k) ==> call.RecoverRefund? && k == RestartKey(call.id)
  {
    if call.RecoverRefund? {
      PostEffect(st.book, StakeRefund(call.id, call.b, RestartKey(call.id)));
    } else {
      assert Exec(cfg, st, call, ok).0.book == st.book;
    }
  }

  lemma RecoveryGoesOn(cfg: Config, st: Store, call: Call, ok: bool)
    requires call.RecoverClaim? || call.Recovering()
    ensures var (st', after) := Exec(cfg, st, call, ok);
      after.Continue? ==>
        && after.call.Recovering() && after.call.id == call.id && after.call.b.slot == call.b.slot
        && (after.call.RecoverRefund? ==> Has(st'.book, DebitKey(call.b.slot)))
  {
  }

  // ----- one pass -----

  /** The pass has handled all slots but those in `left`. */
  ghost predicate PassBut(start: Store, now: Store, left: set<BetId>) {
    && RecoverPass(start, now)
    && forall id :: id in left ==> IsSlot(start, id) && id in now.bets && now.bets[id] == start.bets[id]
  }

  /** One iteration of the recovery loop. */
  lemma RecoverOneMore(
      cfg: Config, opening: map<WalletId, nat>, start: Store, now: Store, left: set<BetId>, id: BetId, oks: seq<bool>)
    requires Sound(cfg, opening, Masked(now)) && PassBut(start, now, left) && id in left
    ensures var st' := RunFrom(cfg, now, BeginRecover(0, id), oks);
      && PassBut(start, st', left - {id})
      && (AllOk(oks) ==> SlotDone(start, st', id))
      && (forall done :: done != id && IsSlot(start, done) && SlotDone(start, now, done) ==> SlotDone(start, st', done))
  {
    var st' := RunFrom(cfg, now, BeginRecover(0, id), oks);
    RecoverSlot(cfg, opening, Masked(now), id, oks);
    RunFromIsMasked(cfg, now, BeginRecover(0, id), oks);
    Unmask(now, st', id);
    RecoverTouches(cfg, now, id, oks);
    AddStep(start, now, st', left, id);
  }

  /** A slot is never masked. */
  lemma Unmask(before: Store, after: Store, id: BetId)
    requires IsSlot(before, id) && RefundsNobody(before, after)
    ensures SlotStep(Masked(before), Masked(after), id) <==> SlotStep(before, after, id)
    ensures SlotDone(Masked(before), Masked(after), id) <==> SlotDone(before, after, id)
  {
    assert id in after.bets ==> Mask(after.book, id, after.bets[id]) == after.bets[id];
  }

  lemma {:induction false} RecoveryTouchesOnly(cfg: Config, st: Store, call: Call, oks: seq<bool>)
    requires call.RecoverClaim? || call.Recovering()
    ensures TouchesOnly(st, RunCall(cfg, st, call, oks), call.id, call.b)
    decreases |oks|
  {
    RunCallStep(cfg, st, call, oks);
    if |oks| != 0 {
      var (st', after) := Exec(cfg, st, call, oks[0]);
      ExecTouchesOnly(cfg, st, call, oks[0]);
      RecoveryGoesOn(cfg, st, call, oks[0]);
      if after.Continue? {
        RecoveryTouchesOnly(cfg, st', after.call, oks[1..]);
        TouchesTwice(st, st', RunCall(cfg, st', after.call, oks[1..]), call.id, call.b, after.call.b);
      }
    }
  }

  lemma RecoverTouches(cfg: Config, st: Store, id: BetId, oks: seq<bool>)
    requires IsSlot(st, id)
    ensures var st' := RunFrom(cfg, st, BeginRecover(0, id), oks);
      && TouchesOnly(st, st', id, st.bets[id]) && BookKept(st.book, st'.book)
      && forall k :: Has(st'.book, k) && !Has(st.book, k) ==> k == RestartKey(id) && WasDebited(st, id)
  {
    var call := FirstRead(cfg, st, BeginRecover(0, id)).value;
    RecoveryTouchesOnly(cfg, st, call, oks);
    RecoveryAddsRefund(cfg, st, call, oks);
  }

  lemma AddStep(start: Store, now: Store, st': Store, left: set<BetId>, id: BetId)
    requires PassBut(start, now, left) && id in left
    requires TouchesOnly(now, st', id, now.bets[id]) && BookKept(now.book, st'.book) && SlotStep(now, st', id)
    requires forall k :: Has(st'.book, k) && !Has(now.book, k) ==> k == RestartKey(id) && WasDebited(now, id)
    ensures PassBut(start, st', left - {id})
    ensures SlotDone(now, st', id) ==> SlotDone(start, st', id)
    ensures forall done :: done != id && IsSlot(start, done) && SlotDone(start, now, done) ==>
      SlotDone(start, st', done)
  {
    forall other | other != id
      ensures other in st'.bets <==> other in now.bets
      ensures other in now.bets ==> st'.bets[other] == now.bets[other]
    {
      OtherRowIsSame(now.bets, st'.bets, id, other);
    }
    DebitsAreSame(start, now, id);
  }

  /** A pass adds no debit. */
  lemma DebitsAreSame(before: Store, after: Store, id: BetId)
    requires OnlyRefunds(before, after) && id in before.bets && id in after.bets
      && after.bets[id].slot == before.bets[id].slot
    ensures WasDebited(after, id) <==> WasDebited(before, id)
  {
  }

  // ----- many passes -----

  /** A broken pass followed by a complete one is one complete pass. */
  lemma PassIsAbsorbed(a: Store, b: Store, c: Store)
    requires RecoverPass(a, b) && CompletePass(b, c)
    ensures CompletePass(a, c)
  {
    forall id | IsSlot(a, id)
      ensures SlotDone(a, c, id) && SlotStep(a, c, id)
    {
      assert SlotStep(a, b, id);
      if IsSlot(b, id) {
        DebitsAreSame(a, b, id);
        assert SlotDone(b, c, id);
      }
    }
    forall id | !IsSlot(a, id)
      ensures (id in c.bets <==> id in a.bets) && (id in a.bets ==> c.bets[id] == a.bets[id])
    {
      assert !IsSlot(b, id);
    }
    RefundsCompose(a, b, c);
  }

  lemma RefundsCompose(a: Store, b: Store, c: Store)
    requires RecoverPass(a, b) && OnlyRefunds(b, c)
    ensures OnlyRefunds(a, c)
  {
    forall k | Has(c.book, k) && !Has(a.book, k)
      ensures k.RestartKey? && IsSlot(a, k.bet) && WasDebited(a, k.bet)
    {
      if !Has(b.book, k) {
        assert IsSlot(b, k.bet) && WasDebited(b, k.bet);
        assert IsSlot(a, k.bet);
        assert SlotStep(a, b, k.bet);
        DebitsAreSame(a, b, k.bet);
      }
    }
  }

  /** Passes that each broke at any slot, in any order; the first complete one settles everything. */
  lemma {:induction false} PassesConverge(stores: seq<Store>, final: Store)
    requires |stores| > 0 && CompletePass(stores[|stores| - 1], final)
    requires forall i :: 0 <= i < |stores| - 1 ==> RecoverPass(stores[i], stores[i + 1])
    ensures CompletePass(stores[0], final)
  {
    if |stores| > 1 {
      var rest := stores[1..];
      forall i | 0 <= i < |rest| - 1
        ensures RecoverPass(rest[i], rest[i + 1])
      {
        assert RecoverPass(stores[i + 1], stores[i + 2]);
      }
      PassesConverge(rest, final);
      PassIsAbsorbed(stores[0], rest[0], final);
    }
  }

  /**
   * After the first complete pass, whatever broken passes came before it: every slot whose
   * debit is in the journal is cancelled and its rows, the debit and exactly one restart
   * refund, net to zero; every other slot is gone and no row names it; and no debit is
   * without its bet.
   */
  lemma RecoverySettles(cfg: Config, opening: map<WalletId, nat>, stores: seq<Store>, final: Store, id: BetId)
    requires |stores| > 0 && CompletePass(stores[|stores| - 1], final)
    requires forall i :: 0 <= i < |stores| - 1 ==> RecoverPass(stores[i], stores[i + 1])
    requires Sound(cfg, opening, Masked(final)) && IsSlot(stores[0], id)
    ensures var st := stores[0];
      if WasDebited(st, id) then
        HasStatus(final, id, Cancelled) && Has(final.book, RestartKey(id)) && NetOf(final.book.rows, id, All) == 0
      else id !in final.bets && forall i :: 0 <= i < |final.book.rows| ==> final.book.rows[i].ref != Some(id)
  {
    PassesConverge(stores, final);
    assert SlotDone(stores[0], final, id);
    if WasDebited(stores[0], id) {
      RestartedNetsToZero(cfg, opening, Masked(final), id);
    } else {
      NoRowNames(cfg, opening, Masked(final), id);
    }
  }

  lemma RestartedNetsToZero(cfg: Config, opening: map<WalletId, nat>, st: Store, id: BetId)
    requires Sound(cfg, opening, st) && id in st.bets && Has(st.book, RestartKey(id))
    ensures NetOf(st.book.rows, id, All) == 0
  {
    NetOfBet(opening, cfg, st, id);
    SixAmounts(st.book.rows, id, st.bets[id].slot);
    AmountsOfBet(cfg, st, id);
    OneOutcomeHolds(cfg, st, id);
  }

  lemma NoRowNames(cfg: Config, opening: map<WalletId, nat>, st: Store, id: BetId)
    requires Sound(cfg, opening, st) && id !in st.bets
    ensures forall i :: 0 <= i < |st.book.rows| ==> st.book.rows[i].ref != Some(id)
  {
    forall i | 0 <= i < |st.book.rows|
      ensures st.book.rows[i].ref != Some(id)
    {
      RowIsFound(st.book.rows, i);
      assert RowOk(st, st.book.rows[i].key, st.book.rows[i]);
    }
  }
}
