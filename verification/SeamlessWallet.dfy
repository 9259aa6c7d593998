/** The operator wallet: retries, compensation of ambiguous debits, and payouts that are never taken back. */
module SeamlessWallet {
  import opened Domain
  import opened Outbox
  import opened OperatorStub

  datatype Kind = Stake | Win

  /** What happens to one request: it is answered, it times out, or it fails; in the last two
      cases the operator may or may not have applied it. Nothing is applied afterwards. */
  datatype Fate = Delivered | TimedOut(applied: bool) | Failed(applied: bool)

  /** The fate of each attempt of a move, counted from one. */
  type Script = nat -> Fate

  datatype Heard = Answer(balance: int) | InsufficientFunds | Timeout | Failure

  datatype MoveError = InsufficientBalance | WalletUnavailable | WalletError | PayoutPending | NoAttempt

  /** How a move ends; an ambiguous debit names the reason for which it must be undone. */
  datatype Ending = Accepted(balance: int) | Threw(error: MoveError, undo: Option<Reason>)

  function Signed(kind: Kind, amount: nat): int {
    if kind.Stake? then 0 - amount else amount
  }

  // ----- one request -----

  function Request(op: Operator, kind: Kind, tx: TxId, acct: Account, amount: nat, fate: Fate): (Operator, Heard) {
    var (op', res) := Apply(op, tx, acct, Signed(kind, amount));
    match fate
    case Delivered => (op', if res.Some? then Answer(res.value.balance) else InsufficientFunds)
    case TimedOut(applied) => (if applied then op' else op, Timeout)
    case Failed(applied) => (if applied then op' else op, Failure)
  }

  // ----- the retry loop -----

  /** What follows a request that brought no answer: retry, or end. */
  function Policy(kind: Kind, heard: Heard, attempt: nat, max: nat): Option<Ending> {
    match heard
    case Answer(balance) => Some(Accepted(balance))
    case _ =>
      if kind.Win? then (if attempt >= max then Some(Threw(MoveError.PayoutPending, None)) else None)
      else if heard.InsufficientFunds? then Some(Threw(InsufficientBalance, None))
      else if heard.Timeout? then Some(Threw(WalletUnavailable, Some(AmbiguousDebit)))
      else if attempt >= max then Some(Threw(WalletError, Some(TransientDebit)))
      else None
  }

  function Attempts(
      op: Operator, kind: Kind, tx: TxId, acct: Account, amount: nat, script: Script, attempt: nat, max: nat)
    : (Operator, Ending)
    decreases max + 1 - attempt
  {
    if attempt > max then (op, Threw(NoAttempt, None))
    else
      var (op', heard) := Request(op, kind, tx, acct, amount, script(attempt));
      var ended := Policy(kind, heard, attempt, max);
      if ended.Some? then (op', ended.value) else Attempts(op', kind, tx, acct, amount, script, attempt + 1, max)
  }

  /** A move either did nothing at the operator, or applied its delta exactly once. */
  ghost predicate AtMostOnce(before: Operator, after: Operator, tx: TxId, acct: Account, delta: int) {
    after == before || (after == Apply(before, tx, acct, delta).0 && tx in after.applied)
  }

  lemma {:induction false} AttemptsApplyOnce(
      first: Operator, op: Operator, kind: Kind, tx: TxId, acct: Account, amount: nat, script: Script, attempt: nat,
      max: nat)
    requires AtMostOnce(first, op, tx, acct, Signed(kind, amount))
    ensures var (op', ended) := Attempts(op, kind, tx, acct, amount, script, attempt, max);
      && AtMostOnce(first, op', tx, acct, Signed(kind, amount))
      && (ended.Accepted? ==> tx in op'.applied && op'.applied[tx].balance == ended.balance)
      && (ended.Threw? && ended.error.InsufficientBalance? ==> tx !in op'.applied)
      && (ended.Threw? && kind.Win? ==> ended.undo.None? && (attempt <= max ==> ended.error == MoveError.PayoutPending))
      && (ended.Threw? && ended.undo.None? && kind.Stake? ==>
            ended.error.InsufficientBalance? || (attempt > max && op' == op))
      && (ended.Threw? && ended.undo.Some? ==>
            !ended.error.InsufficientBalance? && (ended.undo.value.AmbiguousDebit? || ended.undo.value.TransientDebit?))
    decreases max + 1 - attempt
  {
    if attempt <= max {
      var (op', heard) := Request(op, kind, tx, acct, amount, script(attempt));
      if Policy(kind, heard, attempt, max).None? {
        AttemptsApplyOnce(first, op', kind, tx, acct, amount, script, attempt + 1, max);
      }
    }
  }

  // ----- how a move ends, by its script -----

  /** The operator would apply the move now, or has applied it before. */
  predicate Accepts(op: Operator, tx: TxId, acct: Account, delta: int) {
    tx in op.applied || BalanceOf(op, acct) + delta >= 0
  }

  /** The attempts from `first` on and before `k` all fail. */
  ghost predicate OnlyFailed(script: Script, first: nat, k: nat) {
    forall i :: first <= i < k ==> script(i).Failed?
  }

  /** Attempt `k` is the first of those from `first` on that does not fail. */
  ghost predicate Tells(script: Script, first: nat, k: nat, max: nat) {
    first <= k <= max && OnlyFailed(script, first, k) && !script(k).Failed?
  }

  /**
   * How a debit of at most `max` attempts, the first of them `first`, ends: it is retried
   * while it fails, and decided by the first attempt that does not. An answer accepts it if
   * the operator covers the stake or has applied it by then, and a time-out ends it at once.
   */
  ghost predicate DebitEnds(
      op: Operator, tx: TxId, acct: Account, amount: nat, script: Script, first: nat, max: nat, ended: Ending)
  {
    var accepts := Accepts(op, tx, acct, 0 - amount);
    && (ended.Accepted? <==> accepts && exists k :: Tells(script, first, k, max) && script(k).Delivered?)
    && (ended == Threw(InsufficientBalance, None) <==>
          !accepts && exists k :: Tells(script, first, k, max) && script(k).Delivered?)
    && (ended == Threw(WalletUnavailable, Some(AmbiguousDebit)) <==>
          exists k :: Tells(script, first, k, max) && script(k).TimedOut?)
    && (ended == Threw(WalletError, Some(TransientDebit)) <==> first <= max && OnlyFailed(script, first, max + 1))
    && (ended == Threw(NoAttempt, None) <==> max < first)
  }

  /** A failed attempt changes nothing about whether the operator accepts the move. */
  lemma FailureKeepsAccepts(op: Operator, kind: Kind, tx: TxId, acct: Account, amount: nat, fate: Fate)
    ensures var op' := Request(op, kind, tx, acct, amount, fate).0;
      Accepts(op', tx, acct, Signed(kind, amount)) <==> Accepts(op, tx, acct, Signed(kind, amount))
    ensures var heard := Request(op, kind, tx, acct, amount, fate).1;
      heard.Answer? <==> fate.Delivered? && Accepts(op, tx, acct, Signed(kind, amount))
  {
  }

  lemma {:induction false} DebitEndsSo(
      op: Operator, tx: TxId, acct: Account, amount: nat, script: Script, first: nat, max: nat)
    ensures DebitEnds(op, tx, acct, amount, script, first, max,
              Attempts(op, Stake, tx, acct, amount, script, first, max).1)
    decreases max + 1 - first
  {
    if first <= max {
      var op' := Request(op, Stake, tx, acct, amount, script(first)).0;
      FailureKeepsAccepts(op, Stake, tx, acct, amount, script(first));
      if !script(first).Failed? {
        assert Tells(script, first, first, max);
        assert forall k :: Tells(script, first, k, max) ==> k == first;
      } else if first < max {
        DebitEndsSo(op', tx, acct, amount, script, first + 1, max);
        TellsLater(script, first, max);
        assert Attempts(op, Stake, tx, acct, amount, script, first, max) ==
          Attempts(op', Stake, tx, acct, amount, script, first + 1, max);
      }
    }
  }

  lemma TellsLater(script: Script, first: nat, max: nat)
    requires script(first).Failed?
    ensures forall k :: Tells(script, first, k, max) <==> Tells(script, first + 1, k, max)
    ensures forall k :: k > first ==> (OnlyFailed(script, first, k) <==> OnlyFailed(script, first + 1, k))
  {
    forall k | k > first
      ensures OnlyFailed(script, first, k) <==> OnlyFailed(script, first + 1, k)
    {
      assert OnlyFailed(script, first + 1, k) ==> forall i :: first <= i < k ==> i == first || script(i).Failed?;
    }
  }

  /** A payout is retried whatever it hears, until it is answered or the attempts are used up. */
  ghost predicate CreditEnds(
      op: Operator, tx: TxId, acct: Account, amount: nat, script: Script, first: nat, max: nat, ended: Ending)
  {
    var answered := Accepts(op, tx, acct, amount) && exists k :: first <= k <= max && script(k).Delivered?;
    && (ended.Accepted? <==> answered)
    && (ended == Threw(MoveError.PayoutPending, None) <==> first <= max && !answered)
    && (ended == Threw(NoAttempt, None) <==> max < first)
  }

  lemma {:induction false} CreditEndsSo(
      op: Operator, tx: TxId, acct: Account, amount: nat, script: Script, first: nat, max: nat)
    ensures CreditEnds(op, tx, acct, amount, script, first, max,
              Attempts(op, Win, tx, acct, amount, script, first, max).1)
    decreases max + 1 - first
  {
    if first <= max {
      var (op', heard) := Request(op, Win, tx, acct, amount, script(first));
      FailureKeepsAccepts(op, Win, tx, acct, amount, script(first));
      if !heard.Answer? && first < max {
        CreditEndsSo(op', tx, acct, amount, script, first + 1, max);
      }
    }
  }

  // ----- the rollback choke point -----

  /** How a rollback ends: it was not ours to emit, the operator accepted it, or the emit failed. */
  datatype Emitted = Skipped | Undone | EmitFailed

  /** Somebody else has undone it, or is undoing it now. */
  predicate Taken(row: Row, now: Time) {
    row.status.Confirmed? || HasLiveLease(row, now)
  }

  /** A rollback on this transaction is recorded and not confirmed. */
  ghost predicate Owed(rows: Rows, operator: OperatorId, tx: TxId) {
    exists ref :: ref in rows && ref.operator == operator && rows[ref].tx == tx && !rows[ref].status.Confirmed?
  }

  class SeamlessOperatorWallet {
    const operatorId: OperatorId
    const acct: Account
    const maxRetries: nat
    const operator: StubServer
    const store: WalletRollbackService

    constructor (
        operatorId: OperatorId, acct: Account, maxRetries: nat, operator: StubServer, store: WalletRollbackService)
      ensures this.operatorId == operatorId && this.acct == acct && this.maxRetries == maxRetries
      ensures this.operator == operator && this.store == store
    {
      this.operatorId := operatorId;
      this.acct := acct;
      this.maxRetries := maxRetries;
      this.operator := operator;
      this.store := store;
    }

    method Send(kind: Kind, tx: TxId, amount: nat, bet: BetId, fate: Fate) returns (heard: Heard)
      modifies operator
      ensures (operator.op, heard) == Request(old(operator.op), kind, tx, acct, amount, fate)
    {
      var res: Option<OpResult> := None;
      if fate.Delivered? || fate.applied {
        if kind.Stake? {
          res := operator.Bet(tx, acct, amount, bet);
        } else {
          res := operator.Win(tx, acct, amount, bet);
        }
      }
      match fate {
        case Delivered => heard := if res.Some? then Answer(res.value.balance) else InsufficientFunds;
        case TimedOut(_) => heard := Timeout;
        case Failed(_) => heard := Failure;
      }
    }

    /** The retry loop of a debit or credit, without its compensation. */
    method Attempt(kind: Kind, tx: TxId, amount: nat, bet: BetId, script: Script) returns (ended: Ending)
      modifies operator
      ensures (operator.op, ended) == Attempts(old(operator.op), kind, tx, acct, amount, script, 1, maxRetries)
      ensures if kind.Stake? then DebitEnds(old(operator.op), tx, acct, amount, script, 1, maxRetries, ended)
        else CreditEnds(old(operator.op), tx, acct, amount, script, 1, maxRetries, ended)
    {
      DebitEndsSo(operator.op, tx, acct, amount, script, 1, maxRetries);
      CreditEndsSo(operator.op, tx, acct, amount, script, 1, maxRetries);
      var attempt := 1;
      while attempt <= maxRetries
        invariant 1 <= attempt <= maxRetries + 1
        invariant Attempts(operator.op, kind, tx, acct, amount, script, attempt, maxRetries)
               == Attempts(old(operator.op), kind, tx, acct, amount, script, 1, maxRetries)
      {
        var heard := Send(kind, tx, amount, bet, script(attempt));
        var next := Policy(kind, heard, attempt, maxRetries);
        if next.Some? {
          return next.value;
        }
        attempt := attempt + 1;
      }
      ended := Threw(NoAttempt, None);
    }

    /** Every rollback goes through here: at most one emitter, and a failed emit stays owed. */
    method RollbackOnce(tx: TxId, bet: BetId, reason: Reason, fate: Fate) returns (r: Emitted)
      requires RefOf(Claim(operatorId, tx, reason, Some(bet))) in store.rows ==>
        store.rows[RefOf(Claim(operatorId, tx, reason, Some(bet)))].tx == tx
      modifies operator, store`rows
      ensures var ref := RefOf(Claim(operatorId, tx, reason, Some(bet)));
        && ref in store.rows && store.rows[ref].tx == tx && store.rows - {ref} == old(store.rows) - {ref}
        && (r.Skipped? ==> operator.op == old(operator.op))
        && (r.Skipped? <==> (ref in old(store.rows) && Taken(old(store.rows)[ref], store.now)))
        && (r.Skipped? ==> store.rows[ref].status == old(store.rows)[ref].status)
        && (!r.Skipped? ==> (r.Undone? <==> fate.Delivered?))
        && (r.Undone? ==> operator.op == Rollback(old(operator.op), tx, acct) && store.rows[ref].status.Confirmed?)
        && (r.EmitFailed? ==> store.rows[ref].status.Pending?)
        && (r.EmitFailed? ==> operator.op == old(operator.op) || operator.op == Rollback(old(operator.op), tx, acct))
    {
      var claim := Claim(operatorId, tx, reason, Some(bet));
      var claimed := store.ClaimRollback(claim);
      if !claimed.Acquired? {
        return Skipped;
      }
      if fate.Delivered? || fate.applied {
        operator.UndoTx(tx, acct, bet);
      }
      if fate.Delivered? {
        store.Confirm(RefOf(claim));
        r := Undone;
      } else {
        store.RecordEmitFailure(RefOf(claim));
        r := EmitFailed;
      }
    }

    /** No rollback of this bet's debit has been confirmed, and what is recorded is about this transaction. */
    ghost predicate UndoReady(tx: TxId, bet: BetId, reason: Reason)
      reads store
    {
      var ref := RefOf(Claim(operatorId, tx, reason, Some(bet)));
      ref in store.rows ==> store.rows[ref].tx == tx && !store.rows[ref].status.Confirmed?
    }

    /** Nobody else is undoing it at the moment. */
    ghost predicate FreeToUndo(tx: TxId, bet: BetId, reason: Reason)
      reads store
    {
      var ref := RefOf(Claim(operatorId, tx, reason, Some(bet)));
      ref in store.rows ==> !HasLiveLease(store.rows[ref], store.now)
    }

    /**
     * A debit is all or nothing: it returns with the stake applied exactly once and the outbox
     * untouched, or it throws with the operator's money as it was, or with a rollback of the
     * transaction owed. An insufficient balance is reported only when nothing was applied.
     */
    method Debit(tx: TxId, amount: nat, bet: BetId, script: Script, undo: Fate) returns (ended: Ending)
      requires Consistent(operator.op) && tx !in operator.op.applied
      requires UndoReady(tx, bet, AmbiguousDebit) && UndoReady(tx, bet, TransientDebit)
      modifies operator, store`rows
      ensures ended.Accepted? ==>
        && operator.op == Apply(old(operator.op), tx, acct, 0 - amount).0 && tx in operator.op.applied
        && ended.balance == operator.op.applied[tx].balance && store.rows == old(store.rows)
      ensures ended.Threw? ==> SameMoney(operator.op, old(operator.op)) || Owed(store.rows, operatorId, tx)
      ensures ended.Threw? && undo.Delivered? ==>
        old(FreeToUndo(tx, bet, AmbiguousDebit) && FreeToUndo(tx, bet, TransientDebit)) ==>
        SameMoney(operator.op, old(operator.op))
      ensures ended.Threw? && ended.error.InsufficientBalance? ==>
        operator.op == old(operator.op) && store.rows == old(store.rows)
      ensures DebitEnds(old(operator.op), tx, acct, amount, script, 1, maxRetries, ended)
      ensures ended.Threw? && ended.undo.None? ==> store.rows == old(store.rows)
      ensures ended.Threw? && ended.undo.Some? ==>
        var ref := RefOf(Claim(operatorId, tx, ended.undo.value, Some(bet)));
        ref in store.rows && store.rows[ref].tx == tx && store.rows - {ref} == old(store.rows) - {ref}
    {
      ghost var before := operator.op;
      AttemptsApplyOnce(before, before, Stake, tx, acct, amount, script, 1, maxRetries);
      ended := Attempt(Stake, tx, amount, bet, script);
      if ended.Threw? && ended.undo.Some? {
        Compensate(before, tx, amount, bet, ended.undo.value, undo);
      }
    }

    /** Undo an ambiguous debit; the failure is swallowed, but a rollback that did not succeed stays owed. */
    method Compensate(ghost before: Operator, tx: TxId, amount: nat, bet: BetId, reason: Reason, undo: Fate)
      requires Consistent(before) && tx !in before.applied && AtMostOnce(before, operator.op, tx, acct, 0 - amount)
      requires UndoReady(tx, bet, reason)
      modifies operator, store`rows
      ensures SameMoney(operator.op, before) || Owed(store.rows, operatorId, tx)
      ensures var ref := RefOf(Claim(operatorId, tx, reason, Some(bet)));
        ref in store.rows && store.rows[ref].tx == tx && store.rows - {ref} == old(store.rows) - {ref}
      ensures undo.Delivered? && old(FreeToUndo(tx, bet, reason)) ==> SameMoney(operator.op, before)
    {
      RollbackUndoes(before, tx, acct, 0 - amount);
      UndoNothing(before, tx, acct);
      var r := RollbackOnce(tx, bet, reason, undo);
      assert !r.Undone? ==> store.rows[RefOf(Claim(operatorId, tx, reason, Some(bet)))].tx == tx;
    }

    /** A payout is applied at most once, and is never rolled back: the outbox is not even read. */
    method Credit(tx: TxId, amount: nat, bet: BetId, script: Script) returns (ended: Ending)
      modifies operator
      ensures AtMostOnce(old(operator.op), operator.op, tx, acct, amount)
      ensures ended.Accepted? ==> tx in operator.op.applied && ended.balance == operator.op.applied[tx].balance
      ensures ended.Threw? && maxRetries > 0 ==> ended == Threw(MoveError.PayoutPending, None)
      ensures CreditEnds(old(operator.op), tx, acct, amount, script, 1, maxRetries, ended)
      ensures (operator.op, ended) == Attempts(old(operator.op), Win, tx, acct, amount, script, 1, maxRetries)
    {
      AttemptsApplyOnce(operator.op, operator.op, Win, tx, acct, amount, script, 1, maxRetries);
      ended := Attempt(Win, tx, amount, bet, script);
    }

    /** Undo a settled move. A failed emit is reported to the caller, who aborts, and stays owed;
        a reversal that is confirmed already is not emitted again, and nothing changes. */
    method Reverse(tx: TxId, bet: BetId, reason: Reason, fate: Fate) returns (ok: bool)
      requires Consistent(operator.op)
      requires var ref := RefOf(Claim(operatorId, tx, reason, Some(bet))); ref in store.rows ==>
        store.rows[ref].tx == tx
      modifies operator, store`rows
      ensures var ref := RefOf(Claim(operatorId, tx, reason, Some(bet)));
        if ref in old(store.rows) && old(store.rows)[ref].status.Confirmed? then
          ok && operator.op == old(operator.op) && ref in store.rows && store.rows[ref].status.Confirmed?
        else
          (Owed(store.rows, operatorId, tx) || (ok && tx !in operator.op.applied))
            && (!ok ==> Owed(store.rows, operatorId, tx))
      ensures var ref := RefOf(Claim(operatorId, tx, reason, Some(bet)));
        ok <==> fate.Delivered? || (ref in old(store.rows) && Taken(old(store.rows)[ref], store.now))
      ensures var ref := RefOf(Claim(operatorId, tx, reason, Some(bet)));
        fate.Delivered? && (ref in old(store.rows) ==> !Taken(old(store.rows)[ref], store.now)) ==>
          operator.op == Rollback(old(operator.op), tx, acct) && ref in store.rows && store.rows[ref].status.Confirmed?
    {
      var r := RollbackOnce(tx, bet, reason, fate);
      ok := !r.EmitFailed?;
      assert !r.Undone? ==> store.rows[RefOf(Claim(operatorId, tx, reason, Some(bet)))].tx == tx;
    }
  }

  lemma UndoNothing(op: Operator, tx: TxId, acct: Account)
    requires tx !in op.applied
    ensures SameMoney(Rollback(op, tx, acct), op)
  {
  }

  // ----- payouts over retries and reconciles -----

  /** A payout issued again and again, by retries and by every later reconcile. */
  function Credits(op: Operator, tx: TxId, acct: Account, amount: nat, scripts: seq<Script>, max: nat): Operator {
    if scripts == [] then op
    else Attempts(Credits(op, tx, acct, amount, scripts[..|scripts| - 1], max), Win, tx, acct, amount,
      scripts[|scripts| - 1], 1, max).0
  }

  /** However often and with whatever answers a payout is issued, the account gains it at most
      once, and exactly once if any issue was accepted; no other account changes. */
  lemma {:induction false} PaidAtMostOnce(
      op: Operator, tx: TxId, acct: Account, amount: nat, scripts: seq<Script>, max: nat)
    requires tx !in op.applied
    ensures var op' := Credits(op, tx, acct, amount, scripts, max);
      && AtMostOnce(op, op', tx, acct, amount)
      && BalanceOf(op', acct) == BalanceOf(op, acct) + (if tx in op'.applied then amount else 0)
      && (forall other :: other != acct ==> BalanceOf(op', other) == BalanceOf(op, other))
    ensures forall i :: 0 <= i < |scripts| ==>
      var before := Credits(op, tx, acct, amount, scripts[..i], max);
      Attempts(before, Win, tx, acct, amount, scripts[i], 1, max).1.Accepted? ==>
        tx in Credits(op, tx, acct, amount, scripts, max).applied
  {
    if scripts != [] {
      var init, last := scripts[..|scripts| - 1], scripts[|scripts| - 1];
      PaidAtMostOnce(op, tx, acct, amount, init, max);
      AttemptsApplyOnce(op, Credits(op, tx, acct, amount, init, max), Win, tx, acct, amount, last, 1, max);
      PaidStaysPaid(Credits(op, tx, acct, amount, init, max), tx, acct, amount, last, 1, max);
      forall i | 0 <= i < |scripts|
        ensures var before := Credits(op, tx, acct, amount, scripts[..i], max);
          Attempts(before, Win, tx, acct, amount, scripts[i], 1, max).1.Accepted? ==>
            tx in Credits(op, tx, acct, amount, scripts, max).applied
      {
        if i < |init| {
          assert scripts[..i] == init[..i] && scripts[i] == init[i];
        }
      }
    }
  }

  lemma {:induction false} PaidStaysPaid(
      op: Operator, tx: TxId, acct: Account, amount: nat, script: Script, attempt: nat, max: nat)
    ensures tx in op.applied ==> tx in Attempts(op, Win, tx, acct, amount, script, attempt, max).0.applied
    decreases max + 1 - attempt
  {
    if attempt <= max {
      var (op', heard) := Request(op, Win, tx, acct, amount, script(attempt));
      if Policy(Win, heard, attempt, max).None? {
        PaidStaysPaid(op', tx, acct, amount, script, attempt + 1, max);
      }
    }
  }
}
