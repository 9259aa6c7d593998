/** The reference operator: idempotent on transaction ids, with exact rollback. */
module OperatorStub {
  import opened Domain
  import opened Outbox

  type Account = nat

  datatype OpResult = OpResult(id: nat, balance: int)

  datatype Operator = Operator(
    start: nat, balances: map<Account, int>, applied: map<TxId, OpResult>, deltas: map<TxId, int>, opSeq: nat)

  function BalanceOf(op: Operator, acct: Account): int {
    if acct in op.balances then op.balances[acct] else op.start
  }

  /** Apply a signed delta once; a replay returns the stored result unchanged. */
  function Apply(op: Operator, tx: TxId, acct: Account, delta: int): (Operator, Option<OpResult>) {
    if tx in op.applied then (op, Some(op.applied[tx]))
    else
      var after := BalanceOf(op, acct) + delta;
      if after < 0 then (op, None)
      else
        var res := OpResult(op.opSeq + 1, after);
        (Operator(op.start, op.balances[acct := after], op.applied[tx := res], op.deltas[tx := delta], op.opSeq + 1),
          Some(res))
  }

  /** Undo the named transaction if it is applied. */
  function Rollback(op: Operator, tx: TxId, acct: Account): Operator {
    if tx in op.deltas && tx in op.applied then
      Operator(op.start, op.balances[acct := BalanceOf(op, acct) - op.deltas[tx]], op.applied - {tx},
        op.deltas - {tx}, op.opSeq + 1)
    else op.(opSeq := op.opSeq + 1)
  }

  ghost predicate Consistent(op: Operator) {
    op.applied.Keys == op.deltas.Keys
  }

  /** Nothing but the account and the transaction named is touched. */
  ghost predicate SameMoney(a: Operator, b: Operator) {
    && (forall acct :: BalanceOf(a, acct) == BalanceOf(b, acct))
    && a.applied == b.applied && a.deltas == b.deltas
  }

  /** A new transaction is refused exactly when the balance does not cover it; else it changes
      its account by its delta, no other account, and its result is the new balance. */
  lemma ApplyOutcome(op: Operator, tx: TxId, acct: Account, delta: int)
    requires tx !in op.applied
    ensures var (op', res) := Apply(op, tx, acct, delta);
      && (res.Some? <==> BalanceOf(op, acct) + delta >= 0) && (res.None? ==> op' == op)
      && (res.Some? ==>
            && res.value.balance == BalanceOf(op', acct) == BalanceOf(op, acct) + delta
            && (forall other :: other != acct ==> BalanceOf(op', other) == BalanceOf(op, other))
            && op'.applied == op.applied[tx := res.value] && op'.deltas == op.deltas[tx := delta])
  {
  }

  /** A rollback of an applied transaction takes back its delta, whatever came after it; of any
      other transaction it takes back nothing. */
  lemma RollbackOutcome(op: Operator, tx: TxId, acct: Account)
    requires Consistent(op)
    ensures var op' := Rollback(op, tx, acct);
      && Consistent(op') && tx !in op'.applied && op'.applied == op.applied - {tx}
      && BalanceOf(op', acct) == BalanceOf(op, acct) - (if tx in op.applied then op.deltas[tx] else 0)
      && forall other :: other != acct ==> BalanceOf(op', other) == BalanceOf(op, other)
  {
    assert tx !in op.applied ==> op.applied - {tx} == op.applied;
  }

  lemma ApplyIsIdempotent(op: Operator, tx: TxId, acct: Account, delta: int)
    requires Apply(op, tx, acct, delta).1.Some?
    ensures Apply(Apply(op, tx, acct, delta).0, tx, acct, delta) == Apply(op, tx, acct, delta)
  {
    assert tx in Apply(op, tx, acct, delta).0.applied;
  }

  /** A rollback takes back exactly what its transaction did, and a second one nothing more. */
  lemma RollbackUndoes(op: Operator, tx: TxId, acct: Account, delta: int)
    requires Consistent(op) && tx !in op.applied
    ensures SameMoney(Rollback(Apply(op, tx, acct, delta).0, tx, acct), op)
    ensures SameMoney(Rollback(Rollback(Apply(op, tx, acct, delta).0, tx, acct), tx, acct), op)
    ensures Consistent(Apply(op, tx, acct, delta).0) && Consistent(Rollback(Apply(op, tx, acct, delta).0, tx, acct))
  {
    var (op', res) := Apply(op, tx, acct, delta);
    if res.Some? {
      assert op'.applied - {tx} == op.applied && op'.deltas - {tx} == op.deltas;
    }
  }

  // ----- conservation -----

  ghost function SumDeltas(deltas: map<TxId, int>, owner: TxId -> Account, acct: Account): int {
    if deltas == map[] then 0
    else
      var tx :| tx in deltas;
      (if owner(tx) == acct then deltas[tx] else 0) + SumDeltas(deltas - {tx}, owner, acct)
  }

  lemma {:induction false} SumRemove(deltas: map<TxId, int>, owner: TxId -> Account, acct: Account, tx: TxId)
    requires tx in deltas
    ensures SumDeltas(deltas, owner, acct) ==
      (if owner(tx) == acct then deltas[tx] else 0) + SumDeltas(deltas - {tx}, owner, acct)
    decreases |deltas|
  {
    var first :| first in deltas
      && SumDeltas(deltas, owner, acct) ==
           (if owner(first) == acct then deltas[first] else 0) + SumDeltas(deltas - {first}, owner, acct);
    if first != tx {
      SumRemove(deltas - {first}, owner, acct, tx);
      SumRemove(deltas - {tx}, owner, acct, first);
      assert deltas - {first} - {tx} == deltas - {tx} - {first};
    }
  }

  /** Every balance is the starting balance plus the deltas of its applied transactions. */
  ghost predicate Conserved(op: Operator, owner: TxId -> Account) {
    && Consistent(op)
    && forall acct :: BalanceOf(op, acct) == op.start + SumDeltas(op.deltas, owner, acct)
  }

  /** Any bets, wins and rollbacks, each naming the account its transaction belongs to, keep
      the operator's book balanced. */
  lemma OperatorConserves(op: Operator, owner: TxId -> Account, tx: TxId, delta: int)
    requires Conserved(op, owner)
    ensures Conserved(Apply(op, tx, owner(tx), delta).0, owner)
    ensures Conserved(Rollback(op, tx, owner(tx)), owner)
  {
    var applied := Apply(op, tx, owner(tx), delta).0;
    var undone := Rollback(op, tx, owner(tx));
    forall acct
      ensures BalanceOf(applied, acct) == op.start + SumDeltas(applied.deltas, owner, acct)
      ensures BalanceOf(undone, acct) == op.start + SumDeltas(undone.deltas, owner, acct)
    {
      if tx in op.deltas {
        SumRemove(op.deltas, owner, acct, tx);
      } else if tx in applied.deltas {
        SumRemove(applied.deltas, owner, acct, tx);
        assert applied.deltas - {tx} == op.deltas;
      }
    }
  }

  /** What the operator's book holds per bet. */
  datatype BookEntry = BookEntry(bet: int, win: int, rollback: int)

  class StubServer {
    var op: Operator
    var book: map<BetId, BookEntry>

    constructor (start: nat)
      ensures op == Operator(start, map[], map[], map[], 0) && book == map[]
    {
      op := Operator(start, map[], map[], map[], 0);
      book := map[];
    }

    function Entry(bet: BetId): BookEntry
      reads this
    {
      if bet in book then book[bet] else BookEntry(0, 0, 0)
    }

    /** A stake; the book counts it on its first application only. */
    method Bet(tx: TxId, acct: Account, amount: nat, bet: BetId) returns (res: Option<OpResult>)
      modifies this
      ensures (op, res) == Apply(old(op), tx, acct, 0 - amount)
      ensures old(op).applied != op.applied ==>
        book == old(book)[bet := old(Entry(bet)).(bet := old(Entry(bet)).bet + amount)]
      ensures old(op).applied == op.applied ==> book == old(book)
    {
      var isNew := tx !in op.applied;
      var (op', r) := Apply(op, tx, acct, 0 - amount);
      op, res := op', r;
      if res.Some? && isNew {
        book := book[bet := Entry(bet).(bet := Entry(bet).bet + amount)];
      }
    }

    method Win(tx: TxId, acct: Account, amount: nat, bet: BetId) returns (res: Option<OpResult>)
      modifies this
      ensures (op, res) == Apply(old(op), tx, acct, amount)
      ensures old(op).applied != op.applied ==>
        book == old(book)[bet := old(Entry(bet)).(win := old(Entry(bet)).win + amount)]
      ensures old(op).applied == op.applied ==> book == old(book)
    {
      var isNew := tx !in op.applied;
      var (op', r) := Apply(op, tx, acct, amount);
      op, res := op', r;
      if res.Some? && isNew {
        book := book[bet := Entry(bet).(win := Entry(bet).win + amount)];
      }
    }

    method UndoTx(tx: TxId, acct: Account, bet: BetId)
      modifies this
      ensures op == Rollback(old(op), tx, acct)
      ensures book == if tx in old(op).deltas && tx in old(op).applied && bet in old(book)
        then old(book)[bet := old(book)[bet].(rollback := old(book)[bet].rollback - old(op).deltas[tx])] else old(book)
    {
      if tx in op.deltas && tx in op.applied && bet in book {
        book := book[bet := book[bet].(rollback := book[bet].rollback - op.deltas[tx])];
      }
      op := Rollback(op, tx, acct);
    }
  }
}
