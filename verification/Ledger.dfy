/** The append-only ledger with atomic, idempotent balance changes. */
module Ledger {
  import opened Domain

  datatype Kind = BetDebit | PayoutCredit | Refund | Adjustment

  datatype Row = Row(
    wallet: WalletId, kind: Kind, amount: int, balanceAfter: int, key: Key, ref: Option<BetId>)

  datatype Book = Book(balances: map<WalletId, int>, rows: seq<Row>)

  datatype LedgerError = AmountMustBePositive | AmountMustNotBeNegative | InsufficientBalance | NoSuchWallet

  /** `Unchanged` is the null a reset returns when the wallet is already at its target. */
  datatype Reply = Applied(row: Row) | Unchanged | Failed(error: LedgerError)

  /** One money move, as issued by a caller. */
  datatype Op =
    | Move(wallet: WalletId, amount: int, kind: Kind, key: Key, ref: Option<BetId>)
    | Reset(wallet: WalletId, target: nat, key: Key)

  // ----- lookups and sums over the journal -----

  function Find(rows: seq<Row>, k: Key): (r: Option<Row>)
    ensures r.Some? ==> r.value in rows && r.value.key == k
    ensures r.None? ==> forall i :: 0 <= i < |rows| ==> rows[i].key != k
  {
    if rows == [] then None
    else if rows[|rows| - 1].key == k then Some(rows[|rows| - 1])
    else Find(rows[..|rows| - 1], k)
  }

  predicate Has(book: Book, k: Key) {
    Find(book.rows, k).Some?
  }

  lemma FindAppend(rows: seq<Row>, row: Row)
    ensures forall k :: Find(rows + [row], k) == if k == row.key then Some(row) else Find(rows, k)
  {
    assert (rows + [row])[..|rows|] == rows;
  }

  function WalletSum(rows: seq<Row>, w: WalletId): int {
    if rows == [] then 0
    else WalletSum(rows[..|rows| - 1], w) + (if rows[|rows| - 1].wallet == w then rows[|rows| - 1].amount else 0)
  }

  lemma WalletSumAppend(rows: seq<Row>, row: Row)
    ensures forall w :: WalletSum(rows + [row], w) == WalletSum(rows, w) + (if row.wallet == w then row.amount else 0)
  {
    assert (rows + [row])[..|rows|] == rows;
  }

  // ----- the atomic specification of a move -----

  /** The signed change an operation makes to its wallet, given the balance it finds. */
  function Delta(op: Op, balance: int): int {
    match op
    case Move(_, amount, _, _, _) => amount
    case Reset(_, target, _) => target - balance
  }

  function RowFor(op: Op, balance: int): Row {
    match op
    case Move(w, amount, kind, key, ref) => Row(w, kind, amount, balance + amount, key, ref)
    case Reset(w, target, key) => Row(w, Adjustment, target - balance, target, key, None)
  }

  /** What the locked transaction answers when the key is new and the wallet holds `balance`. */
  function Decide(op: Op, balance: int): Reply {
    if op.Reset? && op.target == balance then Unchanged
    else if balance + Delta(op, balance) < 0 then Failed(InsufficientBalance)
    else Applied(RowFor(op, balance))
  }

  function Post(book: Book, op: Op): (Book, Reply) {
    if Has(book, op.key) then (book, Applied(Find(book.rows, op.key).value))
    else if op.wallet !in book.balances then (book, Failed(NoSuchWallet))
    else
      var balance := book.balances[op.wallet];
      var reply := Decide(op, balance);
      if reply.Applied? then
        (Book(book.balances[op.wallet := reply.row.balanceAfter], book.rows + [reply.row]), reply)
      else (book, reply)
  }

  /** Debits and credits refuse an empty amount before they touch the journal. */
  function Issue(book: Book, op: Op): (Book, Reply) {
    if op.Move? && op.amount == 0 then (book, Failed(AmountMustBePositive)) else Post(book, op)
  }

  // ----- the invariant of the journal -----

  ghost predicate UniqueKeys(rows: seq<Row>) {
    forall i, j :: 0 <= i < j < |rows| ==> rows[i].key != rows[j].key
  }

  /** Every row's balanceAfter is the opening balance plus all rows of its wallet up to it. */
  ghost predicate RunningSums(opening: map<WalletId, nat>, rows: seq<Row>) {
    forall i :: 0 <= i < |rows| ==>
      && rows[i].wallet in opening
      && rows[i].balanceAfter == opening[rows[i].wallet] + WalletSum(rows[..i + 1], rows[i].wallet)
  }

  ghost predicate Valid(opening: map<WalletId, nat>, book: Book) {
    && book.balances.Keys == opening.Keys
    && (forall w :: w in opening ==> book.balances[w] == opening[w] + WalletSum(book.rows, w) && book.balances[w] >= 0)
    && RunningSums(opening, book.rows)
    && UniqueKeys(book.rows)
  }

  lemma AppendKeepsRunningSums(opening: map<WalletId, nat>, rows: seq<Row>, row: Row)
    requires RunningSums(opening, rows) && row.wallet in opening
    requires row.balanceAfter == opening[row.wallet] + WalletSum(rows, row.wallet) + row.amount
    ensures RunningSums(opening, rows + [row])
  {
    var rows' := rows + [row];
    WalletSumAppend(rows, row);
    forall i | 0 <= i < |rows'|
      ensures rows'[i].wallet in opening
      ensures rows'[i].balanceAfter == opening[rows'[i].wallet] + WalletSum(rows'[..i + 1], rows'[i].wallet)
    {
      if i < |rows| {
        assert rows'[..i + 1] == rows[..i + 1];
      } else {
        assert rows'[..i + 1] == rows';
      }
    }
  }

  /** One move keeps the journal valid. */
  lemma PostKeepsValid(opening: map<WalletId, nat>, book: Book, op: Op)
    requires Valid(opening, book)
    ensures Valid(opening, Post(book, op).0)
  {
    var (book', reply) := Post(book, op);
    if book' != book {
      AppendKeepsValid(opening, book, reply.row);
    }
  }

  lemma AppendKeepsValid(opening: map<WalletId, nat>, book: Book, row: Row)
    requires Valid(opening, book) && !Has(book, row.key) && row.wallet in book.balances
    requires row.balanceAfter == book.balances[row.wallet] + row.amount && row.balanceAfter >= 0
    ensures Valid(opening, Book(book.balances[row.wallet := row.balanceAfter], book.rows + [row]))
  {
    WalletSumAppend(book.rows, row);
    AppendKeepsRunningSums(opening, book.rows, row);
  }

  /** A key that is already there answers with its first row and changes nothing;
      a new key is there afterwards exactly when the move was applied. */
  lemma PostIsIdempotent(book: Book, op: Op)
    ensures Has(book, op.key) ==> Post(book, op) == (book, Applied(Find(book.rows, op.key).value))
    ensures Post(book, op).1.Applied? <==> Has(Post(book, op).0, op.key)
    ensures Post(book, op).1.Applied? ==> Find(Post(book, op).0.rows, op.key) == Some(Post(book, op).1.row)
    ensures Post(Post(book, op).0, op).0 == Post(book, op).0
  {
    PostEffect(book, op);
  }

  /** The answer a retry gets is the answer the first call got, whatever happened in between. */
  lemma {:induction false} RetryIsFirst(opening: map<WalletId, nat>, book: Book, op: Op, between: seq<Op>, retry: Op)
    requires Valid(opening, book) && Post(book, op).1.Applied? && retry.key == op.key
    ensures Post(PostAll(Post(book, op).0, between), retry) == (PostAll(Post(book, op).0, between), Post(book, op).1)
  {
    PostKeepsValid(opening, book, op);
    PostIsIdempotent(book, op);
    PostAllKeepsRow(opening, Post(book, op).0, between, op.key);
  }

  function PostAll(book: Book, ops: seq<Op>): Book {
    if ops == [] then book else Post(PostAll(book, ops[..|ops| - 1]), ops[|ops| - 1]).0
  }

  lemma {:induction false} PostAllKeepsRow(opening: map<WalletId, nat>, book: Book, ops: seq<Op>, k: Key)
    requires Valid(opening, book)
    ensures Valid(opening, PostAll(book, ops))
    ensures Has(book, k) ==> Find(PostAll(book, ops).rows, k) == Find(book.rows, k)
  {
    if ops != [] {
      var prefix := PostAll(book, ops[..|ops| - 1]);
      PostAllKeepsRow(opening, book, ops[..|ops| - 1], k);
      PostKeepsValid(opening, prefix, ops[|ops| - 1]);
      PostEffect(prefix, ops[|ops| - 1]);
    }
  }

  /** The effect of one move on every key, for callers that reason key by key. */
  lemma PostEffect(book: Book, op: Op)
    ensures var (book', reply) := Post(book, op);
      && (reply.Applied? ==> forall k :: Find(book'.rows, k) == if k == op.key then Some(reply.row)
            else Find(book.rows, k))
      && (!reply.Applied? ==> book' == book)
      && book'.balances.Keys == book.balances.Keys
      && (reply.Applied? && !Has(book, op.key) && op.Move? ==>
            reply.row == Row(op.wallet, op.kind, op.amount, reply.row.balanceAfter, op.key, op.ref))
  {
    var (book', reply) := Post(book, op);
    if book' != book {
      FindAppend(book.rows, reply.row);
    }
  }

  // ----- what an answer means -----

  /** A move under a new key is refused for a missing wallet or an uncovered amount, and else
      writes one row and changes one balance by its amount. A known key is answered as before. */
  predicate MoveAnswered(
      before: Book, after: Book, reply: Reply, w: WalletId, amount: int, kind: Kind, key: Key, ref: Option<BetId>)
  {
    if Has(before, key) then after == before && reply == Applied(Find(before.rows, key).value)
    else if w !in before.balances then after == before && reply == Failed(NoSuchWallet)
    else if before.balances[w] + amount < 0 then after == before && reply == Failed(InsufficientBalance)
    else
      var row := Row(w, kind, amount, before.balances[w] + amount, key, ref);
      after == Book(before.balances[w := before.balances[w] + amount], before.rows + [row]) && reply == Applied(row)
  }

  /** A debit or credit is accepted: it is not empty, and its key is known or its wallet covers it. */
  predicate Covered(book: Book, op: Op)
    requires op.Move?
  {
    op.amount != 0
    && (Has(book, op.key) || (op.wallet in book.balances && book.balances[op.wallet] + op.amount >= 0))
  }

  /** The journal with the move entered, once. */
  function Entered(book: Book, op: Op): Book
    requires op.Move? && Covered(book, op)
  {
    if Has(book, op.key) then book
    else
      var after := book.balances[op.wallet] + op.amount;
      Book(book.balances[op.wallet := after], book.rows + [Row(op.wallet, op.kind, op.amount, after, op.key, op.ref)])
  }

  lemma IssueEnters(book: Book, op: Op)
    requires op.Move?
    ensures Issue(book, op).1.Applied? <==> Covered(book, op)
    ensures Covered(book, op) ==> Issue(book, op).0 == Entered(book, op) && Has(Entered(book, op), op.key)
  {
    PostIsIdempotent(book, op);
  }

  /** A reset under a new key lands on its target: one adjustment row with the difference, or
      nothing at all if the wallet is there already. */
  predicate ResetAnswered(before: Book, after: Book, reply: Reply, w: WalletId, target: nat, key: Key) {
    if Has(before, key) then after == before && reply == Applied(Find(before.rows, key).value)
    else if w !in before.balances then after == before && reply == Failed(NoSuchWallet)
    else if before.balances[w] == target then after == before && reply == Unchanged
    else
      var row := Row(w, Adjustment, target - before.balances[w], target, key, None);
      after == Book(before.balances[w := target], before.rows + [row]) && reply == Applied(row)
  }

  lemma PostAnswers(book: Book, op: Op)
    ensures var (book', reply) := Post(book, op);
      match op
      case Move(w, amount, kind, key, ref) => MoveAnswered(book, book', reply, w, amount, kind, key, ref)
      case Reset(w, target, key) => ResetAnswered(book, book', reply, w, target, key)
  {
  }

  lemma EmptyIsValid(opening: map<WalletId, nat>)
    ensures Valid(opening, Book(opening, []))
  {
  }

  // ----- the service -----

  class LedgerService {
    var balances: map<WalletId, int>
    var rows: seq<Row>

    function Journal(): Book
      reads this
    {
      Book(balances, rows)
    }

    constructor (opening: map<WalletId, nat>)
      ensures Valid(opening, Journal()) && rows == []
    {
      balances := opening;
      rows := [];
    }

    /** The body of the locked transaction: re-check the key, then read, decide and write. */
    method Record(op: Op) returns (reply: Reply)
      modifies this
      ensures (Journal(), reply) == Post(old(Journal()), op)
    {
      var existing := Find(rows, op.key);
      if existing.Some? {
        return Applied(existing.value);
      }
      if op.wallet !in balances {
        return Failed(NoSuchWallet);
      }
      var balance := balances[op.wallet];
      if op.Reset? && op.target - balance == 0 {
        return Unchanged;
      }
      var row := RowFor(op, balance);
      if row.balanceAfter < 0 {
        return Failed(InsufficientBalance);
      }
      balances := balances[op.wallet := row.balanceAfter];
      rows := rows + [row];
      reply := Applied(row);
    }

    /** Positive `amount`, stored as a negative row. */
    method Debit(w: WalletId, amount: int, kind: Kind, key: Key, ref: Option<BetId>) returns (reply: Reply)
      modifies this
      ensures amount <= 0 ==> reply == Failed(AmountMustBePositive) && Journal() == old(Journal())
      ensures amount > 0 ==> (Journal(), reply) == Post(old(Journal()), Move(w, -amount, kind, key, ref))
      ensures amount > 0 ==> MoveAnswered(old(Journal()), Journal(), reply, w, -amount, kind, key, ref)
    {
      if amount <= 0 {
        return Failed(AmountMustBePositive);
      }
      PostAnswers(Journal(), Move(w, -amount, kind, key, ref));
      reply := Record(Move(w, -amount, kind, key, ref));
    }

    /** Positive `amount`, stored as a positive row. */
    method Credit(w: WalletId, amount: int, kind: Kind, key: Key, ref: Option<BetId>) returns (reply: Reply)
      modifies this
      ensures amount <= 0 ==> reply == Failed(AmountMustBePositive) && Journal() == old(Journal())
      ensures amount > 0 ==> (Journal(), reply) == Post(old(Journal()), Move(w, amount, kind, key, ref))
      ensures amount > 0 ==> MoveAnswered(old(Journal()), Journal(), reply, w, amount, kind, key, ref)
    {
      if amount <= 0 {
        return Failed(AmountMustBePositive);
      }
      PostAnswers(Journal(), Move(w, amount, kind, key, ref));
      reply := Record(Move(w, amount, kind, key, ref));
    }

    /** Set a demo wallet to a target with one signed adjustment row. */
    method ResetTo(w: WalletId, target: int, key: Key) returns (reply: Reply)
      modifies this
      ensures target < 0 ==> reply == Failed(AmountMustNotBeNegative) && Journal() == old(Journal())
      ensures target >= 0 ==> (Journal(), reply) == Post(old(Journal()), Reset(w, target, key))
      ensures target >= 0 ==> ResetAnswered(old(Journal()), Journal(), reply, w, target, key)
    {
      if target < 0 {
        return Failed(AmountMustNotBeNegative);
      }
      PostAnswers(Journal(), Reset(w, target, key));
      reply := Record(Reset(w, target, key));
    }

    /** Undo a settled move by posting its inverse: refund a debit, or reclaim a credit.
        A reclaim the balance cannot cover fails and moves nothing. */
    method Reverse(w: WalletId, amount: int, ofDebit: bool, kind: Kind, key: Key, ref: Option<BetId>)
      returns (reply: Reply)
      modifies this
      ensures amount <= 0 ==> reply == Failed(AmountMustBePositive) && Journal() == old(Journal())
      ensures amount > 0 ==>
        (Journal(), reply) == Post(old(Journal()), Move(w, if ofDebit then amount else -amount, kind, key, ref))
      ensures amount > 0 ==>
        MoveAnswered(old(Journal()), Journal(), reply, w, if ofDebit then amount else -amount, kind, key, ref)
    {
      if ofDebit {
        reply := Credit(w, amount, kind, key, ref);
      } else {
        reply := Debit(w, amount, kind, key, ref);
      }
    }
  }
}
