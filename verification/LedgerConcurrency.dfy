/**
 * Concurrent ledger calls, statement by statement. A call reads its key outside any
 * transaction, then locks its wallet row, re-checks the key, reads the balance, and
 * commits the new balance together with the new row. The lock is per wallet, so two
 * calls with one key but different wallets meet only at the unique index, where the
 * later commit is refused and its caller re-reads the winner's row.
 */
module LedgerConcurrency {
  import opened Domain
  import opened Ledger

  /** Where a call is; each step executes one statement. */
  datatype Call =
    | FastRead(op: Op)
    | WantLock(op: Op)
    | ReCheck(op: Op)
    | ReadBalance(op: Op)
    | Commit(op: Op, balance: int)
    | ReadWinner(op: Op)
    | Done(op: Op, reply: Reply)
  {
    /** Inside the transaction the wallet row is locked. */
    predicate HoldsLock(w: WalletId) {
      (ReCheck? || ReadBalance? || Commit?) && op.wallet == w
    }
  }

  datatype Event =
    | Begin(call: CallId, op: Op)
    | Step(call: CallId)
    | Die(call: CallId)

  /** `log` lists the operations in the order of their commits. */
  datatype State = State(book: Book, calls: map<CallId, Call>, log: seq<Op>)

  function Init(opening: map<WalletId, nat>): State {
    State(Book(opening, []), map[], [])
  }

  ghost predicate LockFree(s: State, w: WalletId) {
    forall c :: c in s.calls ==> !s.calls[c].HoldsLock(w)
  }

  function Goto(s: State, c: CallId, pc: Call): State {
    s.(calls := s.calls[c := pc])
  }

  ghost function Next(s: State, e: Event): State {
    match e
    case Begin(c, op) => if c in s.calls then s else Goto(s, c, FastRead(op))
    case Die(c) => s.(calls := s.calls - {c})
    case Step(c) => if c in s.calls then Advance(s, c) else s
  }

  ghost function Advance(s: State, c: CallId): State
    requires c in s.calls
  {
    match s.calls[c]
    case FastRead(op) =>
      var existing := Find(s.book.rows, op.key);
      Goto(s, c, if existing.Some? then Done(op, Applied(existing.value)) else WantLock(op))
    case WantLock(op) =>
      if LockFree(s, op.wallet) then Goto(s, c, ReCheck(op)) else s
    case ReCheck(op) =>
      var dup := Find(s.book.rows, op.key);
      Goto(s, c, if dup.Some? then Done(op, Applied(dup.value)) else ReadBalance(op))
    case ReadBalance(op) =>
      if op.wallet !in s.book.balances then Goto(s, c, Done(op, Failed(NoSuchWallet)))
      else
        var balance := s.book.balances[op.wallet];
        var decision := Decide(op, balance);
        Goto(s, c, if decision.Applied? then Commit(op, balance) else Done(op, decision))
    case Commit(op, balance) =>
      if Has(s.book, op.key) then Goto(s, c, ReadWinner(op))
      else
        var row := RowFor(op, balance);
        State(
          Book(s.book.balances[op.wallet := row.balanceAfter], s.book.rows + [row]),
          s.calls[c := Done(op, Applied(row))],
          s.log + [op])
    case ReadWinner(op) =>
      var winner := Find(s.book.rows, op.key);
      if winner.Some? then Goto(s, c, Done(op, Applied(winner.value))) else s
    case Done(_, _) => s
  }

  ghost function Run(s: State, events: seq<Event>): State {
    if events == [] then s else Next(Run(s, events[..|events| - 1]), events[|events| - 1])
  }

  /** At most one call is inside a transaction on any wallet. */
  ghost predicate LocksExclusive(calls: map<CallId, Call>) {
    forall c, d, w :: c in calls && d in calls && calls[c].HoldsLock(w) && calls[d].HoldsLock(w) ==> c == d
  }

  /** The balance a call is about to overwrite is still the balance of its wallet. */
  ghost predicate CommitsUpToDate(balances: map<WalletId, int>, calls: map<CallId, Call>) {
    forall c :: c in calls && calls[c].Commit? ==>
      && calls[c].op.wallet in balances
      && balances[calls[c].op.wallet] == calls[c].balance
      && Decide(calls[c].op, calls[c].balance).Applied?
  }

  /** An applied answer is the row stored for its key. */
  ghost predicate AnswersStored(rows: seq<Row>, calls: map<CallId, Call>) {
    && (forall c :: c in calls && calls[c].ReadWinner? ==> Find(rows, calls[c].op.key).Some?)
    && (forall c :: c in calls && calls[c].Done? && calls[c].reply.Applied? ==>
          Find(rows, calls[c].op.key) == Some(calls[c].reply.row))
  }

  ghost predicate Inv(opening: map<WalletId, nat>, s: State) {
    && Valid(opening, s.book)
    && s.book == PostAll(Book(opening, []), s.log)
    && LocksExclusive(s.calls)
    && CommitsUpToDate(s.book.balances, s.calls)
    && AnswersStored(s.book.rows, s.calls)
  }

  /** Every step either leaves the book alone or is exactly one atomic move. */
  lemma NextKeepsInv(opening: map<WalletId, nat>, s: State, e: Event)
    requires Inv(opening, s)
    ensures Inv(opening, Next(s, e))
    ensures Next(s, e).book == s.book
         || (e.Step? && e.call in s.calls && Next(s, e).book == Post(s.book, s.calls[e.call].op).0)
  {
    if e.Step? && e.call in s.calls && s.calls[e.call].Commit? && !Has(s.book, s.calls[e.call].op.key) {
      CommitKeepsInv(opening, s, e.call);
    } else if e.Step? && e.call in s.calls && s.calls[e.call].WantLock? {
      LockKeepsInv(opening, s, e.call);
    } else {
      QuietKeepsInv(opening, s, e);
    }
  }

  /** Taking the wallet lock keeps it exclusive. */
  lemma LockKeepsInv(opening: map<WalletId, nat>, s: State, c: CallId)
    requires Inv(opening, s) && c in s.calls && s.calls[c].WantLock?
    ensures Inv(opening, Advance(s, c)) && Advance(s, c).book == s.book
  {
  }

  /** A statement that neither commits nor takes a lock leaves the book and the locks of others alone. */
  lemma QuietKeepsInv(opening: map<WalletId, nat>, s: State, e: Event)
    requires Inv(opening, s)
    requires e.Step? && e.call in s.calls ==>
      !s.calls[e.call].WantLock? && (s.calls[e.call].Commit? ==> Has(s.book, s.calls[e.call].op.key))
    ensures Inv(opening, Next(s, e)) && Next(s, e).book == s.book
  {
    if e.Step? && e.call in s.calls {
      ReadKeepsInv(opening, s, e.call);
    }
  }

  /** A statement that only reads moves its own call on. */
  lemma ReadKeepsInv(opening: map<WalletId, nat>, s: State, c: CallId)
    requires Inv(opening, s) && c in s.calls && !s.calls[c].WantLock?
      && (s.calls[c].Commit? ==> Has(s.book, s.calls[c].op.key))
    ensures Inv(opening, Advance(s, c)) && Advance(s, c).book == s.book
  {
    var s' := Advance(s, c);
    assert s'.book == s.book && s'.log == s.log && s'.calls == s.calls[c := s'.calls[c]];
    assert forall w :: s'.calls[c].HoldsLock(w) ==> s.calls[c].HoldsLock(w);
    ReadAnswers(s, c);
  }

  lemma ReadAnswers(s: State, c: CallId)
    requires AnswersStored(s.book.rows, s.calls) && c in s.calls && !s.calls[c].WantLock?
    requires s.calls[c].Commit? ==> Has(s.book, s.calls[c].op.key)
    ensures var call := Advance(s, c).calls[c];
      && (call.ReadWinner? ==> Find(s.book.rows, call.op.key).Some?)
      && (call.Done? && call.reply.Applied? ==> Find(s.book.rows, call.op.key) == Some(call.reply.row))
      && (call.Commit? ==> Decide(call.op, call.balance).Applied?)
      && (call.Commit? ==> call.op.wallet in s.book.balances && s.book.balances[call.op.wallet] == call.balance)
  {
  }

  lemma CommitKeepsInv(opening: map<WalletId, nat>, s: State, c: CallId)
    requires Inv(opening, s) && c in s.calls && s.calls[c].Commit? && !Has(s.book, s.calls[c].op.key)
    ensures Inv(opening, Advance(s, c))
    ensures Advance(s, c).book == Post(s.book, s.calls[c].op).0
  {
    var op, balance := s.calls[c].op, s.calls[c].balance;
    var s' := Advance(s, c);
    CommitIsPost(opening, s.book, op, balance);
    assert s'.log[..|s.log|] == s.log;
    CommitLeavesOthersUpToDate(s.book.balances, s.calls, c, s'.calls[c], RowFor(op, balance).balanceAfter);
  }

  /** The committing call held the lock of its wallet, so no other call has read that balance. */
  lemma CommitLeavesOthersUpToDate(
      balances: map<WalletId, int>, calls: map<CallId, Call>, c: CallId, done: Call, after: int)
    requires LocksExclusive(calls) && CommitsUpToDate(balances, calls)
    requires c in calls && calls[c].Commit? && done.Done?
    ensures LocksExclusive(calls[c := done])
    ensures CommitsUpToDate(balances[calls[c].op.wallet := after], calls[c := done])
  {
    assert calls[c].HoldsLock(calls[c].op.wallet);
    forall d | d in calls && d != c && calls[d].Commit?
      ensures calls[d].op.wallet != calls[c].op.wallet
    {
      assert calls[d].HoldsLock(calls[d].op.wallet);
    }
  }

  /** A commit with a fresh key and an up-to-date balance is the atomic move. */
  lemma CommitIsPost(opening: map<WalletId, nat>, book: Book, op: Op, balance: int)
    requires Valid(opening, book) && !Has(book, op.key)
    requires op.wallet in book.balances && book.balances[op.wallet] == balance
    requires Decide(op, balance).Applied?
    ensures Post(book, op) ==
      (Book(book.balances[op.wallet := RowFor(op, balance).balanceAfter], book.rows + [RowFor(op, balance)]),
       Applied(RowFor(op, balance)))
    ensures Valid(opening, Post(book, op).0)
    ensures forall k :: Find(book.rows + [RowFor(op, balance)], k)
                     == if k == op.key then Some(RowFor(op, balance)) else Find(book.rows, k)
  {
    PostKeepsValid(opening, book, op);
    FindAppend(book.rows, RowFor(op, balance));
  }

  /** Any interleaving of any calls, dying anywhere, is a sequence of atomic moves; so the
      journal is valid, and every answered call holds the row that its key has in the end. */
  lemma {:induction false} RunIsSerial(opening: map<WalletId, nat>, events: seq<Event>)
    ensures Inv(opening, Run(Init(opening), events))
  {
    if events == [] {
      EmptyIsValid(opening);
    } else {
      RunIsSerial(opening, events[..|events| - 1]);
      NextKeepsInv(opening, Run(Init(opening), events[..|events| - 1]), events[|events| - 1]);
    }
  }

  /** Two answers to one key are the same row, whichever calls gave them and in whatever order. */
  lemma SameKeySameRow(opening: map<WalletId, nat>, events: seq<Event>, c: CallId, d: CallId)
    requires var s := Run(Init(opening), events);
      && c in s.calls && d in s.calls && s.calls[c].Done? && s.calls[d].Done?
      && s.calls[c].op.key == s.calls[d].op.key
      && s.calls[c].reply.Applied? && s.calls[d].reply.Applied?
    ensures var s := Run(Init(opening), events); s.calls[c].reply == s.calls[d].reply
  {
    RunIsSerial(opening, events);
  }

  // ----- a call that nobody hinders -----

  /** The same call executes `n` statements on end. */
  ghost function Steps(s: State, c: CallId, n: nat): State {
    if n == 0 then s else Next(Steps(s, c, n - 1), Step(c))
  }

  /** A call that begins while nobody holds its wallet, and is not interrupted, is answered
      after five statements, and its answer and its effect are those of the atomic move. */
  lemma LoneCallAnswers(s: State, c: CallId, op: Op)
    requires c !in s.calls && LockFree(s, op.wallet)
    ensures var s' := Steps(Next(s, Begin(c, op)), c, 5);
      c in s'.calls && s'.calls[c] == Done(op, Post(s.book, op).1) && s'.book == Post(s.book, op).0
  {
    var begun := Next(s, Begin(c, op));
    var one := Steps(begun, c, 1);
    assert Steps(begun, c, 0) == begun;
    if !Has(s.book, op.key) {
      assert one == Goto(s, c, WantLock(op));
      assert LockFree(one, op.wallet);
      var three := Steps(begun, c, 3);
      assert Steps(begun, c, 2).calls[c] == ReCheck(op);
      assert three.book == s.book && three.calls[c] == ReadBalance(op);
      assert Steps(begun, c, 4).book == s.book;
    } else {
      assert one.calls[c].Done? && one.book == s.book;
      assert Steps(begun, c, 2) == one && Steps(begun, c, 3) == one && Steps(begun, c, 4) == one;
    }
  }
}
