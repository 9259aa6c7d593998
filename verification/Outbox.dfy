/** The durable outbox of operator rollbacks: rows, leases, and the service that drains them. */
module Outbox {
  import opened Domain

  type OperatorId = nat
  type TxId = nat
  type Time = int

  datatype Reason = AmbiguousDebit | TransientDebit | VoidReclaim | VoidRefund | RestartRefund

  /** What a reversal is about: the bet if there is one, else the operator's transaction. */
  datatype Subject = OfBet(bet: BetId) | OfTx(tx: TxId)

  /** The once-only identity of a reversal: "undo for this reason". */
  datatype DedupeKey = DedupeKey(subject: Subject, reason: Reason)

  datatype Ref = Ref(operator: OperatorId, key: DedupeKey)

  datatype Claim = Claim(operator: OperatorId, tx: TxId, reason: Reason, bet: Option<BetId>)

  datatype Status = Pending | Draining | Confirmed

  datatype Row = Row(tx: TxId, status: Status, lease: Option<Time>, attempts: nat, created: Time)

  type Rows = map<Ref, Row>

  const DRAIN_LEASE_MS: Time := 60_000

  function DedupeKeyOf(c: Claim): DedupeKey {
    DedupeKey(if c.bet.Some? then OfBet(c.bet.value) else OfTx(c.tx), c.reason)
  }

  function RefOf(c: Claim): Ref {
    Ref(c.operator, DedupeKeyOf(c))
  }

  // ----- leases -----

  /** Owned by some emitter: draining, with a lease that has not expired. */
  predicate HasLiveLease(row: Row, now: Time) {
    row.status.Draining? && row.lease.Some? && row.lease.value > now
  }

  /** What the drain's scan selects: pending, or draining under an expired or missing lease. */
  predicate Selectable(row: Row, now: Time) {
    row.status.Pending? || (row.status.Draining? && (row.lease.None? || row.lease.value < now))
  }

  predicate SameClaim(row: Row, seen: Row) {
    row.status == seen.status && (seen.status.Draining? ==> row.lease == seen.lease)
  }

  /** Compare-and-swap on the exact status and lease that the caller has seen. */
  function AcquireLease(rows: Rows, ref: Ref, seen: Row, now: Time): (Rows, bool) {
    if ref in rows && SameClaim(rows[ref], seen) then
      (rows[ref := rows[ref].(status := Draining, lease := Some(now + DRAIN_LEASE_MS))], true)
    else (rows, false)
  }

  function Fresh(tx: TxId, now: Time): Row {
    Row(tx, Draining, Some(now + DRAIN_LEASE_MS), 0, now)
  }

  function SetConfirmed(rows: Rows, ref: Ref): Rows {
    if ref in rows then rows[ref := rows[ref].(status := Confirmed, lease := None)] else rows
  }

  /** Unconditional: whatever the row was, it is pending again. */
  function SetPending(rows: Rows, ref: Ref, bump: nat): Rows {
    if ref in rows then
      rows[ref := rows[ref].(status := Pending, lease := None, attempts := rows[ref].attempts + bump)]
    else rows
  }

  datatype ClaimResult = AlreadyConfirmed | InFlight | Acquired

  /** The operator's answers to a drain pass: which rollbacks it accepts. */
  type Answers = Ref -> bool

  /** What one drain pass does to one row that its scan took. */
  function Drained(row: Row, ok: bool): Row {
    if ok then row.(status := Confirmed, lease := None)
      else row.(status := Pending, lease := None, attempts := row.attempts + 1)
  }

  /** The rows a scan may take: at most `limit`, all selectable, and the oldest first. */
  ghost predicate OldestSelectable(rows: Rows, now: Time, limit: nat, taken: seq<Ref>) {
    && |taken| <= limit
    && (forall i, j :: 0 <= i < j < |taken| ==> taken[i] != taken[j])
    && (forall ref :: ref in taken ==> ref in rows && Selectable(rows[ref], now))
    && (forall ref, other :: ref in taken && other in rows && other !in taken && Selectable(rows[other], now) ==>
          rows[ref].created <= rows[other].created)
    && (|taken| < limit ==> forall ref :: ref in rows && Selectable(rows[ref], now) ==> ref in taken)
  }

  function Accepted(taken: seq<Ref>, answers: Answers): set<Ref> {
    set ref | ref in taken && answers(ref)
  }

  lemma AcceptOneMore(taken: seq<Ref>, ref: Ref, answers: Answers)
    requires ref !in taken
    ensures |Accepted(taken + [ref], answers)| == |Accepted(taken, answers)| + (if answers(ref) then 1 else 0)
  {
    assert Accepted(taken + [ref], answers) == Accepted(taken, answers) + (if answers(ref) then {ref} else {});
  }

  class WalletRollbackService {
    var rows: Rows
    var now: Time

    constructor ()
      ensures rows == map[]
    {
      rows, now := map[], 0;
    }

    /** Stake the once-only claim on a reversal. Only `Acquired` obliges the caller to emit. */
    method ClaimRollback(c: Claim) returns (r: ClaimResult)
      modifies `rows
      ensures var ref := RefOf(c);
        && ref in rows && rows - {ref} == old(rows) - {ref}
        && (r.AlreadyConfirmed? <==> ref in old(rows) && old(rows)[ref].status.Confirmed?)
        && (r.InFlight? <==> ref in old(rows) && HasLiveLease(old(rows)[ref], now))
        && (r.AlreadyConfirmed? ==> rows == old(rows))
        && (r.InFlight? ==> rows[ref] == old(rows)[ref].(attempts := old(rows)[ref].attempts + 1))
        && (r.Acquired? ==> HasLiveLease(rows[ref], now) && (ref !in old(rows) ==> rows[ref] == Fresh(c.tx, now)))
        && (r.Acquired? && ref in old(rows) ==>
              rows[ref] == old(rows)[ref].(status := Draining, lease := Some(now + DRAIN_LEASE_MS)))
    {
      var ref := RefOf(c);
      if ref in rows {
        var existing := rows[ref];
        if existing.status.Confirmed? {
          return AlreadyConfirmed;
        }
        if HasLiveLease(existing, now) {
          rows := rows[ref := existing.(attempts := existing.attempts + 1)];
          return InFlight;
        }
        var (after, _) := AcquireLease(rows, ref, existing, now);
        rows := after;
      } else {
        rows := rows[ref := Fresh(c.tx, now)];
      }
      r := Acquired;
    }

    method Confirm(ref: Ref)
      modifies `rows
      ensures rows == SetConfirmed(old(rows), ref)
    {
      if ref in rows {
        rows := rows[ref := rows[ref].(status := Confirmed, lease := None)];
      }
    }

    method RecordEmitFailure(ref: Ref)
      modifies `rows
      ensures rows == SetPending(old(rows), ref, 0)
    {
      if ref in rows {
        rows := rows[ref := rows[ref].(status := Pending, lease := None, attempts := rows[ref].attempts + 0)];
      }
    }

    method Scan(limit: nat) returns (taken: seq<Ref>)
      ensures OldestSelectable(rows, now, limit, taken)
    {
      taken := [];
      var rest: set<Ref> := set ref | ref in rows && Selectable(rows[ref], now);
      while |taken| < limit && rest != {}
        invariant |taken| <= limit
        invariant forall i, j :: 0 <= i < j < |taken| ==> taken[i] != taken[j]
        invariant forall ref :: ref in rows && Selectable(rows[ref], now) <==> ref in taken || ref in rest
        invariant forall ref :: ref in taken ==> ref !in rest
        invariant forall ref, other :: ref in taken && other in rest ==> rows[ref].created <= rows[other].created
        decreases |rest|
      {
        var oldest := Oldest(rest);
        taken, rest := taken + [oldest], rest - {oldest};
      }
    }

    method Oldest(refs: set<Ref>) returns (oldest: Ref)
      requires refs != {} && refs <= rows.Keys
      ensures oldest in refs && forall ref :: ref in refs ==> rows[oldest].created <= rows[ref].created
    {
      oldest :| oldest in refs;
      var left := refs - {oldest};
      while left != {}
        invariant left <= refs && oldest in refs
        invariant forall ref :: ref in refs && ref !in left ==> rows[oldest].created <= rows[ref].created
        decreases |left|
      {
        var ref :| ref in left;
        if rows[ref].created < rows[oldest].created {
          oldest := ref;
        }
        left := left - {ref};
      }
    }

    /** One drain pass: each row the scan took is leased, emitted, and confirmed or released. */
    method DrainPending(limit: nat, answers: Answers) returns (confirmed: nat, ghost taken: seq<Ref>)
      modifies `rows
      ensures OldestSelectable(old(rows), now, limit, taken)
      ensures confirmed == |set ref | ref in taken && answers(ref)|
      ensures rows.Keys == old(rows).Keys
      ensures forall ref :: ref in rows ==>
        rows[ref] == if ref in taken then Drained(old(rows)[ref], answers(ref)) else old(rows)[ref]
    {
      var start := rows;
      var scanned := Scan(limit);
      taken := scanned;
      confirmed := 0;
      for i := 0 to |scanned|
        invariant rows.Keys == start.Keys && confirmed == |Accepted(scanned[..i], answers)|
        invariant forall ref :: ref in start ==>
          rows[ref] == if ref in scanned[..i] then Drained(start[ref], answers(ref)) else start[ref]
      {
        var ref := scanned[i];
        assert ref !in scanned[..i];
        var (leased, acquired) := AcquireLease(rows, ref, start[ref], now);
        rows := leased;
        if acquired {
          if answers(ref) {
            Confirm(ref);
            confirmed := confirmed + 1;
          } else {
            rows := SetPending(rows, ref, 1);
          }
        }
        assert scanned[..i + 1] == scanned[..i] + [ref];
        AcceptOneMore(scanned[..i], ref, answers);
      }
      assert scanned[..|scanned|] == scanned;
    }
  }

  ghost predicate AllConfirmed(rows: Rows) {
    forall ref :: ref in rows ==> rows[ref].status.Confirmed?
  }

  ghost predicate NothingLive(rows: Rows, now: Time) {
    forall ref :: ref in rows && rows[ref].status.Draining? ==> Selectable(rows[ref], now)
  }

  /** One drain pass with an operator that accepts every rollback, no lease still running, and
      a limit the backlog fits in, confirms everything; and it does so only then. */
  lemma DrainEmptiesOutbox(rows: Rows, now: Time, limit: nat, taken: seq<Ref>, answers: Answers, after: Rows)
    requires OldestSelectable(rows, now, limit, taken) && after.Keys == rows.Keys
    requires forall ref :: ref in after ==>
      after[ref] == if ref in taken then Drained(rows[ref], answers(ref)) else rows[ref]
    requires |set ref | ref in rows && Selectable(rows[ref], now)| <= limit
    ensures AllConfirmed(after) <==>
      NothingLive(rows, now) && forall ref :: ref in rows && Selectable(rows[ref], now) ==> answers(ref)
  {
    TakesAll(rows, now, limit, taken);
    forall ref | ref in rows
      ensures after[ref].status.Confirmed? <==>
        rows[ref].status.Confirmed? || (Selectable(rows[ref], now) && answers(ref))
    {
    }
  }

  lemma TakesAll(rows: Rows, now: Time, limit: nat, taken: seq<Ref>)
    requires OldestSelectable(rows, now, limit, taken)
    requires |set ref | ref in rows && Selectable(rows[ref], now)| <= limit
    ensures forall ref :: ref in rows && Selectable(rows[ref], now) ==> ref in taken
  {
    if |taken| == limit {
      var all := set ref | ref in rows && Selectable(rows[ref], now);
      var some := set ref | ref in taken;
      DistinctSize(taken);
      assert some <= all;
      SubsetOfSameSize(some, all);
      forall ref | ref in rows && Selectable(rows[ref], now)
        ensures ref in taken
      {
        assert ref in all && ref in some;
      }
    }
  }

  lemma {:induction false} DistinctSize(s: seq<Ref>)
    requires forall i, j :: 0 <= i < j < |s| ==> s[i] != s[j]
    ensures |set ref | ref in s| == |s|
  {
    if |s| != 0 {
      var init := s[..|s| - 1];
      DistinctSize(init);
      assert (set ref | ref in s) == (set ref | ref in init) + {s[|s| - 1]};
      assert s[|s| - 1] !in init;
    }
  }

  lemma {:induction false} SubsetOfSameSize(a: set<Ref>, b: set<Ref>)
    requires a <= b && |b| <= |a|
    ensures a == b
  {
    if a != {} {
      var x :| x in a;
      SubsetOfSameSize(a - {x}, b - {x});
      assert b == (b - {x}) + {x};
    } else {
      assert |b| == 0;
    }
  }
}
