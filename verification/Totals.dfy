/** Totals over sets of bets, and the journal joined with the bets that still exist. */
module Totals {
  import opened Domain
  import opened Ledger
  import opened RowSums

  ghost function Total(ids: set<BetId>, f: BetId -> int): int {
    if ids == {} then 0
    else
      var id :| id in ids;
      f(id) + Total(ids - {id}, f)
  }

  lemma {:induction false} TotalRemove(ids: set<BetId>, f: BetId -> int, id: BetId)
    requires id in ids
    ensures Total(ids, f) == f(id) + Total(ids - {id}, f)
  {
    var first :| first in ids && Total(ids, f) == f(first) + Total(ids - {first}, f);
    if first != id {
      TotalRemove(ids - {first}, f, id);
      TotalRemove(ids - {id}, f, first);
      assert ids - {first} - {id} == ids - {id} - {first};
    }
  }

  lemma {:induction false} TotalOfSum(ids: set<BetId>, f: BetId -> int, g: BetId -> int, h: BetId -> int)
    requires forall id :: id in ids ==> f(id) == g(id) + h(id)
    ensures Total(ids, f) == Total(ids, g) + Total(ids, h)
  {
    if ids != {} {
      var id :| id in ids;
      TotalRemove(ids, f, id);
      TotalRemove(ids, g, id);
      TotalRemove(ids, h, id);
      TotalOfSum(ids - {id}, f, g, h);
    }
  }

  lemma {:induction false} TotalOfNonNegatives(ids: set<BetId>, f: BetId -> int)
    requires forall id :: id in ids ==> f(id) >= 0
    ensures Total(ids, f) >= 0
    ensures Total(ids, f) == 0 <==> forall id :: id in ids ==> f(id) == 0
  {
    if ids != {} {
      var id :| id in ids;
      TotalRemove(ids, f, id);
      TotalOfNonNegatives(ids - {id}, f);
    }
  }

  /** Two functions that differ at one bet only have totals that differ by as much. */
  lemma {:induction false} TotalUpdate(ids: set<BetId>, f: BetId -> int, g: BetId -> int, at: BetId)
    requires forall id :: id in ids && id != at ==> f(id) == g(id)
    ensures Total(ids, f) == Total(ids, g) + (if at in ids then f(at) - g(at) else 0)
  {
    if ids != {} {
      var id :| id in ids;
      TotalRemove(ids, f, id);
      TotalRemove(ids, g, id);
      TotalUpdate(ids - {id}, f, g, at);
    }
  }

  lemma {:induction false} TotalOfSubset(ids: set<BetId>, sub: set<BetId>, f: BetId -> int)
    requires sub <= ids && forall id :: id in ids - sub ==> f(id) == 0
    ensures Total(ids, f) == Total(sub, f)
  {
    if sub == {} {
      TotalOfZeros(ids, f);
    } else {
      var id :| id in sub;
      TotalRemove(ids, f, id);
      TotalRemove(sub, f, id);
      TotalOfSubset(ids - {id}, sub - {id}, f);
    }
  }

  lemma {:induction false} TotalOfZeros(ids: set<BetId>, f: BetId -> int)
    requires forall id :: id in ids ==> f(id) == 0
    ensures Total(ids, f) == 0
  {
    if ids != {} {
      var id :| id in ids;
      TotalRemove(ids, f, id);
      TotalOfZeros(ids - {id}, f);
    }
  }

  /** The sum of all rows of one kind whose bet is in `ids`, taken row by row. */
  function Joined(rows: seq<Row>, ids: set<BetId>, kind: Kind): int {
    if rows == [] then 0
    else
      var last := rows[|rows| - 1];
      Joined(rows[..|rows| - 1], ids, kind)
      + (if last.kind == kind && last.ref.Some? && last.ref.value in ids then last.amount else 0)
  }

  function NetFor(rows: seq<Row>, which: Rows): BetId -> int {
    (id: BetId) => NetOf(rows, id, which)
  }

  /** Summing the journal row by row or bet by bet gives the same. */
  lemma {:induction false} JoinedByBet(rows: seq<Row>, ids: set<BetId>, kind: Kind)
    ensures Joined(rows, ids, kind) == Total(ids, NetFor(rows, Of(kind)))
  {
    if rows == [] {
      TotalOfZeros(ids, NetFor(rows, Of(kind)));
    } else {
      var init, last := rows[..|rows| - 1], rows[|rows| - 1];
      JoinedByBet(init, ids, kind);
      var at := if last.ref.Some? then last.ref.value else 0;
      TotalUpdate(ids, NetFor(rows, Of(kind)), NetFor(init, Of(kind)), at);
    }
  }
}
