/** Sums over the rows of a journal that belong to one bet. */
module RowSums {
  import opened Domain
  import opened Ledger

  /** Which rows of a bet are summed: all of them, or those of one kind. */
  datatype Rows = All | Of(kind: Kind)

  predicate Selected(row: Row, id: BetId, which: Rows) {
    row.ref == Some(id) && (which.Of? ==> row.kind == which.kind)
  }

  function NetOf(rows: seq<Row>, id: BetId, which: Rows): int {
    if rows == [] then 0
    else
      var last := rows[|rows| - 1];
      NetOf(rows[..|rows| - 1], id, which) + (if Selected(last, id, which) then last.amount else 0)
  }

  function Amount(rows: seq<Row>, k: Key): int {
    if Find(rows, k).Some? then Find(rows, k).value.amount else 0
  }

  function Amounts(rows: seq<Row>, keys: seq<Key>): int {
    if keys == [] then 0 else Amount(rows, keys[0]) + Amounts(rows, keys[1..])
  }

  ghost predicate Distinct(keys: seq<Key>) {
    forall i, j :: 0 <= i < j < |keys| ==> keys[i] != keys[j]
  }

  lemma {:induction false} AmountsAppend(rows: seq<Row>, row: Row, keys: seq<Key>)
    requires Find(rows, row.key).None? && Distinct(keys)
    ensures Amounts(rows + [row], keys) == Amounts(rows, keys) + (if row.key in keys then row.amount else 0)
  {
    if keys != [] {
      FindAppend(rows, row);
      assert forall i :: 0 <= i < |keys[1..]| ==> keys[1..][i] == keys[i + 1];
      assert keys[0] !in keys[1..];
      AmountsAppend(rows, row, keys[1..]);
    }
  }

  lemma {:induction false} AmountsOfNothing(keys: seq<Key>)
    ensures Amounts([], keys) == 0
  {
    if keys != [] {
      AmountsOfNothing(keys[1..]);
    }
  }

  /** When the selected rows are exactly the rows under some keys, their sum is the sum
      of what is stored under those keys. */
  lemma {:induction false} NetByKeys(rows: seq<Row>, id: BetId, which: Rows, keys: seq<Key>)
    requires UniqueKeys(rows) && Distinct(keys)
    requires forall i :: 0 <= i < |rows| ==> (Selected(rows[i], id, which) <==> rows[i].key in keys)
    ensures NetOf(rows, id, which) == Amounts(rows, keys)
  {
    if rows == [] {
      AmountsOfNothing(keys);
    } else {
      var init, last := rows[..|rows| - 1], rows[|rows| - 1];
      NetByKeys(init, id, which, keys);
      AmountsAppend(init, last, keys);
      assert rows == init + [last];
    }
  }

  /** Each row is the row stored under its key. */
  lemma {:induction false} RowIsFound(rows: seq<Row>, i: nat)
    requires UniqueKeys(rows) && i < |rows|
    ensures Find(rows, rows[i].key) == Some(rows[i])
  {
    if i < |rows| - 1 {
      RowIsFound(rows[..|rows| - 1], i);
    }
  }
}
