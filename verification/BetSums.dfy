/** Sums over bet rows: exposure, session accounting and audit totals. */
module BetSums {
  import opened Domain
  import opened Money

  type Bets = map<BetId, Bet>

  /** What a row contributes to a sum. */
  datatype Measure =
    | Exposure(limits: RiskLimits, round: RoundId, currency: Currency)
    | Liability(limits: RiskLimits, round: RoundId, currency: Currency)
    | PaidOrOwed(round: RoundId, currency: Currency)
    | ReservedIn(round: RoundId, wallet: WalletId)
    | Reserved(wallet: WalletId)
    | Wagered(wallet: WalletId)
    | Won(wallet: WalletId)
    | Net(wallet: WalletId)
    | WageredOrReserved(wallet: WalletId)
    | NetOrReserved(wallet: WalletId)

  /** The worst case the round-exposure breaker counts for a row. */
  function AtRisk(limits: RiskLimits, b: Bet): int {
    if b.status.Reserving? || b.status.Active? then PotentialPayout(limits, b.amount) else 0
  }

  function PaidOrOwedFor(b: Bet): int {
    if IsWon(b.status) then b.payout else 0
  }

  function Staked(b: Bet): int {
    if IsWagered(b.status) then b.amount else 0
  }

  function ReservedFor(b: Bet): int {
    if b.status.Reserving? then b.amount else 0
  }

  function Weight(m: Measure, b: Bet): int {
    match m
    case Exposure(limits, r, ccy) => if b.slot.round == r && b.currency == ccy then AtRisk(limits, b) else 0
    case PaidOrOwed(r, ccy) => if b.slot.round == r && b.currency == ccy then PaidOrOwedFor(b) else 0
    case Liability(limits, r, ccy) =>
      if b.slot.round == r && b.currency == ccy then AtRisk(limits, b) + PaidOrOwedFor(b) else 0
    case ReservedIn(r, w) => if b.slot.round == r && b.wallet == w then ReservedFor(b) else 0
    case Reserved(w) => if b.wallet == w then ReservedFor(b) else 0
    case Wagered(w) => if b.wallet == w then Staked(b) else 0
    case Won(w) => if b.wallet == w then PaidOrOwedFor(b) else 0
    case Net(w) => if b.wallet == w then Staked(b) - PaidOrOwedFor(b) else 0
    case WageredOrReserved(w) => if b.wallet == w then Staked(b) + ReservedFor(b) else 0
    case NetOrReserved(w) => if b.wallet == w then Staked(b) - PaidOrOwedFor(b) + ReservedFor(b) else 0
  }

  ghost function Sum(bets: Bets, m: Measure): int {
    if bets == map[] then 0
    else
      var id :| id in bets;
      Weight(m, bets[id]) + Sum(bets - {id}, m)
  }

  /** The sum does not depend on the order in which rows are taken. */
  lemma {:induction false} SumRemove(bets: Bets, m: Measure, id: BetId)
    requires id in bets
    ensures Sum(bets, m) == Weight(m, bets[id]) + Sum(bets - {id}, m)
    decreases |bets|
  {
    var first :| first in bets && Sum(bets, m) == Weight(m, bets[first]) + Sum(bets - {first}, m);
    if first != id {
      var rest := bets - {first};
      SumRemove(rest, m, id);
      SumRemove(bets - {id}, m, first);
      assert rest - {id} == (bets - {id}) - {first};
    }
  }

  lemma SumInsert(bets: Bets, m: Measure, id: BetId, b: Bet)
    requires id !in bets
    ensures Sum(bets[id := b], m) == Sum(bets, m) + Weight(m, b)
  {
    SumRemove(bets[id := b], m, id);
    assert bets[id := b] - {id} == bets;
  }

  /** No row of `after` weighs more than it did in `before`, and no row is new. */
  ghost predicate NoHeavier(before: Bets, after: Bets, m: Measure) {
    && (forall id :: id in after ==> id in before && Weight(m, after[id]) <= Weight(m, before[id]))
    && (forall id :: id in before && id !in after ==> Weight(m, before[id]) >= 0)
  }

  lemma {:induction false} SumNoHeavier(before: Bets, after: Bets, m: Measure)
    requires NoHeavier(before, after, m)
    ensures Sum(after, m) <= Sum(before, m)
    decreases |before|
  {
    if before == map[] {
      assert after == map[];
    } else {
      var id :| id in before;
      SumRemove(before, m, id);
      if id in after {
        SumRemove(after, m, id);
      } else {
        assert after - {id} == after;
      }
      SumNoHeavier(before - {id}, after - {id}, m);
    }
  }

  lemma {:induction false} SumSplits(bets: Bets, whole: Measure, part: Measure, rest: Measure)
    requires forall b :: Weight(whole, b) == Weight(part, b) + Weight(rest, b)
    ensures Sum(bets, whole) == Sum(bets, part) + Sum(bets, rest)
    decreases |bets|
  {
    if bets != map[] {
      var id :| id in bets;
      SumRemove(bets, whole, id);
      SumRemove(bets, part, id);
      SumRemove(bets, rest, id);
      SumSplits(bets - {id}, whole, part, rest);
    }
  }

  lemma {:induction false} SumAtMost(bets: Bets, small: Measure, large: Measure)
    requires forall id :: id in bets ==> Weight(small, bets[id]) <= Weight(large, bets[id])
    ensures Sum(bets, small) <= Sum(bets, large)
    decreases |bets|
  {
    if bets != map[] {
      var id :| id in bets;
      SumRemove(bets, small, id);
      SumRemove(bets, large, id);
      SumAtMost(bets - {id}, small, large);
    }
  }

  /** The session totals, accumulated row by row as the accounting query reads them. */
  method SessionAccounting(bets: Bets, w: WalletId) returns (wagered: int, won: int, net: int)
    ensures wagered == Sum(bets, Wagered(w)) && won == Sum(bets, Won(w))
    ensures net == Sum(bets, Net(w))
  {
    wagered, won := 0, 0;
    var left := bets;
    while left != map[]
      invariant wagered + Sum(left, Wagered(w)) == Sum(bets, Wagered(w))
      invariant won + Sum(left, Won(w)) == Sum(bets, Won(w))
      decreases |left|
    {
      var id :| id in left;
      var b := left[id];
      SumRemove(left, Wagered(w), id);
      SumRemove(left, Won(w), id);
      if b.wallet == w {
        if IsWagered(b.status) { wagered := wagered + b.amount; }
        if IsWon(b.status) { won := won + b.payout; }
      }
      left := left - {id};
    }
    net := wagered - won;
    SumSplits(bets, Wagered(w), Net(w), Won(w));
  }
}
