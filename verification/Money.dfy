/** Payout and risk arithmetic over integer minor units and integer hundredths. */
module Money {
  import opened Domain

  /** The highest multiplier a round can have: 1,000,000.00x. */
  const MAX_CENTS: nat := 100_000_000

  datatype RiskLimits = RiskLimits(maxWinPerBet: nat, maxMultiplier: nat, maxRoundExposure: nat)

  function FloorPayout(stake: nat, mult: nat): (p: nat)
    ensures 100 * p <= stake * mult < 100 * (p + 1)
  {
    stake * mult / 100
  }

  /** A per-bet cap can only tighten the house cap. */
  function CapPayout(limits: RiskLimits, payout: nat, cap: Option<nat>): (p: nat)
    ensures p <= payout && p <= limits.maxWinPerBet && (cap.Some? ==> p <= cap.value)
    ensures p < payout ==> p == limits.maxWinPerBet || (cap.Some? && p == cap.value)
  {
    var house := limits.maxWinPerBet;
    var effective := if cap.Some? && cap.value < house then cap.value else house;
    if payout > effective then effective else payout
  }

  function PotentialPayout(limits: RiskLimits, stake: nat): nat {
    var uncapped := stake * limits.maxMultiplier;
    if uncapped < limits.maxWinPerBet then uncapped else limits.maxWinPerBet
  }

  /** What a cash-out of `b` at `mult` pays. */
  function PayoutAt(limits: RiskLimits, b: Bet, mult: nat): nat {
    CapPayout(limits, FloorPayout(b.amount, mult), b.cap)
  }

  /** What the source promises a cash-out pays, said of the amount alone: the largest whole amount
      that is not above stake times multiplier, the house cap, or the bet's own cap. */
  predicate MayPay(limits: RiskLimits, b: Bet, mult: nat, p: nat) {
    100 * p <= b.amount * mult && p <= limits.maxWinPerBet && (b.cap.Some? ==> p <= b.cap.value)
  }

  ghost predicate IsPayout(limits: RiskLimits, b: Bet, mult: nat, p: nat) {
    MayPay(limits, b, mult, p) && forall q: nat :: MayPay(limits, b, mult, q) ==> q <= p
  }

  lemma PayoutIsExact(limits: RiskLimits, b: Bet, mult: nat)
    ensures IsPayout(limits, b, mult, PayoutAt(limits, b, mult))
  {
    var floor := FloorPayout(b.amount, mult);
    forall q: nat | MayPay(limits, b, mult, q)
      ensures q <= PayoutAt(limits, b, mult)
    {
      assert q <= floor;
    }
  }

  /** What the breaker reserves for a stake: the tighter of the highest win and the house cap. */
  lemma PotentialIsTighter(limits: RiskLimits, stake: nat)
    ensures var p := PotentialPayout(limits, stake);
      && p <= stake * limits.maxMultiplier && p <= limits.maxWinPerBet
      && (p == stake * limits.maxMultiplier || p == limits.maxWinPerBet)
  {
  }

  /** The exposure breaker reserves at least what any cash-out below the highest
      crash point can pay, provided the configured multiplier covers that crash point. */
  lemma PayoutWithinPotential(limits: RiskLimits, b: Bet, mult: nat)
    requires mult <= MAX_CENTS && 1_000_000 <= limits.maxMultiplier
    ensures PayoutAt(limits, b, mult) <= PotentialPayout(limits, b.amount)
  {
    var p := FloorPayout(b.amount, mult);
    assert b.amount * mult <= b.amount * MAX_CENTS;
    assert 100 * p <= 100 * (b.amount * 1_000_000);
    assert b.amount * 1_000_000 <= b.amount * limits.maxMultiplier;
  }
}
