/** The crash distribution, counted exactly over all 52-bit hash values. */
module Crash {
  import opened Money

  /** 2^52: thirteen hex digits of the keyed hash are used. */
  const E: nat := 0x10_0000_0000_0000

  /** One minus the house edge, in hundredths. */
  const FACTOR: nat := 97

  type Nibble = x: nat | x < 16

  function HexValue(digits: seq<Nibble>): nat {
    if digits == [] then 0 else 16 * HexValue(digits[..|digits| - 1]) + digits[|digits| - 1]
  }

  function Pow16(n: nat): nat {
    if n == 0 then 1 else 16 * Pow16(n - 1)
  }

  lemma {:induction false} HexBound(digits: seq<Nibble>)
    ensures HexValue(digits) < Pow16(|digits|)
  {
    if digits != [] {
      HexBound(digits[..|digits| - 1]);
    }
  }

  lemma ThirteenDigits()
    ensures Pow16(13) == E
  {
    assert Pow16(4) == 65_536;
    assert Pow16(8) == 65_536 * 65_536;
    assert Pow16(12) == 65_536 * 65_536 * 65_536;
  }

  /** The hash value that the first thirteen digits of a digest stand for. */
  function HashValue(hex: seq<Nibble>): (h: nat)
    requires |hex| >= 13
    ensures h < E
  {
    HexBound(hex[..13]);
    ThirteenDigits();
    HexValue(hex[..13])
  }

  /** Digits read from the left: the first one that differs decides which value is smaller. */
  lemma {:induction false} HexOrder(a: seq<Nibble>, b: seq<Nibble>, k: nat)
    requires |a| == |b| && k < |a| && a[..k] == b[..k] && a[k] < b[k]
    ensures HexValue(a) < HexValue(b)
  {
    var n := |a| - 1;
    if k == n {
      assert a[..n] == b[..n];
    } else {
      assert a[..n][..k] == a[..k] && b[..n][..k] == b[..k];
      HexOrder(a[..n], b[..n], k);
    }
  }

  lemma {:induction false} FirstDifference(a: seq<Nibble>, b: seq<Nibble>) returns (k: nat)
    requires |a| == |b| && a != b
    ensures k < |a| && a[..k] == b[..k] && a[k] != b[k]
  {
    if a[0] != b[0] {
      k := 0;
    } else {
      assert a == [a[0]] + a[1..] && b == [b[0]] + b[1..];
      k := FirstDifference(a[1..], b[1..]);
      k := k + 1;
    }
  }

  /** The digits of a value. */
  function HexDigits(h: nat, n: nat): (digits: seq<Nibble>)
    requires h < Pow16(n)
    ensures |digits| == n && HexValue(digits) == h
  {
    if n == 0 then [] else HexDigits(h / 16, n - 1) + [h % 16]
  }

  /** The first thirteen digits decide the hash value, read from the left, and nothing else does. */
  lemma HashValueOrder(a: seq<Nibble>, b: seq<Nibble>)
    requires |a| >= 13 && |b| >= 13
    ensures HashValue(a) == HashValue(b) <==> a[..13] == b[..13]
    ensures forall k: nat :: k < 13 && a[..k] == b[..k] && a[k] < b[k] ==> HashValue(a) < HashValue(b)
  {
    forall k: nat | k < 13 && a[..k] == b[..k] && a[k] < b[k]
      ensures HashValue(a) < HashValue(b)
    {
      assert a[..13][..k] == b[..13][..k];
      HexOrder(a[..13], b[..13], k);
    }
    if a[..13] != b[..13] {
      var k := FirstDifference(a[..13], b[..13]);
      if a[k] < b[k] {
        HexOrder(a[..13], b[..13], k);
      } else {
        HexOrder(b[..13], a[..13], k);
      }
    }
  }

  /** And every 52-bit value is that of some digits: digests spread evenly make values spread evenly. */
  lemma HashValueIsReached(h: nat) returns (digits: seq<Nibble>)
    requires h < E
    ensures |digits| == 13 && HashValue(digits) == h
  {
    ThirteenDigits();
    digits := HexDigits(h, 13);
    assert digits[..13] == digits;
  }

  /** The crash point in hundredths: clamped to 1.00x, capped at 1,000,000.00x. */
  function CrashCents(h: nat): (c: nat)
    ensures 100 <= c <= MAX_CENTS
  {
    var cents := FACTOR * (E + 1) / (h + 1);
    if cents < 100 then 100 else if cents > MAX_CENTS then MAX_CENTS else cents
  }

  /** A cash-out at `target` is paid: the gate wants the crash strictly above it. */
  predicate IsPaid(h: nat, target: nat) {
    target < CrashCents(h)
  }

  /** How many hash values pay a target. */
  function PaidHashes(target: nat): nat {
    FACTOR * (E + 1) / (target + 1)
  }

  lemma QuotientAtLeast(n: nat, d: nat, q: nat)
    requires d > 0
    ensures n / d >= q <==> n >= q * d
  {
    var r := n - n / d * d;
    assert 0 <= r < d;
    if n / d >= q {
      assert n / d * d >= q * d;
    } else {
      assert (n / d + 1) * d <= q * d;
    }
  }

  /** The paid hash values are exactly the smallest ones. */
  lemma PaidIsBelow(h: nat, target: nat)
    requires 100 <= target < MAX_CENTS
    ensures IsPaid(h, target) <==> h < PaidHashes(target)
  {
    var n := FACTOR * (E + 1);
    QuotientAtLeast(n, h + 1, target + 1);
    QuotientAtLeast(n, target + 1, h + 1);
    assert (target + 1) * (h + 1) == (h + 1) * (target + 1);
  }

  lemma PaidAreFew(target: nat)
    requires 100 <= target
    ensures PaidHashes(target) <= E
  {
    QuotientAtLeast(FACTOR * (E + 1), target + 1, E + 1);
    assert (E + 1) * (target + 1) >= (E + 1) * 101;
  }

  /** The numbers below `n`. */
  function Range(n: nat): set<nat> {
    if n == 0 then {} else Range(n - 1) + {n - 1}
  }

  lemma {:induction false} RangeSize(n: nat)
    ensures |Range(n)| == n && forall h: nat :: h in Range(n) <==> h < n
  {
    if n > 0 {
      RangeSize(n - 1);
    }
  }

  /** The house edge, exactly: of the 2^52 hash values, floor(97 * (2^52 + 1) / (target + 1)) pay. */
  lemma CountOfPaid(target: nat)
    requires 100 <= target < MAX_CENTS
    ensures |set h: nat | h < E && IsPaid(h, target)| == PaidHashes(target)
  {
    PaidAreFew(target);
    RangeSize(PaidHashes(target));
    forall h: nat
      ensures h < E && IsPaid(h, target) <==> h in Range(PaidHashes(target))
    {
      PaidIsBelow(h, target);
    }
    assert (set h: nat | h < E && IsPaid(h, target)) == Range(PaidHashes(target));
  }

  /** What a stake with one target pays, summed over the hash values below `n`. */
  function TotalPaid(stake: nat, target: nat, n: nat): nat {
    if n == 0 then 0
    else TotalPaid(stake, target, n - 1) + (if IsPaid(n - 1, target) then FloorPayout(stake, target) else 0)
  }

  lemma {:induction false} TotalIsCount(stake: nat, target: nat, n: nat)
    requires 100 <= target < MAX_CENTS
    ensures TotalPaid(stake, target, n) ==
      (if n < PaidHashes(target) then n else PaidHashes(target)) * FloorPayout(stake, target)
  {
    if n > 0 {
      TotalIsCount(stake, target, n - 1);
      PaidIsBelow(n - 1, target);
      if n <= PaidHashes(target) {
        assert n * FloorPayout(stake, target) == (n - 1) * FloorPayout(stake, target) + FloorPayout(stake, target);
      }
    } else {
      assert 0 * FloorPayout(stake, target) == 0;
    }
  }

  /** Whatever the stake and the target, all payouts together return at most 97 percent of the
      stakes (with 2^52 + 1 in place of 2^52): no target beats the house. */
  lemma HouseEdge(stake: nat, target: nat)
    requires 100 <= target < MAX_CENTS
    ensures 100 * TotalPaid(stake, target, E) <= stake * (FACTOR * (E + 1))
  {
    var paid, each := PaidHashes(target), FloorPayout(stake, target);
    PaidAreFew(target);
    TotalIsCount(stake, target, E);
    EdgeOf(stake, target, paid, each);
  }

  lemma EdgeOf(stake: nat, target: nat, paid: nat, each: nat)
    requires paid == FACTOR * (E + 1) / (target + 1) && 100 * each <= stake * target
    ensures 100 * (paid * each) <= stake * (FACTOR * (E + 1))
  {
    var n := FACTOR * (E + 1);
    QuotientAtLeast(n, target + 1, paid);
    assert paid * (target + 1) <= n;
    assert paid * (100 * each) <= paid * (stake * target);
    assert paid * (stake * target) == stake * (paid * target);
    assert paid * target <= n by { assert paid * target <= paid * (target + 1); }
    assert stake * (paid * target) <= stake * n;
    assert 100 * (paid * each) == paid * (100 * each);
  }
}
