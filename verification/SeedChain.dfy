/** The seed chain: committed backwards, revealed forwards. The hash is any function on seeds. */
module SeedChain {
  /** `n`-fold hashing. */
  function HashTimes<T>(hash: T -> T, n: nat, seed: T): T {
    if n == 0 then seed else HashTimes(hash, n - 1, hash(seed))
  }

  predicate VerifyChainLink<T(==)>(hash: T -> T, seed: T, prevSeed: T) {
    hash(seed) == prevSeed
  }

  /** Every link verifies. */
  ghost predicate IsChain<T>(hash: T -> T, chain: seq<T>) {
    forall i :: 0 <= i < |chain| - 1 ==> VerifyChainLink(hash, chain[i + 1], chain[i])
  }

  /** The chain of a last seed: each element hashes to the one before it. */
  function ChainOf<T>(hash: T -> T, last: T, length: nat): (chain: seq<T>)
    ensures |chain| == length
  {
    if length == 0 then [] else ChainOf(hash, hash(last), length - 1) + [last]
  }

  lemma {:induction false} ChainOfIsChain<T>(hash: T -> T, last: T, length: nat)
    ensures IsChain(hash, ChainOf(hash, last, length))
    ensures length > 0 ==> ChainOf(hash, last, length)[length - 1] == last
  {
    if length > 1 {
      ChainOfIsChain(hash, hash(last), length - 1);
    }
  }

  /** A chain is determined by its last element. */
  lemma {:induction false} OnlyChain<T>(hash: T -> T, chain: seq<T>)
    requires |chain| > 0 && IsChain(hash, chain)
    ensures chain == ChainOf(hash, chain[|chain| - 1], |chain|)
  {
    if |chain| > 1 {
      var init := chain[..|chain| - 1];
      assert VerifyChainLink(hash, chain[|chain| - 1], chain[|chain| - 2]);
      forall i | 0 <= i < |init| - 1
        ensures VerifyChainLink(hash, init[i + 1], init[i])
      {
        assert VerifyChainLink(hash, chain[i + 1], chain[i]);
      }
      OnlyChain(hash, init);
    } else {
      assert ChainOf(hash, hash(chain[0]), 0) == [];
    }
  }

  /** Filled from the random last seed down to the public commit; too short a chain is refused. */
  method GenerateSeedChain<T(0)>(hash: T -> T, random: T, length: nat) returns (ok: bool, chain: array<T>)
    ensures ok <==> length >= 2
    ensures fresh(chain) && (ok ==> chain[..] == ChainOf(hash, random, length) && IsChain(hash, chain[..]))
  {
    chain := new T[length];
    if length < 2 {
      return false, chain;
    }
    chain[length - 1] := random;
    var i := length - 1;
    while i > 0
      invariant 0 <= i <= length - 1 && chain[length - 1] == random
      invariant forall j :: i <= j < length - 1 ==> VerifyChainLink(hash, chain[j + 1], chain[j])
    {
      i := i - 1;
      chain[i] := hash(chain[i + 1]);
    }
    OnlyChain(hash, chain[..]);
    ok := true;
  }

  /** The seed at index k hashes back, k times, to the commit. */
  lemma {:induction false} HashesBackToCommit<T>(hash: T -> T, chain: seq<T>, k: nat)
    requires IsChain(hash, chain) && k < |chain|
    ensures HashTimes(hash, k, chain[k]) == chain[0]
  {
    if k > 0 {
      assert hash(chain[k]) == chain[k - 1];
      HashesBackToCommit(hash, chain, k - 1);
    }
  }

  /**
   * The commit binds the operator: if two seed sequences both verify link by link back to one
   * commit, they are the same as far as both go, or somewhere two different seeds collide
   * under the hash.
   */
  lemma {:induction false} CommitBinds<T>(hash: T -> T, a: seq<T>, b: seq<T>, k: nat) returns (at: nat)
    requires IsChain(hash, a) && IsChain(hash, b) && k < |a| && k < |b| && a[0] == b[0]
    ensures a[k] == b[k] || (0 < at <= k && a[at] != b[at] && hash(a[at]) == hash(b[at]))
  {
    at := 0;
    if k > 0 {
      at := CommitBinds(hash, a, b, k - 1);
      if a[k - 1] == b[k - 1] {
        assert a[k - 1] == hash(a[k]) && b[k - 1] == hash(b[k]);
        at := k;
      }
    }
  }
}
