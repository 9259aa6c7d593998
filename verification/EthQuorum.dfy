/** The salt oracle: a vote among all configured endpoints on the hash of a finalized block. */
module EthQuorum {
  import opened Domain

  type Hash = nat

  /** What one endpoint brings: no answer, a head below the target, or the block, which may lack a hash. */
  datatype Response = Down | NotFinalized | Block(hash: Option<Hash>)

  datatype Outcome = Agreed(hash: Hash) | NotYet | Underprovisioned

  predicate Votes(r: Response, h: Hash) {
    r == Block(Some(h))
  }

  function Count(rs: seq<Response>, h: Hash): nat {
    if rs == [] then 0 else Count(rs[..|rs| - 1], h) + (if Votes(rs[|rs| - 1], h) then 1 else 0)
  }

  /** A majority of all configured endpoints, whether they answer or not. */
  function Need(n: nat): nat {
    n / 2 + 1
  }

  /** Visit every endpoint, tally the votes, and take the top hash if it is alone and has a majority. */
  method FinalizedBlockHash(rs: seq<Response>, minRpcs: nat) returns (r: Outcome)
    ensures r.Underprovisioned? <==> |rs| < minRpcs
    ensures |rs| >= minRpcs ==> forall h :: r == Agreed(h) <==> 2 * Count(rs, h) > |rs|
  {
    if |rs| < minRpcs {
      return Underprovisioned;
    }
    var votes: map<Hash, nat> := map[];
    var finalizedSomewhere := false;
    for i := 0 to |rs|
      invariant forall h :: Count(rs[..i], h) == if h in votes then votes[h] else 0
      invariant forall h :: h in votes ==> votes[h] > 0
      invariant !finalizedSomewhere ==> votes == map[]
    {
      assert rs[..i + 1][..i] == rs[..i];
      if rs[i].Block? {
        finalizedSomewhere := true;
        if rs[i].hash.Some? {
          var h := rs[i].hash.value;
          votes := votes[h := (if h in votes then votes[h] else 0) + 1];
        }
      }
    }
    assert rs[..|rs|] == rs;
    if !finalizedSomewhere {
      return NotYet;
    }
    var best, bestN := BestOf(votes);
    var tied := IsTied(votes, bestN);
    forall h, h' | h != h'
      ensures Count(rs, h) + Count(rs, h') <= |rs|
    {
      TwoTallies(rs, h, h');
    }
    if bestN == 0 || tied {
      return NotYet;
    }
    r := if bestN >= Need(|rs|) then Agreed(best) else NotYet;
  }

  method BestOf(votes: map<Hash, nat>) returns (best: Hash, bestN: nat)
    ensures bestN > 0 ==> best in votes && votes[best] == bestN
    ensures forall h :: h in votes ==> votes[h] <= bestN
  {
    best, bestN := 0, 0;
    var left := votes.Keys;
    while left != {}
      invariant left <= votes.Keys
      invariant bestN > 0 ==> best in votes && votes[best] == bestN
      invariant forall h :: h in votes && h !in left ==> votes[h] <= bestN
      decreases |left|
    {
      var h :| h in left;
      if votes[h] > bestN {
        best, bestN := h, votes[h];
      }
      left := left - {h};
    }
  }

  /** Is the top count reached by more than one hash? */
  method IsTied(votes: map<Hash, nat>, top: nat) returns (tied: bool)
    ensures tied <==> exists h, h' :: h in votes && h' in votes && h != h' && votes[h] == top && votes[h'] == top
  {
    var seen: set<Hash> := {};
    var left := votes.Keys;
    while left != {}
      invariant left <= votes.Keys
      invariant forall h :: h in seen <==> h in votes && h !in left && votes[h] == top
      invariant forall h, h' :: h in seen && h' in seen ==> h == h'
      decreases |left|
    {
      var h :| h in left;
      left := left - {h};
      if votes[h] == top {
        if seen != {} {
          var other :| other in seen;
          assert other != h;
          return true;
        }
        seen := {h};
      }
    }
    tied := false;
  }

  lemma {:induction false} TwoTallies(rs: seq<Response>, h: Hash, h': Hash)
    requires h != h'
    ensures Count(rs, h) + Count(rs, h') <= |rs|
  {
    if rs != [] {
      TwoTallies(rs[..|rs| - 1], h, h');
    }
  }

  // ----- order does not matter -----

  lemma {:induction false} CountIsMultiplicity(rs: seq<Response>, h: Hash)
    ensures Count(rs, h) == multiset(rs)[Block(Some(h))]
  {
    if rs != [] {
      CountIsMultiplicity(rs[..|rs| - 1], h);
      assert rs == rs[..|rs| - 1] + [rs[|rs| - 1]];
    }
  }

  /** The tallies, and with them the result, do not depend on the order of the visits. */
  lemma OrderDoesNotMatter(a: seq<Response>, b: seq<Response>, h: Hash)
    requires multiset(a) == multiset(b)
    ensures |a| == |b| && (Count(a, h) >= Need(|a|) <==> Count(b, h) >= Need(|b|))
  {
    CountIsMultiplicity(a, h);
    CountIsMultiplicity(b, h);
    assert |multiset(a)| == |a| && |multiset(b)| == |b|;
  }

  // ----- dishonest minorities -----

  function Dishonest(honest: seq<bool>): nat {
    if honest == [] then 0 else Dishonest(honest[..|honest| - 1]) + (if honest[|honest| - 1] then 0 else 1)
  }

  /** More votes than there are liars: an honest endpoint is among the voters. */
  lemma {:induction false} HonestVoter(rs: seq<Response>, honest: seq<bool>, h: Hash) returns (i: nat)
    requires |rs| == |honest| && Count(rs, h) > Dishonest(honest)
    ensures i < |rs| && honest[i] && Votes(rs[i], h)
  {
    var n := |rs| - 1;
    if honest[n] && Votes(rs[n], h) {
      i := n;
    } else {
      i := HonestVoter(rs[..n], honest[..n], h);
    }
  }

  /** An honest endpoint never reports a hash other than the finalized one. */
  ghost predicate HonestTellTruth(rs: seq<Response>, honest: seq<bool>, truth: Hash) {
    |rs| == |honest| && forall i, h :: 0 <= i < |rs| && honest[i] && Votes(rs[i], h) ==> h == truth
  }

  /**
   * With fewer liars than a majority of the configured endpoints, and any outages, two calls
   * can agree on a hash only if it is the finalized one, and in each an honest endpoint
   * reported it; so no two calls return different hashes.
   */
  lemma QuorumIsSafe(a: seq<Response>, b: seq<Response>, honest: seq<bool>, truth: Hash, h: Hash, h': Hash)
    requires HonestTellTruth(a, honest, truth) && HonestTellTruth(b, honest, truth)
    requires Dishonest(honest) < Need(|honest|)
    requires Count(a, h) >= Need(|a|) && Count(b, h') >= Need(|b|)
    ensures h == h' == truth
    ensures exists i :: 0 <= i < |a| && honest[i] && Votes(a[i], h)
  {
    var i := HonestVoter(a, honest, h);
    var j := HonestVoter(b, honest, h');
  }

  /** One liar more, and the guarantee is gone: a majority of liars can make any hash agreed. */
  lemma MajorityOfLiarsWins(honest: seq<bool>, truth: Hash, h: Hash) returns (rs: seq<Response>)
    requires Dishonest(honest) >= Need(|honest|)
    ensures HonestTellTruth(rs, honest, truth) && Count(rs, h) >= Need(|rs|)
  {
    rs := Lies(honest, truth, h);
    LiesCount(honest, truth, h);
  }

  function Lies(honest: seq<bool>, truth: Hash, h: Hash): (rs: seq<Response>)
    ensures |rs| == |honest| && forall i :: 0 <= i < |rs| ==> rs[i] == Block(Some(if honest[i] then truth else h))
  {
    seq(|honest|, i requires 0 <= i < |honest| => Block(Some(if honest[i] then truth else h)))
  }

  lemma {:induction false} LiesCount(honest: seq<bool>, truth: Hash, h: Hash)
    ensures Count(Lies(honest, truth, h), h) >= Dishonest(honest)
  {
    if honest != [] {
      var init := honest[..|honest| - 1];
      LiesCount(init, truth, h);
      assert Lies(honest, truth, h)[..|honest| - 1] == Lies(init, truth, h);
    }
  }
}
