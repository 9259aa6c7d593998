/** The fairness service: each method leaves the stored epochs as the functions of `Epochs` say. */
module Fairness {
  import opened Domain
  import opened SeedChain
  import opened Epochs

  class FairnessService {
    const settings: Settings
    var epochs: EpochMap
    ghost var served: seq<Served>

    ghost function Shot(): Snapshot
      reads this
    {
      Snapshot(epochs, served)
    }

    ghost predicate Valid()
      reads this
    {
      Inv(settings, Shot())
    }

    /** Any store whose epochs are in order can be taken over; nothing has been served by us yet. */
    constructor (settings: Settings, epochs: EpochMap)
      requires Startable(settings, epochs)
      ensures Valid() && this.settings == settings && Shot() == Snapshot(epochs, [])
    {
      this.settings, this.epochs, this.served := settings, epochs, [];
    }

    /** The epoch with a status: the newest live one, the oldest queued one. */
    method Find(status: EpochStatus) returns (found: Option<EpochNo>)
      ensures found == First(epochs, status)
    {
      found := None;
      var left := epochs.Keys;
      while left != {}
        invariant left <= epochs.Keys
        invariant found.Some? ==> found.value in epochs && epochs[found.value].status == status
        invariant found.Some? ==> forall n :: n in epochs && n !in left && epochs[n].status == status ==>
          if status.Live? then n <= found.value else found.value <= n
        invariant found.None? ==> forall n :: n in epochs && n !in left ==> epochs[n].status != status
        decreases |left|
      {
        var n :| n in left;
        if epochs[n].status == status {
          if found.None? || (if status.Live? then n > found.value else n < found.value) {
            found := Some(n);
          }
        }
        left := left - {n};
      }
      assert found.Some? ==> IsFirst(epochs, status, found.value);
    }

    method Move(n: EpochNo, status: EpochStatus, salt: Option<Salt>)
      requires n in epochs
      modifies `epochs
      ensures epochs == Moved(old(epochs), n, status, salt)
    {
      epochs := epochs[n := epochs[n].(status := status, salt := salt)];
    }

    method FindServable(status: EpochStatus) returns (found: Option<EpochNo>)
      modifies `epochs
      ensures (epochs, found) == Servable(settings, old(epochs), status)
    {
      found := Find(status);
      if found.Some? && settings.strict && !epochs[found.value].source.EthBlock? {
        Move(found.value, Exhausted, epochs[found.value].salt);
        found := None;
      }
    }

    /** The active epoch, retiring, promoting, arming or creating one as needed; none means a stall. */
    method EnsureActiveChain(oracle: Oracle) returns (chain: Option<EpochNo>)
      requires Valid()
      modifies `epochs
      ensures Valid() && (epochs, chain) == Ensure(settings, old(epochs), oracle)
      ensures Serves(settings, old(Shot()), epochs, chain)
      ensures ServesWhatItCan(settings, old(epochs), epochs, chain, oracle)
    {
      EnsureServes(settings, Shot(), oracle);
      EnsureServesWhatItCan(settings, Shot(), oracle);
      chain := FindServable(Live);
      if chain.Some? {
        return;
      }
      chain := FindServable(Armed);
      if chain.Some? {
        Move(chain.value, Live, epochs[chain.value].salt);
        return;
      }
      chain := ArmOrCreate(oracle);
    }

    method ArmOrCreate(oracle: Oracle) returns (chain: Option<EpochNo>)
      requires settings.chainLength >= 2
      modifies `epochs
      ensures (epochs, chain) == Epochs.ArmOrCreate(settings, old(epochs), oracle)
    {
      chain := Find(Pending);
      if chain.Some? {
        var salt := Resolve(settings.provider, epochs[chain.value], oracle);
        if salt.Some? {
          Move(chain.value, Live, salt);
          return;
        }
      }
      chain := CreateEpoch(true, oracle);
    }

    method NextNumber() returns (next: EpochNo)
      ensures next == NextNo(epochs.Keys)
    {
      next := 0;
      var left := epochs.Keys;
      while left != {}
        invariant left <= epochs.Keys
        invariant forall n :: n in epochs && n !in left ==> n < next
        invariant next == 0 || next - 1 in epochs
        decreases |left|
      {
        var n :| n in left;
        if n >= next {
          next := n + 1;
        }
        left := left - {n};
      }
    }

    /** Open a new epoch; none is opened, and nothing changes, when strict mode refuses the salt. */
    method CreateEpoch(activate: bool, oracle: Oracle) returns (created: Option<EpochNo>)
      requires settings.chainLength >= 2
      modifies `epochs
      ensures (epochs, created) == Create(settings, old(epochs), activate, oracle)
      ensures created.None? ==> epochs == old(epochs)
      ensures created.Some? ==>
        && created.value !in old(epochs) && epochs.Keys == old(epochs).Keys + {created.value}
        && IsFresh(settings, epochs[created.value], oracle)
        && forall n :: n in old(epochs) ==> epochs[n] == old(epochs)[n]
    {
      CreatedIsFresh(settings, epochs, activate, oracle);
      var n := NextNumber();
      var c := ChooseSalt(settings, activate, oracle);
      if c.None? {
        return None;
      }
      var status := if c.value.salt.None? then Pending else if activate then Live else Armed;
      var ok, chain := GenerateSeedChain(settings.hash, oracle.randomSeed, settings.chainLength);
      epochs := epochs[n := Epoch(c.value.source, c.value.targetBlock, c.value.salt, status, chain[..], {})];
      created := Some(n);
    }

    /** Arm every pending epoch whose block is finalized; then pre-commit the next epoch. */
    method Maintain(oracle: Oracle)
      requires Valid()
      modifies `epochs
      ensures Valid() && epochs == Upkeep(settings, old(epochs), oracle) && Kept(old(epochs), epochs)
      ensures ArmsAll(settings, old(epochs), epochs, oracle)
      ensures forall n :: n in epochs && n !in old(epochs) ==> PreCommitted(settings, epochs[n], oracle)
      ensures SomeLive(old(epochs)) && !SomeQueued(epochs) ==> settings.Strict() && oracle.head.None?
    {
      UpkeepKeepsInv(settings, Shot(), oracle);
      AllArmedKeepsInv(settings, Shot(), oracle);
      ArmPending(oracle);
      var active := Find(Live);
      FirstIsTheOne(epochs, Live);
      var queued := AnyQueued();
      if active.Some? && !queued {
        var _ := CreateEpoch(false, oracle);
      }
    }

    method ArmPending(oracle: Oracle)
      modifies `epochs
      ensures epochs == AllArmed(settings, old(epochs), oracle)
    {
      var left := epochs.Keys;
      while left != {}
        invariant left <= epochs.Keys == old(epochs).Keys
        invariant forall n :: n in epochs ==>
          epochs[n] == if n in left then old(epochs)[n] else ArmedIf(settings, old(epochs)[n], oracle)
        decreases |left|
      {
        var n :| n in left;
        if epochs[n].status.Pending? {
          var salt := Resolve(settings.provider, epochs[n], oracle);
          if salt.Some? {
            Move(n, Armed, salt);
          }
        }
        left := left - {n};
      }
    }

    method AnyQueued() returns (any: bool)
      ensures any <==> SomeQueued(epochs)
    {
      var left := epochs.Keys;
      while left != {}
        invariant left <= epochs.Keys && forall n :: n in epochs && n !in left ==> !Queued(epochs[n])
        decreases |left|
      {
        var n :| n in left;
        if Queued(epochs[n]) {
          return true;
        }
        left := left - {n};
      }
      any := false;
    }

    /** The lowest index, from one up, that no round has used. */
    method NextUnusedSeed(n: EpochNo) returns (index: Option<nat>)
      requires n in epochs
      ensures index == NextIndex(epochs[n], 1)
    {
      var e := epochs[n];
      var i := 1;
      while i < |e.seeds| && i in e.used
        invariant 1 <= i && NextIndex(e, i) == NextIndex(e, 1)
        decreases |e.seeds| - i
      {
        i := i + 1;
      }
      index := if i < |e.seeds| then Some(i) else None;
    }

    method AllocateSeed(oracle: Oracle) returns (seed: Allocation)
      requires Valid()
      modifies `epochs
      ensures Valid() && (epochs, seed) == Allocate(settings, old(epochs), oracle)
      ensures Allocates(settings, old(Shot()), epochs, seed)
      ensures seed.Stalled? <==> settings.Strict() && NoneReady(settings, old(epochs), oracle)
    {
      AllocateAllocates(settings, Shot(), oracle);
      AllocateStallsInNeedOnly(settings, Shot(), oracle);
      var chain := EnsureActiveChain(oracle);
      if chain.None? {
        return Stalled;
      }
      var index := NextUnusedSeed(chain.value);
      if index.Some? {
        return Seeded(chain.value, index.value);
      }
      seed := RollOver(chain.value, oracle);
    }

    /** The used-up epoch is exhausted, and the next one asked for a seed. */
    method RollOver(n: EpochNo, oracle: Oracle) returns (seed: Allocation)
      requires Valid() && n in epochs && epochs[n].status.Live?
      modifies `epochs
      ensures Valid() && (epochs, seed) == Epochs.RollOver(settings, old(epochs), n, oracle)
      ensures Allocates(settings, old(Shot()), epochs, seed)
    {
      RollOverAllocates(settings, Shot(), n, oracle);
      MoveKeepsInv(settings, Shot(), n, Exhausted, epochs[n].salt);
      Move(n, Exhausted, epochs[n].salt);
      var chain := EnsureActiveChain(oracle);
      if chain.None? {
        return Stalled;
      }
      var index := NextUnusedSeed(chain.value);
      seed := if index.Some? then Seeded(chain.value, index.value) else RanOut;
    }

    /** Open a round: allocate its seed, and bind the seed to the round. */
    method OpenRound(oracle: Oracle) returns (seed: Allocation)
      requires Valid()
      modifies this
      ensures Valid() && Shot() == Epochs.OpenRound(settings, old(Shot()), oracle)
      ensures Kept(old(epochs), epochs) && !seed.RanOut? && (seed.Stalled? ==> served == old(served))
      ensures seed.Stalled? <==> settings.Strict() && NoneReady(settings, old(epochs), oracle)
      ensures seed.Seeded? ==>
        && seed.epoch in epochs && epochs[seed.epoch].salt.Some? && seed.index in epochs[seed.epoch].used
        && served == old(served) + [Served(seed.epoch, seed.index, epochs[seed.epoch].salt.value)]
        && (seed.epoch in old(epochs) ==> seed.index !in old(epochs)[seed.epoch].used)
    {
      OpenKeepsInv(settings, Shot(), oracle);
      seed := AllocateSeed(oracle);
      if seed.Seeded? {
        assert EpochOk(settings.hash, epochs[seed.epoch]);
        served := served + [Served(seed.epoch, seed.index, epochs[seed.epoch].salt.value)];
        epochs := epochs[seed.epoch := epochs[seed.epoch].(used := epochs[seed.epoch].used + {seed.index})];
      }
    }
  }
}
