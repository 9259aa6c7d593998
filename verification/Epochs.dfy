/** Seed epochs: commitment, arming, serving and rollover, in strict and in fallback mode. */
module Epochs {
  import opened Domain
  import opened SeedChain

  type Seed = nat
  type Salt = nat
  type EpochNo = nat

  datatype Source = Random | EthBlock

  datatype EpochStatus = Pending | Armed | Live | Exhausted

  datatype Epoch = Epoch(
    source: Source, targetBlock: Option<nat>, salt: Option<Salt>,
    status: EpochStatus, seeds: seq<Seed>, used: set<nat>)

  type EpochMap = map<EpochNo, Epoch>

  datatype Commitment = Commitment(source: Source, salt: Option<Salt>, targetBlock: Option<nat>)

  /** The answers of the outside world to one operation: the unfinalized head, or no answer; the
      hash of each finalized block that has a quorum; and fresh randomness. */
  datatype Oracle = Oracle(head: Option<nat>, block: nat -> Option<Salt>, randomSalt: Salt, randomSeed: Seed)

  /** A seed that a round was opened with. */
  datatype Served = Served(epoch: EpochNo, index: nat, salt: Salt)

  datatype Settings = Settings(hash: Seed -> Seed, strict: bool, provider: Source, lead: nat, chainLength: nat)
  {
    /** Real-money mode with the block provider, the only one a strict boot accepts. */
    predicate Strict() {
      strict && provider.EthBlock?
    }
  }

  /** The stored epochs, and the seeds that rounds were opened with so far. */
  datatype Snapshot = Snapshot(epochs: EpochMap, served: seq<Served>)

  const MIN_LEAD_BLOCKS: nat := 128

  // ----- salt providers -----

  /** As far ahead of the head as configured, but never less than the reorganisation margin. */
  function TargetAhead(lead: nat, head: nat): (target: nat)
    ensures target >= head + MIN_LEAD_BLOCKS && target >= head + lead
    ensures target == head + MIN_LEAD_BLOCKS || target == head + lead
  {
    head + if lead >= MIN_LEAD_BLOCKS then lead else MIN_LEAD_BLOCKS
  }

  /** Opening a salt commitment; a block commitment names a block that does not exist yet. */
  function Commit(provider: Source, lead: nat, oracle: Oracle): (c: Option<Commitment>)
    ensures c.Some? && provider.EthBlock? ==>
      && c.value.salt.None? && oracle.head.Some? && c.value.source.EthBlock?
      && c.value.targetBlock == Some(TargetAhead(lead, oracle.head.value))
    ensures c.Some? && provider.Random? ==> c.value.salt == Some(oracle.randomSalt) && c.value.source.Random?
    ensures c.None? <==> provider.EthBlock? && oracle.head.None?
  {
    match provider
    case Random => Some(Commitment(Random, Some(oracle.randomSalt), None))
    case EthBlock =>
      if oracle.head.None? then None
      else Some(Commitment(EthBlock, None, Some(TargetAhead(lead, oracle.head.value))))
  }

  /** A salt that is known is never asked for again; block zero counts as no block. */
  function Resolve(provider: Source, e: Epoch, oracle: Oracle): (salt: Option<Salt>)
    ensures e.salt.Some? ==> salt == e.salt
    ensures e.salt.None? && (provider.Random? || e.targetBlock.None? || e.targetBlock == Some(0)) ==> salt == None
    ensures e.salt.None? && provider.EthBlock? && e.targetBlock.Some? && e.targetBlock.value > 0 ==>
      salt == oracle.block(e.targetBlock.value)
  {
    if e.salt.Some? || provider.Random? || e.targetBlock.None? || e.targetBlock.value == 0 then e.salt
    else oracle.block(e.targetBlock.value)
  }

  /** The salt of a new epoch, with the random fallback that only demo mode allows. */
  function ChooseSalt(s: Settings, activate: bool, oracle: Oracle): (c: Option<Commitment>)
    ensures c.None? <==> s.Strict() && (activate || oracle.head.None?)
    ensures c.Some? && activate ==> c.value.salt == Some(oracle.randomSalt) && c.value.source.Random?
    ensures !activate && s.provider.EthBlock? && oracle.head.Some? ==> c == Commit(s.provider, s.lead, oracle)
    ensures c.Some? && (s.provider.Random? || oracle.head.None?) ==>
      c.value.salt == Some(oracle.randomSalt) && c.value.source.Random?
    ensures c.Some? && c.value.salt.None? ==> c.value.source.EthBlock?
    ensures c.Some? && c.value.source.EthBlock? ==> c.value.salt.None?
    ensures c.Some? && s.Strict() ==> !activate && c.value.salt.None?
  {
    var fallback := Some(Commitment(Random, Some(oracle.randomSalt), None));
    var c := Commit(s.provider, s.lead, oracle);
    if c.None? || (activate && c.value.salt.None?) then (if s.strict then None else fallback) else c
  }

  // ----- the operations as functions of the stored epochs -----

  /** The epoch that a query for a status returns: the newest live one, the oldest queued one. */
  ghost predicate IsFirst(epochs: EpochMap, status: EpochStatus, n: EpochNo) {
    && n in epochs && epochs[n].status == status
    && forall m :: m in epochs && epochs[m].status == status ==> if status.Live? then m <= n else n <= m
  }

  ghost function First(epochs: EpochMap, status: EpochStatus): (found: Option<EpochNo>)
    ensures found.Some? ==> IsFirst(epochs, status, found.value)
  {
    if exists n :: IsFirst(epochs, status, n) then
      var n :| IsFirst(epochs, status, n);
      Some(n)
    else None
  }

  /** One more than the highest number there is. */
  ghost function NextNo(numbers: set<EpochNo>): (next: EpochNo)
    ensures forall n :: n in numbers ==> n < next
    ensures next == 0 || next - 1 in numbers
  {
    if numbers == {} then 0
    else
      var n :| n in numbers;
      var next := NextNo(numbers - {n});
      assert forall m :: m in numbers ==> m == n || m in numbers - {n};
      if n >= next then n + 1 else next
  }

  function Moved(epochs: EpochMap, n: EpochNo, status: EpochStatus, salt: Option<Salt>): EpochMap
    requires n in epochs
  {
    epochs[n := epochs[n].(status := status, salt := salt)]
  }

  /** Strict mode never serves an epoch without a block salt: a leftover one is retired. */
  ghost function Servable(s: Settings, epochs: EpochMap, status: EpochStatus): (r: (EpochMap, Option<EpochNo>))
    ensures r.1.Some? ==> r.1.value in r.0
  {
    var found := First(epochs, status);
    if found.Some? && s.strict && !epochs[found.value].source.EthBlock? then
      (Moved(epochs, found.value, Exhausted, epochs[found.value].salt), None)
    else (epochs, found)
  }

  function NewEpoch(s: Settings, c: Commitment, activate: bool, seed: Seed): Epoch {
    var status := if c.salt.None? then Pending else if activate then Live else Armed;
    Epoch(c.source, c.targetBlock, c.salt, status, ChainOf(s.hash, seed, s.chainLength), {})
  }

  /** Open a new epoch: live now if `activate`, else queued. Strict mode stalls rather than take a random salt. */
  ghost function Create(s: Settings, epochs: EpochMap, activate: bool, oracle: Oracle): (r: (EpochMap, Option<EpochNo>))
    ensures r.1.Some? ==> r.1.value in r.0
  {
    var c := ChooseSalt(s, activate, oracle);
    if c.None? then (epochs, None)
    else
      var n := NextNo(epochs.Keys);
      (epochs[n := NewEpoch(s, c.value, activate, oracle.randomSeed)], Some(n))
  }

  /** Nothing is servable: arm the pending epoch now if its block is final, else open a fresh one. */
  ghost function ArmOrCreate(s: Settings, epochs: EpochMap, oracle: Oracle): (r: (EpochMap, Option<EpochNo>))
    ensures r.1.Some? ==> r.1.value in r.0
  {
    var pending := First(epochs, Pending);
    if pending.Some? && Resolve(s.provider, epochs[pending.value], oracle).Some? then
      (Moved(epochs, pending.value, Live, Resolve(s.provider, epochs[pending.value], oracle)), pending)
    else Create(s, epochs, true, oracle)
  }

  /** The active epoch, retiring, promoting, arming or creating one as needed; none means a stall. */
  ghost function Ensure(s: Settings, epochs: EpochMap, oracle: Oracle): (r: (EpochMap, Option<EpochNo>))
    ensures r.1.Some? ==> r.1.value in r.0
  {
    var (one, live) := Servable(s, epochs, Live);
    if live.Some? then (one, live)
    else
      var (two, armed) := Servable(s, one, Armed);
      if armed.Some? then (Moved(two, armed.value, Live, two[armed.value].salt), armed)
      else ArmOrCreate(s, two, oracle)
  }

  function ArmedIf(s: Settings, e: Epoch, oracle: Oracle): Epoch {
    if e.status.Pending? && Resolve(s.provider, e, oracle).Some? then
      e.(status := Armed, salt := Resolve(s.provider, e, oracle))
    else e
  }

  /** Every pending epoch whose block is finalized. */
  function AllArmed(s: Settings, epochs: EpochMap, oracle: Oracle): EpochMap {
    map n | n in epochs :: ArmedIf(s, epochs[n], oracle)
  }

  predicate Queued(e: Epoch) {
    e.status.Pending? || e.status.Armed?
  }

  ghost predicate SomeLive(epochs: EpochMap) {
    exists n :: n in epochs && epochs[n].status.Live?
  }

  ghost predicate SomeQueued(epochs: EpochMap) {
    exists n :: n in epochs && Queued(epochs[n])
  }

  /** Arm what can be armed; then pre-commit the next epoch if the live one has none behind it. */
  ghost function Upkeep(s: Settings, epochs: EpochMap, oracle: Oracle): EpochMap {
    var armed := AllArmed(s, epochs, oracle);
    if SomeLive(armed) && !SomeQueued(armed) then Create(s, armed, false, oracle).0 else armed
  }

  /** The lowest index, from `i` up, that no round has used. */
  function NextIndex(e: Epoch, i: nat): (index: Option<nat>)
    ensures index.Some? ==> i <= index.value < |e.seeds| && index.value !in e.used
    decreases |e.seeds| - i
  {
    if i >= |e.seeds| then None else if i in e.used then NextIndex(e, i + 1) else Some(i)
  }

  /** `RanOut` is the error raised when even the epoch rolled over to has no seed left. */
  datatype Allocation = Seeded(epoch: EpochNo, index: nat) | Stalled | RanOut

  /** The seed of the next round, rolling over to the next epoch when one is used up. */
  ghost function Allocate(s: Settings, epochs: EpochMap, oracle: Oracle): (r: (EpochMap, Allocation))
    ensures r.1.Seeded? ==> r.1.epoch in r.0
  {
    var (one, chain) := Ensure(s, epochs, oracle);
    if chain.None? then (one, Stalled)
    else
      var index := NextIndex(one[chain.value], 1);
      if index.Some? then (one, Seeded(chain.value, index.value))
      else RollOver(s, one, chain.value, oracle)
  }

  ghost function RollOver(s: Settings, epochs: EpochMap, n: EpochNo, oracle: Oracle): (r: (EpochMap, Allocation))
    requires n in epochs
    ensures r.1.Seeded? ==> r.1.epoch in r.0
  {
    var (after, chain) := Ensure(s, Moved(epochs, n, Exhausted, epochs[n].salt), oracle);
    if chain.None? then (after, Stalled)
    else
      var index := NextIndex(after[chain.value], 1);
      if index.Some? then (after, Seeded(chain.value, index.value)) else (after, RanOut)
  }

  /** Binding a seed to a round. */
  function Serve(p: Snapshot, n: EpochNo, i: nat): Snapshot
    requires n in p.epochs && p.epochs[n].salt.Some?
  {
    Snapshot(
      p.epochs[n := p.epochs[n].(used := p.epochs[n].used + {i})],
      p.served + [Served(n, i, p.epochs[n].salt.value)])
  }

  /** Open a round: allocate its seed, and bind the seed to the round. */
  ghost function OpenRound(s: Settings, p: Snapshot, oracle: Oracle): Snapshot {
    var (epochs, a) := Allocate(s, p.epochs, oracle);
    var after := p.(epochs := epochs);
    if a.Seeded? && epochs[a.epoch].salt.Some? then Serve(after, a.epoch, a.index) else after
  }

  datatype Operation = EnsureChain(oracle: Oracle) | Maintain(oracle: Oracle) | Open(oracle: Oracle)

  ghost function Perform(s: Settings, p: Snapshot, op: Operation): Snapshot {
    match op
    case EnsureChain(oracle) => p.(epochs := Ensure(s, p.epochs, oracle).0)
    case Maintain(oracle) => p.(epochs := Upkeep(s, p.epochs, oracle))
    case Open(oracle) => OpenRound(s, p, oracle)
  }

  ghost function PerformAll(s: Settings, p: Snapshot, ops: seq<Operation>): Snapshot {
    if ops == [] then p else Perform(s, PerformAll(s, p, ops[..|ops| - 1]), ops[|ops| - 1])
  }

  // ----- invariants -----

  /** The used indices are a prefix 1..k of the chain; index 0 is the public commit. */
  ghost predicate UsedPrefix(e: Epoch) {
    |e.used| < |e.seeds| && forall i :: i in e.used <==> 1 <= i <= |e.used|
  }

  ghost predicate EpochOk(hash: Seed -> Seed, e: Epoch) {
    && |e.seeds| >= 2 && IsChain(hash, e.seeds) && UsedPrefix(e)
    && (e.status.Armed? || e.status.Live? ==> e.salt.Some?)
    && (e.status.Pending? ==> e.source.EthBlock?)
    && (Queued(e) ==> e.used == {})
  }

  ghost predicate AtMostOne(epochs: EpochMap) {
    && (forall a, b :: a in epochs && b in epochs && epochs[a].status.Live? && epochs[b].status.Live? ==> a == b)
    && (forall a, b :: a in epochs && b in epochs && Queued(epochs[a]) && Queued(epochs[b]) ==> a == b)
  }

  ghost predicate EpochsOk(hash: Seed -> Seed, epochs: EpochMap) {
    AtMostOne(epochs) && forall n :: n in epochs ==> EpochOk(hash, epochs[n])
  }

  /** What is queued comes after what is live, and both after what has been served. */
  ghost predicate Ordered(epochs: EpochMap, served: seq<Served>) {
    && (forall a, b :: a in epochs && b in epochs && epochs[a].status.Live? && Queued(epochs[b]) ==> a < b)
    && (forall j, n :: 0 <= j < |served| && n in epochs && epochs[n].status.Live? ==> served[j].epoch <= n)
    && (forall j, n :: 0 <= j < |served| && n in epochs && Queued(epochs[n]) ==> served[j].epoch < n)
  }

  /** A store that the service can be started on. */
  ghost predicate Startable(s: Settings, epochs: EpochMap) {
    s.chainLength >= 2 && EpochsOk(s.hash, epochs) && (s.Strict() ==> Ordered(epochs, []))
  }

  predicate IsServed(epochs: EpochMap, x: Served) {
    x.epoch in epochs && epochs[x.epoch].salt == Some(x.salt) && x.index in epochs[x.epoch].used
  }

  /** In strict mode: every served seed has a block epoch, and epochs never go back. */
  ghost predicate StrictOk(p: Snapshot) {
    && Ordered(p.epochs, p.served)
    && (forall j :: 0 <= j < |p.served| ==>
          p.served[j].epoch in p.epochs && p.epochs[p.served[j].epoch].source.EthBlock?)
    && (forall j, k :: 0 <= j < k < |p.served| ==> p.served[j].epoch <= p.served[k].epoch)
  }

  /** No seed of an epoch is served twice. */
  ghost predicate IndicesGrow(served: seq<Served>) {
    forall j, k :: 0 <= j < k < |served| && served[j].epoch == served[k].epoch ==> served[j].index < served[k].index
  }

  ghost predicate Inv(s: Settings, p: Snapshot) {
    && s.chainLength >= 2 && EpochsOk(s.hash, p.epochs)
    && (forall j :: 0 <= j < |p.served| ==> IsServed(p.epochs, p.served[j]))
    && IndicesGrow(p.served) && (s.Strict() ==> StrictOk(p))
  }

  /** What no operation ever changes: seeds, source, committed block, and a salt once it is resolved. */
  predicate SameEpoch(before: Epoch, after: Epoch) {
    && after.seeds == before.seeds && after.source == before.source && after.targetBlock == before.targetBlock
    && before.used <= after.used && (before.salt.Some? ==> after.salt == before.salt)
  }

  ghost predicate Kept(before: EpochMap, after: EpochMap) {
    forall n :: n in before ==> n in after && SameEpoch(before[n], after[n])
  }

  lemma KeptTwice(a: EpochMap, b: EpochMap, c: EpochMap)
    requires Kept(a, b) && Kept(b, c)
    ensures Kept(a, c)
  {
  }

  /** An operation on the epochs has kept everything. */
  ghost predicate Holds(s: Settings, before: Snapshot, epochs: EpochMap) {
    Inv(s, before.(epochs := epochs)) && Kept(before.epochs, epochs)
  }

  // ----- single changes -----

  /** The moves of an epoch: pending to armed, queued to live, anything to exhausted. A salt is set at most once. */
  ghost predicate MayMove(epochs: EpochMap, n: EpochNo, status: EpochStatus, salt: Option<Salt>)
    requires n in epochs
  {
    && (epochs[n].salt.Some? ==> salt == epochs[n].salt)
    && match status
       case Exhausted => salt == epochs[n].salt
       case Armed => epochs[n].status.Pending? && salt.Some?
       case Live => Queued(epochs[n]) && salt.Some? && forall m :: m in epochs ==> !epochs[m].status.Live?
       case Pending => false
  }

  lemma MoveKeepsEpochs(hash: Seed -> Seed, epochs: EpochMap, n: EpochNo, status: EpochStatus, salt: Option<Salt>)
    requires EpochsOk(hash, epochs) && n in epochs && MayMove(epochs, n, status, salt)
    ensures EpochsOk(hash, Moved(epochs, n, status, salt)) && Kept(epochs, Moved(epochs, n, status, salt))
  {
    assert EpochOk(hash, epochs[n]);
  }

  lemma MoveKeepsInv(s: Settings, p: Snapshot, n: EpochNo, status: EpochStatus, salt: Option<Salt>)
    requires Inv(s, p) && n in p.epochs && MayMove(p.epochs, n, status, salt)
    ensures Holds(s, p, Moved(p.epochs, n, status, salt))
  {
    MoveKeepsEpochs(s.hash, p.epochs, n, status, salt);
  }

  /** A new epoch takes the next number, so it comes after everything there is. */
  lemma CreateKeepsInv(s: Settings, p: Snapshot, activate: bool, oracle: Oracle)
    requires Inv(s, p) && if activate then !SomeLive(p.epochs) else !SomeQueued(p.epochs)
    ensures var (epochs, created) := Create(s, p.epochs, activate, oracle);
      && Holds(s, p, epochs) && (created.None? ==> s.strict && epochs == p.epochs)
      && (created.Some? ==>
            && created.value !in p.epochs && epochs[created.value].used == {}
            && (if activate then epochs[created.value].status.Live? && !s.Strict() else Queued(epochs[created.value])))
  {
    var c := ChooseSalt(s, activate, oracle);
    if c.Some? {
      var e := NewEpoch(s, c.value, activate, oracle.randomSeed);
      ChainOfIsChain(s.hash, oracle.randomSeed, s.chainLength);
      NewIsOk(s, c.value, activate, oracle.randomSeed);
      NewKeepsInv(s, p, NextNo(p.epochs.Keys), e);
    }
  }

  lemma NewIsOk(s: Settings, c: Commitment, activate: bool, seed: Seed)
    requires s.chainLength >= 2 && IsChain(s.hash, ChainOf(s.hash, seed, s.chainLength))
    requires c.salt.None? ==> !activate && c.source.EthBlock?
    ensures var e := NewEpoch(s, c, activate, seed);
      EpochOk(s.hash, e) && (if activate then e.status.Live? else Queued(e))
  {
  }

  lemma NewKeepsInv(s: Settings, p: Snapshot, n: EpochNo, e: Epoch)
    requires Inv(s, p) && EpochOk(s.hash, e) && forall m :: m in p.epochs ==> m < n
    requires if e.status.Live? then !SomeLive(p.epochs) && !s.Strict() else Queued(e) && !SomeQueued(p.epochs)
    ensures Holds(s, p, p.epochs[n := e])
  {
    NewKeepsEpochs(s.hash, p.epochs, n, e);
  }

  lemma NewKeepsEpochs(hash: Seed -> Seed, epochs: EpochMap, n: EpochNo, e: Epoch)
    requires EpochsOk(hash, epochs) && n !in epochs && EpochOk(hash, e) && !e.status.Exhausted?
    requires e.status.Live? ==> !SomeLive(epochs)
    requires Queued(e) ==> !SomeQueued(epochs)
    ensures EpochsOk(hash, epochs[n := e]) && Kept(epochs, epochs[n := e])
  {
  }

  // ----- operations keep the invariant -----

  /** With at most one epoch of a kind, a query finds the epoch there is. */
  lemma FirstIsTheOne(epochs: EpochMap, status: EpochStatus)
    requires AtMostOne(epochs) && !status.Exhausted?
    ensures First(epochs, status).None? ==> forall n :: n in epochs ==> epochs[n].status != status
  {
    forall n | n in epochs && epochs[n].status == status
      ensures IsFirst(epochs, status, n)
    {
    }
  }

  lemma ServableKeepsInv(s: Settings, p: Snapshot, status: EpochStatus)
    requires Inv(s, p) && (status.Live? || status.Armed?)
    ensures var (epochs, found) := Servable(s, p.epochs, status);
      && Holds(s, p, epochs)
      && (found.Some? ==> epochs == p.epochs && epochs[found.value].status == status)
      && (found.Some? && s.strict ==> epochs[found.value].source.EthBlock?)
      && (found.None? ==> forall n :: n in epochs ==> epochs[n].status != status)
      && (forall n :: n in epochs && epochs[n].status != Exhausted ==> n in p.epochs && epochs[n] == p.epochs[n])
  {
    var found := First(p.epochs, status);
    FirstIsTheOne(p.epochs, status);
    if found.Some? && s.strict && !p.epochs[found.value].source.EthBlock? {
      MoveKeepsInv(s, p, found.value, Exhausted, p.epochs[found.value].salt);
    }
  }

  /** What an operation that returns an epoch to serve from promises. */
  ghost predicate Serves(s: Settings, before: Snapshot, epochs: EpochMap, chain: Option<EpochNo>) {
    && Holds(s, before, epochs) && (chain.None? ==> s.strict)
    && (chain.Some? ==> chain.value in epochs && epochs[chain.value].status.Live?)
    && (chain.Some? && s.Strict() ==> epochs[chain.value].source.EthBlock?)
    && (chain.Some? && !SomeLive(before.epochs) ==> epochs[chain.value].used == {})
  }

  lemma ArmOrCreateServes(s: Settings, p: Snapshot, oracle: Oracle)
    requires Inv(s, p) && !SomeLive(p.epochs)
    ensures Serves(s, p, ArmOrCreate(s, p.epochs, oracle).0, ArmOrCreate(s, p.epochs, oracle).1)
  {
    var pending := First(p.epochs, Pending);
    if pending.Some? && Resolve(s.provider, p.epochs[pending.value], oracle).Some? {
      assert EpochOk(s.hash, p.epochs[pending.value]);
      MoveKeepsInv(s, p, pending.value, Live, Resolve(s.provider, p.epochs[pending.value], oracle));
    } else {
      CreateKeepsInv(s, p, true, oracle);
    }
  }

  lemma PromoteServes(s: Settings, p: Snapshot, n: EpochNo)
    requires Inv(s, p) && !SomeLive(p.epochs) && n in p.epochs && p.epochs[n].status.Armed?
    requires s.Strict() ==> p.epochs[n].source.EthBlock?
    ensures Serves(s, p, Moved(p.epochs, n, Live, p.epochs[n].salt), Some(n))
  {
    assert EpochOk(s.hash, p.epochs[n]);
    MoveKeepsInv(s, p, n, Live, p.epochs[n].salt);
  }

  lemma ServesOn(s: Settings, p: Snapshot, q: Snapshot, epochs: EpochMap, chain: Option<EpochNo>)
    requires Kept(p.epochs, q.epochs) && q.served == p.served && Serves(s, q, epochs, chain) && !SomeLive(q.epochs)
    ensures Serves(s, p, epochs, chain)
  {
    KeptTwice(p.epochs, q.epochs, epochs);
  }

  /** What is returned is live, has a block salt in strict mode, and is fresh if nothing was live. */
  lemma EnsureServes(s: Settings, p: Snapshot, oracle: Oracle)
    requires Inv(s, p)
    ensures Serves(s, p, Ensure(s, p.epochs, oracle).0, Ensure(s, p.epochs, oracle).1)
  {
    var (one, live) := Servable(s, p.epochs, Live);
    ServableKeepsInv(s, p, Live);
    if live.None? {
      var p1 := p.(epochs := one);
      var (two, armed) := Servable(s, one, Armed);
      ServableKeepsInv(s, p1, Armed);
      var p2 := p.(epochs := two);
      KeptTwice(p.epochs, one, two);
      if armed.Some? {
        PromoteServes(s, p2, armed.value);
      } else {
        ArmOrCreateServes(s, p2, oracle);
      }
      ServesOn(s, p, p2, Ensure(s, p.epochs, oracle).0, Ensure(s, p.epochs, oracle).1);
    }
  }

  // ----- what can be served is served -----

  /** Strict mode serves epochs with a block salt only. */
  predicate MayServe(s: Settings, e: Epoch) {
    s.strict ==> e.source.EthBlock?
  }

  /** The pending epoch has a salt already, or its committed block is final and this is its hash. */
  predicate CanArm(s: Settings, e: Epoch, oracle: Oracle, salt: Salt) {
    e.status.Pending?
    && (e.salt == Some(salt)
        || (e.salt.None? && s.provider.EthBlock? && e.targetBlock.Some? && e.targetBlock.value > 0
            && oracle.block(e.targetBlock.value) == Some(salt)))
  }

  ghost predicate NoneServable(s: Settings, epochs: EpochMap, status: EpochStatus) {
    forall n :: n in epochs && epochs[n].status == status ==> !MayServe(s, epochs[n])
  }

  ghost predicate NoneArmable(s: Settings, epochs: EpochMap, oracle: Oracle) {
    forall n, salt :: n in epochs ==> !CanArm(s, epochs[n], oracle, salt)
  }

  /** Nothing has happened to the epoch, or strict mode has retired it. */
  predicate SameOrRetired(s: Settings, before: Epoch, after: Epoch) {
    after == before
    || (!MayServe(s, before) && (before.status.Live? || before.status.Armed?) && after == before.(status := Exhausted))
  }

  /** The epoch is live with this salt, no epoch is added, and no other has changed but to be retired. */
  ghost predicate Promoted(s: Settings, before: EpochMap, after: EpochMap, n: EpochNo, salt: Option<Salt>) {
    && n in before && after.Keys == before.Keys && after[n] == before[n].(status := Live, salt := salt)
    && forall m :: m in before && m != n ==> SameOrRetired(s, before[m], after[m])
  }

  /** Unused, with a chain that ends in the random seed of the operation. */
  predicate IsFresh(s: Settings, e: Epoch, oracle: Oracle) {
    e.used == {} && |e.seeds| == s.chainLength > 0 && e.seeds[|e.seeds| - 1] == oracle.randomSeed
  }

  /** A new epoch has a fresh chain under a number of its own, and no other epoch has changed. */
  lemma CreatedIsFresh(s: Settings, epochs: EpochMap, activate: bool, oracle: Oracle)
    requires s.chainLength > 0
    ensures var (after, created) := Create(s, epochs, activate, oracle);
      && (created.None? ==> after == epochs)
      && (created.Some? ==>
            && created.value !in epochs && after.Keys == epochs.Keys + {created.value}
            && IsFresh(s, after[created.value], oracle) && forall n :: n in epochs ==> after[n] == epochs[n])
  {
    assert NextNo(epochs.Keys) !in epochs.Keys;
    ChainOfIsChain(s.hash, oracle.randomSeed, s.chainLength);
  }

  /** A new live epoch with a random salt, which only demo mode opens at once. */
  ghost predicate Fallback(s: Settings, before: EpochMap, after: EpochMap, chain: Option<EpochNo>, oracle: Oracle) {
    && chain.Some? && chain.value !in before && after.Keys == before.Keys + {chain.value}
    && var e := after[chain.value];
    && e.status.Live? && e.source.Random? && e.salt == Some(oracle.randomSalt) && IsFresh(s, e, oracle)
  }

  /**
   * The choice of the active epoch: a live one that may be served, as it is; else an armed one,
   * promoted; else a pending one whose salt can be had, armed with exactly that salt and
   * promoted. Only if there is none of these, demo mode opens a new one, and strict mode stalls.
   */
  ghost predicate ServesWhatItCan(
      s: Settings, before: EpochMap, after: EpochMap, chain: Option<EpochNo>, oracle: Oracle)
  {
    && (forall n :: n in before && before[n].status.Live? && MayServe(s, before[n]) ==>
          chain == Some(n) && after == before)
    && (NoneServable(s, before, Live) ==>
          forall n :: n in before && before[n].status.Armed? && MayServe(s, before[n]) ==>
            chain == Some(n) && Promoted(s, before, after, n, before[n].salt))
    && (NoneServable(s, before, Live) && NoneServable(s, before, Armed) ==>
          && (forall n, salt :: n in before && CanArm(s, before[n], oracle, salt) ==>
                chain == Some(n) && Promoted(s, before, after, n, Some(salt)))
          && (NoneArmable(s, before, oracle) ==>
                if s.Strict() then chain == None && after.Keys == before.Keys
                else Fallback(s, before, after, chain, oracle)))
  }

  /** One query for a servable epoch has retired at most an epoch of that status. */
  ghost predicate Queried(s: Settings, before: EpochMap, after: EpochMap, status: EpochStatus) {
    && after.Keys == before.Keys
    && forall n :: n in before ==>
         after[n] == before[n] || (before[n].status == status && SameOrRetired(s, before[n], after[n]))
  }

  lemma ServableIsBest(s: Settings, p: Snapshot, status: EpochStatus)
    requires Inv(s, p) && (status.Live? || status.Armed?)
    ensures var (epochs, found) := Servable(s, p.epochs, status);
      && Queried(s, p.epochs, epochs, status) && (found.None? <==> NoneServable(s, p.epochs, status))
      && (found.Some? ==> epochs == p.epochs)
      && (forall n :: n in p.epochs && p.epochs[n].status == status && MayServe(s, p.epochs[n]) ==> found == Some(n))
  {
    FirstIsTheOne(p.epochs, status);
  }

  /** Arming the one epoch that can be armed, or else opening a new one. */
  ghost predicate ArmsWhatItCan(
      s: Settings, before: EpochMap, after: EpochMap, chain: Option<EpochNo>, oracle: Oracle)
  {
    && (forall n, salt :: n in before && CanArm(s, before[n], oracle, salt) ==>
          chain == Some(n) && after == Moved(before, n, Live, Some(salt)))
    && (NoneArmable(s, before, oracle) && s.Strict() ==> chain == None && after == before)
    && (NoneArmable(s, before, oracle) && !s.Strict() ==>
          Fallback(s, before, after, chain, oracle) && forall n :: n in before ==> after[n] == before[n])
  }

  lemma ArmOrCreateIsBest(s: Settings, p: Snapshot, oracle: Oracle)
    requires Inv(s, p)
    ensures ArmsWhatItCan(
              s, p.epochs, ArmOrCreate(s, p.epochs, oracle).0, ArmOrCreate(s, p.epochs, oracle).1, oracle)
  {
    FirstIsTheOne(p.epochs, Pending);
    var pending := First(p.epochs, Pending);
    var salt := if pending.Some? then Resolve(s.provider, p.epochs[pending.value], oracle) else None;
    if salt.Some? {
      OnlyPendingArms(s, p.epochs, pending.value, oracle);
    } else {
      NothingArms(s, p.epochs, oracle);
      CreatedIsFallback(s, p.epochs, oracle);
    }
  }

  lemma OnlyPendingArms(s: Settings, epochs: EpochMap, n: EpochNo, oracle: Oracle)
    requires AtMostOne(epochs) && n in epochs && epochs[n].status.Pending?
    requires Resolve(s.provider, epochs[n], oracle).Some?
    ensures ArmsWhatItCan(
              s, epochs, Moved(epochs, n, Live, Resolve(s.provider, epochs[n], oracle)), Some(n), oracle)
  {
    var salt := Resolve(s.provider, epochs[n], oracle).value;
    assert CanArm(s, epochs[n], oracle, salt);
    forall m, other: Salt | m in epochs && CanArm(s, epochs[m], oracle, other)
      ensures m == n && other == salt
    {
      assert Queued(epochs[m]) && Queued(epochs[n]);
    }
  }

  lemma NothingArms(s: Settings, epochs: EpochMap, oracle: Oracle)
    requires forall n :: n in epochs && epochs[n].status.Pending? ==> Resolve(s.provider, epochs[n], oracle).None?
    ensures NoneArmable(s, epochs, oracle)
  {
  }

  lemma CreatedIsFallback(s: Settings, epochs: EpochMap, oracle: Oracle)
    requires s.chainLength > 0
    ensures var (after, chain) := Create(s, epochs, true, oracle);
      if s.Strict() then chain == None && after == epochs
      else Fallback(s, epochs, after, chain, oracle) && forall n :: n in epochs ==> after[n] == epochs[n]
  {
    CreatedIsFresh(s, epochs, true, oracle);
  }

  lemma EnsureServesWhatItCan(s: Settings, p: Snapshot, oracle: Oracle)
    requires Inv(s, p)
    ensures ServesWhatItCan(s, p.epochs, Ensure(s, p.epochs, oracle).0, Ensure(s, p.epochs, oracle).1, oracle)
  {
    var (one, live) := Servable(s, p.epochs, Live);
    ServableIsBest(s, p, Live);
    if live.None? {
      var p1 := p.(epochs := one);
      var (two, armed) := Servable(s, one, Armed);
      ServableKeepsInv(s, p, Live);
      ServableKeepsInv(s, p1, Armed);
      ServableIsBest(s, p1, Armed);
      if armed.Some? {
        PromotesArmed(s, p.epochs, one, armed.value, oracle);
      } else {
        ArmOrCreateIsBest(s, p.(epochs := two), oracle);
        ArmsPending(s, p.epochs, one, two, ArmOrCreate(s, two, oracle).0, ArmOrCreate(s, two, oracle).1, oracle);
      }
    }
  }

  lemma PromotesArmed(s: Settings, before: EpochMap, one: EpochMap, n: EpochNo, oracle: Oracle)
    requires NoneServable(s, before, Live) && Queried(s, before, one, Live)
    requires n in one && one[n].status.Armed? && MayServe(s, one[n])
    requires forall m :: m in one && one[m].status.Armed? && MayServe(s, one[m]) ==> m == n
    ensures ServesWhatItCan(s, before, Moved(one, n, Live, one[n].salt), Some(n), oracle)
  {
    assert before[n] == one[n];
    assert forall m :: m in before && before[m].status.Armed? ==> one[m] == before[m];
  }

  lemma ArmsPending(
      s: Settings, before: EpochMap, one: EpochMap, two: EpochMap, after: EpochMap, chain: Option<EpochNo>,
      oracle: Oracle)
    requires NoneServable(s, before, Live) && Queried(s, before, one, Live)
    requires NoneServable(s, one, Armed) && Queried(s, one, two, Armed) && ArmsWhatItCan(s, two, after, chain, oracle)
    ensures ServesWhatItCan(s, before, after, chain, oracle)
  {
    TwoQueries(s, before, one, two);
    forall n, salt: Salt | n in before && CanArm(s, before[n], oracle, salt)
      ensures chain == Some(n) && Promoted(s, before, after, n, Some(salt))
    {
      assert CanArm(s, two[n], oracle, salt);
    }
    if NoneArmable(s, before, oracle) {
      assert NoneArmable(s, two, oracle);
    }
  }

  lemma TwoQueries(s: Settings, before: EpochMap, one: EpochMap, two: EpochMap)
    requires Queried(s, before, one, Live) && Queried(s, one, two, Armed)
    ensures two.Keys == before.Keys
    ensures forall n :: n in before ==> SameOrRetired(s, before[n], two[n])
    ensures forall n :: n in before && (before[n].status.Pending? || two[n].status.Pending?) ==> two[n] == before[n]
    ensures forall n :: n in before && before[n].status.Armed? ==> one[n] == before[n]
  {
  }

  // ----- upkeep -----

  lemma AllArmedKeepsInv(s: Settings, p: Snapshot, oracle: Oracle)
    requires Inv(s, p)
    ensures Holds(s, p, AllArmed(s, p.epochs, oracle))
  {
    var pending := First(p.epochs, Pending);
    FirstIsTheOne(p.epochs, Pending);
    if pending.Some? && Resolve(s.provider, p.epochs[pending.value], oracle).Some? {
      MoveKeepsInv(s, p, pending.value, Armed, Resolve(s.provider, p.epochs[pending.value], oracle));
      assert AllArmed(s, p.epochs, oracle) ==
        Moved(p.epochs, pending.value, Armed, Resolve(s.provider, p.epochs[pending.value], oracle));
    } else {
      assert AllArmed(s, p.epochs, oracle) == p.epochs;
    }
  }

  /** Every epoch that can be armed is, with exactly its salt; no other epoch has changed. */
  ghost predicate ArmsAll(s: Settings, before: EpochMap, after: EpochMap, oracle: Oracle) {
    && before.Keys <= after.Keys
    && (forall n, salt :: n in before && CanArm(s, before[n], oracle, salt) ==>
          after[n] == before[n].(status := Armed, salt := Some(salt)))
    && (forall n :: n in before ==> after[n] == before[n] || exists salt :: CanArm(s, before[n], oracle, salt))
  }

  /** A pre-committed epoch waits for a block that does not exist yet, or has a random salt where
      demo mode has no block to wait for. */
  predicate PreCommitted(s: Settings, e: Epoch, oracle: Oracle) {
    && IsFresh(s, e, oracle)
    && if s.provider.EthBlock? && oracle.head.Some? then
         e.status.Pending? && e.source.EthBlock? && e.salt.None?
         && e.targetBlock == Some(TargetAhead(s.lead, oracle.head.value))
       else e.status.Armed? && e.source.Random? && e.salt == Some(oracle.randomSalt)
  }

  lemma AllArmedArmsAll(s: Settings, epochs: EpochMap, oracle: Oracle)
    ensures ArmsAll(s, epochs, AllArmed(s, epochs, oracle), oracle)
  {
    forall n | n in epochs
      ensures AllArmed(s, epochs, oracle)[n] == epochs[n] || exists salt :: CanArm(s, epochs[n], oracle, salt)
    {
      var salt := Resolve(s.provider, epochs[n], oracle);
      assert epochs[n].status.Pending? && salt.Some? ==> CanArm(s, epochs[n], oracle, salt.value);
    }
  }

  /**
   * Upkeep keeps the invariant. It arms every pending epoch whose block is known, with that
   * block's hash; and behind a live epoch another one is queued afterwards, unless strict
   * mode had to refuse it.
   */
  lemma UpkeepKeepsInv(s: Settings, p: Snapshot, oracle: Oracle)
    requires Inv(s, p)
    ensures Holds(s, p, Upkeep(s, p.epochs, oracle))
    ensures ArmsAll(s, p.epochs, Upkeep(s, p.epochs, oracle), oracle)
    ensures forall n :: n in Upkeep(s, p.epochs, oracle) && n !in p.epochs ==>
      PreCommitted(s, Upkeep(s, p.epochs, oracle)[n], oracle)
    ensures SomeLive(p.epochs) && !SomeQueued(Upkeep(s, p.epochs, oracle)) ==>
      s.Strict() && oracle.head.None?
  {
    var armed := AllArmed(s, p.epochs, oracle);
    AllArmedKeepsInv(s, p, oracle);
    ArmingKeepsLive(s, p.epochs, oracle);
    AllArmedArmsAll(s, p.epochs, oracle);
    if SomeLive(armed) && !SomeQueued(armed) {
      PreCommit(s, p.(epochs := armed), oracle);
      KeptTwice(p.epochs, armed, Upkeep(s, p.epochs, oracle));
    }
  }

  lemma ArmingKeepsLive(s: Settings, epochs: EpochMap, oracle: Oracle)
    ensures SomeLive(epochs) ==> SomeLive(AllArmed(s, epochs, oracle))
  {
    if SomeLive(epochs) {
      var n :| n in epochs && epochs[n].status.Live?;
      assert AllArmed(s, epochs, oracle)[n].status.Live?;
    }
  }

  lemma PreCommit(s: Settings, p: Snapshot, oracle: Oracle)
    requires Inv(s, p) && !SomeQueued(p.epochs)
    ensures var (epochs, created) := Create(s, p.epochs, false, oracle);
      && Holds(s, p, epochs) && (forall n :: n in p.epochs ==> epochs[n] == p.epochs[n])
      && (SomeQueued(epochs) || (s.Strict() && oracle.head.None?))
      && forall n :: n in epochs && n !in p.epochs ==> PreCommitted(s, epochs[n], oracle)
  {
    CreateKeepsInv(s, p, false, oracle);
    CreatedIsFresh(s, p.epochs, false, oracle);
  }

  // ----- rounds -----

  /** The next seed is the first index after the used prefix. */
  lemma NextIndexIsNext(hash: Seed -> Seed, e: Epoch)
    requires EpochOk(hash, e)
    ensures NextIndex(e, 1) == if |e.used| + 1 < |e.seeds| then Some(|e.used| + 1) else None
  {
    SkipUsed(e, 1);
  }

  lemma {:induction false} SkipUsed(e: Epoch, i: nat)
    requires UsedPrefix(e) && 1 <= i <= |e.used| + 1
    ensures NextIndex(e, i) == if |e.used| + 1 < |e.seeds| then Some(|e.used| + 1) else None
    decreases |e.used| + 1 - i
  {
    if i <= |e.used| {
      SkipUsed(e, i + 1);
    }
  }

  /** What an allocation promises. The error for a chain that ran out is never raised. */
  ghost predicate Allocates(s: Settings, before: Snapshot, epochs: EpochMap, a: Allocation) {
    && Holds(s, before, epochs) && !a.RanOut? && (a.Stalled? ==> s.strict)
    && (a.Seeded? ==>
          && a.epoch in epochs && epochs[a.epoch].status.Live?
          && (s.Strict() ==> epochs[a.epoch].source.EthBlock?)
          && a.index == |epochs[a.epoch].used| + 1 < |epochs[a.epoch].seeds|)
  }

  lemma AllocateAllocates(s: Settings, p: Snapshot, oracle: Oracle)
    requires Inv(s, p)
    ensures Allocates(s, p, Allocate(s, p.epochs, oracle).0, Allocate(s, p.epochs, oracle).1)
  {
    var (one, chain) := Ensure(s, p.epochs, oracle);
    EnsureServes(s, p, oracle);
    if chain.Some? {
      NextIndexIsNext(s.hash, one[chain.value]);
      if NextIndex(one[chain.value], 1).None? {
        var p1 := p.(epochs := one);
        RollOverAllocates(s, p1, chain.value, oracle);
        KeptTwice(p.epochs, one, RollOver(s, one, chain.value, oracle).0);
      }
    }
  }

  /** The used-up epoch is exhausted; the next one, if it can serve, has a seed left. */
  lemma RollOverAllocates(s: Settings, p: Snapshot, n: EpochNo, oracle: Oracle)
    requires Inv(s, p) && n in p.epochs && p.epochs[n].status.Live?
    ensures Allocates(s, p, RollOver(s, p.epochs, n, oracle).0, RollOver(s, p.epochs, n, oracle).1)
  {
    var retired := Moved(p.epochs, n, Exhausted, p.epochs[n].salt);
    var (after, chain) := Ensure(s, retired, oracle);
    MoveKeepsInv(s, p, n, Exhausted, p.epochs[n].salt);
    EnsureServes(s, p.(epochs := retired), oracle);
    KeptTwice(p.epochs, retired, after);
    if chain.Some? {
      NextIndexIsNext(s.hash, after[chain.value]);
    }
  }

  predicate HasSeed(e: Epoch) {
    |e.used| + 1 < |e.seeds|
  }

  /** The epoch could give a round its seed now. */
  ghost predicate Ready(s: Settings, e: Epoch, oracle: Oracle) {
    HasSeed(e)
    && ((MayServe(s, e) && (e.status.Live? || e.status.Armed?)) || exists salt :: CanArm(s, e, oracle, salt))
  }

  ghost predicate NoneReady(s: Settings, epochs: EpochMap, oracle: Oracle) {
    forall n :: n in epochs ==> !Ready(s, epochs[n], oracle)
  }

  ghost predicate NothingQueued(s: Settings, epochs: EpochMap, oracle: Oracle) {
    NoneServable(s, epochs, Armed) && NoneArmable(s, epochs, oracle)
  }

  /** A queued epoch has all its seeds, so only a live one can be servable and yet not ready. */
  lemma NoneReadyMeans(s: Settings, epochs: EpochMap, oracle: Oracle)
    requires EpochsOk(s.hash, epochs)
    ensures NoneReady(s, epochs, oracle) <==>
      NothingQueued(s, epochs, oracle)
      && forall n :: n in epochs && epochs[n].status.Live? && MayServe(s, epochs[n]) ==> !HasSeed(epochs[n])
  {
    forall n | n in epochs
      ensures Queued(epochs[n]) ==> HasSeed(epochs[n])
    {
      assert EpochOk(s.hash, epochs[n]);
    }
    forall n, salt: Salt | n in epochs && CanArm(s, epochs[n], oracle, salt)
      ensures Ready(s, epochs[n], oracle)
    {
      assert Queued(epochs[n]);
    }
    if NothingQueued(s, epochs, oracle) {
      assert forall n, salt :: n in epochs ==> !CanArm(s, epochs[n], oracle, salt);
    }
  }

  /** Without a live epoch to serve from: a fresh one, if any is queued or demo mode opens it. */
  lemma EnsureWithoutLive(s: Settings, p: Snapshot, oracle: Oracle)
    requires Inv(s, p) && NoneServable(s, p.epochs, Live)
    ensures var (epochs, chain) := Ensure(s, p.epochs, oracle);
      && (chain.None? <==> s.Strict() && NothingQueued(s, p.epochs, oracle))
      && (chain.Some? ==> NextIndex(epochs[chain.value], 1).Some?)
  {
    var (epochs, chain) := Ensure(s, p.epochs, oracle);
    EnsureServes(s, p, oracle);
    EnsureServesWhatItCan(s, p, oracle);
    NothingToServe(s, p.epochs, epochs, chain, oracle);
    if chain.Some? {
      EnsuredIsFresh(s, p, epochs, chain.value, oracle);
      NextIndexIsNext(s.hash, epochs[chain.value]);
    }
  }

  lemma NothingToServe(s: Settings, before: EpochMap, after: EpochMap, chain: Option<EpochNo>, oracle: Oracle)
    requires NoneServable(s, before, Live) && ServesWhatItCan(s, before, after, chain, oracle)
    ensures chain.None? <==> s.Strict() && NothingQueued(s, before, oracle)
  {
    if !NoneServable(s, before, Armed) {
      var n :| n in before && before[n].status.Armed? && MayServe(s, before[n]);
      assert chain == Some(n);
    } else if !NoneArmable(s, before, oracle) {
      var n, salt :| n in before && CanArm(s, before[n], oracle, salt);
      assert chain == Some(n);
    }
  }

  lemma EnsuredIsFresh(s: Settings, p: Snapshot, epochs: EpochMap, n: EpochNo, oracle: Oracle)
    requires Inv(s, p) && NoneServable(s, p.epochs, Live) && Holds(s, p, epochs)
    requires ServesWhatItCan(s, p.epochs, epochs, Some(n), oracle)
    ensures n in epochs && epochs[n].used == {} && EpochOk(s.hash, epochs[n])
  {
    if !NoneServable(s, p.epochs, Armed) {
      assert n in p.epochs && Queued(p.epochs[n]) && EpochOk(s.hash, p.epochs[n]);
    } else if !NoneArmable(s, p.epochs, oracle) {
      assert n in p.epochs && Queued(p.epochs[n]) && EpochOk(s.hash, p.epochs[n]);
    }
  }

  /** A round gets a seed whenever there is one to get: an allocation stalls if and only if strict
      mode finds no epoch that could give one now. */
  lemma AllocateStallsInNeedOnly(s: Settings, p: Snapshot, oracle: Oracle)
    requires Inv(s, p)
    ensures Allocate(s, p.epochs, oracle).1.Stalled? <==> s.Strict() && NoneReady(s, p.epochs, oracle)
  {
    NoneReadyMeans(s, p.epochs, oracle);
    if NoneServable(s, p.epochs, Live) {
      EnsureWithoutLive(s, p, oracle);
    } else {
      var n :| n in p.epochs && p.epochs[n].status.Live? && MayServe(s, p.epochs[n]);
      EnsureServesWhatItCan(s, p, oracle);
      NextIndexIsNext(s.hash, p.epochs[n]);
      if !HasSeed(p.epochs[n]) {
        MoveKeepsInv(s, p, n, Exhausted, p.epochs[n].salt);
        RetiredIsQueuedAlike(s, p.epochs, n, oracle);
        EnsureWithoutLive(s, p.(epochs := Moved(p.epochs, n, Exhausted, p.epochs[n].salt)), oracle);
      }
    }
  }

  lemma RetiredIsQueuedAlike(s: Settings, epochs: EpochMap, n: EpochNo, oracle: Oracle)
    requires AtMostOne(epochs) && n in epochs && epochs[n].status.Live?
    ensures var retired := Moved(epochs, n, Exhausted, epochs[n].salt);
      && NoneServable(s, retired, Live)
      && (NothingQueued(s, retired, oracle) <==> NothingQueued(s, epochs, oracle))
  {
    var retired := Moved(epochs, n, Exhausted, epochs[n].salt);
    assert forall m :: m in epochs && m != n ==> retired[m] == epochs[m];
    assert !Queued(epochs[n]) && !Queued(retired[n]);
  }

  lemma ServeKeepsEpochs(hash: Seed -> Seed, epochs: EpochMap, n: EpochNo, i: nat)
    requires EpochsOk(hash, epochs) && n in epochs && epochs[n].status.Live?
    requires i == |epochs[n].used| + 1 < |epochs[n].seeds|
    ensures var after := epochs[n := epochs[n].(used := epochs[n].used + {i})];
      EpochsOk(hash, after) && Kept(epochs, after)
  {
    assert EpochOk(hash, epochs[n]);
    assert |epochs[n].used + {i}| == i;
  }

  lemma ServeKeepsInv(s: Settings, p: Snapshot, n: EpochNo, i: nat)
    requires Inv(s, p) && n in p.epochs && p.epochs[n].status.Live? && p.epochs[n].salt.Some?
    requires s.Strict() ==> p.epochs[n].source.EthBlock?
    requires i == |p.epochs[n].used| + 1 < |p.epochs[n].seeds|
    ensures Inv(s, Serve(p, n, i)) && Kept(p.epochs, Serve(p, n, i).epochs) && i !in p.epochs[n].used
  {
    ServeKeepsEpochs(s.hash, p.epochs, n, i);
    ServeKeepsServed(p, n, i);
    if s.Strict() {
      ServeKeepsStrict(p, n, i);
    }
  }

  lemma ServeKeepsServed(p: Snapshot, n: EpochNo, i: nat)
    requires n in p.epochs && p.epochs[n].salt.Some? && UsedPrefix(p.epochs[n]) && i == |p.epochs[n].used| + 1
    requires forall j :: 0 <= j < |p.served| ==> IsServed(p.epochs, p.served[j])
    requires IndicesGrow(p.served)
    ensures forall j :: 0 <= j < |Serve(p, n, i).served| ==> IsServed(Serve(p, n, i).epochs, Serve(p, n, i).served[j])
    ensures IndicesGrow(Serve(p, n, i).served) && i !in p.epochs[n].used
  {
    forall j | 0 <= j < |p.served|
      ensures IsServed(Serve(p, n, i).epochs, p.served[j])
      ensures p.served[j].epoch == n ==> p.served[j].index < i
    {
      assert IsServed(p.epochs, p.served[j]);
    }
  }

  lemma ServeKeepsStrict(p: Snapshot, n: EpochNo, i: nat)
    requires AtMostOne(p.epochs) && StrictOk(p) && n in p.epochs && p.epochs[n].status.Live?
    requires p.epochs[n].salt.Some? && p.epochs[n].source.EthBlock?
    ensures StrictOk(Serve(p, n, i))
  {
  }

  lemma OpenKeepsInv(s: Settings, p: Snapshot, oracle: Oracle)
    requires Inv(s, p)
    ensures Inv(s, OpenRound(s, p, oracle)) && Kept(p.epochs, OpenRound(s, p, oracle).epochs)
    ensures p.served <= OpenRound(s, p, oracle).served
    ensures OpenRound(s, p, oracle).served == p.served ==> s.strict
  {
    var (epochs, a) := Allocate(s, p.epochs, oracle);
    AllocateAllocates(s, p, oracle);
    if a.Seeded? {
      assert EpochOk(s.hash, epochs[a.epoch]);
      ServeKeepsInv(s, p.(epochs := epochs), a.epoch, a.index);
      KeptTwice(p.epochs, epochs, OpenRound(s, p, oracle).epochs);
    }
  }

  /** A round is opened on a new seed unless there is none to get. */
  lemma OpenServesWhatItCan(s: Settings, p: Snapshot, oracle: Oracle)
    requires Inv(s, p)
    ensures |OpenRound(s, p, oracle).served| ==
      |p.served| + (if s.Strict() && NoneReady(s, p.epochs, oracle) then 0 else 1)
  {
    AllocateAllocates(s, p, oracle);
    AllocateStallsInNeedOnly(s, p, oracle);
    var (epochs, a) := Allocate(s, p.epochs, oracle);
    assert a.Seeded? ==> EpochOk(s.hash, epochs[a.epoch]);
  }

  lemma PerformKeepsInv(s: Settings, p: Snapshot, op: Operation)
    requires Inv(s, p)
    ensures Inv(s, Perform(s, p, op)) && Kept(p.epochs, Perform(s, p, op).epochs)
      && p.served <= Perform(s, p, op).served
  {
    match op
    case EnsureChain(oracle) => EnsureServes(s, p, oracle);
    case Maintain(oracle) => UpkeepKeepsInv(s, p, oracle);
    case Open(oracle) => OpenKeepsInv(s, p, oracle);
  }

  lemma {:induction false} PerformAllKeepsInv(s: Settings, p: Snapshot, ops: seq<Operation>)
    requires Inv(s, p)
    ensures Inv(s, PerformAll(s, p, ops))
  {
    if ops != [] {
      PerformAllKeepsInv(s, p, ops[..|ops| - 1]);
      PerformKeepsInv(s, PerformAll(s, p, ops[..|ops| - 1]), ops[|ops| - 1]);
    }
  }

  // ----- any sequence of operations -----

  /** A served seed that anyone can check: it hashes back to its epoch's commit, its salt is
      still the one the round was played with, and in strict mode that salt is a block's. */
  ghost predicate IsFair(s: Settings, epochs: EpochMap, x: Served) {
    && x.epoch in epochs && 1 <= x.index < |epochs[x.epoch].seeds|
    && HashTimes(s.hash, x.index, epochs[x.epoch].seeds[x.index]) == epochs[x.epoch].seeds[0]
    && epochs[x.epoch].salt == Some(x.salt)
    && (s.Strict() ==> epochs[x.epoch].source.EthBlock?)
  }

  /**
   * From any store that the service can be started on, after any operations, whatever the
   * oracles answer: every seed that a round was opened with is fair, none is served twice,
   * and in strict mode epochs are served in order.
   */
  lemma ServedSeedsAreFair(s: Settings, epochs: EpochMap, ops: seq<Operation>)
    requires Startable(s, epochs)
    ensures var p := PerformAll(s, Snapshot(epochs, []), ops);
      && (forall j :: 0 <= j < |p.served| ==> IsFair(s, p.epochs, p.served[j]))
      && (forall j, k :: 0 <= j < k < |p.served| ==>
            && (p.served[j].epoch, p.served[j].index) != (p.served[k].epoch, p.served[k].index)
            && (s.Strict() ==> p.served[j].epoch <= p.served[k].epoch))
  {
    var p := PerformAll(s, Snapshot(epochs, []), ops);
    PerformAllKeepsInv(s, Snapshot(epochs, []), ops);
    forall j | 0 <= j < |p.served|
      ensures IsFair(s, p.epochs, p.served[j])
    {
      assert IsServed(p.epochs, p.served[j]);
      var e := p.epochs[p.served[j].epoch];
      assert EpochOk(s.hash, e);
      HashesBackToCommit(s.hash, e.seeds, p.served[j].index);
    }
  }

  /** What was once committed, resolved or served stays so: later operations change no seeds, no
      source, no committed block and no known salt, and only append to what was served. */
  lemma {:induction false} NothingIsTakenBack(s: Settings, epochs: EpochMap, ops: seq<Operation>, i: nat)
    requires Startable(s, epochs) && i <= |ops|
    ensures var early, late := PerformAll(s, Snapshot(epochs, []), ops[..i]), PerformAll(s, Snapshot(epochs, []), ops);
      Kept(early.epochs, late.epochs) && early.served <= late.served
    decreases |ops|
  {
    if i == |ops| {
      assert ops[..i] == ops;
    } else {
      var init := ops[..|ops| - 1];
      NothingIsTakenBack(s, epochs, init, i);
      assert init[..i] == ops[..i];
      var early, before := PerformAll(s, Snapshot(epochs, []), ops[..i]), PerformAll(s, Snapshot(epochs, []), init);
      PerformAllKeepsInv(s, Snapshot(epochs, []), init);
      PerformKeepsInv(s, before, ops[|ops| - 1]);
      KeptTwice(early.epochs, before.epochs, PerformAll(s, Snapshot(epochs, []), ops).epochs);
    }
  }

  // ----- where the salts come from -----

  /** Every answer about a finalized block is the one hash that block has. */
  ghost predicate Honest(blocks: nat -> Salt, oracle: Oracle) {
    forall b :: oracle.block(b).Some? ==> oracle.block(b).value == blocks(b)
  }

  /** Every known salt of a block epoch is the hash of the block that the epoch committed to. */
  ghost predicate Grounded(blocks: nat -> Salt, epochs: EpochMap) {
    forall n :: n in epochs && epochs[n].source.EthBlock? && epochs[n].salt.Some? ==>
      epochs[n].targetBlock.Some? && epochs[n].salt.value == blocks(epochs[n].targetBlock.value)
  }

  lemma ResolveIsGrounded(
      blocks: nat -> Salt, epochs: EpochMap, provider: Source, n: EpochNo, status: EpochStatus, oracle: Oracle)
    requires Grounded(blocks, epochs) && Honest(blocks, oracle) && n in epochs
    ensures Grounded(blocks, Moved(epochs, n, status, Resolve(provider, epochs[n], oracle)))
  {
  }

  lemma CreateIsGrounded(s: Settings, blocks: nat -> Salt, epochs: EpochMap, activate: bool, oracle: Oracle)
    requires Grounded(blocks, epochs)
    ensures Grounded(blocks, Create(s, epochs, activate, oracle).0)
  {
  }

  lemma EnsureIsGrounded(s: Settings, blocks: nat -> Salt, epochs: EpochMap, oracle: Oracle)
    requires Grounded(blocks, epochs) && Honest(blocks, oracle)
    ensures Grounded(blocks, Ensure(s, epochs, oracle).0)
  {
    var (one, live) := Servable(s, epochs, Live);
    var (two, armed) := Servable(s, one, Armed);
    var pending := First(two, Pending);
    if pending.Some? {
      ResolveIsGrounded(blocks, two, s.provider, pending.value, Live, oracle);
    }
    CreateIsGrounded(s, blocks, two, true, oracle);
  }

  lemma UpkeepIsGrounded(s: Settings, blocks: nat -> Salt, epochs: EpochMap, oracle: Oracle)
    requires Grounded(blocks, epochs) && Honest(blocks, oracle)
    ensures Grounded(blocks, Upkeep(s, epochs, oracle))
  {
    CreateIsGrounded(s, blocks, AllArmed(s, epochs, oracle), false, oracle);
  }

  lemma OpenIsGrounded(s: Settings, blocks: nat -> Salt, p: Snapshot, oracle: Oracle)
    requires Grounded(blocks, p.epochs) && Honest(blocks, oracle)
    ensures Grounded(blocks, OpenRound(s, p, oracle).epochs)
  {
    var (one, chain) := Ensure(s, p.epochs, oracle);
    EnsureIsGrounded(s, blocks, p.epochs, oracle);
    if chain.Some? {
      EnsureIsGrounded(s, blocks, Moved(one, chain.value, Exhausted, one[chain.value].salt), oracle);
    }
  }

  ghost predicate AllHonest(blocks: nat -> Salt, ops: seq<Operation>) {
    forall i :: 0 <= i < |ops| ==> Honest(blocks, ops[i].oracle)
  }

  /** Where blocks are final, no operation ever takes a salt but the hash of the committed block. */
  lemma {:induction false} SaltsAreBlockHashes(s: Settings, blocks: nat -> Salt, p: Snapshot, ops: seq<Operation>)
    requires Grounded(blocks, p.epochs) && AllHonest(blocks, ops)
    ensures Grounded(blocks, PerformAll(s, p, ops).epochs)
  {
    if ops != [] {
      var before, last := PerformAll(s, p, ops[..|ops| - 1]), ops[|ops| - 1];
      SaltsAreBlockHashes(s, blocks, p, ops[..|ops| - 1]);
      match last
      case EnsureChain(oracle) => EnsureIsGrounded(s, blocks, before.epochs, oracle);
      case Maintain(oracle) => UpkeepIsGrounded(s, blocks, before.epochs, oracle);
      case Open(oracle) => OpenIsGrounded(s, blocks, before, oracle);
    }
  }

  /** In strict mode every served seed was played with the hash of the block that its epoch is
      committed to. */
  lemma StrictSaltsAreCommitted(s: Settings, blocks: nat -> Salt, epochs: EpochMap, ops: seq<Operation>, j: nat)
    requires s.Strict() && Startable(s, epochs) && Grounded(blocks, epochs) && AllHonest(blocks, ops)
    requires j < |PerformAll(s, Snapshot(epochs, []), ops).served|
    ensures var p := PerformAll(s, Snapshot(epochs, []), ops);
      var x := p.served[j];
      x.epoch in p.epochs && p.epochs[x.epoch].targetBlock.Some?
        && x.salt == blocks(p.epochs[x.epoch].targetBlock.value)
  {
    ServedSeedsAreFair(s, epochs, ops);
    SaltsAreBlockHashes(s, blocks, Snapshot(epochs, []), ops);
    assert IsFair(s, PerformAll(s, Snapshot(epochs, []), ops).epochs,
      PerformAll(s, Snapshot(epochs, []), ops).served[j]);
  }
}
