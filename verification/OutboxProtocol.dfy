/**
 * The outbox under concurrency: live callers and drain passes race for the lease of a row,
 * statement by statement, with a logical clock. An operator call is open between its start
 * and its answer; any owner may die at any point, and any write may fail.
 *
 * One timing fact is assumed, and guards the clock: a live owner finishes before its lease
 * ends. A dead owner's lease simply runs out.
 */
module OutboxProtocol {
  import opened Domain
  import opened Outbox

  datatype Call =
    | Look(ref: Ref, tx: TxId)
    | Insert(ref: Ref, tx: TxId)
    | Acquire(ref: Ref, seen: Row)
    | Emit(ref: Ref, until: Time)
    | Confirming(ref: Ref, until: Time)
    | Releasing(ref: Ref, until: Time, bump: nat)
  {
    /** The call owns the row: it emits, or has emitted and not yet written the result. */
    predicate Owns() {
      Emit? || Confirming? || Releasing?
    }
  }

  datatype Event =
    | BeginLive(call: CallId, claim: Claim)
    | BeginDrain(call: CallId, ref: Ref)
    | Step(call: CallId, ok: bool)
    | Die(call: CallId)
    | Tick(ms: nat)

  /** `emits` lists the operator calls in the order they were made. */
  datatype State = State(rows: Rows, now: Time, calls: map<CallId, Call>, emits: seq<Ref>)

  function Init(): State {
    State(map[], 0, map[], [])
  }

  function Goto(s: State, c: CallId, next: Call): State {
    s.(calls := s.calls[c := next])
  }

  function End(s: State, c: CallId): State {
    s.(calls := s.calls - {c})
  }

  /** The lease of a live owner is not passed. */
  ghost predicate MayTick(s: State, ms: nat) {
    forall c :: c in s.calls && s.calls[c].Owns() ==> s.now + ms < s.calls[c].until
  }

  /** One statement; `ok` is the operator's answer, or whether a write succeeds. */
  function Advance(s: State, c: CallId, ok: bool): State
    requires c in s.calls
  {
    match s.calls[c]
    case Look(ref, tx) =>
      if ref !in s.rows then Goto(s, c, Insert(ref, tx))
      else if s.rows[ref].status.Confirmed? || HasLiveLease(s.rows[ref], s.now) then End(s, c)
      else Goto(s, c, Acquire(ref, s.rows[ref]))
    case Insert(ref, tx) =>
      if ref in s.rows then End(s, c)
      else Goto(s.(rows := s.rows[ref := Fresh(tx, s.now)]), c, Emit(ref, s.now + DRAIN_LEASE_MS))
    case Acquire(ref, seen) =>
      var (rows, acquired) := AcquireLease(s.rows, ref, seen, s.now);
      if acquired then Goto(s.(rows := rows), c, Emit(ref, s.now + DRAIN_LEASE_MS)) else End(s, c)
    case Emit(ref, until) =>
      Goto(s.(emits := s.emits + [ref]), c, if ok then Confirming(ref, until) else Releasing(ref, until, 1))
    case Confirming(ref, _) => End(if ok then s.(rows := SetConfirmed(s.rows, ref)) else s, c)
    case Releasing(ref, _, bump) => End(if ok then s.(rows := SetPending(s.rows, ref, bump)) else s, c)
  }

  ghost function Next(s: State, e: Event): State {
    match e
    case BeginLive(c, claim) => if c in s.calls then s else Goto(s, c, Look(RefOf(claim), claim.tx))
    case BeginDrain(c, ref) =>
      if c in s.calls || ref !in s.rows || !Selectable(s.rows[ref], s.now) then s
        else Goto(s, c, Acquire(ref, s.rows[ref]))
    case Step(c, ok) => if c in s.calls then Advance(s, c, ok) else s
    case Die(c) => if c in s.calls then End(s, c) else s
    case Tick(ms) => if MayTick(s, ms) then s.(now := s.now + ms) else s
  }

  ghost function Run(s: State, events: seq<Event>): State {
    if events == [] then s else Next(Run(s, events[..|events| - 1]), events[|events| - 1])
  }

  // ----- the invariant -----

  /** An owner's row is leased to it, and the lease still runs. */
  ghost predicate OwnerOk(s: State, call: Call) {
    call.Owns() ==>
      && call.ref in s.rows && s.rows[call.ref].status.Draining?
      && s.rows[call.ref].lease == Some(call.until) && s.now < call.until
  }

  /** What a claimant has seen was free to take when it looked, and can only have got staler. */
  ghost predicate SeenOk(s: State, call: Call) {
    call.Acquire? ==>
      !call.seen.status.Confirmed? && (call.seen.status.Draining? ==>
        call.seen.lease.None? || call.seen.lease.value <= s.now)
  }

  ghost predicate OneOwner(calls: map<CallId, Call>) {
    forall c, d :: c in calls && d in calls && c != d && calls[c].Owns() && calls[d].Owns() ==>
      calls[c].ref != calls[d].ref
  }

  ghost predicate LeasesSet(rows: Rows) {
    forall ref :: ref in rows && rows[ref].status.Draining? ==> rows[ref].lease.Some?
  }

  ghost predicate Inv(s: State) {
    && (forall c :: c in s.calls ==> OwnerOk(s, s.calls[c]) && SeenOk(s, s.calls[c]))
    && OneOwner(s.calls) && LeasesSet(s.rows)
  }

  /** Nobody can take a row from its live owner. */
  lemma OwnedIsTaken(s: State, c: CallId, d: CallId)
    requires Inv(s) && c in s.calls && d in s.calls && s.calls[c].Owns() && s.calls[d].ref == s.calls[c].ref
    ensures s.calls[d].Acquire? ==> !AcquireLease(s.rows, s.calls[d].ref, s.calls[d].seen, s.now).1
    ensures HasLiveLease(s.rows[s.calls[c].ref], s.now)
  {
    assert OwnerOk(s, s.calls[c]) && SeenOk(s, s.calls[d]);
  }

  lemma AdvanceKeepsInv(s: State, c: CallId, ok: bool)
    requires Inv(s) && c in s.calls
    ensures Inv(Advance(s, c, ok))
  {
    var s' := Advance(s, c, ok);
    assert OwnerOk(s, s.calls[c]) && SeenOk(s, s.calls[c]);
    forall d | d in s.calls && d != c
      ensures OwnerOk(s', s.calls[d]) && SeenOk(s', s.calls[d])
      ensures c in s'.calls && s'.calls[c].Owns() && s.calls[d].Owns() ==> s'.calls[c].ref != s.calls[d].ref
    {
      assert OwnerOk(s, s.calls[d]) && SeenOk(s, s.calls[d]);
      if s.calls[d].Owns() && s.calls[d].ref == s.calls[c].ref {
        OwnedIsTaken(s, d, c);
      }
    }
  }

  lemma NextKeepsInv(s: State, e: Event)
    requires Inv(s)
    ensures Inv(Next(s, e))
  {
    if e.Step? && e.call in s.calls {
      AdvanceKeepsInv(s, e.call, e.ok);
    } else {
      assert forall c :: c in s.calls ==> OwnerOk(s, s.calls[c]) && SeenOk(s, s.calls[c]);
    }
  }

  lemma {:induction false} RunKeepsInv(events: seq<Event>)
    ensures Inv(Run(Init(), events))
  {
    if events != [] {
      RunKeepsInv(events[..|events| - 1]);
      NextKeepsInv(Run(Init(), events[..|events| - 1]), events[|events| - 1]);
    }
  }

  // ----- main results -----

  /** At most one emitter per reversal is ever active, among live callers and drains alike. */
  lemma OneEmitterPerReversal(events: seq<Event>, c: CallId, d: CallId)
    requires var s := Run(Init(), events);
      c in s.calls && d in s.calls && s.calls[c].Owns() && s.calls[d].Owns() && s.calls[c].ref == s.calls[d].ref
    ensures c == d
  {
    RunKeepsInv(events);
  }

  /** How often the operator has been called for a reversal. */
  function Emitted(emits: seq<Ref>, ref: Ref): nat {
    if emits == [] then 0 else Emitted(emits[..|emits| - 1], ref) + (if emits[|emits| - 1] == ref then 1 else 0)
  }

  lemma ConfirmedSurvivesStep(s: State, e: Event, ref: Ref)
    requires Inv(s) && ref in s.rows && s.rows[ref].status.Confirmed?
    ensures var s' := Next(s, e);
      ref in s'.rows && s'.rows[ref].status.Confirmed? && Emitted(s'.emits, ref) == Emitted(s.emits, ref)
  {
    if e.Step? && e.call in s.calls {
      assert OwnerOk(s, s.calls[e.call]) && SeenOk(s, s.calls[e.call]);
      var s' := Next(s, e);
      assert s'.emits != s.emits ==> s'.emits[..|s'.emits| - 1] == s.emits;
    }
  }

  lemma {:induction false} ConfirmedSurvives(s: State, events: seq<Event>, ref: Ref)
    requires Inv(s) && ref in s.rows && s.rows[ref].status.Confirmed?
    ensures var s' := Run(s, events);
      Inv(s') && ref in s'.rows && s'.rows[ref].status.Confirmed? && Emitted(s'.emits, ref) == Emitted(s.emits, ref)
  {
    if events != [] {
      ConfirmedSurvives(s, events[..|events| - 1], ref);
      var before := Run(s, events[..|events| - 1]);
      NextKeepsInv(before, events[|events| - 1]);
      ConfirmedSurvivesStep(before, events[|events| - 1], ref);
    }
  }

  /** Confirmed is final: whatever happens next, the row stays confirmed and is never emitted again. */
  lemma ConfirmedIsFinal(before: seq<Event>, after: seq<Event>, ref: Ref)
    requires ref in Run(Init(), before).rows && Run(Init(), before).rows[ref].status.Confirmed?
    ensures var s, s' := Run(Init(), before), Run(Run(Init(), before), after);
      ref in s'.rows && s'.rows[ref].status.Confirmed? && Emitted(s'.emits, ref) == Emitted(s.emits, ref)
  {
    RunKeepsInv(before);
    ConfirmedSurvives(Run(Init(), before), after, ref);
  }

  /** No reversal is lost: its row stays, and while it is unconfirmed it is under a live lease, or
      the drain selects it as soon as the clock has passed its lease. At the very millisecond
      the lease ends it is neither: only a live caller can take it then. */
  lemma {:induction false} OwedIsReclaimable(events: seq<Event>, ref: Ref, later: Time)
    requires ref in Run(Init(), events).rows && later >= Run(Init(), events).now
    ensures var row := Run(Init(), events).rows[ref];
      || row.status.Confirmed?
      || (row.status.Pending? && Selectable(row, later))
      || (row.lease.Some? && (HasLiveLease(row, later) <==> later < row.lease.value)
          && (Selectable(row, later) <==> row.lease.value < later))
  {
    RunKeepsInv(events);
  }

  lemma {:induction false} RowsStay(s: State, events: seq<Event>, ref: Ref)
    requires ref in s.rows
    ensures ref in Run(s, events).rows && Run(s, events).rows[ref].tx == s.rows[ref].tx
  {
    if events != [] {
      RowsStay(s, events[..|events| - 1], ref);
    }
  }

  // ----- a drain that nobody hinders -----

  /** A drain that selects a row and is not interrupted emits the reversal once. It ends with the
      row confirmed if the operator accepts, and else with the row pending for the next drain. */
  lemma LoneDrainEnds(s: State, c: CallId, ref: Ref, accepted: bool)
    requires c !in s.calls && ref in s.rows && Selectable(s.rows[ref], s.now)
    ensures var s' := Next(Next(Next(Next(s, BeginDrain(c, ref)), Step(c, true)), Step(c, accepted)), Step(c, true));
      && s'.calls == s.calls && s'.emits == s.emits + [ref] && s'.rows.Keys == s.rows.Keys
      && (forall other :: other in s.rows && other != ref ==> s'.rows[other] == s.rows[other])
      && s'.rows[ref] == s.rows[ref].(
           status := if accepted then Confirmed else Pending, lease := None,
           attempts := if accepted then s.rows[ref].attempts else s.rows[ref].attempts + 1)
  {
    var begun := Next(s, BeginDrain(c, ref));
    var owner := Next(begun, Step(c, true));
    assert owner.calls == s.calls[c := Emit(ref, s.now + DRAIN_LEASE_MS)];
    var emitted := Next(owner, Step(c, accepted));
    assert emitted.emits == s.emits + [ref];
    assert Next(emitted, Step(c, true)).calls == s.calls;
  }

  /** A live caller that nobody hinders stakes its claim unless the reversal is confirmed or under
      a live lease: then the row is leased to it, and it is the one to emit. */
  lemma LoneClaimOwns(s: State, c: CallId, claim: Claim)
    requires c !in s.calls
    ensures var s', ref := Next(Next(Next(s, BeginLive(c, claim)), Step(c, true)), Step(c, true)), RefOf(claim);
      && s'.emits == s.emits && s'.now == s.now && s'.calls - {c} == s.calls
      && (forall other :: other != ref ==>
            (other in s'.rows <==> other in s.rows) && (other in s.rows ==> s'.rows[other] == s.rows[other]))
      && if ref in s.rows && (s.rows[ref].status.Confirmed? || HasLiveLease(s.rows[ref], s.now))
         then s'.rows == s.rows && c !in s'.calls
         else
           && c in s'.calls && s'.calls[c].Owns() && s'.calls[c].ref == ref
           && ref in s'.rows && HasLiveLease(s'.rows[ref], s.now) && s'.calls[c].until == s'.rows[ref].lease.value
           && s'.rows[ref].tx == if ref in s.rows then s.rows[ref].tx else claim.tx
  {
    var looked := Next(Next(s, BeginLive(c, claim)), Step(c, true));
    assert looked.rows == s.rows && looked.calls - {c} == s.calls;
  }

  // ----- the millisecond at which a lease ends -----

  /** A live caller takes its lease and dies; at the very end of the lease its row is neither
      live nor selected by the drain, and one millisecond later the drain selects it. */
  lemma LeaseEnds(claim: Claim) returns (events: seq<Event>)
    ensures var s, ref := Run(Init(), events), RefOf(claim);
      && ref in s.rows && s.calls == map[] && s.rows[ref].status.Draining?
      && !HasLiveLease(s.rows[ref], s.now) && !Selectable(s.rows[ref], s.now) && Selectable(s.rows[ref], s.now + 1)
  {
    var ref := RefOf(claim);
    var leased := Init().(rows := map[ref := Fresh(claim.tx, 0)]);
    events := [BeginLive(0, claim), Step(0, true), Step(0, true), Die(0), Tick(60_000)];
    assert Run(Init(), events[..0]) == Init();
    assert Run(Init(), events[..1]) == Init().(calls := map[0 := Look(ref, claim.tx)]) by {
      assert events[..1][..0] == events[..0];
    }
    assert Run(Init(), events[..2]) == Init().(calls := map[0 := Insert(ref, claim.tx)]) by {
      assert events[..2][..1] == events[..1];
    }
    assert Run(Init(), events[..3]) == leased.(calls := map[0 := Emit(ref, 60_000)]) by {
      assert events[..3][..2] == events[..2];
    }
    assert Run(Init(), events[..4]) == leased by {
      assert events[..4][..3] == events[..3];
    }
    assert Run(Init(), events) == leased.(now := 60_000);
  }
}
