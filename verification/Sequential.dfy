/**
 * One call run alone, statement by statement. `oks` says which of its statements succeed;
 * when it is used up the process dies before the next one.
 */
module Sequential {
  import opened Domain
  import opened Ledger
  import opened BetProtocol
  import opened BetMoney
  import opened BetResults
  import opened BetRows

  ghost function RunCall(cfg: Config, st: Store, call: Call, oks: seq<bool>): Store
    decreases |oks|
  {
    if |oks| == 0 then st
    else
      var (st', after) := Exec(cfg, st, call, oks[0]);
      if after.Continue? then RunCall(cfg, st', after.call, oks[1..]) else st'
  }

  /** The whole call: its first read, and its statements if the read lets it go on. */
  ghost function RunFrom(cfg: Config, st: Store, e: Event, oks: seq<bool>): Store {
    var first := FirstRead(cfg, st, e);
    if first.Some? then RunCall(cfg, st, first.value, oks) else st
  }

  lemma RunCallStep(cfg: Config, st: Store, call: Call, oks: seq<bool>)
    ensures |oks| == 0 ==> RunCall(cfg, st, call, oks) == st
    ensures |oks| > 0 ==>
      var (st', after) := Exec(cfg, st, call, oks[0]);
      RunCall(cfg, st, call, oks) == if after.Continue? then RunCall(cfg, st', after.call, oks[1..]) else st'
  {
  }

  /** Everything that a call run alone keeps: the invariants, all other bets, and all ledger rows. */
  ghost predicate Sound(cfg: Config, opening: map<WalletId, nat>, st: Store) {
    StoreOk(cfg, st) && Valid(opening, st.book)
  }

  predicate OwnKey(id: BetId, b: Bet, k: Key) {
    k in KeysOf(id, b.slot)
  }

  /** The rows that a call adds are its own bet's. */
  ghost predicate AddsOwnRows(before: Book, after: Book, id: BetId, b: Bet) {
    && (forall k :: Has(before, k) ==> Has(after, k) && Find(after.rows, k) == Find(before.rows, k))
    && (forall k :: Has(after, k) && !Has(before, k) ==> OwnKey(id, b, k))
  }

  lemma ExecAddsOwnRows(cfg: Config, st: Store, call: Call, ok: bool)
    ensures AddsOwnRows(st.book, Exec(cfg, st, call, ok).0.book, call.id, call.b)
  {
    ExecPostsItsOp(cfg, st, call, ok);
    if MoneyOp(call).Some? {
      PostEffect(st.book, MoneyOp(call).value);
    }
  }

  lemma ExecIsSound(cfg: Config, opening: map<WalletId, nat>, st: Store, call: Call, ok: bool)
    requires Sound(cfg, opening, st) && CallOk(st, call)
    ensures Sound(cfg, opening, Exec(cfg, st, call, ok).0)
  {
    ExecKeepsStore(cfg, st, call, ok);
    ExecPostsItsOp(cfg, st, call, ok);
    if MoneyOp(call).Some? {
      PostKeepsValid(opening, st.book, MoneyOp(call).value);
    }
  }

  lemma {:induction false} RunCallIsSound(
      cfg: Config, opening: map<WalletId, nat>, st: Store, call: Call, oks: seq<bool>)
    requires Sound(cfg, opening, st) && CallOk(st, call)
    ensures Sound(cfg, opening, RunCall(cfg, st, call, oks))
    decreases |oks|
  {
    if |oks| != 0 {
      var (st', after) := Exec(cfg, st, call, oks[0]);
      ExecIsSound(cfg, opening, st, call, oks[0]);
      ExecContinues(cfg, st, call, oks[0]);
      if after.Continue? {
        RunCallIsSound(cfg, opening, st', after.call, oks[1..]);
      }
    }
  }

  /** From a sound store, any call run alone, failing or dying anywhere, ends in a sound store. */
  lemma RunFromIsSound(cfg: Config, opening: map<WalletId, nat>, st: Store, e: Event, oks: seq<bool>)
    requires Sound(cfg, opening, st)
    ensures Sound(cfg, opening, RunFrom(cfg, st, e, oks))
  {
    if FirstRead(cfg, st, e).Some? {
      FirstReadIsOk(cfg, st, e);
      RunCallIsSound(cfg, opening, st, FirstRead(cfg, st, e).value, oks);
    }
  }

  /** What a call run alone leaves as it was. */
  ghost predicate TouchesOnly(before: Store, after: Store, id: BetId, b: Bet) {
    && after.rounds == before.rounds && after.used == before.used
    && after.bets - {id} == before.bets - {id}
    && AddsOwnRows(before.book, after.book, id, b)
  }

  lemma ExecTouchesOnly(cfg: Config, st: Store, call: Call, ok: bool)
    ensures TouchesOnly(st, Exec(cfg, st, call, ok).0, call.id, call.b)
  {
    ExecTouchesOwnBet(cfg, st, call, ok);
    ExecAddsOwnRows(cfg, st, call, ok);
    ExecKeepsIds(cfg, st, call, ok);
  }

  lemma ContinuesOwn(cfg: Config, st: Store, call: Call, ok: bool)
    requires call.id in st.bets ==> SameBet(call.b, st.bets[call.id])
    ensures var after := Exec(cfg, st, call, ok).1;
      after.Continue? ==> after.call.id == call.id && after.call.b.slot == call.b.slot
  {
  }

  lemma {:induction false} RunCallTouchesOnly(cfg: Config, st: Store, call: Call, oks: seq<bool>)
    requires StoreOk(cfg, st) && CallOk(st, call)
    ensures TouchesOnly(st, RunCall(cfg, st, call, oks), call.id, call.b)
    decreases |oks|
  {
    if |oks| != 0 {
      var (st', after) := Exec(cfg, st, call, oks[0]);
      ExecTouchesOnly(cfg, st, call, oks[0]);
      if after.Continue? {
        ExecKeepsStore(cfg, st, call, oks[0]);
        ExecContinues(cfg, st, call, oks[0]);
        ContinuesOwn(cfg, st, call, oks[0]);
        RunCallTouchesOnly(cfg, st', after.call, oks[1..]);
        TouchesTwice(st, st', RunCall(cfg, st', after.call, oks[1..]), call.id, call.b, after.call.b);
      }
    }
  }

  lemma TouchesTwice(a: Store, b: Store, c: Store, id: BetId, x: Bet, y: Bet)
    requires TouchesOnly(a, b, id, x) && TouchesOnly(b, c, id, y) && x.slot == y.slot
    ensures TouchesOnly(a, c, id, x)
  {
  }

  // ----- a call run alone is a run of the protocol -----

  lemma {:induction false} RunConcat(cfg: Config, s: State, a: seq<Event>, b: seq<Event>)
    ensures Run(cfg, s, a + b) == Run(cfg, Run(cfg, s, a), b)
    decreases |b|
  {
    if b == [] {
      assert a + b == a;
    } else {
      RunConcat(cfg, s, a, b[..|b| - 1]);
      assert (a + b)[..|a + b| - 1] == a + b[..|b| - 1];
    }
  }

  /** Only a placeBet depends on the timing facts about reservations. */
  predicate MayRunAlone(cfg: Config, call: Call) {
    call.Unborn() ==> !cfg.timing.oneRound && !cfg.timing.reserveFirst
  }

  /** With nobody else in flight, such a call is never held up. */
  lemma AloneIsEnabled(cfg: Config, s: State, c: CallId)
    requires s.calls.Keys == {c} && MayRunAlone(cfg, s.calls[c])
    ensures Enabled(cfg, s, s.calls[c])
  {
    if s.calls[c].PlaceLock? {
      assert forall d :: d in s.calls ==> d == c;
    }
  }

  lemma {:induction false} RunCallIsARun(cfg: Config, s: State, c: CallId, oks: seq<bool>) returns (more: seq<Event>)
    requires s.calls.Keys == {c} && MayRunAlone(cfg, s.calls[c])
    ensures Run(cfg, s, more).store == RunCall(cfg, s.store, s.calls[c], oks) && Run(cfg, s, more).calls == map[]
    decreases |oks|
  {
    if |oks| == 0 {
      more := [Die(c)];
      assert Run(cfg, s, []) == s;
      assert Run(cfg, s, more) == Next(cfg, s, Die(c));
    } else {
      AloneIsEnabled(cfg, s, c);
      var s' := Next(cfg, s, Step(c, oks[0]));
      StepAlone(cfg, s, c, oks[0]);
      assert Run(cfg, s, []) == s;
      assert Run(cfg, s, [Step(c, oks[0])]) == s';
      var rest := [];
      if c in s'.calls {
        rest := RunCallIsARun(cfg, s', c, oks[1..]);
      }
      more := [Step(c, oks[0])] + rest;
      RunConcat(cfg, s, [Step(c, oks[0])], rest);
    }
  }

  lemma StepAlone(cfg: Config, s: State, c: CallId, ok: bool)
    requires s.calls.Keys == {c} && MayRunAlone(cfg, s.calls[c]) && Enabled(cfg, s, s.calls[c])
    ensures var (st', after) := Exec(cfg, s.store, s.calls[c], ok);
      var s' := Next(cfg, s, Step(c, ok));
      && s'.store == st'
      && (if after.Continue? then s'.calls == map[c := after.call] && MayRunAlone(cfg, after.call)
            else s'.calls == map[])
  {
  }

  // ----- calls one after the other -----

  /** A call that runs alone: its event, and the answers to its statements. */
  datatype Alone = Alone(e: Event, oks: seq<bool>)

  ghost function Replay(cfg: Config, st: Store, log: seq<Alone>): Store {
    if |log| == 0 then st
    else RunFrom(cfg, Replay(cfg, st, log[..|log| - 1]), log[|log| - 1].e, log[|log| - 1].oks)
  }

  lemma ReplayMore(cfg: Config, st: Store, log: seq<Alone>, next: Alone)
    ensures Replay(cfg, st, log + [next]) == RunFrom(cfg, Replay(cfg, st, log), next.e, next.oks)
  {
    assert (log + [next])[..|log|] == log;
  }

  lemma {:induction false} ReplayIsSound(cfg: Config, opening: map<WalletId, nat>, st: Store, log: seq<Alone>)
    requires Sound(cfg, opening, st)
    ensures Sound(cfg, opening, Replay(cfg, st, log))
  {
    if |log| != 0 {
      ReplayIsSound(cfg, opening, st, log[..|log| - 1]);
      RunFromIsSound(cfg, opening, Replay(cfg, st, log[..|log| - 1]), log[|log| - 1].e, log[|log| - 1].oks);
    }
  }

  /** The service's methods, called one after the other, stay within the runs of the protocol,
      so what holds in every run holds after them. */
  lemma {:induction false} ReplayIsARun(cfg: Config, s: State, log: seq<Alone>) returns (more: seq<Event>)
    requires s.calls == map[]
    ensures Run(cfg, s, more).store == Replay(cfg, s.store, log) && Run(cfg, s, more).calls == map[]
  {
    if |log| == 0 {
      more := [];
    } else {
      var first := ReplayIsARun(cfg, s, log[..|log| - 1]);
      var s', last := Run(cfg, s, first), log[|log| - 1];
      more := first;
      if FirstRead(cfg, s'.store, last.e).Some? {
        var begun := Next(cfg, s', last.e);
        BeginAlone(cfg, s', last.e);
        var rest := RunCallIsARun(cfg, begun, last.e.call, last.oks);
        more := first + ([last.e] + rest);
        assert Run(cfg, s', []) == s';
        assert Run(cfg, s', [last.e]) == begun;
        RunConcat(cfg, s', [last.e], rest);
        RunConcat(cfg, s, first, [last.e] + rest);
      }
    }
  }

  lemma BeginAlone(cfg: Config, s: State, e: Event)
    requires s.calls == map[] && FirstRead(cfg, s.store, e).Some?
    ensures e.BeginCancel? || e.BeginCash? || e.BeginRecover? || e.BeginReconcile? || e.BeginVoid?
    ensures var begun := Next(cfg, s, e);
      begun.calls == map[e.call := FirstRead(cfg, s.store, e).value] && begun.store == s.store
        && !begun.calls[e.call].Unborn()
  {
  }

  /** A placeBet run alone is a run of the protocol too. */
  lemma PlaceIsARun(cfg: Config, s: State, id: BetId, b: Bet, oks: seq<bool>) returns (more: seq<Event>)
    requires s.calls == map[] && id !in s.store.used && !cfg.timing.oneRound && !cfg.timing.reserveFirst
    requires b == Bet(b.slot, b.wallet, b.currency, b.amount, b.auto, b.cap, Reserving, 0, 0)
    ensures Run(cfg, s, more).calls == map[]
    ensures Run(cfg, s, more).store == RunCall(cfg, s.store.(used := s.store.used + {id}), PlaceLock(id, b), oks)
  {
    var e := BeginPlace(0, id, b.slot, b.wallet, b.currency, b.amount, b.auto, b.cap);
    var begun := Next(cfg, s, e);
    assert begun.calls == map[0 := PlaceLock(id, b)];
    var rest := RunCallIsARun(cfg, begun, 0, oks);
    more := [e] + rest;
    assert Run(cfg, s, []) == s;
    assert Run(cfg, s, [e]) == begun;
    RunConcat(cfg, s, [e], rest);
  }
}
