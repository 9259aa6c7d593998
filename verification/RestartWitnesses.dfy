/** Concrete restarts that go wrong: a stake that is stranded, and a clock that goes back. */
module RestartWitnesses {
  import opened Domain
  import opened Money
  import opened Ledger
  import opened BetProtocol
  import opened Sequential
  import opened RoundClosing
  import opened BetWitnesses
  import opened BootSteps
  import opened GameEngine

  const LIVE: Bet := Stake(10).(status := Active)

  const REPAID: Row := Row(0, Refund, 10, 100, RestartKey(7), Some(7))

  /** Bet 7 is live in round 0, and its stake is debited. */
  function Live(phase: Phase): Store {
    Store(map[0 := RoundRow(phase, 200)], map[7 := LIVE], Book(map[0 := 90], [DebitRow(7, 10)]), {7})
  }

  /** The engine columns of a round whose deadline was at time zero. */
  function Columns(seed: bool, startedAt: Option<int>, crashedAt: Option<int>): Infos {
    map[0 := RoundInfo(0, seed, startedAt, Some(0), crashedAt, None)]
  }

  lemma LiveIsReachable(cfg: Config, phase: Phase)
    requires Generous(cfg)
    ensures Reachable(cfg, State(Live(phase), map[], {}))
  {
    var s := CashOutHasRead(cfg);
    s := GoStep(cfg, s, 0, false);
    assert s.calls == map[];
    s := Go(cfg, s, SetPhase(0, phase));
    assert s.store == Live(phase);
  }

  lemma TakeOne(cfg: Config, d: Db, a: BootStep)
    requires d.store.rounds.Keys <= d.info.Keys && Legal(d, a)
    ensures Leads(cfg, d, [a], Take(cfg, d, a)) && Reaches(cfg, d, Take(cfg, d, a))
  {
    var d' := Take(cfg, d, a);
    assert Leads(cfg, d', [a][1..], d');
    assert Leads(cfg, d, [a], d');
  }

  /**
   * A crashed round whose row has lost its seed is refunded and completed, but the reversal
   * of its one live bet fails. The stake stays taken and the bet active: the round has a
   * crash time, so no sweep selects it, and it is closed, so no boot does.
   */
  lemma StakeIsStrandedForGood(timing: Timing) returns (before: Db, after: Db)
    ensures Reachable(Demo(timing), State(before.store, map[], {}))
    ensures Reaches(Demo(timing), before, after) && RoundRefunded(before.store, after.store, 0, _ => [false])
    ensures HasStatus(after.store, 7, Active) && !Has(after.store.book, RestartKey(7)) && Holds(after.store, 90)
    ensures 0 !in OpenRounds(after.store) && forall cutoff :: !IsStranded(after.store, after.info, 7, cutoff)
  {
    var cfg := Demo(timing);
    LiveIsReachable(cfg, Crashed);
    before := Db(Live(Crashed), Columns(false, Some(0), Some(5)), 100);
    assert OpenIn(before.store.rounds) == {0};
    assert Legal(before, RefundStep(7, [false]));
    TakeOne(cfg, before, RefundStep(7, [false]));
    assert Take(cfg, before, RefundStep(7, [false])) == before;
    TakeOne(cfg, before, CloseStep(0));
    after := Take(cfg, before, CloseStep(0));
    StakeStays(before.store);
  }

  lemma StakeStays(st: Store)
    requires st == Live(Crashed)
    ensures RoundRefunded(st, Close(st, 0), 0, _ => [false]) && !Has(st.book, RestartKey(7))
  {
    assert ActiveIn(st, 0) == {7};
  }

  /**
   * A boot finds a betting round too old, posts the refund of its bet and dies before it
   * writes the status. The next node's clock is twenty seconds behind: it finds the round
   * young enough and plays it, and the bet is refunded and paid.
   */
  lemma ClockMustNotGoBack(timing: Timing) returns (before: Db, after: Db, paid: Store)
    ensures Reachable(Demo(timing), State(before.store, map[], {}))
    ensures Reaches(Demo(timing), before, after) && after.store.rounds.Keys <= after.info.Keys
    ensures CanResume(after.(now := after.now - 20_000), 0)
    ensures paid == RunFrom(
      Demo(timing), after.store.(rounds := map[0 := RoundRow(Running, 200)]), BeginCash(0, 7, 150), [true, true])
    ensures Has(paid.book, RestartKey(7)) && Has(paid.book, PayoutKey(7)) && Holds(paid, 115)
  {
    var cfg := Demo(timing);
    LiveIsReachable(cfg, Betting);
    before, after := FirstBoot(cfg);
    assert OpenIn(after.store.rounds) == {0};
    paid := PayAfterRefund(cfg);
  }

  lemma FirstBoot(cfg: Config) returns (before: Db, after: Db)
    ensures before == Db(Live(Betting), Columns(true, None, None), 40_000) && Reaches(cfg, before, after)
    ensures after == before.(store := Live(Betting).(book := Book(map[0 := 100], [DebitRow(7, 10), REPAID])))
  {
    before := Db(Live(Betting), Columns(true, None, None), 40_000);
    assert OpenIn(before.store.rounds) == {0};
    assert Legal(before, RefundStep(7, [true, false]));
    TakeOne(cfg, before, RefundStep(7, [true, false]));
    after := Take(cfg, before, RefundStep(7, [true, false]));
    RefundIsPosted(before.store);
  }

  lemma RefundIsPosted(st: Store)
    requires st == Live(Betting)
    ensures RefundAlone(st, 7, [true, false]) == st.(book := Book(map[0 := 100], [DebitRow(7, 10), REPAID]))
  {
    assert !Has(st.book, RestartKey(7));
    assert [DebitRow(7, 10)] + [REPAID] == [DebitRow(7, 10), REPAID];
  }

  lemma PayAfterRefund(cfg: Config) returns (paid: Store)
    requires cfg == Demo(cfg.timing)
    ensures var st := Live(Running).(book := Book(map[0 := 100], [DebitRow(7, 10), REPAID]));
      paid == RunFrom(cfg, st, BeginCash(0, 7, 150), [true, true])
    ensures Has(paid.book, RestartKey(7)) && Has(paid.book, PayoutKey(7)) && Holds(paid, 115)
  {
    var rows := [DebitRow(7, 10), REPAID];
    var st := Live(Running).(book := Book(map[0 := 100], rows));
    var oks := [true, true];
    paid := RunFrom(cfg, st, BeginCash(0, 7, 150), oks);
    WonPays15(cfg);
    var won := LIVE.(status := CashedOut, mult := 150, payout := 15);
    var claimed := st.(bets := map[7 := won]);
    assert st.bets[7 := won] == map[7 := won];
    assert PayoutAt(cfg.limits, LIVE, 150) == PayoutAt(cfg.limits, Stake(10), 150);
    RunCallStep(cfg, st, CashClaim(7, LIVE, 150), oks);
    assert Exec(cfg, st, CashClaim(7, LIVE, 150), true) == (claimed, Continue(CashCredit(7, won)));
    assert oks[1..] == [true];
    RunCallStep(cfg, claimed, CashCredit(7, won), [true]);
    assert rows[..1] == [DebitRow(7, 10)] && rows[..1][..0] == [];
    assert Find(rows, RestartKey(7)) == Some(REPAID);
    FindAppend(rows, Row(0, PayoutCredit, 15, 115, PayoutKey(7), Some(7)));
    assert Find(rows, PayoutKey(7)) == None;
  }
}
