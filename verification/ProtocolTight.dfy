/** The bounds on retry copies and executions are attained. */
module ProtocolTight {
  import opened Config
  import opened Stage
  import opened Ledger
  import opened Protocol
  import opened ProtocolConservation
  import opened ProtocolExclusion
  import opened ProtocolChain
  import opened ProtocolExecutions
  import opened ProtocolDrive
  import opened ProtocolWitnesses

  function CountAt(s: State, rid: Rid): int
    requires rid in s.main
  {
    Counted(Lookup(s.table, StageKey(s.main[rid])))
  }

  /** While the ledger cannot count, each round raises the header. */
  lemma {:induction false} HeaderRounds(cfg: Config, s: State, rid: Rid) returns (run: Run)
    requires cfg.Valid() && Claimable(s, rid) && Attempt(s.main[rid]) < cfg.maxAttempts && CountAt(s, rid) >= 0
    ensures RunTo(cfg, s, run).Some?
    ensures
      var s' := RunTo(cfg, s, run).value;
      && Claimable(s', rid) && Attempt(s'.main[rid]) == cfg.maxAttempts - 1 && CountAt(s', rid) == CountAt(s, rid)
      && s'.main[rid].body == s.main[rid].body
      && RetryCopies(s'.log, rid) == RetryCopies(s.log, rid) + cfg.maxAttempts - 1 - Attempt(s.main[rid])
    decreases cfg.maxAttempts - Attempt(s.main[rid])
  {
    hide RunTo, RetryCopies, Attempt, Acceptable, Open, Counted;
    if Attempt(s.main[rid]) == cfg.maxAttempts - 1 {
      EmptyRun(cfg, s);
      run := [];
    } else {
      var first := RoundTrip(cfg, s, rid, NO);
      var more := HeaderRounds(cfg, RunTo(cfg, s, first).value, rid);
      RunConcat(cfg, s, first, more);
      run := first + more;
    }
  }

  /** Once the header is at its highest, each round that the ledger counts raises the counter alone. */
  lemma {:induction false} CountedRounds(cfg: Config, s: State, rid: Rid) returns (run: Run)
    requires cfg.Valid() && Claimable(s, rid)
    requires Attempt(s.main[rid]) == cfg.maxAttempts - 1 && 0 <= CountAt(s, rid) < cfg.maxAttempts
    ensures RunTo(cfg, s, run).Some?
    ensures
      var s' := RunTo(cfg, s, run).value;
      && Claimable(s', rid) && s'.main[rid].body == s.main[rid].body
      && RetryCopies(s'.log, rid) == RetryCopies(s.log, rid) + cfg.maxAttempts - 1 - CountAt(s, rid)
    decreases cfg.maxAttempts - CountAt(s, rid)
  {
    hide RunTo, RetryCopies, Attempt, Acceptable, Open, Counted;
    if CountAt(s, rid) == cfg.maxAttempts - 1 {
      EmptyRun(cfg, s);
      run := [];
    } else {
      var first := RoundTrip(cfg, s, rid, YES);
      var more := CountedRounds(cfg, RunTo(cfg, s, first).value, rid);
      RunConcat(cfg, s, first, more);
      run := first + more;
    }
  }

  /** The last job starts. */
  lemma LastStart(cfg: Config, s: State, rid: Rid)
    requires cfg.Valid() && Claimable(s, rid)
    ensures
      var run := [Deliver(rid)] + Advances(rid, CLAIM);
      && RunTo(cfg, s, run).Some?
      && var s' := RunTo(cfg, s, run).value;
         && rid in s'.tasks && s'.tasks[rid].pc == Starting && s'.injected == s.injected
         && RetryCopies(s'.log, rid) == RetryCopies(s.log, rid)
  {
    hide Walk, Step, RunTo, Next, RetryCopies, Attempt, Acceptable, Open, Acked, Counted, Sends;
    var m := s.main[rid];
    var v := View(Taken(m), Lookup(s.table, StageKey(m)), []);
    Claims(cfg, v, s.now);
    WalkSendsNothing(cfg, v, CLAIM, s.now);
    NothingSent();
    DeliverAndWalk(cfg, s, rid, CLAIM);
    DeliverTakes(cfg, s, rid);
    var s' := RunTo(cfg, s, [Deliver(rid)] + Advances(rid, CLAIM)).value;
    SentIsLogged(s, Next(cfg, s, Deliver(rid)), s', rid, DeploymentOf(m), Walk(cfg, v, CLAIM, s.now).value);
  }

  lemma NothingSent()
    ensures Sends([]) == 0
  {
  }

  /** For every acceptable request without attempts behind it there is a run with exactly the greatest number of
      retry copies and the greatest number of executions: RecordRetry fails until the header is at its
      highest, and answers from then on. */
  lemma BoundsAreAttained(cfg: Config, m: Message) returns (run: Run)
    requires cfg.Valid() && Acceptable(m.body) && Attempt(m) == 0
    ensures RunTo(cfg, INITIAL, run).Some?
    ensures
      var s := RunTo(cfg, INITIAL, run).value;
      && RetryCopies(s.log, 0) == 2 * (cfg.maxAttempts - 1)
      && Executions(s.log, 0) == 2 * cfg.maxAttempts - 1
  {
    hide RunTo, RetryCopies, Executions, Attempt, Acceptable, Open, Counted;
    Injected(cfg, m);
    var first := [Inject(0, m)];
    var s0 := RunTo(cfg, INITIAL, first).value;
    NothingYet(s0, m);
    var second := HeaderRounds(cfg, s0, 0);
    var s1 := RunTo(cfg, s0, second).value;
    var third := CountedRounds(cfg, s1, 0);
    var s2 := RunTo(cfg, s1, third).value;
    LastStart(cfg, s2, 0);
    var last := [Deliver(0)] + Advances(0, CLAIM);
    RunConcat(cfg, INITIAL, first, second);
    RunConcat(cfg, INITIAL, first + second, third);
    RunConcat(cfg, INITIAL, first + second + third, last);
    run := first + second + third + last;
    StartedIsAhead(cfg, run, first + second + third);
  }

  lemma NothingYet(s: State, m: Message)
    requires s.log == [] && s.table == map[] && 0 in s.main && s.main[0] == m
    ensures RetryCopies(s.log, 0) == 0 && CountAt(s, 0) == 0
  {
  }

  /** A job that has started is one execution ahead of its copies. */
  lemma StartedIsAhead(cfg: Config, run: Run, before: Run)
    requires cfg.Valid() && RunTo(cfg, INITIAL, run).Some? && RunTo(cfg, INITIAL, before).Some?
    requires var s := RunTo(cfg, INITIAL, before).value; Claimable(s, 0)
    requires
      var s, s' := RunTo(cfg, INITIAL, before).value, RunTo(cfg, INITIAL, run).value;
      s'.injected == s.injected && 0 in s'.tasks && s'.tasks[0].pc == Starting
    ensures
      var s' := RunTo(cfg, INITIAL, run).value;
      Executions(s'.log, 0) == RetryCopies(s'.log, 0) + 1
  {
    hide RunTo, RetryCopies, Executions, Attempt, Acceptable, Open;
    ExecutionsFollowCopies(cfg, run, 0);
    RequestsAreConserved(cfg, before);
    assert Conserved(RunTo(cfg, INITIAL, before).value, 0);
  }
}
