/** How long exclusion lasts: two deliveries of one deployment past their claim, and when that can be. */
module ProtocolSharing {
  import opened Options
  import opened Ledger
  import opened Config
  import opened Stage
  import opened Paths
  import opened Protocol
  import opened ProtocolLedger
  import opened ProtocolConservation
  import opened ProtocolExclusion
  import opened ProtocolRetry
  import opened ProtocolDrive
  import opened ProtocolWitnesses

  /** The exclusion interval, exactly: in a timely run two deliveries of one deployment are both past
      their claim only if one of them has nothing left but to send its delayed copy, after a Release
      that the ledger answered. A Release that failed still keeps all others out. */
  lemma SharedOnlyAfterRelease(cfg: Config, run: Run, r1: Rid, r2: Rid)
    requires cfg.Valid() && RunTo(cfg, INITIAL, run).Some? && TimelyRun(cfg, run) && r1 != r2
    ensures
      var s := RunTo(cfg, INITIAL, run).value;
      && r1 in s.tasks && Working(s.tasks[r1].pc) && r2 in s.tasks && Working(s.tasks[r2].pc)
      && StageKey(s.tasks[r1].message) == StageKey(s.tasks[r2].message) ==>
        || (s.tasks[r1].released && s.tasks[r1].pc.Republishing?)
        || (s.tasks[r2].released && s.tasks[r2].pc.Republishing?)
  {
    hide RunTo, TimelyRun, Working, Secure;
    AtMostOneHolder(cfg, run);
    var s := RunTo(cfg, INITIAL, run).value;
    assert Apart(s, r1, r2) && SecureAt(s, r1) && SecureAt(s, r2);
  }

  /** And each such delivery can be joined: in a timely run, a second delivery gets past its claim beside
      one that is past its own if and only if that one has been released and the row is free. */
  lemma JoinableExactlyAfterRelease(cfg: Config, run: Run, rid: Rid, other: Rid)
    requires cfg.Valid() && RunTo(cfg, INITIAL, run).Some? && TimelyRun(cfg, run)
    requires Timely(RunTo(cfg, INITIAL, run).value)
    requires
      var s := RunTo(cfg, INITIAL, run).value;
      rid in s.tasks && Working(s.tasks[rid].pc) && other !in s.injected
    ensures
      var s := RunTo(cfg, INITIAL, run).value;
      && RunTo(cfg, s, Joining(s, rid, other)).Some?
      && var s' := RunTo(cfg, s, Joining(s, rid, other)).value;
         && rid in s'.tasks && s'.tasks[rid] == s.tasks[rid] && other in s'.tasks
         && StageKey(s'.tasks[rid].message) == StageKey(s'.tasks[other].message)
         && StageKey(s.tasks[rid].message) in s.table
         && (Working(s'.tasks[other].pc) <==>
               s.tasks[rid].released && Takeable(s.table[StageKey(s.tasks[rid].message)], s.now))
  {
    hide RunTo, TimelyRun, Working, Conserved;
    AtMostOneHolder(cfg, run);
    RequestsAreConserved(cfg, run);
    HoldersHaveRows(cfg, run, rid);
    var s := RunTo(cfg, INITIAL, run).value;
    RowsAreAccounted(cfg, run, StageKey(s.tasks[rid].message));
    assert SecureAt(s, rid) && TimelyTask(s, rid) && Conserved(s, rid) && Conserved(s, other);
    JoinedIfTakeable(cfg, s, rid, other);
  }

  /** Some number is not in a finite set. */
  lemma {:induction false} FreshNumber(used: set<nat>) returns (n: nat)
    ensures forall k :: k in used ==> k < n
  {
    if used == {} {
      n := 0;
    } else {
      var k :| k in used;
      var m := FreshNumber(used - {k});
      assert forall j :: j in used ==> j == k || j in used - {k};
      n := if m > k then m else k + 1;
    }
  }

  /** Two deliveries of one deployment hold it, one of them just joined. */
  predicate BothHold(cfg: Config, s: State, rid: Rid, other: Rid)
    requires cfg.Valid() && rid in s.tasks
  {
    RunTo(cfg, s, Joining(s, rid, other)).Some?
    && var s' := RunTo(cfg, s, Joining(s, rid, other)).value;
       && IsHolder(s', rid) && IsHolder(s', other)
       && StageKey(s'.tasks[rid].message) == StageKey(s'.tasks[other].message)
  }

  /** Timeliness is exactly what exclusion needs: the last state of a timely run is timely if and only if
      no holder in it can be joined by a second holder. */
  lemma TimelyExactly(cfg: Config, run: Run)
    requires cfg.Valid() && RunTo(cfg, INITIAL, run).Some? && TimelyRun(cfg, run)
    ensures
      var s := RunTo(cfg, INITIAL, run).value;
      Timely(s) <==>
        forall rid, other :: IsHolder(s, rid) && other !in s.injected ==> !BothHold(cfg, s, rid, other)
  {
    hide RunTo, TimelyRun, Working, Conserved, Joining;
    var s := RunTo(cfg, INITIAL, run).value;
    if Timely(s) {
      forall rid, other | IsHolder(s, rid) && other !in s.injected
        ensures !BothHold(cfg, s, rid, other)
      {
        JoinableExactlyAfterRelease(cfg, run, rid, other);
      }
    } else {
      var rid :| !TimelyTask(s, rid);
      var other := FreshNumber(s.injected.Keys);
      AtMostOneHolder(cfg, run);
      RequestsAreConserved(cfg, run);
      assert SecureAt(s, rid) && Conserved(s, rid) && Conserved(s, other);
      LateHolderCanBeJoined(cfg, s, rid, other);
      assert BothHold(cfg, s, rid, other);
    }
  }

  // ------------------------------------------------------------------ a run that shares

  /** At the initial time every lease just granted is live. */
  predicate JustGranted(cfg: Config, s: State, rid: Rid) {
    rid in s.tasks && Working(s.tasks[rid].pc) ==> s.tasks[rid].deadline == cfg.leaseDuration
  }

  ghost predicate Instant(cfg: Config, s: State) {
    s.now == 0 && forall rid :: JustGranted(cfg, s, rid)
  }

  predicate NoTick(run: Run) {
    forall i :: 0 <= i < |run| ==> !run[i].Tick?
  }

  lemma InstantStep(cfg: Config, s: State, l: Label)
    requires cfg.Valid() && Enabled(s, l) && !l.Tick? && Instant(cfg, s) && (l.Deliver? ==> Conserved(s, l.rid))
    ensures Instant(cfg, Next(cfg, s, l))
  {
    hide Next, Working, Conserved, EffectOf, After;
    StepLogs(cfg, s, l);
    ClockStands(cfg, s, l);
    forall rid
      ensures JustGranted(cfg, Next(cfg, s, l), rid)
    {
      assert JustGranted(cfg, s, rid);
      if rid != l.rid {
        StepFrames(cfg, s, l, rid);
      } else {
        MoverIsJustGranted(cfg, s, l);
      }
    }
  }

  lemma ClockStands(cfg: Config, s: State, l: Label)
    requires cfg.Valid() && Enabled(s, l) && !l.Tick?
    ensures Next(cfg, s, l).now == s.now
  {
    hide CallAt, After, Resolve, ApplyEffect, Remember, Perform, Settle;
    if l.Advance? {
      hide Advanced;
      AdvanceTouches(cfg, s, l.rid, l.world);
    } else if l.RenewLease? {
      PerformTouches(s, l.rid, DeploymentOf(s.tasks[l.rid].message), RenewalOf(cfg, s, l.succeeds));
    }
  }

  lemma MoverIsJustGranted(cfg: Config, s: State, l: Label)
    requires cfg.Valid() && Enabled(s, l) && !l.Tick? && s.now == 0 && JustGranted(cfg, s, l.rid)
    ensures JustGranted(cfg, Next(cfg, s, l), l.rid)
  {
    hide CallAt, After, Resolve, ApplyEffect, Perform, Settle, Advanced, Working, DeploymentOf, Acceptable;
    if l.Advance? {
      var t, e := s.tasks[l.rid], EffectOf(cfg, s, l.rid, l.world);
      NextAdvance(cfg, s, l.rid, l.world);
      TaskAdvanced(cfg, s, l.rid, l.world);
      RememberKeepsMessage(cfg, t, e);
      if !Working(t.pc) {
        WorksByAcquiring(cfg, t.message, t.pc, e.outcome);
      }
    } else if l.RenewLease? {
    } else if l.Deliver? {
      StartIsIdle(s.main[l.rid]);
    }
  }

  lemma StartIsIdle(m: Message)
    ensures !Working(Start(m))
  {
  }

  /** A run in which no time passes is timely, and so is its last state. */
  lemma {:induction false} InstantRunsAreTimely(cfg: Config, run: Run)
    requires cfg.Valid() && RunTo(cfg, INITIAL, run).Some? && NoTick(run)
    ensures TimelyRun(cfg, run) && Instant(cfg, RunTo(cfg, INITIAL, run).value)
    ensures Timely(RunTo(cfg, INITIAL, run).value)
  {
    hide Next, Working, Conserved;
    if run != [] {
      var n := |run| - 1;
      InstantRunsAreTimely(cfg, run[..n]);
      RequestsAreConserved(cfg, run[..n]);
      var s := RunTo(cfg, INITIAL, run[..n]).value;
      assert run[n].Deliver? ==> Conserved(s, run[n].rid);
      InstantStep(cfg, s, run[n]);
    }
    InstantIsTimely(cfg, RunTo(cfg, INITIAL, run).value);
  }

  lemma InstantIsTimely(cfg: Config, s: State)
    requires cfg.Valid() && Instant(cfg, s)
    ensures Timely(s)
  {
    forall rid
      ensures TimelyTask(s, rid)
    {
      assert JustGranted(cfg, s, rid);
    }
  }

  lemma {:induction false} AdvancesDoNotTick(rid: Rid, ws: seq<World>)
    ensures NoTick(Advances(rid, ws))
  {
    if ws != [] {
      AdvancesDoNotTick(rid, ws[..|ws| - 1]);
    }
  }

  /** If more than one attempt is allowed, then for every acceptable request whose header is below the
      limit there is a timely run in which two deliveries of its deployment are past their claim, the
      first of them still in its job. */
  lemma SharedAfterRelease(cfg: Config, m: Message) returns (run: Run)
    requires cfg.Valid() && cfg.maxAttempts >= 2 && Acceptable(m.body) && 0 <= Attempt(m) < cfg.maxAttempts
    ensures RunTo(cfg, INITIAL, run).Some? && TimelyRun(cfg, run)
    ensures
      var s := RunTo(cfg, INITIAL, run).value;
      && 0 in s.tasks && s.tasks[0].pc.Republishing? && s.tasks[0].released
      && 1 in s.tasks && Working(s.tasks[1].pc)
      && StageKey(s.tasks[0].message) == StageKey(s.tasks[1].message) == StageKey(m)
  {
    hide RunTo, TimelyRun, Claimable, Attempt, Acceptable, Walk, Next, Open, Working, Arrived, Acked;
    Injected(cfg, m);
    var first := [Inject(0, m)];
    var s0 := RunTo(cfg, INITIAL, first).value;
    var walk := [Deliver(0)] + Advances(0, Retry(YES));
    ReleasedBy(cfg, s0, 0);
    RunConcat(cfg, INITIAL, first, walk);
    AdvancesDoNotTick(0, Retry(YES));
    run := first + walk;
    InstantRunsAreTimely(cfg, run);
    RequestsAreConserved(cfg, run);
    var s := RunTo(cfg, INITIAL, run).value;
    assert Conserved(s, 0) && Conserved(s, 1);
    JoinableExactlyAfterRelease(cfg, run, 0, 1);
    var join := Joining(s, 0, 1);
    RunConcat(cfg, INITIAL, run, join);
    run := run + join;
    InstantRunsAreTimely(cfg, run);
  }

  lemma ReleasedBy(cfg: Config, s: State, rid: Rid)
    requires cfg.Valid() && Claimable(s, rid)
    requires Taking(s.main[rid], Lookup(s.table, StageKey(s.main[rid])), YES) < cfg.maxAttempts
    ensures
      var m, run := s.main[rid], [Deliver(rid)] + Advances(rid, Retry(YES));
      && RunTo(cfg, s, run).Some?
      && var s' := RunTo(cfg, s, run).value;
         && s'.injected == s.injected && s'.now == s.now
         && rid in s'.tasks && s'.tasks[rid].message == m
         && s'.tasks[rid].pc.Republishing? && s'.tasks[rid].released && Working(s'.tasks[rid].pc)
         && StageKey(m) in s'.table && Takeable(s'.table[StageKey(m)], s'.now)
  {
    hide Walk, Next, RunTo, Attempt, Step, DeploymentOf, Acceptable, Acked;
    var m := s.main[rid];
    var v := View(Taken(m), Lookup(s.table, StageKey(m)), []);
    Retries(cfg, v, YES, s.now);
    DeliverAndWalk(cfg, s, rid, Retry(YES));
    DeliverTakes(cfg, s, rid);
  }

  // ------------------------------------------------------------------ a run that is not timely

  /** A claim leaves its delivery a holder until the lease ends. */
  lemma ClaimedAt(cfg: Config, s: State, rid: Rid)
    requires cfg.Valid() && Claimable(s, rid) && s.now == 0 && s.table == map[]
    ensures
      var m, run := s.main[rid], [Deliver(rid)] + Advances(rid, [YES]);
      && RunTo(cfg, s, run).Some?
      && var s' := RunTo(cfg, s, run).value;
         && s'.now == 0 && s'.injected == s.injected
         && IsHolder(s', rid) && s'.tasks[rid].message == m
         && StageKey(m) in s'.table && s'.table[StageKey(m)].state == InProgress
         && s'.table[StageKey(m)].lease == Some(cfg.leaseDuration)
  {
    hide Walk, Next, RunTo, Attempt, DeploymentOf, Acceptable;
    var m := s.main[rid];
    var v := View(Taken(m), Lookup(s.table, StageKey(m)), []);
    OneStep(cfg, v, YES, s.now);
    DeliverAndWalk(cfg, s, rid, [YES]);
    DeliverTakes(cfg, s, rid);
  }

  /** Without timeliness exclusion does fail: two deliveries of one request, the second claimed when
      the first one's lease ends. */
  lemma ExclusionFailsWhenLate(cfg: Config, m: Message) returns (run: Run)
    requires cfg.Valid() && Acceptable(m.body)
    ensures RunTo(cfg, INITIAL, run).Some?
    ensures
      var s := RunTo(cfg, INITIAL, run).value;
      IsHolder(s, 0) && IsHolder(s, 1) && StageKey(s.tasks[0].message) == StageKey(s.tasks[1].message)
  {
    hide RunTo, Claimable, Acceptable, Working, Conserved;
    var first := [Inject(0, m.(headers := map[]))];
    Injected(cfg, m.(headers := map[]));
    var s0 := RunTo(cfg, INITIAL, first).value;
    ClaimedAt(cfg, s0, 0);
    var walk := [Deliver(0)] + Advances(0, [YES]);
    RunConcat(cfg, INITIAL, first, walk);
    var claimed := first + walk;
    RunExtends(cfg, INITIAL, claimed, Tick(cfg.leaseDuration));
    var late := claimed + [Tick(cfg.leaseDuration)];
    RequestsAreConserved(cfg, late);
    var s := RunTo(cfg, INITIAL, late).value;
    assert Conserved(s, 0) && Conserved(s, 1);
    JoinedIfTakeable(cfg, s, 0, 1);
    RunConcat(cfg, INITIAL, late, Joining(s, 0, 1));
    run := late + Joining(s, 0, 1);
  }
}
