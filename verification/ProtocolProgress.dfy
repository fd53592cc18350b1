/** Nothing gets stuck: every request that is not lost can still be brought to an end. */
module ProtocolProgress {
  import opened Options
  import opened Events
  import opened Ledger
  import opened Config
  import opened Stage
  import opened Protocol
  import opened ProtocolLedger
  import opened ProtocolConservation
  import opened ProtocolExclusion
  import opened ProtocolWitnesses

  /** How many calls a delivery is from its end, if the outside world plays along. */
  function Remaining(pc: Pc): nat {
    match pc
    case Claiming => 20
    case AckingClaim => 19
    case Queued => 18
    case Starting => 17
    case MakingWorkdir => 16
    case Cloning => 15
    case Building => 14
    case Completing(_) => 13
    case Announcing(_) => 12
    case Reporting(_) => 11
    case Recording(_, _) => 10
    case Failing(_, _) => 9
    case AnnouncingFailure(_, _) => 8
    case ReportingFailure(_, _) => 7
    case EmittingRetry(_, _) => 6
    case Releasing(_, _) => 5
    case Republishing(_, _, _) => 4
    case ReplayingService(_) => 4
    case ReplayingProgress(_) => 3
    case AckingReplay => 2
    case _ => 1
  }

  /** On the way to a result that settles the request. */
  predicate Succeeding(pc: Pc) {
    || pc.AckingClaim? || pc.Queued? || pc.Starting? || pc.MakingWorkdir? || pc.Cloning? || pc.Building?
    || pc.Completing? || pc.Announcing? || pc.Reporting?
    || pc.ReplayingService? || pc.ReplayingProgress? || pc.AckingReplay?
  }

  /** A call that succeeds, or a retry that cannot be counted, brings a delivery nearer to its end, and never
      drops its request. */
  lemma NearsEnd(cfg: Config, m: Message, pc: Pc, o: Outcome)
    requires cfg.Valid() && !pc.Over? && !HandlesMalformed(pc) && (o.Err? ==> pc.Recording?)
    ensures
      var next := After(cfg, m, pc, o);
      if next.Over? then next != Over(Dropped) else Remaining(next) < Remaining(pc)
  {
    hide CallAt, Attempt, RequestOf;
  }

  lemma KeepsSucceeding(cfg: Config, m: Message, pc: Pc, o: Outcome)
    requires cfg.Valid() && Succeeding(pc) && !o.Err?
    ensures var next := After(cfg, m, pc, o); next == Over(End.Settled) || Succeeding(next)
  {
    hide CallAt, Attempt, RequestOf, Decide, AfterFailure, AfterClaim;
  }

  lemma YesIsNoError(cfg: Config, s: State, rid: Rid)
    requires cfg.Valid() && Enabled(s, Advance(rid, YES))
    ensures EffectOf(cfg, s, rid, YES).outcome.Err? ==> s.tasks[rid].pc.Recording?
  {
    hide After, SqlReply, SuccessBundle, FailureBundle;
    var t := s.tasks[rid];
    if t.pc.Recording? {
    } else {
      OnlyRecordingMissesRows(cfg, s, t.message, t.pc);
    }
  }

  lemma OnlyRecordingMissesRows(cfg: Config, s: State, m: Message, pc: Pc)
    requires cfg.Valid() && !pc.Over? && !pc.Recording?
    ensures
      var call := CallAt(cfg, m, pc);
      call.Sql? ==> !SqlReply(s.table, Statement(DeploymentOf(m), STAGE, call.op, s.now)).NoRow?
  {
    hide SuccessBundle, FailureBundle, DeploymentOf;
  }

  /** One call towards the end. */
  lemma StepTowardsEnd(cfg: Config, s: State, rid: Rid)
    requires cfg.Valid() && Enabled(s, Advance(rid, YES)) && !HandlesMalformed(s.tasks[rid].pc)
    ensures
      var s', pc := Next(cfg, s, Advance(rid, YES)), s.tasks[rid].pc;
      && s'.injected == s.injected
      && (rid in s'.dropped ==> rid in s.dropped)
      && (rid in s'.tasks ==> !s'.tasks[rid].pc.Over? && Remaining(s'.tasks[rid].pc) < Remaining(pc))
      && (Succeeding(pc) ==>
            if rid in s'.tasks then Succeeding(s'.tasks[rid].pc) else rid in s'.settled)
  {
    hide CallAt, After, Remember, Perform, Settle, Advanced, Resolve, Remaining, HandlesMalformed, Succeeding, Next,
         DeploymentOf;
    var t, e := s.tasks[rid], EffectOf(cfg, s, rid, YES);
    var next := After(cfg, t.message, t.pc, e.outcome);
    YesIsNoError(cfg, s, rid);
    NearsEnd(cfg, t.message, t.pc, e.outcome);
    if Succeeding(t.pc) {
      SucceedingIsNotRecording(t.pc);
      KeepsSucceeding(cfg, t.message, t.pc, e.outcome);
      SucceedingIsNotRecording(next);
    }
    NextAdvance(cfg, s, rid, YES);
    AdvanceTouches(cfg, s, rid, YES);
    AdvancedUnfolds(cfg, s, rid, YES);
    RememberKeepsMessage(cfg, t, e);
    WhereAdvanced(s, rid, Remember(cfg, t, e), e, next);
  }

  lemma SucceedingIsNotRecording(pc: Pc)
    ensures Succeeding(pc) ==> !pc.Recording? && !pc.Over?
  {
  }

  /** A delivery of a well-formed request can be brought to its end. */
  lemma {:induction false} Drains(cfg: Config, run: Run, rid: Rid) returns (more: Run)
    requires cfg.Valid() && RunTo(cfg, INITIAL, run).Some?
    requires
      var s := RunTo(cfg, INITIAL, run).value;
      rid in s.tasks && rid in s.injected && Acceptable(s.injected[rid].body)
    ensures RunTo(cfg, INITIAL, run + more).Some?
    ensures
      var s, s' := RunTo(cfg, INITIAL, run).value, RunTo(cfg, INITIAL, run + more).value;
      && s'.injected == s.injected && rid !in s'.tasks && rid !in s'.dropped
      && (Succeeding(s.tasks[rid].pc) ==> rid in s'.settled)
    decreases Remaining(RunTo(cfg, INITIAL, run).value.tasks[rid].pc)
  {
    hide RunTo, Next, Acceptable, Remaining, Succeeding, HandlesMalformed;
    var s := RunTo(cfg, INITIAL, run).value;
    RequestsAreConserved(cfg, run);
    assert Conserved(s, rid);
    StepTowardsEnd(cfg, s, rid);
    var l := Advance(rid, YES);
    RunExtends(cfg, INITIAL, run, l);
    var s1 := RunTo(cfg, INITIAL, run + [l]).value;
    if rid in s1.tasks {
      var rest := Drains(cfg, run + [l], rid);
      more := [l] + rest;
      assert run + more == run + [l] + rest;
    } else {
      more := [l];
    }
  }

  /** A claim on a row that is free, missing or ended succeeds or finds a result to replay. */
  lemma ClaimSucceeds(cfg: Config, s: State, rid: Rid)
    requires cfg.Valid() && rid in s.tasks && s.tasks[rid].pc == Claiming
    requires
      var row := Lookup(s.table, StageKey(s.tasks[rid].message));
      row.Some? ==>
        && row.value.state != Unset
        && (if Terminal(row.value.state) then row.value.result.Some? else !Live(row.value.lease, s.now))
    ensures
      var s' := Next(cfg, s, Advance(rid, YES));
      rid in s'.tasks && Succeeding(s'.tasks[rid].pc) && s'.injected == s.injected
  {
    hide Perform, Settle, Advanced, Remember;
    var t, e := s.tasks[rid], EffectOf(cfg, s, rid, YES);
    NextAdvance(cfg, s, rid, YES);
    AdvanceTouches(cfg, s, rid, YES);
    TaskAdvanced(cfg, s, rid, YES);
  }

  /** The time at which the row of a waiting request is free. */
  function FreeTime(s: State, row: Option<Row>): int {
    if row.Some? && Live(row.value.lease, s.now) then row.value.lease.value else s.now
  }

  /** A waiting request can be settled: after its row's lease, by its next delivery. */
  lemma SettlesFromMain(cfg: Config, run: Run, rid: Rid) returns (more: Run)
    requires cfg.Valid() && RunTo(cfg, INITIAL, run).Some?
    requires
      var s := RunTo(cfg, INITIAL, run).value;
      rid in s.main && rid in s.injected && Acceptable(s.injected[rid].body)
    ensures RunTo(cfg, INITIAL, run + more).Some? && rid in RunTo(cfg, INITIAL, run + more).value.settled
  {
    hide RunTo, Next, Acceptable, Succeeding, Conserved, DeploymentOf;
    var s := RunTo(cfg, INITIAL, run).value;
    RequestsAreConserved(cfg, run);
    assert Conserved(s, rid);
    var k := StageKey(s.main[rid]);
    RowsAreAccounted(cfg, run, k);
    var l1, l2, l3 := Tick(FreeTime(s, Lookup(s.table, k))), Deliver(rid), Advance(rid, YES);
    WaitsAndIsDelivered(cfg, s, rid);
    RunExtends(cfg, INITIAL, run, l1);
    RunExtends(cfg, INITIAL, run + [l1], l2);
    var s2 := RunTo(cfg, INITIAL, run + [l1] + [l2]).value;
    ClaimSucceeds(cfg, s2, rid);
    RunExtends(cfg, INITIAL, run + [l1] + [l2], l3);
    var rest := Drains(cfg, run + [l1] + [l2] + [l3], rid);
    more := [l1] + [l2] + [l3] + rest;
    assert run + more == run + [l1] + [l2] + [l3] + rest;
  }

  lemma WaitsAndIsDelivered(cfg: Config, s: State, rid: Rid)
    requires cfg.Valid() && rid in s.main && Conserved(s, rid) && Acceptable(s.injected[rid].body)
    ensures
      var l1 := Tick(FreeTime(s, Lookup(s.table, StageKey(s.main[rid]))));
      && Enabled(s, l1)
      && var s1 := Next(cfg, s, l1);
         && Enabled(s1, Deliver(rid))
         && var s2 := Next(cfg, s1, Deliver(rid));
            && rid in s2.tasks && s2.tasks[rid].pc == Claiming && s2.tasks[rid].message == s.main[rid]
            && s2.table == s.table && s2.now == l1.to && s2.injected == s.injected
            && Enabled(s2, Advance(rid, YES))
  {
    hide Acceptable, DeploymentOf;
    assert Acceptable(s.main[rid].body);
  }

  /** Nothing gets stuck: from every reachable state, every well-formed request that is not lost has a
      continuation that settles it or moves it to the dead-letter queue. */
  lemma NothingGetsStuck(cfg: Config, run: Run, rid: Rid) returns (more: Run)
    requires cfg.Valid() && RunTo(cfg, INITIAL, run).Some?
    requires
      var s := RunTo(cfg, INITIAL, run).value;
      rid in s.injected && Acceptable(s.injected[rid].body) && rid !in s.dropped
    ensures RunTo(cfg, INITIAL, run + more).Some?
    ensures
      var s' := RunTo(cfg, INITIAL, run + more).value;
      rid in s'.settled || rid in s'.dlq
  {
    hide RunTo, Next, Acceptable, Succeeding, SameBody;
    var s := RunTo(cfg, INITIAL, run).value;
    RequestsAreConserved(cfg, run);
    assert Conserved(s, rid);
    var first: Run := [];
    assert run + first == run;
    if rid in s.tasks {
      first := Drains(cfg, run, rid);
    }
    var s1 := RunTo(cfg, INITIAL, run + first).value;
    RequestsAreConserved(cfg, run + first);
    assert Conserved(s1, rid);
    if rid in s1.settled || rid in s1.dlq {
      more := first;
    } else {
      var second: Run := [];
      assert run + first + second == run + first;
      if rid in s1.retry {
        second := [Expire(rid)];
        ComesBack(cfg, s1, rid);
        RunExtends(cfg, INITIAL, run + first, Expire(rid));
      }
      var rest := SettlesFromMain(cfg, run + first + second, rid);
      more := first + second + rest;
      assert run + more == run + first + second + rest;
    }
  }

  lemma ComesBack(cfg: Config, s: State, rid: Rid)
    requires cfg.Valid() && rid in s.retry
    ensures Enabled(s, Expire(rid))
    ensures rid in Next(cfg, s, Expire(rid)).main && Next(cfg, s, Expire(rid)).injected == s.injected
  {
  }
}
