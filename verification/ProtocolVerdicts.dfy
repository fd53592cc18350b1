/** What can become of a terminal row: which steps change its verdict, and when none can any more. */
module ProtocolVerdicts {
  import opened Options
  import opened Events
  import opened Ledger
  import opened Config
  import opened Stage
  import opened Paths
  import opened Protocol
  import opened ProtocolLedger
  import opened ProtocolExclusion
  import opened ProtocolRetry
  import opened ProtocolDrive

  datatype Verdict = Verdict(state: StageState, result: Option<Bundle>)

  function VerdictOf(row: Row): Verdict {
    Verdict(row.state, row.result)
  }

  predicate Ended(s: State, id: string) {
    (id, STAGE) in s.table && Terminal(s.table[(id, STAGE)].state)
  }

  /** The statement gives a terminal row another verdict. */
  predicate Overturns(row: Row, op: Op) {
    match op
    case Release => true
    case Complete(b) => VerdictOf(row) != Verdict(Completed, Some(b))
    case Fail(b) => VerdictOf(row) != Verdict(StageState.Failed, Some(b))
    case _ => false
  }

  lemma StatementOverturns(id: string, row: Row, op: Op, now: int)
    requires Terminal(row.state)
    ensures
      var row' := SqlRow(id, STAGE, Some(row), op, now).0;
      row'.Some? && (VerdictOf(row'.value) != VerdictOf(row) <==> Overturns(row, op))
    ensures
      var row' := SqlRow(id, STAGE, Some(row), op, now).0;
      row'.value.retryCount >= row.retryCount
  {
  }

  /** A step changes the state or the result of a terminal row exactly when it is an answered Release of
      the deployment, or an answered Complete or Fail that writes something else. */
  lemma TerminalRowChangesExactly(cfg: Config, s: State, l: Label, id: string)
    requires cfg.Valid() && Enabled(s, l) && Ended(s, id)
    ensures (id, STAGE) in Next(cfg, s, l).table
    ensures
      VerdictOf(Next(cfg, s, l).table[(id, STAGE)]) != VerdictOf(s.table[(id, STAGE)]) <==>
        && l.Advance? && DeploymentOf(s.tasks[l.rid].message) == id
        && var e := EffectOf(cfg, s, l.rid, l.world);
           e.outcome.Answered? && e.call.Sql? && Overturns(s.table[(id, STAGE)], e.call.op)
  {
    hide CallAt, After, Remember, Settle, Advanced, Resolve, Perform, Overturns;
    var k := (id, STAGE);
    StepLogs(cfg, s, l);
    match l
    case Advance(rid, w) =>
      var t := s.tasks[rid];
      if StageKey(t.message) == k {
        OwnRow(cfg, s, rid, w);
        ResolvedShape(s, id, CallAt(cfg, t.message, t.pc), w);
        if CallAt(cfg, t.message, t.pc).Sql? {
          StatementOverturns(id, s.table[k], CallAt(cfg, t.message, t.pc).op, s.now);
        }
      } else {
        OtherKeysStay(s.table, DeploymentOf(t.message), EffectOf(cfg, s, rid, w), k);
      }
    case RenewLease(rid, ok) =>
      if StageKey(s.tasks[rid].message) != k {
        OtherKeysStay(s.table, DeploymentOf(s.tasks[rid].message), RenewalOf(cfg, s, ok), k);
      }
    case _ =>
  }

  // ------------------------------------------------------------------ who can still change a verdict

  /** Failing with this message would change the verdict of the row. */
  predicate FailureDiffers(cfg: Config, m: Message, row: Row, message: string) {
    Overturns(row, Op.Fail(FailureBundle(cfg, RequestOf(m), message)))
  }

  /** The attempt that scheduleRetry takes when the counter answers. */
  function CountedAttempt(m: Message, row: Row): int {
    if row.retryCount + 1 > Attempt(m) then row.retryCount + 1 else Attempt(m)
  }

  /** From this control point some answers of the world lead to a statement that overturns the terminal
      row. Two cases depend on more than the point: a failure that is already the row's verdict, and a
      retry that can only end in exhaustion. */
  predicate CanOverturn(cfg: Config, m: Message, pc: Pc, row: Row) {
    match pc
    case AckingClaim | Queued | Starting | MakingWorkdir | Cloning | Building => true
    case Completing(_) | Announcing(_) | Reporting(_) => true
    case Failing(site, message) => site == BeforeBuild || FailureDiffers(cfg, m, row, message)
    case AnnouncingFailure(site, _) => site == BeforeBuild
    case ReportingFailure(site, _) => site == BeforeBuild
    case Recording(cause, counted) =>
      counted &&
      (|| CountedAttempt(m, row) < cfg.maxAttempts
       || Attempt(m) + 1 < cfg.maxAttempts
       || FailureDiffers(cfg, m, row, "retry attempts exhausted: " + cause))
    case EmittingRetry(_, _) | Releasing(_, _) => true
    case _ => false
  }

  /** No delivery of the deployment can change the verdict any more. */
  ghost predicate Frozen(cfg: Config, s: State, id: string) {
    Ended(s, id) && forall rid :: Harmless(cfg, s, id, rid)
  }

  predicate Harmless(cfg: Config, s: State, id: string, rid: Rid) {
    rid in s.tasks && DeploymentOf(s.tasks[rid].message) == id && (id, STAGE) in s.table ==>
      !CanOverturn(cfg, s.tasks[rid].message, s.tasks[rid].pc, s.table[(id, STAGE)])
  }

  /** A harmless delivery overturns nothing and stays harmless. */
  lemma HarmlessStep(cfg: Config, t: Task, row: Row, w: World, now: int)
    requires cfg.Valid() && !t.pc.Over? && Terminal(row.state) && !CanOverturn(cfg, t.message, t.pc, row)
    ensures
      var v := Step(cfg, View(t, Some(row), []), w, now);
      && v.row.Some? && VerdictOf(v.row.value) == VerdictOf(row)
      && !CanOverturn(cfg, t.message, v.task.pc, v.row.value)
  {
    hide SuccessBundle, FailureBundle, RetryQueue, QueueNumber, RetryCopy, DeadCopy, DeploymentOf, NewBuildSucceeded,
         NewBuildFailed, NewDeploymentBuildStarted, NewDeploymentBuildSucceeded, NewDeploymentBuildFailed,
         NewDeploymentBuildRetrying, RequestOf, Attempt;
  }

  /** Another verdict of the counter, or a later count, makes no harmless point dangerous. */
  lemma HarmlessStays(cfg: Config, m: Message, pc: Pc, row: Row, row': Row)
    requires !CanOverturn(cfg, m, pc, row) && VerdictOf(row') == VerdictOf(row) && row'.retryCount >= row.retryCount
    ensures !CanOverturn(cfg, m, pc, row')
  {
    hide FailureBundle, RequestOf, Attempt;
  }

  lemma FrozenStep(cfg: Config, s: State, l: Label, id: string)
    requires cfg.Valid() && Enabled(s, l) && Frozen(cfg, s, id)
    ensures Frozen(cfg, Next(cfg, s, l), id)
    ensures VerdictOf(Next(cfg, s, l).table[(id, STAGE)]) == VerdictOf(s.table[(id, STAGE)])
  {
    hide Next, CanOverturn, Overturns, EffectOf, Step;
    var k, s' := (id, STAGE), Next(cfg, s, l);
    TerminalRowChangesExactly(cfg, s, l, id);
    CountStep(cfg, s, l, id);
    if l.Advance? && DeploymentOf(s.tasks[l.rid].message) == id {
      assert Harmless(cfg, s, id, l.rid);
      HarmlessStep(cfg, s.tasks[l.rid], s.table[k], l.world, s.now);
      StepArrives(cfg, s, l.rid, l.world, Some(s.table[k]), []);
    }
    forall rid
      ensures Harmless(cfg, s', id, rid)
    {
      assert Harmless(cfg, s, id, rid);
      if l.Tick? || rid != l.rid {
        StepFrames(cfg, s, l, rid);
        if rid in s.tasks && DeploymentOf(s.tasks[rid].message) == id {
          HarmlessStays(cfg, s.tasks[rid].message, s.tasks[rid].pc, s.table[k], s'.table[k]);
        }
      } else {
        MoverIsHarmless(cfg, s, l, id);
      }
    }
  }

  lemma MoverIsHarmless(cfg: Config, s: State, l: Label, id: string)
    requires cfg.Valid() && Enabled(s, l) && !l.Tick? && Ended(s, id) && Harmless(cfg, s, id, l.rid)
    requires (id, STAGE) in Next(cfg, s, l).table
    requires VerdictOf(Next(cfg, s, l).table[(id, STAGE)]) == VerdictOf(s.table[(id, STAGE)])
    requires Next(cfg, s, l).table[(id, STAGE)].retryCount >= s.table[(id, STAGE)].retryCount
    ensures Harmless(cfg, Next(cfg, s, l), id, l.rid)
  {
    hide CallAt, After, Remember, Settle, Advanced, Resolve, Perform, Overturns, CanOverturn, Step, Attempt,
         DeploymentOf, Acceptable;
    var k, s' := (id, STAGE), Next(cfg, s, l);
    if l.Advance? {
      var t := s.tasks[l.rid];
      StepArrives(cfg, s, l.rid, l.world, Lookup(s.table, StageKey(t.message)), []);
      if DeploymentOf(t.message) == id {
        HarmlessStep(cfg, t, s.table[k], l.world, s.now);
      }
    } else if l.RenewLease? {
      RenewalKeepsPoint(cfg, s, l.rid, l.succeeds);
      if DeploymentOf(s.tasks[l.rid].message) == id {
        HarmlessStays(cfg, s.tasks[l.rid].message, s.tasks[l.rid].pc, s.table[k], s'.table[k]);
      }
    } else if l.Deliver? {
      StartIsHarmless(cfg, s.main[l.rid], s.table[k]);
    } else if l.rid in s.tasks && DeploymentOf(s.tasks[l.rid].message) == id {
      HarmlessStays(cfg, s.tasks[l.rid].message, s.tasks[l.rid].pc, s.table[k], s'.table[k]);
    }
  }

  lemma RenewalKeepsPoint(cfg: Config, s: State, rid: Rid, ok: bool)
    requires rid in s.tasks
    ensures
      var s' := Renewed(cfg, s, rid, ok);
      rid in s'.tasks && s'.tasks[rid].message == s.tasks[rid].message && s'.tasks[rid].pc == s.tasks[rid].pc
  {
    hide ApplyEffect, DeploymentOf;
  }

  lemma StartIsHarmless(cfg: Config, m: Message, row: Row)
    ensures !CanOverturn(cfg, m, Start(m), row)
  {
  }

  lemma {:induction false} FrozenStays(cfg: Config, s: State, more: Run, id: string)
    requires cfg.Valid() && Frozen(cfg, s, id) && RunTo(cfg, s, more).Some?
    ensures Frozen(cfg, RunTo(cfg, s, more).value, id)
    ensures VerdictOf(RunTo(cfg, s, more).value.table[(id, STAGE)]) == VerdictOf(s.table[(id, STAGE)])
  {
    hide Next, CanOverturn, DeploymentOf;
    if more != [] {
      var n := |more| - 1;
      FrozenStays(cfg, s, more[..n], id);
      FrozenStep(cfg, RunTo(cfg, s, more[..n]).value, more[n], id);
    }
  }

  // ------------------------------------------------------------------ the converse

  /** How far a point is from the statement that overturns. */
  function Distance(pc: Pc): nat {
    match pc
    case AckingClaim => 9
    case Queued => 8
    case Starting | MakingWorkdir | Cloning | Building => 7
    case Completing(_) | Announcing(_) | Reporting(_) => 6
    case Failing(BeforeBuild, _) | AnnouncingFailure(_, _) | ReportingFailure(_, _) => 6
    case Recording(_, _) => 5
    case EmittingRetry(_, _) => 4
    case _ => 3
  }

  /** An answer that leads nearer. The text of an error is free, and one of two texts always differs
      from the verdict of the row. */
  function Answer(cfg: Config, m: Message, pc: Pc, row: Row): World
    requires cfg.Valid() && !pc.Over?
  {
    match pc
    case AckingClaim | Queued | Building | EmittingRetry(_, _) | Releasing(_, _) => Succeeds(NO_RESULT)
    case Recording(cause, _) =>
      if CountedAttempt(m, row) < cfg.maxAttempts || Attempt(m) + 1 >= cfg.maxAttempts then Succeeds(NO_RESULT)
      else Breaks("")
    case Failing(site, message) =>
      if site != BeforeBuild then Succeeds(NO_RESULT)
      else if CanOverturn(cfg, m, After(cfg, m, pc, Err("")), row) then Breaks("") else Breaks("x")
    case _ => if CanOverturn(cfg, m, After(cfg, m, pc, Err("")), row) then Breaks("") else Breaks("x")
  }

  lemma MessagesTell(cfg: Config, m: Message, row: Row, a: string, b: string)
    requires a != b
    ensures FailureDiffers(cfg, m, row, a) || FailureDiffers(cfg, m, row, b)
  {
    assert FailureBundle(cfg, RequestOf(m), a).service.details.message == a;
    assert FailureBundle(cfg, RequestOf(m), b).service.details.message == b;
  }

  /** The points where an error leads to scheduleRetry, and the cause it then has. */
  predicate Breakable(pc: Pc) {
    || pc.Starting? || pc.Completing? || pc.Announcing? || pc.Reporting?
    || ((pc.Failing? || pc.AnnouncingFailure? || pc.ReportingFailure?) && pc.site == BeforeBuild)
  }

  function CausePrefix(pc: Pc): string
    requires Breakable(pc)
  {
    match pc
    case Starting => "publish build started event: "
    case Completing(_) => "persist build result: "
    case Announcing(_) => "publish build succeeded event: "
    case Reporting(_) => "publish deployment build succeeded event: "
    case Failing(_, _) => "persist build failure: "
    case AnnouncingFailure(_, message) => message + "; publish build failed event: "
    case ReportingFailure(_, message) => message + "; publish deployment build failed event: "
  }

  lemma BreakLeadsToRetry(cfg: Config, m: Message, pc: Pc, reason: string)
    requires cfg.Valid() && Breakable(pc)
    ensures After(cfg, m, pc, Err(reason)) == Recording(CausePrefix(pc) + reason, true)
  {
    hide After, CausePrefix;
    if pc.Failing? || pc.AnnouncingFailure? || pc.ReportingFailure? {
      BreakOfFailure(cfg, m, pc, reason);
    } else {
      BreakOfStep(cfg, m, pc, reason);
    }
  }

  lemma BreakOfStep(cfg: Config, m: Message, pc: Pc, reason: string)
    requires cfg.Valid() && (pc.Starting? || pc.Completing? || pc.Announcing? || pc.Reporting?)
    ensures After(cfg, m, pc, Err(reason)) == Recording(CausePrefix(pc) + reason, true)
  {
    hide CallAt, Attempt, AfterClaim, Decide;
  }

  lemma BreakOfFailure(cfg: Config, m: Message, pc: Pc, reason: string)
    requires cfg.Valid() && Breakable(pc) && (pc.Failing? || pc.AnnouncingFailure? || pc.ReportingFailure?)
    ensures After(cfg, m, pc, Err(reason)) == Recording(CausePrefix(pc) + reason, true)
  {
    hide CallAt, Attempt, AfterClaim, Decide;
  }

  /** One of the two error texts keeps the delivery dangerous. */
  lemma SomeReasonWorks(cfg: Config, m: Message, pc: Pc, row: Row)
    requires cfg.Valid() && Breakable(pc)
    ensures
      || CanOverturn(cfg, m, After(cfg, m, pc, Err("")), row)
      || CanOverturn(cfg, m, After(cfg, m, pc, Err("x")), row)
  {
    hide After, FailureDiffers, CausePrefix;
    BreakLeadsToRetry(cfg, m, pc, "");
    BreakLeadsToRetry(cfg, m, pc, "x");
    var lead := "retry attempts exhausted: ";
    var a, b := lead + (CausePrefix(pc) + ""), lead + (CausePrefix(pc) + "x");
    assert |a| != |b|;
    MessagesTell(cfg, m, row, a, b);
  }

  /** The chosen answer overturns the row, or brings the delivery nearer to doing so. */
  lemma AnswerLeadsOn(cfg: Config, t: Task, row: Row, now: int)
    requires cfg.Valid() && Terminal(row.state) && CanOverturn(cfg, t.message, t.pc, row)
    ensures !t.pc.Over?
    ensures
      var v := Step(cfg, View(t, Some(row), []), Answer(cfg, t.message, t.pc, row), now);
      && v.row.Some?
      && (|| VerdictOf(v.row.value) != VerdictOf(row)
          || (&& !v.task.pc.Over? && Distance(v.task.pc) < Distance(t.pc)
              && v.row.value.state == row.state
              && CanOverturn(cfg, t.message, v.task.pc, v.row.value)))
  {
    hide Step, After, Answer;
    if Breakable(t.pc) {
      BrokenLeadsOn(cfg, t, row, now);
    } else if t.pc.Recording? {
      RecordingLeadsOn(cfg, t, row, now);
    } else {
      OthersLeadOn(cfg, t, row, now);
    }
  }

  lemma RecordingLeadsOn(cfg: Config, t: Task, row: Row, now: int)
    requires cfg.Valid() && Terminal(row.state) && CanOverturn(cfg, t.message, t.pc, row) && t.pc.Recording?
    ensures
      var v := Step(cfg, View(t, Some(row), []), Answer(cfg, t.message, t.pc, row), now);
      && v.row.Some?
      && (|| VerdictOf(v.row.value) != VerdictOf(row)
          || (&& !v.task.pc.Over? && Distance(v.task.pc) < Distance(t.pc)
              && v.row.value.state == row.state
              && CanOverturn(cfg, t.message, v.task.pc, v.row.value)))
  {
    hide SuccessBundle, FailureBundle, RetryQueue, QueueNumber, RetryCopy, DeadCopy, DeploymentOf, NewBuildSucceeded,
         NewBuildFailed, NewDeploymentBuildStarted, NewDeploymentBuildSucceeded, NewDeploymentBuildFailed,
         NewDeploymentBuildRetrying, RequestOf, Attempt;
  }

  lemma OthersLeadOn(cfg: Config, t: Task, row: Row, now: int)
    requires cfg.Valid() && Terminal(row.state) && CanOverturn(cfg, t.message, t.pc, row)
    requires !t.pc.Recording? && !Breakable(t.pc) && !t.pc.Over?
    ensures
      var v := Step(cfg, View(t, Some(row), []), Answer(cfg, t.message, t.pc, row), now);
      && v.row.Some?
      && (|| VerdictOf(v.row.value) != VerdictOf(row)
          || (&& !v.task.pc.Over? && Distance(v.task.pc) < Distance(t.pc)
              && v.row.value.state == row.state
              && CanOverturn(cfg, t.message, v.task.pc, v.row.value)))
  {
    hide SuccessBundle, FailureBundle, RetryQueue, QueueNumber, RetryCopy, DeadCopy, DeploymentOf, NewBuildSucceeded,
         NewBuildFailed, NewDeploymentBuildStarted, NewDeploymentBuildSucceeded, NewDeploymentBuildFailed,
         NewDeploymentBuildRetrying, RequestOf, Attempt;
  }

  lemma BrokenLeadsOn(cfg: Config, t: Task, row: Row, now: int)
    requires cfg.Valid() && Terminal(row.state) && Breakable(t.pc) && !t.pc.Over?
    ensures
      var v := Step(cfg, View(t, Some(row), []), Answer(cfg, t.message, t.pc, row), now);
      && v.row == Some(row) && v.task.pc.Recording? && Distance(v.task.pc) < Distance(t.pc)
      && CanOverturn(cfg, t.message, v.task.pc, row)
  {
    hide After, CanOverturn, CallAt, CausePrefix, Answer, Step, Breakable;
    SomeReasonWorks(cfg, t.message, t.pc, row);
    BreakLeadsToRetry(cfg, t.message, t.pc, "");
    BreakLeadsToRetry(cfg, t.message, t.pc, "x");
    BreakStep(cfg, t, row, "", now);
    BreakStep(cfg, t, row, "x", now);
    AnswerIsReason(cfg, t.message, t.pc, row);
    BreakableIsFar(t.pc);
  }

  lemma BreakableIsFar(pc: Pc)
    requires Breakable(pc)
    ensures Distance(pc) > 5 && !pc.Over?
  {
  }

  lemma BreakStep(cfg: Config, t: Task, row: Row, reason: string, now: int)
    requires cfg.Valid() && !t.pc.Over?
    ensures
      var v := Step(cfg, View(t, Some(row), []), Breaks(reason), now);
      v.row == Some(row) && v.task.pc == After(cfg, t.message, t.pc, Err(reason))
  {
    hide After, CallAt;
  }

  lemma AnswerIsReason(cfg: Config, m: Message, pc: Pc, row: Row)
    requires cfg.Valid() && Breakable(pc) && !pc.Over?
    ensures
      Answer(cfg, m, pc, row) ==
        if CanOverturn(cfg, m, After(cfg, m, pc, Err("")), row) then Breaks("") else Breaks("x")
  {
    hide After, CanOverturn;
  }

  /** From a delivery that can overturn the row there is a run that does, by calls of this delivery. */
  lemma {:induction false} OverturningRun(cfg: Config, s: State, rid: Rid) returns (run: Run)
    requires cfg.Valid() && rid in s.tasks && Ended(s, DeploymentOf(s.tasks[rid].message))
    requires CanOverturn(cfg, s.tasks[rid].message, s.tasks[rid].pc, s.table[StageKey(s.tasks[rid].message)])
    ensures RunTo(cfg, s, run).Some?
    ensures StageKey(s.tasks[rid].message) in RunTo(cfg, s, run).value.table
    ensures
      VerdictOf(RunTo(cfg, s, run).value.table[StageKey(s.tasks[rid].message)])
      != VerdictOf(s.table[StageKey(s.tasks[rid].message)])
    decreases Distance(s.tasks[rid].pc)
  {
    hide Next, Step, CanOverturn, Answer, Distance, RunTo, DeploymentOf;
    var t := s.tasks[rid];
    var k := StageKey(t.message);
    AnswerLeadsOn(cfg, t, s.table[k], s.now);
    var l := Advance(rid, Answer(cfg, t.message, t.pc, s.table[k]));
    StepArrives(cfg, s, rid, l.world, Some(s.table[k]), []);
    var s' := Next(cfg, s, l);
    EmptyRun(cfg, s);
    RunExtends(cfg, s, [], l);
    assert [] + [l] == [l];
    if VerdictOf(s'.table[k]) != VerdictOf(s.table[k]) {
      run := [l];
    } else {
      var more := OverturningRun(cfg, s', rid);
      RunConcat(cfg, s, [l], more);
      run := [l] + more;
    }
  }

  /** A terminal row keeps its state and result in every continuation if and only if no delivery of its
      deployment stands at a point from which it can overturn them. Nothing is assumed of the ledger's
      answers, of time or of other deliveries. */
  lemma FrozenExactly(cfg: Config, s: State, id: string)
    requires cfg.Valid() && Ended(s, id)
    ensures Frozen(cfg, s, id) <==>
      forall more: Run :: RunTo(cfg, s, more).Some? ==>
        && (id, STAGE) in RunTo(cfg, s, more).value.table
        && VerdictOf(RunTo(cfg, s, more).value.table[(id, STAGE)]) == VerdictOf(s.table[(id, STAGE)])
  {
    hide RunTo, CanOverturn, VerdictOf, DeploymentOf;
    if Frozen(cfg, s, id) {
      forall more: Run | RunTo(cfg, s, more).Some?
        ensures (id, STAGE) in RunTo(cfg, s, more).value.table
        ensures VerdictOf(RunTo(cfg, s, more).value.table[(id, STAGE)]) == VerdictOf(s.table[(id, STAGE)])
      {
        FrozenStays(cfg, s, more, id);
      }
    } else {
      var rid :| !Harmless(cfg, s, id, rid);
      var more := OverturningRun(cfg, s, rid);
      assert RunTo(cfg, s, more).Some?;
    }
  }
}
