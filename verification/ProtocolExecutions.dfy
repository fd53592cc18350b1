/** A request that keeps failing is executed exactly maxAttempts times. */
module ProtocolExecutions {
  import opened Options
  import opened Events
  import opened Config
  import opened Stage
  import opened Paths
  import opened Protocol
  import opened ProtocolLedger
  import opened ProtocolConservation
  import opened ProtocolExclusion
  import opened ProtocolRetry
  import opened ProtocolChain
  import opened ProtocolEvents

  predicate IsExecution(e: Entry, rid: Rid) {
    e.Did? && e.rid == rid && e.effect.call.TakeJob?
  }

  /** How often a worker took rid as a job. */
  function Executions(log: Log, rid: Rid): nat {
    if log == [] then 0 else Executions(log[..|log| - 1], rid) + One(IsExecution(log[|log| - 1], rid))
  }

  lemma ExecutionsAppend(log: Log, e: Entry, rid: Rid)
    ensures Executions(log + [e], rid) == Executions(log, rid) + One(IsExecution(e, rid))
  {
    assert (log + [e])[..|log|] == log;
  }

  /** rid is the only request of its deployment. */
  ghost predicate Sole(s: State, rid: Rid) {
    rid in s.injected &&
    forall other :: other in s.injected && other != rid ==>
      DeploymentOf(s.injected[other]) != DeploymentOf(s.injected[rid])
  }

  /** Before the stage body of this delivery has started. */
  predicate NotStarted(pc: Pc) {
    Unsettled(pc) || pc.Queued?
  }

  predicate GivenUp(pc: Pc) {
    ((pc.Failing? || pc.AnnouncingFailure? || pc.ReportingFailure?) && pc.site.Exhausted?) || pc.DeadLettering?
  }

  function GivenUpAttempt(pc: Pc): int
    requires GivenUp(pc)
  {
    if pc.DeadLettering? then pc.attempt else pc.site.attempt
  }

  /** Executions, header and durable counter of a sole request move in step. */
  predicate InStep(cfg: Config, s: State, rid: Rid, count: int) {
    var n := Executions(s.log, rid);
    && (rid in s.main ==> Attempt(s.main[rid]) == n == count < cfg.maxAttempts)
    && (rid in s.retry ==> Attempt(s.retry[rid].message) == n == count < cfg.maxAttempts)
    && (rid in s.dlq ==> n == cfg.maxAttempts)
    && (rid in s.tasks ==>
          var t := s.tasks[rid];
          if NotStarted(t.pc) then Attempt(t.message) == n == count < cfg.maxAttempts
          else if Committed(t.pc) then t.pc.attempt == n == count < cfg.maxAttempts
          else if GivenUp(t.pc) then GivenUpAttempt(t.pc) == n == count == cfg.maxAttempts
          else Attempt(t.message) == n - 1 == count < cfg.maxAttempts)
  }

  /** Which phase follows which. */
  lemma Phases(cfg: Config, m: Message, pc: Pc, o: Outcome)
    requires cfg.Valid() && !pc.Over? && !HandlesMalformed(pc)
    ensures
      var next := After(cfg, m, pc, o);
      && (pc.Queued? ==> next == Starting)
      && (NotStarted(pc) && !pc.Queued? ==>
            NotStarted(next) || next == Over(Requeued) || next == Over(End.Settled))
      && (!NotStarted(pc) ==> (next.Over? && next != Over(Requeued)) || (!next.Over? && !NotStarted(next)))
      && (!NotStarted(pc) && !Committed(pc) && !GivenUp(pc) && !pc.Recording? ==>
            next == Over(End.Settled) || (!next.Over? && !Committed(next) && !GivenUp(next)))
  {
    hide CallAt, After;
    if NotStarted(pc) {
      EarlyPhases(cfg, m, pc, o);
    } else {
      BodyPhases(cfg, m, pc, o);
    }
  }

  lemma EarlyPhases(cfg: Config, m: Message, pc: Pc, o: Outcome)
    requires cfg.Valid() && NotStarted(pc) && !HandlesMalformed(pc)
    ensures
      var next := After(cfg, m, pc, o);
      if pc.Queued? then next == Starting
      else NotStarted(next) || next == Over(Requeued) || next == Over(End.Settled)
  {
    hide CallAt, Attempt, Decide, AfterFailure;
  }

  lemma BodyPhases(cfg: Config, m: Message, pc: Pc, o: Outcome)
    requires cfg.Valid() && !pc.Over? && !NotStarted(pc)
    ensures
      var next := After(cfg, m, pc, o);
      && ((next.Over? && next != Over(Requeued)) || (!next.Over? && !NotStarted(next)))
      && (!Committed(pc) && !GivenUp(pc) && !pc.Recording? ==>
            next == Over(End.Settled) || (!next.Over? && !Committed(next) && !GivenUp(next)))
  {
    hide CallAt, Attempt, AfterClaim;
  }

  lemma LatePhases(cfg: Config, m: Message, pc: Pc, o: Outcome)
    requires cfg.Valid() && !pc.Over?
    ensures
      var next := After(cfg, m, pc, o);
      && (Committed(pc) ==> Committed(next) || next.Over?)
      && (GivenUp(pc) ==> (GivenUp(next) && GivenUpAttempt(next) == GivenUpAttempt(pc)) || next.Over?)
      && (pc.Recording? && o.Answered? && o.reply.Count? && o.reply.retries > Attempt(m) ==>
            if o.reply.retries >= cfg.maxAttempts then GivenUp(next) && GivenUpAttempt(next) == o.reply.retries
            else Committed(next) && next.attempt == o.reply.retries)
  {
    hide CallAt;
  }

  lemma PhaseCalls(cfg: Config, m: Message, pc: Pc)
    requires cfg.Valid() && !pc.Over? && !HandlesMalformed(pc)
    ensures CallAt(cfg, m, pc).TakeJob? <==> pc.Queued?
    ensures CallAt(cfg, m, pc).SendDlq? ==> pc.DeadLettering?
  {
  }

  lemma OwnExecutionStep(cfg: Config, s: State, rid: Rid, w: World)
    requires cfg.Valid() && Enabled(s, Advance(rid, w)) && CountsWell(s, Advance(rid, w)) && HasRow(s, rid)
    requires Conserved(s, rid) && Acceptable(s.injected[rid].body) && ChainInv(cfg, s, rid)
    requires InStep(cfg, s, rid, CountOf(s, DeploymentOf(s.injected[rid])))
    ensures
      var s' := Next(cfg, s, Advance(rid, w));
      InStep(cfg, s', rid, CountOf(s', DeploymentOf(s.injected[rid])))
  {
    hide CallAt, After, Remember, Perform, Settle, Advanced, Resolve, Executions, Acceptable, RetryQueue, RetryCopy,
         Attempt, ToInt32, DeploymentOf, Next, NotStarted, Committed, GivenUp, GivenUpAttempt;
    var l := Advance(rid, w);
    var t, e := s.tasks[rid], EffectOf(cfg, s, rid, w);
    var next := After(cfg, t.message, t.pc, e.outcome);
    var id := DeploymentOf(t.message);
    SameDeployment(s, rid);
    StepLogs(cfg, s, l);
    ExecutionsAppend(s.log, EntryOf(cfg, s, l).value, rid);
    CountStep(cfg, s, l, id);
    RememberKeepsMessage(cfg, t, e);
    WhereAdvanced(s, rid, Remember(cfg, t, e), e, next);
    NextAdvance(cfg, s, rid, w);
    AdvancedUnfolds(cfg, s, rid, w);
    Phases(cfg, t.message, t.pc, e.outcome);
    LatePhases(cfg, t.message, t.pc, e.outcome);
    PhaseCalls(cfg, t.message, t.pc);
    Commitments(cfg, t.message, t.pc, e.outcome);
    MovesMatchCopies(cfg, t.message, t.pc, e.outcome);
    PhasesAreDisjoint(t.pc);
    if t.pc.Recording? {
      CountedOutcome(cfg, s, l);
    }
    if t.pc.Republishing? {
      HeaderRoundTrip(t.message, t.pc.attempt, t.pc.cause);
    }
  }

  lemma PhasesAreDisjoint(pc: Pc)
    ensures NotStarted(pc) ==> !Committed(pc) && !GivenUp(pc) && !pc.Recording?
    ensures Committed(pc) ==> !GivenUp(pc) && !pc.Recording? && !pc.Queued?
    ensures GivenUp(pc) ==> !pc.Recording? && !pc.Queued?
    ensures pc.Queued? ==> NotStarted(pc)
    ensures pc.Republishing? ==> Committed(pc)
    ensures pc.DeadLettering? ==> GivenUp(pc)
    ensures !NotStarted(Starting) && !Committed(Starting) && !GivenUp(Starting)
  {
  }

  /** Only requests have rows. */
  ghost predicate HasRequest(s: State, id: string) {
    (id, STAGE) in s.table ==> exists rid :: rid in s.injected && DeploymentOf(s.injected[rid]) == id
  }

  lemma HasRequestStep(cfg: Config, s: State, l: Label, id: string)
    requires cfg.Valid() && Enabled(s, l) && HasRequest(s, id)
    requires l.Advance? || l.RenewLease? ==> Conserved(s, l.rid)
    ensures HasRequest(Next(cfg, s, l), id)
  {
    hide CallAt, After, Remember, Settle, Advanced, Resolve, Acceptable, DeploymentOf, Perform;
    var k := (id, STAGE);
    StepLogs(cfg, s, l);
    var s' := Next(cfg, s, l);
    if l.Advance? || l.RenewLease? {
      SameDeployment(s, l.rid);
      InjectedStays(cfg, s, l);
      if DeploymentOf(s.tasks[l.rid].message) != id {
        OtherKeysStay(s.table, DeploymentOf(s.tasks[l.rid].message), EntryOf(cfg, s, l).value.effect, k);
      } else if k in s'.table {
        assert l.rid in s'.injected && DeploymentOf(s'.injected[l.rid]) == id;
      }
    }
    if k in s.table {
      var rid :| rid in s.injected && DeploymentOf(s.injected[rid]) == id;
      InjectedStays(cfg, s, l);
      assert rid in s'.injected && s'.injected[rid] == s.injected[rid];
    }
  }

  lemma InjectedStays(cfg: Config, s: State, l: Label)
    requires cfg.Valid() && Enabled(s, l)
    ensures forall rid :: rid in s.injected ==>
      rid in Next(cfg, s, l).injected && Next(cfg, s, l).injected[rid] == s.injected[rid]
  {
    hide CallAt, After, Remember, Settle, Advanced, Resolve, Perform;
    if l.Advance? {
      AdvanceTouches(cfg, s, l.rid, l.world);
    } else if l.RenewLease? {
      PerformTouches(s, l.rid, DeploymentOf(s.tasks[l.rid].message), RenewalOf(cfg, s, l.succeeds));
    }
  }

  lemma {:induction false} RowsHaveRequests(cfg: Config, run: Run, id: string)
    requires cfg.Valid() && RunTo(cfg, INITIAL, run).Some?
    ensures HasRequest(RunTo(cfg, INITIAL, run).value, id)
  {
    if run != [] {
      hide Next, HasRequest, Conserved;
      var n := |run| - 1;
      var s, l := RunTo(cfg, INITIAL, run[..n]).value, run[n];
      RowsHaveRequests(cfg, run[..n], id);
      RequestsAreConserved(cfg, run[..n]);
      assert l.Advance? || l.RenewLease? ==> Conserved(s, l.rid);
      HasRequestStep(cfg, s, l, id);
    }
  }

  /** The invariant of a request alone on its deployment. */
  ghost predicate SoleInStep(cfg: Config, s: State, rid: Rid) {
    if rid in s.injected then
      Sole(s, rid) && Acceptable(s.injected[rid].body) ==>
        InStep(cfg, s, rid, CountOf(s, DeploymentOf(s.injected[rid])))
    else Executions(s.log, rid) == 0
  }

  lemma OtherExecutionStep(cfg: Config, s: State, l: Label, rid: Rid)
    requires cfg.Valid() && Enabled(s, l) && (l.Tick? || rid != l.rid) && SoleInStep(cfg, s, rid)
    requires l.Advance? ==> Conserved(s, l.rid)
    ensures SoleInStep(cfg, Next(cfg, s, l), rid)
  {
    hide CallAt, After, Remember, Perform, Settle, Advanced, Resolve, Executions, Acceptable, DeploymentOf, Attempt,
         Next, NotStarted, Committed, GivenUp, GivenUpAttempt, Conserved;
    var s' := Next(cfg, s, l);
    StepFrames(cfg, s, l, rid);
    StepLogs(cfg, s, l);
    InjectedStays(cfg, s, l);
    if EntryOf(cfg, s, l).Some? {
      ExecutionsAppend(s.log, EntryOf(cfg, s, l).value, rid);
    }
    if rid in s.injected && Sole(s', rid) {
      assert Sole(s, rid);
      CountStep(cfg, s, l, DeploymentOf(s.injected[rid]));
      if l.Advance? {
        SameDeployment(s, l.rid);
      }
    }
  }

  lemma QuietExecutionStep(cfg: Config, s: State, l: Label)
    requires cfg.Valid() && Enabled(s, l) && !l.Tick? && !l.Advance? && SoleInStep(cfg, s, l.rid) && Conserved(s, l.rid)
    requires l.Inject? ==> Attempt(l.message) == 0 && HasRequest(s, DeploymentOf(l.message))
    ensures SoleInStep(cfg, Next(cfg, s, l), l.rid)
  {
    hide CallAt, After, Remember, Settle, Advanced, Resolve, Executions, Acceptable, DeploymentOf, Attempt,
         Committed, GivenUp, GivenUpAttempt, Perform, ApplyEffect, Start;
    var rid := l.rid;
    var s' := Next(cfg, s, l);
    SameDeployment(s, rid);
    StepLogs(cfg, s, l);
    InjectedStays(cfg, s, l);
    if EntryOf(cfg, s, l).Some? {
      ExecutionsAppend(s.log, EntryOf(cfg, s, l).value, rid);
    }
    if l.RenewLease? {
      RenewalKeepsQueues(cfg, s, rid, l.succeeds);
      RenewalKeepsDlq(cfg, s, rid, l.succeeds);
    }
    if rid in s.injected {
      CountStep(cfg, s, l, DeploymentOf(s.injected[rid]));
    } else {
      CountStep(cfg, s, l, DeploymentOf(l.message));
    }
    if l.Deliver? {
      StartNotStarted(s.main[rid]);
    }
  }

  lemma StartNotStarted(m: Message)
    ensures NotStarted(Start(m))
  {
  }

  lemma RenewalKeepsDlq(cfg: Config, s: State, rid: Rid, ok: bool)
    requires rid in s.tasks
    ensures Renewed(cfg, s, rid, ok).dlq == s.dlq
  {
    hide ApplyEffect, DeploymentOf;
  }

  lemma {:induction false} SoleRequestsStayInStep(cfg: Config, run: Run, rid: Rid)
    requires cfg.Valid() && RunTo(cfg, INITIAL, run).Some? && FreshRun(cfg, run)
    ensures SoleInStep(cfg, RunTo(cfg, INITIAL, run).value, rid)
  {
    if run != [] {
      hide Next, SoleInStep, Conserved, ChainInv, HasRow, HasRequest;
      var n := |run| - 1;
      var s, l := RunTo(cfg, INITIAL, run[..n]).value, run[n];
      assert forall i :: 0 <= i < n ==> run[..n][i] == run[i];
      SoleRequestsStayInStep(cfg, run[..n], rid);
      RequestsAreConserved(cfg, run[..n]);
      assert Conserved(s, rid) && (l.Advance? ==> Conserved(s, l.rid));
      if l.Tick? || rid != l.rid {
        OtherExecutionStep(cfg, s, l, rid);
      } else if l.Advance? {
        HoldersHaveRows(cfg, run[..n], rid);
        ChainsAreBounded(cfg, run[..n], rid);
        AdvancingSoleStep(cfg, s, rid, l.world);
      } else {
        if l.Inject? {
          RowsHaveRequests(cfg, run[..n], DeploymentOf(l.message));
        }
        QuietExecutionStep(cfg, s, l);
      }
    }
  }

  lemma AdvancingSoleStep(cfg: Config, s: State, rid: Rid, w: World)
    requires cfg.Valid() && Enabled(s, Advance(rid, w)) && CountsWell(s, Advance(rid, w)) && HasRow(s, rid)
    requires Conserved(s, rid) && ChainInv(cfg, s, rid) && SoleInStep(cfg, s, rid)
    ensures SoleInStep(cfg, Next(cfg, s, Advance(rid, w)), rid)
  {
    hide Next, InStep, Acceptable, ChainInv, HasRow, CountsWell, DeploymentOf, CallAt;
    InjectedStays(cfg, s, Advance(rid, w));
    SameDeployment(s, rid);
    if Sole(Next(cfg, s, Advance(rid, w)), rid) && Acceptable(s.injected[rid].body) {
      assert Sole(s, rid);
      OwnExecutionStep(cfg, s, rid, w);
    }
  }

  /** With no RecordRetry failure, a request that is alone on its deployment and ends in the dead-letter
      queue was executed exactly maxAttempts times, the first delivery counting as attempt one. */
  lemma ExactlyMaxAttempts(cfg: Config, run: Run, rid: Rid)
    requires cfg.Valid() && RunTo(cfg, INITIAL, run).Some? && FreshRun(cfg, run)
    requires
      var s := RunTo(cfg, INITIAL, run).value;
      rid in s.dlq && Sole(s, rid) && Acceptable(s.injected[rid].body)
    ensures Executions(RunTo(cfg, INITIAL, run).value.log, rid) == cfg.maxAttempts
  {
    hide Next, Acceptable;
    SoleRequestsStayInStep(cfg, run, rid);
  }

  // --- With RecordRetry failures ---

  /** Executions against retry copies: equal while the request waits, one ahead once it has started. */
  predicate OneAhead(s: State, rid: Rid) {
    var n, c := Executions(s.log, rid), RetryCopies(s.log, rid);
    && n <= c + 1
    && (rid !in s.injected ==> n == 0 && c == 0)
    && (rid in s.injected && !Acceptable(s.injected[rid].body) ==> n == 0)
    && (rid in s.injected && Acceptable(s.injected[rid].body) ==>
          && (rid in s.main || rid in s.retry ==> n == c)
          && (rid in s.tasks ==> n == if NotStarted(s.tasks[rid].pc) then c else c + 1))
  }

  lemma OwnAheadStep(cfg: Config, s: State, rid: Rid, w: World)
    requires cfg.Valid() && Enabled(s, Advance(rid, w)) && OneAhead(s, rid) && Conserved(s, rid)
    ensures OneAhead(Next(cfg, s, Advance(rid, w)), rid)
  {
    hide CallAt, After, Remember, Perform, Settle, Advanced, Resolve, Executions, RetryCopies, Acceptable, DeploymentOf,
         Next, NotStarted, Committed, GivenUp, HandlesMalformed;
    var t, e := s.tasks[rid], EffectOf(cfg, s, rid, w);
    var next := After(cfg, t.message, t.pc, e.outcome);
    NextAdvance(cfg, s, rid, w);
    AdvanceTouches(cfg, s, rid, w);
    AdvancedUnfolds(cfg, s, rid, w);
    ExecutionsAppend(s.log, Did(rid, DeploymentOf(t.message), e), rid);
    RetryCopiesAppend(s.log, Did(rid, DeploymentOf(t.message), e), rid);
    RememberKeepsMessage(cfg, t, e);
    WhereAdvanced(s, rid, Remember(cfg, t, e), e, next);
    MovesMatchCopies(cfg, t.message, t.pc, e.outcome);
    MalformedNeverRuns(cfg, t.message, t.pc);
    if !HandlesMalformed(t.pc) {
      Phases(cfg, t.message, t.pc, e.outcome);
      PhaseCalls(cfg, t.message, t.pc);
      PhasesAreDisjoint(t.pc);
      OnlyStartedSends(cfg, t.message, t.pc);
    }
  }

  lemma MalformedNeverRuns(cfg: Config, m: Message, pc: Pc)
    requires cfg.Valid() && !pc.Over?
    ensures HandlesMalformed(pc) ==> !CallAt(cfg, m, pc).TakeJob?
  {
  }

  lemma OnlyStartedSends(cfg: Config, m: Message, pc: Pc)
    requires cfg.Valid() && !pc.Over?
    ensures CallAt(cfg, m, pc).SendRetry? ==> !NotStarted(pc) && !pc.Queued?
  {
  }

  lemma QuietAheadStep(cfg: Config, s: State, l: Label, rid: Rid)
    requires cfg.Valid() && Enabled(s, l) && OneAhead(s, rid) && !(l.Advance? && l.rid == rid) && Conserved(s, rid)
    ensures OneAhead(Next(cfg, s, l), rid)
  {
    hide CallAt, After, Remember, Settle, Advanced, Resolve, Executions, RetryCopies, Acceptable, DeploymentOf, Perform,
         ApplyEffect, EffectOf;
    StepLogs(cfg, s, l);
    if EntryOf(cfg, s, l).Some? {
      EntryIsByMover(cfg, s, l);
      ExecutionsAppend(s.log, EntryOf(cfg, s, l).value, rid);
      RetryCopiesAppend(s.log, EntryOf(cfg, s, l).value, rid);
    }
    if l.Tick? || l.rid != rid {
      StepFrames(cfg, s, l, rid);
    } else if l.RenewLease? {
      RenewalKeepsQueues(cfg, s, rid, l.succeeds);
    } else if l.Deliver? {
      StartNotStarted(s.main[rid]);
    }
  }

  lemma {:induction false} ExecutionsFollowCopies(cfg: Config, run: Run, rid: Rid)
    requires cfg.Valid() && RunTo(cfg, INITIAL, run).Some?
    ensures OneAhead(RunTo(cfg, INITIAL, run).value, rid)
  {
    if run != [] {
      hide Next, OneAhead, Conserved;
      var n := |run| - 1;
      var s := RunTo(cfg, INITIAL, run[..n]).value;
      ExecutionsFollowCopies(cfg, run[..n], rid);
      RequestsAreConserved(cfg, run[..n]);
      assert Conserved(s, rid);
      if run[n].Advance? && run[n].rid == rid {
        OwnAheadStep(cfg, s, rid, run[n].world);
      } else {
        QuietAheadStep(cfg, s, run[n], rid);
      }
    }
  }

  /** However RecordRetry fails, and however often the request is redelivered, it is executed at most
      2 * maxAttempts - 1 times. */
  lemma ExecutionsAreBounded(cfg: Config, run: Run, rid: Rid)
    requires cfg.Valid() && RunTo(cfg, INITIAL, run).Some?
    ensures Executions(RunTo(cfg, INITIAL, run).value.log, rid) <= 2 * cfg.maxAttempts - 1
  {
    hide Next, RunTo;
    ExecutionsFollowCopies(cfg, run, rid);
    RetryChainsTerminate(cfg, run, rid);
  }
}
