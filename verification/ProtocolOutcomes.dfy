/** What stands behind the end of a request: the events told of its deployment. */
module ProtocolOutcomes {
  import opened Events
  import opened Ledger
  import opened Config
  import opened Stage
  import opened Paths
  import opened Protocol
  import opened ProtocolLedger
  import opened ProtocolConservation
  import opened ProtocolExclusion
  import opened ProtocolPublishing

  /** The result was written to the ledger, and both its events were published. */
  ghost predicate Told(log: Log, id: string, b: Bundle) {
    Backed(log, id, b) && Sent(log, id, b.service) && Sent(log, id, b.progress)
  }

  ghost predicate ResultTold(log: Log, id: string) {
    exists b :: Told(log, id, b)
  }

  /** The request itself has written failure b to the ledger. */
  predicate WroteFailure(log: Log, rid: Rid, id: string, b: Bundle, i: nat) {
    && i < |log| && WroteResult(log[i], id, b) && log[i].rid == rid && KindOf(b) == StageState.Failed
  }

  /** The request itself has published an event. */
  predicate OwnSent(log: Log, rid: Rid, id: string, ev: Event, i: nat) {
    i < |log| && SentEvent(log[i], id, ev) && log[i].rid == rid
  }

  ghost predicate FailureWritten(log: Log, rid: Rid, id: string, b: Bundle) {
    Matches(id, b) && exists i: nat :: WroteFailure(log, rid, id, b, i)
  }

  ghost predicate FailureAnnounced(log: Log, rid: Rid, id: string, b: Bundle) {
    Matches(id, b)
    && exists i: nat, j: nat :: i < j && WroteFailure(log, rid, id, b, i) && OwnSent(log, rid, id, b.service, j)
  }

  /** It has written a failure of its deployment, then published its service event, then its progress event. */
  ghost predicate FailureTold(log: Log, rid: Rid, id: string) {
    exists b, i: nat, j: nat, k: nat ::
      && i < j < k && Matches(id, b)
      && WroteFailure(log, rid, id, b, i) && OwnSent(log, rid, id, b.service, j) && OwnSent(log, rid, id, b.progress, k)
  }

  /** A build of this request failed. */
  ghost predicate BuildBroke(log: Log, rid: Rid) {
    exists e :: e in log && e.Did? && e.rid == rid && e.effect.call.Build? && e.effect.outcome.Err?
  }

  /** Dealing with a failed build. */
  predicate AfterBrokenBuild(pc: Pc) {
    (pc.Failing? || pc.AnnouncingFailure? || pc.ReportingFailure?) && pc.site == InBuild
  }

  /** What failure a control point has behind it. */
  ghost predicate FailureBehind(cfg: Config, log: Log, rid: Rid, t: Task) {
    var r, id := RequestOf(t.message), DeploymentOf(t.message);
    match t.pc
    case AnnouncingFailure(_, message) => FailureWritten(log, rid, id, FailureBundle(cfg, r, message))
    case ReportingFailure(_, message) => FailureAnnounced(log, rid, id, FailureBundle(cfg, r, message))
    case DeadLettering(_, _) => FailureTold(log, rid, id)
    case _ => true
  }

  ghost predicate OutcomeInv(cfg: Config, s: State, rid: Rid) {
    && (rid in s.tasks ==>
          var t := s.tasks[rid];
          && (t.pc.AckingReplay? ==> ResultTold(s.log, DeploymentOf(t.message)))
          && FailureBehind(cfg, s.log, rid, t)
          && (AfterBrokenBuild(t.pc) ==> BuildBroke(s.log, rid))
          && (t.pc.Recording? ==> t.pc.counted))
    && (rid in s.dlq && Acceptable(s.dlq[rid].body) ==> FailureTold(s.log, rid, DeploymentOf(s.dlq[rid])))
    && (rid in s.settled ==>
          rid in s.injected && (ResultTold(s.log, DeploymentOf(s.injected[rid])) || BuildBroke(s.log, rid)))
  }

  /** Where each of these points comes from. */
  lemma OutcomeFlow(cfg: Config, m: Message, pc: Pc, o: Outcome)
    requires cfg.Valid() && !pc.Over?
    ensures
      var next := After(cfg, m, pc, o);
      && (next.AckingReplay? ==> pc.ReplayingProgress? && !o.Err?)
      && (next.DeadLettering? ==>
            (pc.ReportingFailure? && pc.site.Exhausted? && !o.Err?) || (pc.Recording? && !pc.counted))
      && (AfterBrokenBuild(next) ==> AfterBrokenBuild(pc) || (pc.Building? && o.Err?))
      && (next.Recording? ==> next.counted)
  {
    hide CallAt, Attempt, RequestOf;
  }

  /** Which point of the failure sequence follows which. */
  lemma FailureFlow(cfg: Config, m: Message, pc: Pc, o: Outcome)
    requires cfg.Valid() && !pc.Over?
    ensures
      var next := After(cfg, m, pc, o);
      && (next.AnnouncingFailure? ==> !o.Err? && pc.Failing? && pc.message == next.message)
      && (next.ReportingFailure? ==> !o.Err? && pc.AnnouncingFailure? && pc.message == next.message)
      && (next.DeadLettering? && !pc.Recording? ==> !o.Err? && pc.ReportingFailure?)
  {
    hide CallAt, RequestOf, Attempt;
  }

  lemma FailureCalls(cfg: Config, m: Message, pc: Pc)
    requires cfg.Valid() && (pc.Failing? || pc.AnnouncingFailure? || pc.ReportingFailure?)
    ensures
      var call, b := CallAt(cfg, m, pc), FailureBundle(cfg, RequestOf(m), pc.message);
      if pc.Failing? then call == Sql(Op.Fail(b))
      else call.Publish? && call.event == if pc.AnnouncingFailure? then b.service else b.progress
  {
    hide RequestOf;
  }

  /** How a request comes to be settled. */
  lemma EndFlow(cfg: Config, m: Message, pc: Pc, o: Outcome)
    requires cfg.Valid() && !pc.Over?
    ensures
      After(cfg, m, pc, o) == Over(End.Settled) ==>
        || pc.AckingReplay? || AfterBrokenBuild(pc)
        || ((pc.Reporting? || (pc.ReportingFailure? && pc.site == BeforeBuild)) && !o.Err?)
  {
    hide CallAt, Attempt, RequestOf;
  }

  lemma EndCalls(cfg: Config, m: Message, pc: Pc)
    requires cfg.Valid() && !pc.Over?
    ensures
      var call := CallAt(cfg, m, pc);
      && (call.SendDlq? ==> (pc.DeadLettering? || pc.CopyingMalformed?) && call.copy.body == m.body)
      && (pc.Building? ==> call.Build?)
  {
    hide After, Attempt, RequestOf, SuccessBundle, FailureBundle;
  }

  lemma ToldGrows(log: Log, e: Entry, id: string)
    ensures ResultTold(log, id) ==> ResultTold(log + [e], id)
  {
    hide Backed, Sent;
    if ResultTold(log, id) {
      var b :| Told(log, id, b);
      BackedGrows(log, e, id, b);
      SentGrows(log, e, id, b.service);
      SentGrows(log, e, id, b.progress);
      assert Told(log + [e], id, b);
    }
  }

  lemma WrittenGrows(log: Log, e: Entry, rid: Rid, id: string, b: Bundle)
    ensures FailureWritten(log, rid, id, b) ==> FailureWritten(log + [e], rid, id, b)
    ensures FailureAnnounced(log, rid, id, b) ==> FailureAnnounced(log + [e], rid, id, b)
  {
    hide Matches, WroteResult, SentEvent;
    if FailureWritten(log, rid, id, b) {
      var i: nat :| WroteFailure(log, rid, id, b, i);
      assert WroteFailure(log + [e], rid, id, b, i);
    }
    if FailureAnnounced(log, rid, id, b) {
      var i: nat, j: nat :| i < j && WroteFailure(log, rid, id, b, i) && OwnSent(log, rid, id, b.service, j);
      assert WroteFailure(log + [e], rid, id, b, i) && OwnSent(log + [e], rid, id, b.service, j);
    }
  }

  lemma FailureGrows(log: Log, e: Entry, rid: Rid, id: string)
    ensures FailureTold(log, rid, id) ==> FailureTold(log + [e], rid, id)
  {
    hide Matches, WroteResult, SentEvent;
    if FailureTold(log, rid, id) {
      var b, i: nat, j: nat, k: nat :|
        && i < j < k && Matches(id, b)
        && WroteFailure(log, rid, id, b, i)
        && OwnSent(log, rid, id, b.service, j) && OwnSent(log, rid, id, b.progress, k);
      var more := log + [e];
      assert WroteFailure(more, rid, id, b, i) && OwnSent(more, rid, id, b.service, j)
        && OwnSent(more, rid, id, b.progress, k);
    }
  }

  lemma BehindGrows(cfg: Config, log: Log, e: Entry, rid: Rid, t: Task)
    requires FailureBehind(cfg, log, rid, t)
    ensures FailureBehind(cfg, log + [e], rid, t)
  {
    hide FailureWritten, FailureAnnounced, FailureTold, FailureBundle, RequestOf, DeploymentOf;
    var r, id := RequestOf(t.message), DeploymentOf(t.message);
    FailureGrows(log, e, rid, id);
    if t.pc.AnnouncingFailure? || t.pc.ReportingFailure? {
      WrittenGrows(log, e, rid, id, FailureBundle(cfg, r, t.pc.message));
    }
  }

  /** Each call of the failure sequence adds its part. */
  lemma FailureAdvances(cfg: Config, log: Log, rid: Rid, t: Task, e: Effect)
    requires cfg.Valid() && !t.pc.Over? && e.call == CallAt(cfg, t.message, t.pc)
    requires FailureBehind(cfg, log, rid, t) && (t.pc.Recording? ==> t.pc.counted)
    requires e.call.Sql? ==> e.outcome.Err? || e.outcome.Answered?
    ensures
      var next := After(cfg, t.message, t.pc, e.outcome);
      FailureBehind(cfg, log + [Did(rid, DeploymentOf(t.message), e)], rid, t.(pc := next))
  {
    hide CallAt, After, RequestOf, DeploymentOf, Matches, FailureBundle;
    var next, id := After(cfg, t.message, t.pc, e.outcome), DeploymentOf(t.message);
    var entry := Did(rid, id, e);
    var more := log + [entry];
    assert more[|log|] == entry;
    FailureFlow(cfg, t.message, t.pc, e.outcome);
    if t.pc.Failing? || t.pc.AnnouncingFailure? || t.pc.ReportingFailure? {
      FailureCalls(cfg, t.message, t.pc);
    }
    OutcomeFlow(cfg, t.message, t.pc, e.outcome);
    if next.AnnouncingFailure? {
      var b := FailureBundle(cfg, RequestOf(t.message), next.message);
      FailureIsFailed(cfg, t.message, next.message);
      assert WroteFailure(more, rid, id, b, |log|);
    } else if next.ReportingFailure? {
      var b := FailureBundle(cfg, RequestOf(t.message), next.message);
      WrittenGrows(log, entry, rid, id, b);
      var i: nat :| WroteFailure(log, rid, id, b, i);
      assert WroteFailure(more, rid, id, b, i) && OwnSent(more, rid, id, b.service, |log|);
    } else if next.DeadLettering? {
      var b := FailureBundle(cfg, RequestOf(t.message), t.pc.message);
      var i: nat, j: nat :| i < j && WroteFailure(log, rid, id, b, i) && OwnSent(log, rid, id, b.service, j);
      assert WroteFailure(more, rid, id, b, i) && OwnSent(more, rid, id, b.service, j)
        && OwnSent(more, rid, id, b.progress, |log|);
    }
  }

  lemma FailureIsFailed(cfg: Config, m: Message, message: string)
    ensures
      var b := FailureBundle(cfg, RequestOf(m), message);
      KindOf(b) == StageState.Failed && Matches(DeploymentOf(m), b) && WriteOf(b) == Op.Fail(b)
  {
  }

  lemma BrokeGrows(log: Log, e: Entry, rid: Rid)
    ensures BuildBroke(log, rid) ==> BuildBroke(log + [e], rid)
    ensures e.Did? && e.rid == rid && e.effect.call.Build? && e.effect.outcome.Err? ==> BuildBroke(log + [e], rid)
  {
    assert e in log + [e];
    if BuildBroke(log, rid) {
      var f :| f in log && f.Did? && f.rid == rid && f.effect.call.Build? && f.effect.outcome.Err?;
      assert f in log + [e];
    }
  }

  /** The progress event of a result that is backed and whose service event was sent completes it. */
  lemma ProgressCompletes(cfg: Config, s: State, rid: Rid, w: World)
    requires cfg.Valid() && Enabled(s, Advance(rid, w)) && TaskBacked(cfg, s, rid)
    requires ServiceSent(s.tasks[rid].pc) && !EffectOf(cfg, s, rid, w).outcome.Err?
    ensures
      var t, e := s.tasks[rid], EffectOf(cfg, s, rid, w);
      var log := s.log + [Did(rid, DeploymentOf(t.message), e)];
      ResultTold(log, DeploymentOf(t.message))
  {
    hide CallAt, Resolve, BundleAt, Backed, Sent;
    var t, e := s.tasks[rid], EffectOf(cfg, s, rid, w);
    var id := DeploymentOf(t.message);
    var entry := Did(rid, id, e);
    PublishedHalf(cfg, t.message, t.pc);
    ServiceSentHasBundle(cfg, t.message, t.pc);
    var b := BundleAt(cfg, t.message, t.pc).value;
    BackedGrows(s.log, entry, id, b);
    SentGrows(s.log, entry, id, b.service);
    SentGrows(s.log, entry, id, b.progress);
    assert Told(s.log + [entry], id, b);
  }

  lemma ServiceSentHasBundle(cfg: Config, m: Message, pc: Pc)
    ensures ServiceSent(pc) ==> BundleAt(cfg, m, pc).Some?
  {
  }

  lemma OwnOutcomeStep(cfg: Config, s: State, rid: Rid, w: World)
    requires cfg.Valid() && Enabled(s, Advance(rid, w)) && OutcomeInv(cfg, s, rid) && TaskBacked(cfg, s, rid)
    requires Conserved(s, rid)
    ensures OutcomeInv(cfg, Next(cfg, s, Advance(rid, w)), rid)
  {
    hide CallAt, After, Remember, Perform, Settle, Advanced, Resolve, DeploymentOf, Acceptable, ResultTold, FailureTold,
         BuildBroke, TaskBacked, AfterBrokenBuild, HandlesMalformed, Next, FailureBehind;
    var t, e := s.tasks[rid], EffectOf(cfg, s, rid, w);
    var id := DeploymentOf(t.message);
    var next := After(cfg, t.message, t.pc, e.outcome);
    NextAdvance(cfg, s, rid, w);
    AdvanceTouches(cfg, s, rid, w);
    AdvancedUnfolds(cfg, s, rid, w);
    RememberKeepsMessage(cfg, t, e);
    WhereAdvanced(s, rid, Remember(cfg, t, e), e, next);
    OutcomeFlow(cfg, t.message, t.pc, e.outcome);
    EndFlow(cfg, t.message, t.pc, e.outcome);
    EndCalls(cfg, t.message, t.pc);
    var entry := Did(rid, id, e);
    ToldGrows(s.log, entry, id);
    BrokeGrows(s.log, entry, rid);
    OutcomePoints(t.pc);
    if ServiceSent(t.pc) && !e.outcome.Err? {
      ProgressCompletes(cfg, s, rid, w);
    }
    OneDeployment(s, rid, e.call);
    FailureGrows(s.log, entry, rid, id);
    ResolvedShape(s, id, CallAt(cfg, t.message, t.pc), w);
    FailureAdvances(cfg, s.log, rid, t, e);
    BehindIsByPoint(cfg, s.log + [entry], rid, t.(pc := next), Remember(cfg, t, e).(pc := next));
    DeadLetteringHas(cfg, s.log, rid, t);
  }

  /** Only message and control point matter. */
  lemma BehindIsByPoint(cfg: Config, log: Log, rid: Rid, t: Task, u: Task)
    requires FailureBehind(cfg, log, rid, t) && t.message == u.message && t.pc == u.pc
    ensures FailureBehind(cfg, log, rid, u)
  {
  }

  lemma DeadLetteringHas(cfg: Config, log: Log, rid: Rid, t: Task)
    requires FailureBehind(cfg, log, rid, t)
    ensures t.pc.DeadLettering? ==> FailureTold(log, rid, DeploymentOf(t.message))
  {
  }

  lemma OutcomePoints(pc: Pc)
    ensures pc.ReplayingProgress? || pc.Reporting? || pc.ReportingFailure? ==> ServiceSent(pc)
    ensures pc.CopyingMalformed? ==> HandlesMalformed(pc)
    ensures pc.DeadLettering? || pc.AckingReplay? ==> !HandlesMalformed(pc)
  {
  }

  /** Every copy of a request, and the one being sent, names its deployment. */
  lemma OneDeployment(s: State, rid: Rid, call: Call)
    requires rid in s.tasks && Conserved(s, rid)
    ensures rid in s.injected && DeploymentOf(s.tasks[rid].message) == DeploymentOf(s.injected[rid])
    ensures rid in s.dlq ==> DeploymentOf(s.dlq[rid]) == DeploymentOf(s.injected[rid])
    ensures call.SendDlq? && call.copy.body == s.tasks[rid].message.body ==>
      DeploymentOf(call.copy) == DeploymentOf(s.injected[rid])
  {
    hide Acceptable;
  }

  lemma QuietOutcomeStep(cfg: Config, s: State, l: Label, rid: Rid)
    requires cfg.Valid() && Enabled(s, l) && OutcomeInv(cfg, s, rid) && !(l.Advance? && l.rid == rid)
    requires l.Inject? && l.rid == rid ==> Conserved(s, rid)
    ensures OutcomeInv(cfg, Next(cfg, s, l), rid)
  {
    hide CallAt, After, Remember, Settle, Advanced, Resolve, DeploymentOf, Acceptable, ResultTold, FailureTold,
         BuildBroke, AfterBrokenBuild, Perform, ApplyEffect, EntryOf, Start, FailureBehind;
    StepLogs(cfg, s, l);
    var e := EntryOf(cfg, s, l);
    if e.Some? {
      if rid in s.tasks {
        ToldGrows(s.log, e.value, DeploymentOf(s.tasks[rid].message));
        BehindGrows(cfg, s.log, e.value, rid, s.tasks[rid]);
      }
      if rid in s.dlq { FailureGrows(s.log, e.value, rid, DeploymentOf(s.dlq[rid])); }
      if rid in s.injected { ToldGrows(s.log, e.value, DeploymentOf(s.injected[rid])); }
      BrokeGrows(s.log, e.value, rid);
    }
    if l.Tick? || l.rid != rid {
      StepFrames(cfg, s, l, rid);
    } else if l.RenewLease? {
      RenewalTouches(cfg, s, rid, l.succeeds);
      BehindIsByPoint(cfg, Next(cfg, s, l).log, rid, s.tasks[rid], Next(cfg, s, l).tasks[rid]);
    } else if l.Deliver? {
      StartsClean(cfg, Next(cfg, s, l).log, rid, s.main[rid]);
    }
  }

  lemma RenewalTouches(cfg: Config, s: State, rid: Rid, ok: bool)
    requires rid in s.tasks
    ensures
      var s' := Renewed(cfg, s, rid, ok);
      && s'.injected == s.injected && s'.dlq == s.dlq && s'.settled == s.settled
      && rid in s'.tasks && s'.tasks[rid].message == s.tasks[rid].message && s'.tasks[rid].pc == s.tasks[rid].pc
  {
    hide ApplyEffect, DeploymentOf;
  }

  lemma StartsClean(cfg: Config, log: Log, rid: Rid, m: Message)
    ensures !Start(m).AckingReplay? && !AfterBrokenBuild(Start(m)) && !Start(m).Recording?
    ensures forall t: Task :: t.message == m && t.pc == Start(m) ==> FailureBehind(cfg, log, rid, t)
  {
  }

  lemma {:induction false} OutcomesHold(cfg: Config, run: Run, rid: Rid)
    requires cfg.Valid() && RunTo(cfg, INITIAL, run).Some?
    ensures OutcomeInv(cfg, RunTo(cfg, INITIAL, run).value, rid)
  {
    if run != [] {
      hide Next, OutcomeInv, Conserved, TaskBacked, AllJustified, RowBacked;
      var n := |run| - 1;
      var s := RunTo(cfg, INITIAL, run[..n]).value;
      OutcomesHold(cfg, run[..n], rid);
      RequestsAreConserved(cfg, run[..n]);
      assert Conserved(s, rid);
      if run[n].Advance? && run[n].rid == rid {
        PublishingHolds(cfg, run[..n]);
        assert TaskBacked(cfg, s, rid);
        OwnOutcomeStep(cfg, s, rid, run[n].world);
      } else {
        QuietOutcomeStep(cfg, s, run[n], rid);
      }
    }
  }

  /** In every reachable state: a well-formed request in the dead-letter queue has itself written a failure of
      its deployment to the ledger, then published build.failed and then deployment.build.failed for
      it; a settled request has had a result of its deployment written and announced by both events,
      or a build of its own failed. */
  lemma EndsAreTold(cfg: Config, run: Run, rid: Rid)
    requires cfg.Valid() && RunTo(cfg, INITIAL, run).Some?
    ensures
      var s := RunTo(cfg, INITIAL, run).value;
      && (rid in s.dlq && Acceptable(s.dlq[rid].body) ==> FailureTold(s.log, rid, DeploymentOf(s.dlq[rid])))
      && (rid in s.settled ==>
            rid in s.injected && (ResultTold(s.log, DeploymentOf(s.injected[rid])) || BuildBroke(s.log, rid)))
  {
    hide RunTo, FailureTold, ResultTold;
    OutcomesHold(cfg, run, rid);
  }
}
