/** Results are persisted before they are published, in every run and on every path. */
module ProtocolPublishing {
  import opened Options
  import opened Events
  import opened Ledger
  import opened LedgerHistory
  import opened Config
  import opened Stage
  import opened Paths
  import opened Protocol
  import opened ProtocolLedger
  import opened ProtocolConservation
  import opened ProtocolExclusion
  import opened ProtocolRetry

  /** The terminal state a bundle belongs to, by its service event. */
  function KindOf(b: Bundle): StageState {
    if b.service.eventType == BuildSucceeded then Completed else StageState.Failed
  }

  function WriteOf(b: Bundle): Op {
    if KindOf(b) == Completed then Op.Complete(b) else Op.Fail(b)
  }

  /** Both events of a bundle are of one kind and speak of one deployment, with that kind's event id. */
  predicate Matches(id: string, b: Bundle) {
    && b.service.deploymentId == id && b.progress.deploymentId == id
    && (if KindOf(b) == Completed then
          && b.progress.eventType == DeploymentBuildSucceeded
          && b.service.id == EventId(id, SucceededStatus) == b.progress.id
        else
          && b.service.eventType == BuildFailed && b.progress.eventType == DeploymentBuildFailed
          && b.service.id == EventId(id, FailedStatus) == b.progress.id)
  }

  predicate WroteResult(e: Entry, id: string, b: Bundle) {
    e.Did? && e.id == id && e.effect.call == Sql(WriteOf(b)) && e.effect.outcome.Answered?
  }

  predicate SentEvent(e: Entry, id: string, ev: Event) {
    e.Did? && e.id == id && e.effect.call.Publish? && e.effect.call.event == ev && !e.effect.outcome.Err?
  }

  /** The ledger has been told b, a well-formed result of id. */
  ghost predicate Backed(log: Log, id: string, b: Bundle) {
    Matches(id, b) && exists i :: 0 <= i < |log| && WroteResult(log[i], id, b)
  }

  ghost predicate Sent(log: Log, id: string, ev: Event) {
    exists i :: 0 <= i < |log| && SentEvent(log[i], id, ev)
  }

  predicate IsServiceResult(ev: Event) {
    ev.eventType == BuildSucceeded || ev.eventType == BuildFailed
  }

  predicate IsProgressResult(ev: Event) {
    ev.eventType == DeploymentBuildSucceeded || ev.eventType == DeploymentBuildFailed
  }

  /** The property of one published entry, in terms of the log before it. */
  ghost predicate Justified(log: Log, i: nat)
    requires i < |log|
  {
    var e := log[i];
    e.Did? && e.effect.call.Publish? ==>
      var ev := e.effect.call.event;
      && (IsServiceResult(ev) ==> exists b :: Backed(log[..i], e.id, b) && b.service == ev)
      && (IsProgressResult(ev) ==>
            exists b :: Backed(log[..i], e.id, b) && b.progress == ev && Sent(log[..i], e.id, b.service))
  }

  /** The result a control point is publishing. */
  function BundleAt(cfg: Config, m: Message, pc: Pc): Option<Bundle> {
    match pc
    case ReplayingService(b) => Some(b)
    case ReplayingProgress(b) => Some(b)
    case Announcing(result) => Some(SuccessBundle(cfg, RequestOf(m), result))
    case Reporting(result) => Some(SuccessBundle(cfg, RequestOf(m), result))
    case AnnouncingFailure(_, message) => Some(FailureBundle(cfg, RequestOf(m), message))
    case ReportingFailure(_, message) => Some(FailureBundle(cfg, RequestOf(m), message))
    case _ => None
  }

  /** Its service event has been published. */
  predicate ServiceSent(pc: Pc) {
    pc.ReplayingProgress? || pc.Reporting? || pc.ReportingFailure?
  }

  /** What is published at a control point is one half of its bundle. */
  lemma PublishedHalf(cfg: Config, m: Message, pc: Pc)
    requires cfg.Valid() && !pc.Over?
    ensures
      var b, call := BundleAt(cfg, m, pc), CallAt(cfg, m, pc);
      && (b.Some? ==> call.Publish? && call.event == if ServiceSent(pc) then b.value.progress else b.value.service)
      && (b.None? && call.Publish? ==> !IsServiceResult(call.event) && !IsProgressResult(call.event))
  {
  }

  /** Where a bundle to publish comes from: the point before, a write just made, or a terminal row. */
  lemma BundleFlow(cfg: Config, m: Message, pc: Pc, o: Outcome)
    requires cfg.Valid() && !pc.Over?
    ensures
      var next := After(cfg, m, pc, o);
      var b := BundleAt(cfg, m, next);
      b.Some? ==>
        if pc.Claiming? then
          && o.Answered? && o.reply.Claimed? && o.reply.row.result == b && !ServiceSent(next)
          && o.reply.disposition != Acquired && o.reply.disposition != Busy
        else if pc.Completing? || pc.Failing? then
          !o.Err? && CallAt(cfg, m, pc) == Sql(WriteOf(b.value)) && !ServiceSent(next)
              && Matches(DeploymentOf(m), b.value)
        else
          && BundleAt(cfg, m, pc) == b && !o.Err? && ServiceSent(next) && !ServiceSent(pc)
  {
    hide After, CallAt, BundleAt, Matches, WriteOf;
    if pc.Completing? || pc.Failing? {
      WriteFlow(cfg, m, pc, o);
    } else {
      ReadFlow(cfg, m, pc, o);
    }
  }

  lemma WriteFlow(cfg: Config, m: Message, pc: Pc, o: Outcome)
    requires cfg.Valid() && (pc.Completing? || pc.Failing?)
    ensures
      var next := After(cfg, m, pc, o);
      var b := BundleAt(cfg, m, next);
      b.Some? ==>
        !o.Err? && CallAt(cfg, m, pc) == Sql(WriteOf(b.value)) && !ServiceSent(next)
            && Matches(DeploymentOf(m), b.value)
  {
    WritesMatch(cfg, m, pc);
    hide RequestOf, Matches, WriteOf;
  }

  lemma ReadFlow(cfg: Config, m: Message, pc: Pc, o: Outcome)
    requires cfg.Valid() && !pc.Over? && !pc.Completing? && !pc.Failing?
    ensures
      var next := After(cfg, m, pc, o);
      var b := BundleAt(cfg, m, next);
      b.Some? ==>
        if pc.Claiming? then
          && o.Answered? && o.reply.Claimed? && o.reply.row.result == b && !ServiceSent(next)
          && o.reply.disposition != Acquired && o.reply.disposition != Busy
        else
          && BundleAt(cfg, m, pc) == b && !o.Err? && ServiceSent(next) && !ServiceSent(pc)
  {
    if pc.Claiming? {
      hide SuccessBundle, FailureBundle, CallAt;
    } else {
      PublishedFlow(cfg, m, pc, o);
    }
  }

  lemma PublishedFlow(cfg: Config, m: Message, pc: Pc, o: Outcome)
    requires cfg.Valid() && !pc.Over? && !pc.Completing? && !pc.Failing? && !pc.Claiming?
    ensures
      var next := After(cfg, m, pc, o);
      var b := BundleAt(cfg, m, next);
      b.Some? ==> BundleAt(cfg, m, pc) == b && !o.Err? && ServiceSent(next) && !ServiceSent(pc)
  {
    hide SuccessBundle, FailureBundle, RequestOf, Attempt, AfterClaim, CallAt;
  }

  ghost predicate TaskBacked(cfg: Config, s: State, rid: Rid) {
    rid in s.tasks ==>
      var t := s.tasks[rid];
      var b := BundleAt(cfg, t.message, t.pc);
      b.Some? ==>
        && Backed(s.log, DeploymentOf(t.message), b.value)
        && (ServiceSent(t.pc) ==> Sent(s.log, DeploymentOf(t.message), b.value.service))
  }

  ghost predicate RowBacked(s: State, id: string) {
    var row := Lookup(s.table, (id, STAGE));
    row.Some? && Terminal(row.value.state) ==>
      row.value.result.Some? && KindOf(row.value.result.value) == row.value.state
          && Backed(s.log, id, row.value.result.value)
  }

  ghost predicate AllJustified(log: Log) {
    forall i :: 0 <= i < |log| ==> Justified(log, i)
  }

  lemma BackedGrows(log: Log, e: Entry, id: string, b: Bundle)
    ensures Backed(log, id, b) ==> Backed(log + [e], id, b)
    ensures Matches(id, b) && WroteResult(e, id, b) ==> Backed(log + [e], id, b)
  {
    if Backed(log, id, b) {
      var i :| 0 <= i < |log| && WroteResult(log[i], id, b);
      assert (log + [e])[i] == log[i];
    }
    assert (log + [e])[|log|] == e;
  }

  lemma SentGrows(log: Log, e: Entry, id: string, ev: Event)
    ensures Sent(log, id, ev) ==> Sent(log + [e], id, ev)
    ensures SentEvent(e, id, ev) ==> Sent(log + [e], id, ev)
  {
    if Sent(log, id, ev) {
      var i :| 0 <= i < |log| && SentEvent(log[i], id, ev);
      assert (log + [e])[i] == log[i];
    }
    assert (log + [e])[|log|] == e;
  }

  lemma JustifiedGrows(log: Log, e: Entry)
    requires AllJustified(log)
    requires Justified(log + [e], |log|)
    ensures AllJustified(log + [e])
  {
    forall i | 0 <= i < |log + [e]|
      ensures Justified(log + [e], i)
    {
      if i < |log| {
        assert Justified(log, i);
        assert (log + [e])[..i] == log[..i] && (log + [e])[i] == log[i];
      }
    }
  }

  /** The entry of any step is justified. */
  lemma EntryIsJustified(cfg: Config, s: State, l: Label)
    requires cfg.Valid() && Enabled(s, l) && EntryOf(cfg, s, l).Some?
    requires l.Advance? ==> TaskBacked(cfg, s, l.rid)
    ensures Justified(s.log + [EntryOf(cfg, s, l).value], |s.log|)
  {
    hide CallAt, After, Resolve, BundleAt, Backed, Sent;
    var e := EntryOf(cfg, s, l).value;
    assert (s.log + [e])[..|s.log|] == s.log && (s.log + [e])[|s.log|] == e;
    if l.Advance? {
      var t := s.tasks[l.rid];
      PublishedHalf(cfg, t.message, t.pc);
      var b := BundleAt(cfg, t.message, t.pc);
      if b.Some? {
        BackedMatches(s.log, DeploymentOf(t.message), b.value);
      }
    }
  }

  lemma BackedMatches(log: Log, id: string, b: Bundle)
    requires Backed(log, id, b)
    ensures IsServiceResult(b.service) && !IsProgressResult(b.service)
    ensures IsProgressResult(b.progress) && !IsServiceResult(b.progress)
  {
  }

  lemma TaskStaysBacked(cfg: Config, s: State, s': State, e: Entry, rid: Rid)
    requires TaskBacked(cfg, s, rid) && s'.log == s.log + [e]
    requires rid in s'.tasks ==> rid in s.tasks
    requires rid in s'.tasks ==>
      s'.tasks[rid].message == s.tasks[rid].message && s'.tasks[rid].pc == s.tasks[rid].pc
    ensures TaskBacked(cfg, s', rid)
  {
    hide BundleAt, Backed, Sent;
    if rid in s'.tasks {
      var t := s.tasks[rid];
      var b := BundleAt(cfg, t.message, t.pc);
      if b.Some? {
        BackedGrows(s.log, e, DeploymentOf(t.message), b.value);
        SentGrows(s.log, e, DeploymentOf(t.message), b.value.service);
      }
    }
  }

  lemma AdvancedStaysBacked(cfg: Config, s: State, rid: Rid, w: World)
    requires cfg.Valid() && Enabled(s, Advance(rid, w)) && TaskBacked(cfg, s, rid)
    requires RowBacked(s, DeploymentOf(s.tasks[rid].message))
    ensures TaskBacked(cfg, Advanced(cfg, s, rid, w), rid)
  {
    hide CallAt, After, Remember, Perform, Settle, Advanced, Resolve, BundleAt, Backed, Sent, WriteOf;
    var t, e := s.tasks[rid], EffectOf(cfg, s, rid, w);
    var id := DeploymentOf(t.message);
    var entry := Did(rid, id, e);
    var next := After(cfg, t.message, t.pc, e.outcome);
    AdvanceTouches(cfg, s, rid, w);
    TaskAdvanced(cfg, s, rid, w);
    RememberKeepsMessage(cfg, t, e);
    ResolvedShape(s, id, CallAt(cfg, t.message, t.pc), w);
    BundleFlow(cfg, t.message, t.pc, e.outcome);
    PublishedHalf(cfg, t.message, t.pc);
    var b := BundleAt(cfg, t.message, next);
    if b.Some? {
      BackedGrows(s.log, entry, id, b.value);
      SentGrows(s.log, entry, id, b.value.service);
      if t.pc.Claiming? {
        OwnRow(cfg, s, rid, w);
        IdleCalls(cfg, t.message, t.pc);
      }
    }
  }

  lemma RowStaysBacked(cfg: Config, s: State, l: Label, id: string)
    requires cfg.Valid() && Enabled(s, l) && RowBacked(s, id)
    ensures RowBacked(Next(cfg, s, l), id)
  {
    hide CallAt, After, Remember, Perform, Settle, Advanced, Resolve, Backed, Sent;
    var k := (id, STAGE);
    StepLogs(cfg, s, l);
    var row := Lookup(s.table, k);
    if EntryOf(cfg, s, l).Some? && row.Some? && row.value.result.Some? {
      BackedGrows(s.log, EntryOf(cfg, s, l).value, id, row.value.result.value);
    }
    match l
    case Advance(rid, w) =>
      var t, e := s.tasks[rid], EffectOf(cfg, s, rid, w);
      if StageKey(t.message) == k {
        OwnRow(cfg, s, rid, w);
        if e.outcome.Answered? {
          WritesMatch(cfg, t.message, t.pc);
          if e.call.op.Complete? || e.call.op.Fail? {
            BackedGrows(s.log, EntryOf(cfg, s, l).value, id, e.call.op.value);
          }
        }
      } else {
        OtherKeysStay(s.table, DeploymentOf(t.message), e, k);
      }
    case RenewLease(rid, ok) =>
      if StageKey(s.tasks[rid].message) != k {
        OtherKeysStay(s.table, DeploymentOf(s.tasks[rid].message), RenewalOf(cfg, s, ok), k);
      }
    case _ =>
  }

  lemma WritesMatch(cfg: Config, m: Message, pc: Pc)
    requires cfg.Valid() && !pc.Over?
    ensures
      var call := CallAt(cfg, m, pc);
      call.Sql? && (call.op.Complete? || call.op.Fail?) ==>
        && Matches(DeploymentOf(m), call.op.value) && call.op == WriteOf(call.op.value)
        && KindOf(call.op.value) == (if call.op.Complete? then Completed else StageState.Failed)
  {
  }

  ghost predicate PublishingInv(cfg: Config, s: State) {
    && AllJustified(s.log)
    && (forall rid :: TaskBacked(cfg, s, rid))
    && (forall id :: RowBacked(s, id))
  }

  lemma PublishingStep(cfg: Config, s: State, l: Label)
    requires cfg.Valid() && Enabled(s, l) && PublishingInv(cfg, s)
    ensures PublishingInv(cfg, Next(cfg, s, l))
  {
    hide CallAt, After, Remember, Perform, Settle, Advanced, Resolve, TaskBacked, RowBacked, Justified, Next;
    var s' := Next(cfg, s, l);
    StepLogs(cfg, s, l);
    var e := EntryOf(cfg, s, l);
    if e.Some? {
      assert l.Advance? ==> TaskBacked(cfg, s, l.rid);
      EntryIsJustified(cfg, s, l);
      JustifiedGrows(s.log, e.value);
    }
    forall id
      ensures RowBacked(s', id)
    {
      assert RowBacked(s, id);
      RowStaysBacked(cfg, s, l, id);
    }
    forall rid
      ensures TaskBacked(cfg, s', rid)
    {
      assert TaskBacked(cfg, s, rid);
      if l.Advance? {
        assert RowBacked(s, DeploymentOf(s.tasks[l.rid].message));
      }
      TaskStep(cfg, s, l, rid);
    }
  }

  lemma TaskStep(cfg: Config, s: State, l: Label, rid: Rid)
    requires cfg.Valid() && Enabled(s, l) && TaskBacked(cfg, s, rid)
    requires l.Advance? ==> RowBacked(s, DeploymentOf(s.tasks[l.rid].message))
    ensures TaskBacked(cfg, Next(cfg, s, l), rid)
  {
    hide CallAt, After, Remember, Perform, Settle, Advanced, Resolve, BundleAt, RowBacked, Backed, Sent;
    var s' := Next(cfg, s, l);
    StepLogs(cfg, s, l);
    var e := EntryOf(cfg, s, l);
    if l.Advance? && rid == l.rid {
      AdvancedStaysBacked(cfg, s, rid, l.world);
    } else if l.Deliver? && rid == l.rid {
      FreshTaskPublishesNothing(cfg, s.main[rid]);
    } else {
      if l.Tick? || rid != l.rid {
        StepFrames(cfg, s, l, rid);
      } else if l.RenewLease? {
        RenewalMovesPc(cfg, s, rid, l.succeeds);
      }
      if e.Some? {
        TaskStaysBacked(cfg, s, s', e.value, rid);
      }
    }
  }

  lemma RenewalMovesPc(cfg: Config, s: State, rid: Rid, ok: bool)
    requires rid in s.tasks
    ensures
      var s' := Renewed(cfg, s, rid, ok);
      rid in s'.tasks && s'.tasks[rid].message == s.tasks[rid].message && s'.tasks[rid].pc == s.tasks[rid].pc
  {
    hide ApplyEffect, DeploymentOf;
  }

  lemma FreshTaskPublishesNothing(cfg: Config, m: Message)
    ensures BundleAt(cfg, m, Start(m)) == None
  {
  }

  lemma {:induction false} PublishingHolds(cfg: Config, run: Run)
    requires cfg.Valid() && RunTo(cfg, INITIAL, run).Some?
    ensures PublishingInv(cfg, RunTo(cfg, INITIAL, run).value)
  {
    if run != [] {
      hide Next, PublishingInv;
      var n := |run| - 1;
      PublishingHolds(cfg, run[..n]);
      PublishingStep(cfg, RunTo(cfg, INITIAL, run[..n]).value, run[n]);
    }
  }

  /** Persist before publish: whenever build.succeeded or build.failed is published, on the first run,
      after exhaustion or from the stored result, the ledger was told that very event before, as a
      Complete or a Fail to match; and whenever the terminal progress event is published, its service
      event was published successfully before. */
  lemma PersistBeforePublish(cfg: Config, run: Run, i: nat)
    requires cfg.Valid() && RunTo(cfg, INITIAL, run).Some?
    requires i < |RunTo(cfg, INITIAL, run).value.log|
    requires RunTo(cfg, INITIAL, run).value.log[i].Did? && RunTo(cfg, INITIAL, run).value.log[i].effect.call.Publish?
    ensures
      var log := RunTo(cfg, INITIAL, run).value.log;
      var id, ev := log[i].id, log[i].effect.call.event;
      && (IsServiceResult(ev) ==>
            exists b, j :: 0 <= j < i && WroteResult(log[j], id, b) && Matches(id, b) && b.service == ev)
      && (IsProgressResult(ev) ==>
            exists b, j, k :: 0 <= j < i && 0 <= k < i && WroteResult(log[j], id, b) && Matches(id, b)
                && b.progress == ev
                              && SentEvent(log[k], id, b.service))
  {
    hide Next;
    PublishingHolds(cfg, run);
    var log := RunTo(cfg, INITIAL, run).value.log;
    assert Justified(log, i);
    JustifiedUnfolds(log, i);
  }

  lemma JustifiedUnfolds(log: Log, i: nat)
    requires i < |log| && log[i].Did? && log[i].effect.call.Publish? && Justified(log, i)
    ensures
      var id, ev := log[i].id, log[i].effect.call.event;
      && (IsServiceResult(ev) ==>
            exists b, j :: 0 <= j < i && WroteResult(log[j], id, b) && Matches(id, b) && b.service == ev)
      && (IsProgressResult(ev) ==>
            exists b, j, k :: 0 <= j < i && 0 <= k < i && WroteResult(log[j], id, b) && Matches(id, b)
                && b.progress == ev
                              && SentEvent(log[k], id, b.service))
  {
    hide Matches, WroteResult, SentEvent;
    var id, ev := log[i].id, log[i].effect.call.event;
    if IsServiceResult(ev) {
      var b :| Backed(log[..i], id, b) && b.service == ev;
      var j :| 0 <= j < |log[..i]| && WroteResult(log[..i][j], id, b);
      assert WroteResult(log[j], id, b);
    }
    if IsProgressResult(ev) {
      var b :| Backed(log[..i], id, b) && b.progress == ev && Sent(log[..i], id, b.service);
      var j :| 0 <= j < |log[..i]| && WroteResult(log[..i][j], id, b);
      var k :| 0 <= k < |log[..i]| && SentEvent(log[..i][k], id, b.service);
      assert WroteResult(log[j], id, b) && SentEvent(log[k], id, b.service);
    }
  }

  /** A redelivery that replays replays the latest Complete or Fail of its deployment, and its claim
      leaves the ledger as it was. */
  lemma ReplaySource(cfg: Config, run: Run, rid: Rid, w: World)
    requires cfg.Valid() && RunTo(cfg, INITIAL, run).Some?
    requires Enabled(RunTo(cfg, INITIAL, run).value, Advance(rid, w))
    requires RunTo(cfg, INITIAL, run).value.tasks[rid].pc == Claiming
    ensures
      var s := RunTo(cfg, INITIAL, run).value;
      var t := s.tasks[rid];
      var next := After(cfg, t.message, t.pc, EffectOf(cfg, s, rid, w).outcome);
      next.ReplayingService? ==>
        && Advanced(cfg, s, rid, w).table == s.table
        && Matches(DeploymentOf(t.message), next.stored)
        && LatestResult(Statements(s.log), StageKey(t.message)) == Some((KindOf(next.stored), next.stored))
  {
    hide Next, After, CallAt, Perform, Settle, Advanced, Resolve, Remember, LatestResult, Statements;
    var s := RunTo(cfg, INITIAL, run).value;
    var t, e := s.tasks[rid], EffectOf(cfg, s, rid, w);
    var k := StageKey(t.message);
    PublishingHolds(cfg, run);
    RowsAreAccounted(cfg, run, k);
    assert RowBacked(s, k.0);
    OwnRow(cfg, s, rid, w);
    IdleCalls(cfg, t.message, t.pc);
    AdvanceTouches(cfg, s, rid, w);
    ResolvedShape(s, k.0, CallAt(cfg, t.message, t.pc), w);
    ClaimOutcome(cfg, t.message, e.outcome);
    if After(cfg, t.message, t.pc, e.outcome).ReplayingService? {
      RefusedClaimsChangeNothing(s.table, Statement(k.0, k.1, e.call.op, s.now));
    }
  }

  lemma ClaimOutcome(cfg: Config, m: Message, o: Outcome)
    requires cfg.Valid()
    ensures
      var next := After(cfg, m, Claiming, o);
      next.ReplayingService? ==>
        && o.Answered? && o.reply.Claimed? && o.reply.row.result == Some(next.stored)
        && o.reply.disposition != Acquired && o.reply.disposition != Busy
    ensures CallAt(cfg, m, Claiming) == Sql(Op.Claim(cfg.leaseDuration))
  {
  }
}
