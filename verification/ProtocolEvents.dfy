/** Retrying events: while the durable counter works, no two of them are alike. */
module ProtocolEvents {
  import opened Options
  import opened Events
  import opened Config
  import opened Stage
  import opened Paths
  import opened Protocol
  import opened ProtocolLedger
  import opened ProtocolConservation
  import opened ProtocolExclusion
  import opened ProtocolRetry
  import opened ProtocolChain
  import opened ProtocolPublishing

  /** Runs in which RecordRetry never errors and producers send no attempt header. */
  ghost predicate FreshRun(cfg: Config, run: Run)
    requires cfg.Valid()
  {
    CountingRun(cfg, run) && forall i :: 0 <= i < |run| && run[i].Inject? ==> Attempt(run[i].message) == 0
  }

  /** The deployment and attempt a retrying event tells of. */
  function MarkOf(e: Entry): Option<(string, int)> {
    if IsRetrying(e) && e.effect.call.event.status.RetryingStatus? then
      Some((e.effect.call.event.deploymentId, e.effect.call.event.status.attempt))
    else None
  }

  /** The entry publishes, or tries to publish, a retrying event. */
  predicate IsRetrying(e: Entry) {
    e.Did? && e.effect.call.Publish? && e.effect.call.event.eventType == DeploymentBuildRetrying
  }

  /** A retrying event carries the id of its deployment and attempt. */
  predicate HasItsId(e: Entry) {
    IsRetrying(e) ==>
      var ev := e.effect.call.event;
      ev.status.RetryingStatus? && ev.id == EventId(ev.deploymentId, ev.status)
  }

  /** No circulating attempt is ahead of the durable counter. */
  predicate NotAhead(s: State, rid: Rid) {
    && (rid in s.main ==> Attempt(s.main[rid]) <= CountOf(s, DeploymentOf(s.main[rid])))
    && (rid in s.retry ==> Attempt(s.retry[rid].message) <= CountOf(s, DeploymentOf(s.retry[rid].message)))
    && (rid in s.tasks ==>
          var t := s.tasks[rid];
          && Attempt(t.message) <= CountOf(s, DeploymentOf(t.message))
          && (Committed(t.pc) ==> 1 <= t.pc.attempt <= CountOf(s, DeploymentOf(t.message))))
  }

  /** The mark of the event the delivery is about to publish. */
  function NextMark(s: State, rid: Rid): Option<(string, int)> {
    if rid in s.tasks && s.tasks[rid].pc.EmittingRetry? then
      Some((DeploymentOf(s.tasks[rid].message), s.tasks[rid].pc.attempt))
    else None
  }

  /** Marks published so far, and marks about to be, are counted and all different. */
  ghost predicate MarksDiffer(s: State) {
    && (forall i :: 0 <= i < |s.log| ==> HasItsId(s.log[i]))
    && (forall i :: 0 <= i < |s.log| && MarkOf(s.log[i]).Some? ==> MarkCounted(s, MarkOf(s.log[i]).value))
    && (forall i, j :: 0 <= i < j < |s.log| && MarkOf(s.log[i]).Some? ==> MarkOf(s.log[i]) != MarkOf(s.log[j]))
    && (forall rid, i :: 0 <= i < |s.log| && NextMark(s, rid).Some? ==> NextMark(s, rid) != MarkOf(s.log[i]))
    && (forall r1, r2 :: r1 != r2 && NextMark(s, r1).Some? ==> NextMark(s, r1) != NextMark(s, r2))
  }

  predicate MarkCounted(s: State, mark: (string, int)) {
    mark.1 <= CountOf(s, mark.0)
  }

  /** Among the points that publish no stored or fresh result, only EmittingRetry publishes a retrying event. */
  lemma RetryingAt(cfg: Config, m: Message, pc: Pc)
    requires cfg.Valid() && !pc.Over? && BundleAt(cfg, m, pc).None?
    ensures
      var call := CallAt(cfg, m, pc);
      call.Publish? ==>
        if pc.EmittingRetry? then
          && call.event.eventType == DeploymentBuildRetrying
          && call.event.status == RetryingStatus(pc.attempt)
          && call.event.id == EventId(DeploymentOf(m), call.event.status)
          && call.event.deploymentId == DeploymentOf(m)
        else call.event.eventType != DeploymentBuildRetrying
    ensures pc.EmittingRetry? ==> CallAt(cfg, m, pc).Publish?
  {
  }

  /** A counted retry that goes on takes the new value of the counter. */
  lemma CommitsToCount(cfg: Config, s: State, rid: Rid, w: World)
    requires cfg.Valid() && Enabled(s, Advance(rid, w)) && CountsWell(s, Advance(rid, w)) && HasRow(s, rid)
    requires NotAhead(s, rid)
    ensures
      var t := s.tasks[rid];
      var id := DeploymentOf(t.message);
      var next := After(cfg, t.message, t.pc, EffectOf(cfg, s, rid, w).outcome);
      Committed(next) && !Committed(t.pc) ==>
        && t.pc.Recording?
        && CountOf(Next(cfg, s, Advance(rid, w)), id) == CountOf(s, id) + 1 == next.attempt
  {
    hide CallAt, After, Remember, Perform, Settle, Advanced, Resolve, Next, DeploymentOf, Attempt, EffectOf;
    var t := s.tasks[rid];
    Commitments(cfg, t.message, t.pc, EffectOf(cfg, s, rid, w).outcome);
    CountStep(cfg, s, Advance(rid, w), DeploymentOf(t.message));
    if t.pc.Recording? {
      CountedOutcome(cfg, s, Advance(rid, w));
      RecordedAttempt(cfg, t.message, t.pc, EffectOf(cfg, s, rid, w).outcome);
    }
  }

  lemma RecordedAttempt(cfg: Config, m: Message, pc: Pc, o: Outcome)
    requires cfg.Valid() && pc.Recording? && o.Answered? && o.reply.Count? && o.reply.retries > Attempt(m)
    ensures Committed(After(cfg, m, pc, o)) ==> After(cfg, m, pc, o).attempt == o.reply.retries
  {
  }

  lemma OwnNotAhead(cfg: Config, s: State, l: Label)
    requires cfg.Valid() && Enabled(s, l) && CountsWell(s, l) && !l.Tick? && NotAhead(s, l.rid) && HasRow(s, l.rid)
    requires CountOf(s, if l.Inject? then DeploymentOf(l.message) else "") >= 0
    requires l.Inject? ==> Attempt(l.message) == 0
    requires l.Advance? ==> CountOf(s, DeploymentOf(s.tasks[l.rid].message)) >= 0
    requires Conserved(s, l.rid) && ChainInv(cfg, s, l.rid)
    ensures NotAhead(Next(cfg, s, l), l.rid)
  {
    hide CallAt, After, Remember, Perform, Settle, Advanced, Resolve, DeploymentOf, Attempt, Acceptable, RetryCopy,
         ToInt32;
    var rid := l.rid;
    SameDeployment(s, rid);
    if l.Advance? {
      var t, e := s.tasks[rid], EffectOf(cfg, s, rid, l.world);
      var next := After(cfg, t.message, t.pc, e.outcome);
      CommitsToCount(cfg, s, rid, l.world);
      CountStep(cfg, s, l, DeploymentOf(t.message));
      RememberKeepsMessage(cfg, t, e);
      WhereAdvanced(s, rid, Remember(cfg, t, e), e, next);
      AdvancedUnfolds(cfg, s, rid, l.world);
      Commitments(cfg, t.message, t.pc, e.outcome);
      MovesMatchCopies(cfg, t.message, t.pc, e.outcome);
      if t.pc.Republishing? {
        HeaderRoundTrip(t.message, t.pc.attempt, t.pc.cause);
        SameBodySameDeployment(t.message, RetryCopy(t.message, t.pc.attempt, t.pc.cause));
      }
    } else {
      QuietNotAhead(cfg, s, l);
    }
  }

  lemma SameBodySameDeployment(m: Message, copy: Message)
    ensures copy.body == m.body ==> DeploymentOf(copy) == DeploymentOf(m)
  {
  }

  lemma QuietNotAhead(cfg: Config, s: State, l: Label)
    requires cfg.Valid() && Enabled(s, l) && !l.Tick? && !l.Advance? && NotAhead(s, l.rid)
    requires l.Inject? ==> Attempt(l.message) == 0 && CountOf(s, DeploymentOf(l.message)) >= 0
    ensures NotAhead(Next(cfg, s, l), l.rid)
  {
    hide CallAt, After, Remember, Settle, Advanced, Resolve, DeploymentOf, Attempt, Acceptable, Perform, ApplyEffect;
    if l.RenewLease? {
      RenewalKeepsQueues(cfg, s, l.rid, l.succeeds);
      CountStep(cfg, s, l, DeploymentOf(s.tasks[l.rid].message));
      if l.rid in s.main {
        CountStep(cfg, s, l, DeploymentOf(s.main[l.rid]));
      }
      if l.rid in s.retry {
        CountStep(cfg, s, l, DeploymentOf(s.retry[l.rid].message));
      }
    }
  }

  lemma OtherNotAhead(cfg: Config, s: State, l: Label, rid: Rid)
    requires cfg.Valid() && Enabled(s, l) && (l.Tick? || rid != l.rid) && NotAhead(s, rid)
    ensures NotAhead(Next(cfg, s, l), rid)
  {
    hide CallAt, After, Remember, Perform, Settle, Advanced, Resolve, DeploymentOf, Attempt, Next;
    StepFrames(cfg, s, l, rid);
    if rid in s.main {
      CountStep(cfg, s, l, DeploymentOf(s.main[rid]));
    }
    if rid in s.retry {
      CountStep(cfg, s, l, DeploymentOf(s.retry[rid].message));
    }
    if rid in s.tasks {
      CountStep(cfg, s, l, DeploymentOf(s.tasks[rid].message));
    }
  }

  /** The mark of the entry a step logs. */
  lemma EntryMark(cfg: Config, s: State, l: Label)
    requires cfg.Valid() && Enabled(s, l) && EntryOf(cfg, s, l).Some?
    requires l.Advance? ==> TaskBacked(cfg, s, l.rid) && NotAhead(s, l.rid)
    ensures MarkOf(EntryOf(cfg, s, l).value) == if l.Advance? then NextMark(s, l.rid) else None
    ensures HasItsId(EntryOf(cfg, s, l).value)
  {
    hide CallAt, After, Resolve, BundleAt, Backed, Sent, DeploymentOf, EventId;
    if l.Advance? {
      var t := s.tasks[l.rid];
      var b := BundleAt(cfg, t.message, t.pc);
      PublishedHalf(cfg, t.message, t.pc);
      if b.Some? {
        BackedMatches(s.log, DeploymentOf(t.message), b.value);
        NoBundleWhileEmitting(cfg, t.message, t.pc);
      } else {
        RetryingAt(cfg, t.message, t.pc);
      }
    }
  }

  lemma NoBundleWhileEmitting(cfg: Config, m: Message, pc: Pc)
    ensures pc.EmittingRetry? ==> BundleAt(cfg, m, pc).None?
  {
  }

  /** A new mark is one past the counter; otherwise marks only disappear, and a published one does. */
  lemma NextMarkStep(cfg: Config, s: State, l: Label, rid: Rid)
    requires cfg.Valid() && Enabled(s, l) && CountsWell(s, l)
    requires l.Advance? ==> HasRow(s, l.rid) && NotAhead(s, l.rid)
    ensures
      var s' := Next(cfg, s, l);
      var mark := NextMark(s', rid);
      || mark == None
      || (mark == NextMark(s, rid) && !(l.Advance? && rid == l.rid))
      || (l.Advance? && rid == l.rid && NextMark(s, rid) == None
          && mark.value.1 == CountOf(s', mark.value.0) == CountOf(s, mark.value.0) + 1)
  {
    hide CallAt, After, Remember, Perform, Settle, Advanced, Resolve, DeploymentOf, Attempt, EffectOf, ApplyEffect;
    if l.Tick? || rid != l.rid {
      StepFrames(cfg, s, l, rid);
    } else if l.Advance? {
      var t, e := s.tasks[rid], EffectOf(cfg, s, rid, l.world);
      TaskAdvanced(cfg, s, rid, l.world);
      RememberKeepsMessage(cfg, t, e);
      CommitsToCount(cfg, s, rid, l.world);
      EmittingIsNew(cfg, t.message, t.pc, e.outcome);
    } else if l.RenewLease? {
      RenewalKeepsQueues(cfg, s, rid, l.succeeds);
    } else if l.Deliver? {
      StartIsEarly(s.main[rid]);
    }
  }

  lemma EmittingIsNew(cfg: Config, m: Message, pc: Pc, o: Outcome)
    requires cfg.Valid() && !pc.Over?
    ensures After(cfg, m, pc, o).EmittingRetry? ==> !Committed(pc)
  {
  }

  lemma StartIsEarly(m: Message)
    ensures !Start(m).EmittingRetry?
  {
  }

  /** What a step does to marks: it logs at most the mover's next mark; a next mark is kept, dropped,
      or one past the counter. */
  ghost predicate MarksMove(s: State, s': State, mover: Option<Rid>, logged: seq<Entry>) {
    && s'.log == s.log + logged && |logged| <= 1
    && (forall e :: e in logged ==> HasItsId(e))
    && (forall e :: e in logged ==> MarkOf(e) == if mover.Some? then NextMark(s, mover.value) else None)
    && (forall rid :: NextMoves(s, s', mover, rid))
    && (forall rid :: NextMark(s, rid).Some? ==> MarkCounted(s, NextMark(s, rid).value))
    && (forall id :: CountOf(s, id) <= CountOf(s', id))
  }

  predicate NextMoves(s: State, s': State, mover: Option<Rid>, rid: Rid) {
    var mark := NextMark(s', rid);
    || mark == None
    || (mark == NextMark(s, rid) && mover != Some(rid))
    || (mover == Some(rid) && NextMark(s, rid) == None
        && mark.value.1 == CountOf(s', mark.value.0) == CountOf(s, mark.value.0) + 1)
  }

  lemma MarksStayDifferent(s: State, s': State, mover: Option<Rid>, logged: seq<Entry>)
    requires MarksDiffer(s) && MarksMove(s, s', mover, logged)
    ensures MarksDiffer(s')
  {
    hide MarkOf, NextMark, CountOf, HasItsId;
    var n := |s.log|;
    forall i | 0 <= i < |s'.log|
      ensures HasItsId(s'.log[i])
    {
      if i < n {
        assert s'.log[i] == s.log[i];
      } else {
        assert s'.log[i] in logged;
      }
    }
    forall i | 0 <= i < |s'.log| && MarkOf(s'.log[i]).Some?
      ensures MarkCounted(s', MarkOf(s'.log[i]).value)
    {
      if i < n {
        assert s'.log[i] == s.log[i];
      } else {
        assert s'.log[i] in logged;
      }
    }
    forall i, j | 0 <= i < j < |s'.log| && MarkOf(s'.log[i]).Some?
      ensures MarkOf(s'.log[i]) != MarkOf(s'.log[j])
    {
      assert s'.log[i] == s.log[i];
      if j < n {
        assert s'.log[j] == s.log[j];
      } else {
        assert s'.log[j] in logged;
      }
    }
    forall rid, i | 0 <= i < |s'.log| && NextMark(s', rid).Some?
      ensures NextMark(s', rid) != MarkOf(s'.log[i])
    {
      assert NextMoves(s, s', mover, rid);
      if i < n {
        assert s'.log[i] == s.log[i];
      } else {
        assert s'.log[i] in logged;
      }
    }
    forall r1, r2 | r1 != r2 && NextMark(s', r1).Some?
      ensures NextMark(s', r1) != NextMark(s', r2)
    {
      assert NextMoves(s, s', mover, r1) && NextMoves(s, s', mover, r2);
    }
  }

  lemma MarksStep(cfg: Config, s: State, l: Label)
    requires cfg.Valid() && Enabled(s, l) && CountsWell(s, l) && MarksDiffer(s)
    requires forall rid :: NotAhead(s, rid)
    requires l.Advance? ==> HasRow(s, l.rid) && TaskBacked(cfg, s, l.rid)
    ensures MarksDiffer(Next(cfg, s, l))
  {
    hide Next, EntryOf, CountsWell, HasRow, TaskBacked, NotAhead, MarkOf, NextMark, Enabled, MarksDiffer, CountOf,
         HasItsId;
    var s' := Next(cfg, s, l);
    var mover := if l.Advance? then Some(l.rid) else None;
    var e := EntryOf(cfg, s, l);
    StepLogs(cfg, s, l);
    assert l.Advance? ==> NotAhead(s, l.rid);
    if e.Some? {
      EntryMark(cfg, s, l);
    }
    forall rid
      ensures NextMoves(s, s', mover, rid)
      ensures NextMark(s, rid).Some? ==> MarkCounted(s, NextMark(s, rid).value)
    {
      assert NotAhead(s, rid);
      NextMarkStep(cfg, s, l, rid);
      NextMarkIsCounted(s, rid);
    }
    forall id
      ensures CountOf(s, id) <= CountOf(s', id)
    {
      CountStep(cfg, s, l, id);
    }
    var logged := if e.Some? then [e.value] else [];
    assert s'.log == s.log + logged;
    MarksStayDifferent(s, s', mover, logged);
  }

  lemma NextMarkIsCounted(s: State, rid: Rid)
    requires NotAhead(s, rid)
    ensures NextMark(s, rid).Some? ==> MarkCounted(s, NextMark(s, rid).value)
  {
  }

  ghost predicate EventsInv(s: State) {
    (forall rid :: NotAhead(s, rid)) && MarksDiffer(s)
  }

  lemma {:induction false} EventsHold(cfg: Config, run: Run)
    requires cfg.Valid() && RunTo(cfg, INITIAL, run).Some? && FreshRun(cfg, run)
    ensures EventsInv(RunTo(cfg, INITIAL, run).value)
  {
    if run != [] {
      hide Next, NotAhead, MarksDiffer, PublishingInv, Conserved, ChainInv, TaskBacked;
      var n := |run| - 1;
      var s, l := RunTo(cfg, INITIAL, run[..n]).value, run[n];
      assert forall i :: 0 <= i < n ==> run[..n][i] == run[i];
      EventsHold(cfg, run[..n]);
      RequestsAreConserved(cfg, run[..n]);
      forall rid
        ensures NotAhead(Next(cfg, s, l), rid)
      {
        assert NotAhead(s, rid);
        if l.Tick? || rid != l.rid {
          OtherNotAhead(cfg, s, l, rid);
        } else {
          assert Conserved(s, rid);
          ChainsAreBounded(cfg, run[..n], rid);
          HoldersHaveRows(cfg, run[..n], rid);
          CountsAreNatural(cfg, run[..n], if l.Inject? then DeploymentOf(l.message) else "");
          if l.Advance? {
            CountsAreNatural(cfg, run[..n], DeploymentOf(s.tasks[rid].message));
          }
          OwnNotAhead(cfg, s, l);
        }
      }
      if l.Advance? {
        HoldersHaveRows(cfg, run[..n], l.rid);
        PublishingBacksTask(cfg, run[..n], l.rid);
      }
      MarksStep(cfg, s, l);
    } else {
      assert forall rid :: NotAhead(INITIAL, rid);
      assert MarksDiffer(INITIAL);
    }
  }

  lemma PublishingBacksTask(cfg: Config, run: Run, rid: Rid)
    requires cfg.Valid() && RunTo(cfg, INITIAL, run).Some?
    ensures TaskBacked(cfg, RunTo(cfg, INITIAL, run).value, rid)
  {
    hide Next, TaskBacked, AllJustified, RowBacked;
    PublishingHolds(cfg, run);
  }

  /** While RecordRetry works and chains start at header zero, every circulating attempt is at most the
      durable counter, and no two retrying events carry the same id. */
  lemma RetryingEventsAreDistinct(cfg: Config, run: Run, i: nat, j: nat)
    requires cfg.Valid() && RunTo(cfg, INITIAL, run).Some? && FreshRun(cfg, run)
    requires i < j < |RunTo(cfg, INITIAL, run).value.log|
    requires IsRetrying(RunTo(cfg, INITIAL, run).value.log[i])
    requires IsRetrying(RunTo(cfg, INITIAL, run).value.log[j])
    ensures
      var log := RunTo(cfg, INITIAL, run).value.log;
      log[i].effect.call.event.id != log[j].effect.call.event.id
  {
    hide Next, NotAhead, RunTo, EventId;
    EventsHold(cfg, run);
    var log := RunTo(cfg, INITIAL, run).value.log;
    var a, b := log[i].effect.call.event, log[j].effect.call.event;
    assert HasItsId(log[i]) && HasItsId(log[j]);
    assert MarkOf(log[i]).Some? && MarkOf(log[i]) != MarkOf(log[j]);
    EventIdInjective(a.deploymentId, a.status, b.deploymentId, b.status);
  }

  lemma HeadersNeverAhead(cfg: Config, run: Run, rid: Rid)
    requires cfg.Valid() && RunTo(cfg, INITIAL, run).Some? && FreshRun(cfg, run)
    ensures NotAhead(RunTo(cfg, INITIAL, run).value, rid)
  {
    hide Next, NotAhead;
    EventsHold(cfg, run);
  }
}
