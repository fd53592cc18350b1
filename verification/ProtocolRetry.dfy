/** Bounds on retrying: how often a deployment is released and acquired, and when a terminal row can no
    longer be reopened. */
module ProtocolRetry {
  import opened Options
  import opened Events
  import opened Ledger
  import opened LedgerHistory
  import opened Config
  import opened Stage
  import opened Paths
  import opened Protocol
  import opened ProtocolLedger
  import opened ProtocolConservation
  import opened ProtocolExclusion

  /** The durable retry counter of a deployment. */
  function CountOf(s: State, id: string): int {
    if (id, STAGE) in s.table then s.table[(id, STAGE)].retryCount else 0
  }

  /** The step is a successful RecordRetry of deployment id. */
  predicate CountsRetry(cfg: Config, s: State, l: Label, id: string)
    requires cfg.Valid() && Enabled(s, l)
  {
    && l.Advance? && s.tasks[l.rid].pc.Recording? && DeploymentOf(s.tasks[l.rid].message) == id
    && EffectOf(cfg, s, l.rid, l.world).outcome.Answered?
  }

  /** Which statement a control point makes. */
  lemma StatementAt(cfg: Config, m: Message, pc: Pc)
    requires cfg.Valid() && !pc.Over? && CallAt(cfg, m, pc).Sql?
    ensures
      var op := CallAt(cfg, m, pc).op;
      && (op.Claim? <==> pc.Claiming?) && (op.RecordRetry? <==> pc.Recording?) && (op.Release? <==> pc.Releasing?)
      && (op.Complete? <==> pc.Completing?) && (op.Fail? <==> pc.Failing?) && !op.Renew?
  {
  }

  lemma OnlyRecordingCounts(cfg: Config, m: Message, pc: Pc)
    requires cfg.Valid() && !pc.Over?
    ensures pc.Recording? <==> CallAt(cfg, m, pc) == Sql(Op.RecordRetry)
    ensures pc.Releasing? <==> CallAt(cfg, m, pc) == Sql(Op.Release)
  {
  }

  lemma OtherKeysStay(t: Table, id: string, e: Effect, k: Key)
    requires k != (id, STAGE)
    ensures Lookup(ApplyEffect(t, id, e), k) == Lookup(t, k)
  {
  }

  /** The counter moves by one, and only by RecordRetry, which returns its new value. */
  lemma CountStep(cfg: Config, s: State, l: Label, id: string)
    requires cfg.Valid() && Enabled(s, l)
    ensures CountOf(Next(cfg, s, l), id) == CountOf(s, id) + One(CountsRetry(cfg, s, l, id))
    ensures CountsRetry(cfg, s, l, id) ==>
      EffectOf(cfg, s, l.rid, l.world).outcome == Answered(Count(CountOf(Next(cfg, s, l), id)))
    ensures (id, STAGE) in s.table ==> (id, STAGE) in Next(cfg, s, l).table
  {
    hide CallAt, After, Remember, Perform, Settle, Advanced, Resolve;
    var k := (id, STAGE);
    match l
    case Advance(rid, w) =>
      var t := s.tasks[rid];
      var e := EffectOf(cfg, s, rid, w);
      AdvanceTouches(cfg, s, rid, w);
      if StageKey(t.message) == k {
        OwnRow(cfg, s, rid, w);
        OnlyRecordingCounts(cfg, t.message, t.pc);
        ResolvedShape(s, id, CallAt(cfg, t.message, t.pc), w);
      } else {
        OtherKeysStay(s.table, DeploymentOf(t.message), e, k);
      }
    case RenewLease(rid, ok) =>
      PerformTouches(s, rid, DeploymentOf(s.tasks[rid].message), RenewalOf(cfg, s, ok));
      if StageKey(s.tasks[rid].message) != k {
        OtherKeysStay(s.table, DeploymentOf(s.tasks[rid].message), RenewalOf(cfg, s, ok), k);
      }
    case _ =>
  }

  /** The deployment of a delivery past its claim has a row. */
  predicate HasRow(s: State, rid: Rid) {
    rid in s.tasks && Working(s.tasks[rid].pc) ==> StageKey(s.tasks[rid].message) in s.table
  }

  lemma HasRowStep(cfg: Config, s: State, l: Label, rid: Rid)
    requires cfg.Valid() && Enabled(s, l) && HasRow(s, rid) && (l.Deliver? ==> Conserved(s, l.rid))
    ensures HasRow(Next(cfg, s, l), rid)
  {
    hide CallAt, After, Remember, Perform, Settle, Advanced, Resolve, Acceptable;
    if l.Tick? || rid != l.rid {
      StepFrames(cfg, s, l, rid);
      if rid in s.tasks {
        CountStep(cfg, s, l, DeploymentOf(s.tasks[rid].message));
      }
    } else if rid in s.tasks {
      var t := s.tasks[rid];
      CountStep(cfg, s, l, DeploymentOf(t.message));
      if l.Advance? {
        var e := EffectOf(cfg, s, rid, l.world);
        var row := Lookup(s.table, StageKey(t.message));
        TaskAdvanced(cfg, s, rid, l.world);
        RememberKeepsMessage(cfg, t, e);
        OwnRow(cfg, s, rid, l.world);
        if !Working(t.pc) {
          IdleCalls(cfg, t.message, t.pc);
          WorksByAcquiring(cfg, t.message, t.pc, e.outcome);
        }
      } else if l.RenewLease? {
        PerformTouches(s, rid, DeploymentOf(t.message), RenewalOf(cfg, s, l.succeeds));
      }
    }
  }

  lemma {:induction false} HoldersHaveRows(cfg: Config, run: Run, rid: Rid)
    requires cfg.Valid() && RunTo(cfg, INITIAL, run).Some?
    ensures HasRow(RunTo(cfg, INITIAL, run).value, rid)
  {
    if run != [] {
      hide Next, HasRow;
      var n := |run| - 1;
      HoldersHaveRows(cfg, run[..n], rid);
      RequestsAreConserved(cfg, run[..n]);
      assert run[n].Deliver? ==> Conserved(RunTo(cfg, INITIAL, run[..n]).value, run[n].rid);
      HasRowStep(cfg, RunTo(cfg, INITIAL, run[..n]).value, run[n], rid);
    } else {
      assert HasRow(INITIAL, rid);
    }
  }

  // --- Release budget ---

  /** Runs in which RecordRetry never errors. */
  predicate CountsWell(s: State, l: Label) {
    l.Advance? && l.rid in s.tasks && s.tasks[l.rid].pc.Recording? ==> l.world.Succeeds?
  }

  ghost predicate CountingRun(cfg: Config, run: Run)
    requires cfg.Valid()
  {
    run == [] ||
    (var n := |run| - 1;
     CountingRun(cfg, run[..n]) && RunTo(cfg, INITIAL, run[..n]).Some? &&
     CountsWell(RunTo(cfg, INITIAL, run[..n]).value, run[n]))
  }

  /** The job is between its counted retry and its Release. */
  predicate WillRelease(pc: Pc) {
    pc.EmittingRetry? || pc.Releasing?
  }

  predicate IsPending(s: State, id: string, rid: Rid) {
    rid in s.tasks && WillRelease(s.tasks[rid].pc) && DeploymentOf(s.tasks[rid].message) == id
  }

  function Pending(s: State, id: string): set<Rid> {
    set rid | rid in s.tasks && IsPending(s, id, rid)
  }

  /** Release calls for id, whether or not the ledger carried them out. */
  function ReleaseCalls(log: Log, id: string): nat {
    if log == [] then 0 else
      var e := log[|log| - 1];
      ReleaseCalls(log[..|log| - 1], id) + One(e.Did? && e.id == id && e.effect.call == Sql(Op.Release))
  }

  lemma ReleaseCallsAppend(log: Log, e: Entry, id: string)
    ensures ReleaseCalls(log + [e], id) ==
            ReleaseCalls(log, id) + One(e.Did? && e.id == id && e.effect.call == Sql(Op.Release))
  {
    assert (log + [e])[..|log|] == log;
  }

  function Min(a: int, b: int): int {
    if a < b then a else b
  }

  /** Releases made and still due never exceed the retries counted, nor the attempts allowed. */
  predicate WithinBudget(cfg: Config, s: State, id: string) {
    && CountOf(s, id) >= 0
    && ReleaseCalls(s.log, id) + |Pending(s, id)| <= Min(CountOf(s, id), cfg.maxAttempts - 1)
  }

  lemma PendingFrames(s: State, s': State, id: string, r: Rid)
    requires SameAt(s, s', r)
    ensures IsPending(s', id, r) <==> IsPending(s, id, r)
  {
    assert Lookup(s'.tasks, r) == Lookup(s.tasks, r);
  }

  lemma OneElementChanges(a: set<Rid>, b: set<Rid>, x: Rid)
    requires forall r :: r != x ==> (r in a <==> r in b)
    ensures |b| == |a| - One(x in a) + One(x in b)
  {
    var rest := a - {x};
    assert b - {x} == rest;
    if x in a {
      assert a == rest + {x};
    } else {
      assert a == rest;
    }
    if x in b {
      assert b == rest + {x};
    } else {
      assert b == rest;
    }
  }

  lemma PendingChanges(s: State, s': State, id: string, rid: Rid)
    requires forall r :: r != rid ==> SameAt(s, s', r)
    ensures |Pending(s', id)| == |Pending(s, id)| - One(IsPending(s, id, rid)) + One(IsPending(s', id, rid))
  {
    hide IsPending, SameAt, WillRelease;
    forall r | r != rid
      ensures IsPending(s', id, r) <==> IsPending(s, id, r)
    {
      PendingFrames(s, s', id, r);
    }
    PendingMembers(s, id);
    PendingMembers(s', id);
    OneElementChanges(Pending(s, id), Pending(s', id), rid);
  }

  lemma PendingMembers(s: State, id: string)
    ensures forall r :: r in Pending(s, id) <==> IsPending(s, id, r)
  {
  }

  /** A counted retry becomes pending only below the limit; a pending one stays so until its Release. */
  lemma PendingPoints(cfg: Config, m: Message, pc: Pc, o: Outcome)
    requires cfg.Valid() && !pc.Over?
    ensures
      var next := After(cfg, m, pc, o);
      && (WillRelease(next) ==> WillRelease(pc) || pc.Recording?)
      && (pc.Recording? && WillRelease(next) && o.Answered? && o.reply.Count? ==> o.reply.retries < cfg.maxAttempts)
      && (pc.Releasing? ==> !WillRelease(next))
  {
  }

  lemma CountedOutcome(cfg: Config, s: State, l: Label)
    requires cfg.Valid() && Enabled(s, l) && CountsWell(s, l) && l.Advance? && HasRow(s, l.rid)
    requires s.tasks[l.rid].pc.Recording?
    ensures EffectOf(cfg, s, l.rid, l.world).outcome.Answered?
  {
    var t := s.tasks[l.rid];
    assert CallAt(cfg, t.message, t.pc) == Sql(Op.RecordRetry);
    assert StageKey(t.message) in s.table;
  }

  lemma OwnBudgetStep(cfg: Config, s: State, l: Label, id: string)
    requires cfg.Valid() && Enabled(s, l) && CountsWell(s, l) && WithinBudget(cfg, s, id)
    requires l.Advance? && HasRow(s, l.rid) && DeploymentOf(s.tasks[l.rid].message) == id
    ensures WithinBudget(cfg, Next(cfg, s, l), id)
  {
    hide CallAt, After, Remember, Perform, Settle, Advanced, Resolve, ReleaseCalls, Pending, RunTo;
    var rid := l.rid;
    var t, e := s.tasks[rid], EffectOf(cfg, s, rid, l.world);
    var s' := Next(cfg, s, l);
    StepLogs(cfg, s, l);
    ReleaseCallsAppend(s.log, EntryOf(cfg, s, l).value, id);
    forall r | r != rid
      ensures SameAt(s, s', r)
    {
      StepFrames(cfg, s, l, r);
    }
    PendingChanges(s, s', id, rid);
    CountStep(cfg, s, l, id);
    TaskAdvanced(cfg, s, rid, l.world);
    RememberKeepsMessage(cfg, t, e);
    PendingPoints(cfg, t.message, t.pc, e.outcome);
    OnlyRecordingCounts(cfg, t.message, t.pc);
    if t.pc.Recording? {
      CountedOutcome(cfg, s, l);
    }
  }

  lemma OtherBudgetStep(cfg: Config, s: State, l: Label, id: string)
    requires cfg.Valid() && Enabled(s, l) && WithinBudget(cfg, s, id)
    requires l.Advance? ==> DeploymentOf(s.tasks[l.rid].message) != id
    requires l.Deliver? ==> Conserved(s, l.rid)
    ensures WithinBudget(cfg, Next(cfg, s, l), id)
  {
    hide CallAt, After, Remember, Settle, Advanced, Resolve, ReleaseCalls, Pending, RunTo, Conserved, Perform,
         ApplyEffect;
    var s' := Next(cfg, s, l);
    StepLogs(cfg, s, l);
    if EntryOf(cfg, s, l).Some? {
      ReleaseCallsAppend(s.log, EntryOf(cfg, s, l).value, id);
    }
    CountStep(cfg, s, l, id);
    var rid := if l.Tick? then 0 else l.rid;
    forall r | r != rid
      ensures SameAt(s, s', r)
    {
      StepFrames(cfg, s, l, r);
    }
    PendingChanges(s, s', id, rid);
    if !l.Tick? {
      QuietPending(cfg, s, l, id);
    }
  }

  lemma QuietPending(cfg: Config, s: State, l: Label, id: string)
    requires cfg.Valid() && Enabled(s, l) && !l.Tick?
    requires l.Advance? ==> DeploymentOf(s.tasks[l.rid].message) != id
    requires l.Deliver? ==> Conserved(s, l.rid)
    ensures IsPending(Next(cfg, s, l), id, l.rid) ==> IsPending(s, id, l.rid)
  {
    hide CallAt, After, Remember, Perform, Settle, Advanced, Acceptable;
    if l.Advance? {
      TaskAdvanced(cfg, s, l.rid, l.world);
      RememberKeepsMessage(cfg, s.tasks[l.rid], EffectOf(cfg, s, l.rid, l.world));
    } else if l.RenewLease? {
      PerformTouches(s, l.rid, DeploymentOf(s.tasks[l.rid].message), RenewalOf(cfg, s, l.succeeds));
    }
  }

  lemma {:induction false} ReleasesStayWithinBudget(cfg: Config, run: Run, id: string)
    requires cfg.Valid() && RunTo(cfg, INITIAL, run).Some? && CountingRun(cfg, run)
    ensures WithinBudget(cfg, RunTo(cfg, INITIAL, run).value, id)
  {
    if run != [] {
      hide Next, WithinBudget;
      var n := |run| - 1;
      var s := RunTo(cfg, INITIAL, run[..n]).value;
      var l := run[n];
      ReleasesStayWithinBudget(cfg, run[..n], id);
      RequestsAreConserved(cfg, run[..n]);
      if l.Advance? && DeploymentOf(s.tasks[l.rid].message) == id {
        HoldersHaveRows(cfg, run[..n], l.rid);
        OwnBudgetStep(cfg, s, l, id);
      } else {
        assert l.Deliver? ==> Conserved(s, l.rid);
        OtherBudgetStep(cfg, s, l, id);
      }
    } else {
      assert Pending(INITIAL, id) == {};
    }
  }

  lemma ReleasesAppend(h: History, s: Statement, k: Key)
    ensures Releases(h + [s], k) == Releases(h, k) + One(KeyOf(s) == k && s.op.Release?)
  {
    assert (h + [s])[..|h|] == h;
  }

  lemma {:induction false} ReleasesAreReleaseCalls(log: Log, id: string)
    ensures Releases(Statements(log), (id, STAGE)) <= ReleaseCalls(log, id)
  {
    hide Releases;
    if log != [] {
      var init, e := log[..|log| - 1], log[|log| - 1];
      ReleasesAreReleaseCalls(init, id);
      if StatementIn(e) == [] {
        assert Statements(init) + [] == Statements(init);
      } else {
        ReleasesAppend(Statements(init), StatementIn(e)[0], (id, STAGE));
      }
    } else {
      NoReleases((id, STAGE));
    }
  }

  lemma NoReleases(k: Key)
    ensures Releases([], k) == 0
  {
  }

  /** The release budget: while RecordRetry never errors, a deployment is released at most
      maxAttempts - 1 times by all workers and redeliveries together, so it is acquired at most
      maxAttempts times plus once for every lease that ran out. */
  lemma ReleaseBudget(cfg: Config, run: Run, id: string)
    requires cfg.Valid() && RunTo(cfg, INITIAL, run).Some? && CountingRun(cfg, run)
    ensures
      var h, k := Statements(RunTo(cfg, INITIAL, run).value.log), (id, STAGE);
      && Releases(h, k) <= cfg.maxAttempts - 1
      && Acquisitions(h, k) <= cfg.maxAttempts + Takeovers(h, k)
  {
    var s := RunTo(cfg, INITIAL, run).value;
    ReleasesStayWithinBudget(cfg, run, id);
    ReleasesAreReleaseCalls(s.log, id);
    AcquisitionBudget(Statements(s.log), (id, STAGE));
  }

  /** A terminal row that can no longer be reopened: the retries are used up and none is still to release. */
  ghost predicate Spent(cfg: Config, s: State, id: string) {
    && (id, STAGE) in s.table && Terminal(s.table[(id, STAGE)].state)
    && s.table[(id, STAGE)].retryCount >= cfg.maxAttempts - 1
    && forall rid :: !IsPending(s, id, rid)
  }

  /** Terminal states are not absorbing: a step reopens a terminal row exactly when it is the Release of
      a job that has a counted retry to send. */
  lemma ReopenedExactlyByRelease(cfg: Config, s: State, l: Label, id: string)
    requires cfg.Valid() && Enabled(s, l)
    requires (id, STAGE) in s.table && Terminal(s.table[(id, STAGE)].state)
    ensures
      var s' := Next(cfg, s, l);
      && (id, STAGE) in s'.table
      && (s'.table[(id, STAGE)].state == InProgress <==>
            l.Advance? && s.tasks[l.rid].pc.Releasing? && DeploymentOf(s.tasks[l.rid].message) == id
            && EffectOf(cfg, s, l.rid, l.world).outcome.Answered?)
      && (s'.table[(id, STAGE)].state == InProgress || Terminal(s'.table[(id, STAGE)].state))
  {
    hide CallAt, After, Remember, Settle, Advanced, Resolve, Perform;
    var k := (id, STAGE);
    StepLogs(cfg, s, l);
    match l
    case Advance(rid, w) =>
      var t := s.tasks[rid];
      if StageKey(t.message) == k {
        OwnRow(cfg, s, rid, w);
        OnlyRecordingCounts(cfg, t.message, t.pc);
        ResolvedShape(s, id, CallAt(cfg, t.message, t.pc), w);
        if CallAt(cfg, t.message, t.pc).Sql? {
          StatementAt(cfg, t.message, t.pc);
        }
      } else {
        OtherKeysStay(s.table, DeploymentOf(t.message), EffectOf(cfg, s, rid, w), k);
      }
    case RenewLease(rid, ok) =>
      if StageKey(s.tasks[rid].message) != k {
        OtherKeysStay(s.table, DeploymentOf(s.tasks[rid].message), RenewalOf(cfg, s, ok), k);
      }
    case _ =>
  }

  lemma SpentRowStep(cfg: Config, s: State, l: Label, id: string)
    requires cfg.Valid() && Enabled(s, l) && Spent(cfg, s, id)
    ensures (id, STAGE) in Next(cfg, s, l).table && Terminal(Next(cfg, s, l).table[(id, STAGE)].state)
  {
    hide Next, EffectOf;
    ReopenedExactlyByRelease(cfg, s, l, id);
    if l.Advance? {
      assert !IsPending(s, id, l.rid);
    }
  }

  lemma SpentPendingStep(cfg: Config, s: State, l: Label, id: string, rid: Rid)
    requires cfg.Valid() && Enabled(s, l) && Spent(cfg, s, id) && CountsWell(s, l)
    requires l.Advance? ==> HasRow(s, l.rid)
    requires l.Deliver? ==> Conserved(s, l.rid)
    ensures !IsPending(Next(cfg, s, l), id, rid)
  {
    hide CallAt, After, Remember, Perform, Settle, Advanced, Acceptable;
    assert !IsPending(s, id, rid);
    if l.Tick? || rid != l.rid {
      StepFrames(cfg, s, l, rid);
    } else if l.Advance? && DeploymentOf(s.tasks[rid].message) == id {
      var t, e := s.tasks[rid], EffectOf(cfg, s, rid, l.world);
      TaskAdvanced(cfg, s, rid, l.world);
      RememberKeepsMessage(cfg, t, e);
      PendingPoints(cfg, t.message, t.pc, e.outcome);
      CountStep(cfg, s, l, id);
      if t.pc.Recording? {
        CountedOutcome(cfg, s, l);
      }
    } else {
      QuietPending(cfg, s, l, id);
    }
  }

  /** Once the retries are used up and every recorded retry has made its Release, a terminal row never
      returns to IN_PROGRESS, whatever happens later. */
  lemma {:induction false} SpentRowsStayTerminal(cfg: Config, run: Run, later: Run, id: string)
    requires cfg.Valid() && RunTo(cfg, INITIAL, run).Some? && CountingRun(cfg, run + later)
    requires Spent(cfg, RunTo(cfg, INITIAL, run).value, id)
    requires RunTo(cfg, INITIAL, run + later).Some?
    ensures Spent(cfg, RunTo(cfg, INITIAL, run + later).value, id)
    decreases |later|
  {
    if later == [] {
      assert run + later == run;
    } else {
      hide Next, IsPending;
      var n := |later| - 1;
      var whole := run + later;
      assert whole[..|whole| - 1] == run + later[..n];
      SpentRowsStayTerminal(cfg, run, later[..n], id);
      var s, l := RunTo(cfg, INITIAL, run + later[..n]).value, whole[|whole| - 1];
      RequestsAreConserved(cfg, run + later[..n]);
      if l.Advance? {
        HoldersHaveRows(cfg, run + later[..n], l.rid);
      }
      assert l.Deliver? ==> Conserved(s, l.rid);
      SpentRowStep(cfg, s, l, id);
      CountStep(cfg, s, l, id);
      forall rid
        ensures !IsPending(Next(cfg, s, l), id, rid)
      {
        SpentPendingStep(cfg, s, l, id, rid);
      }
    }
  }
}
