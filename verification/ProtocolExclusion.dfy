/** Mutual exclusion: at most one delivery works on a deployment, if holders are timely. */
module ProtocolExclusion {
  import opened Options
  import opened Events
  import opened Ledger
  import opened LedgerHistory
  import opened Config
  import opened Stage
  import opened Paths
  import opened Protocol
  import opened ProtocolLedger
  import opened ProtocolConservation

  /** From ClaimAcquired, through the wait in the jobs channel and the stage body, to the return of
      runBuildEvent. */
  predicate Working(pc: Pc) {
    pc.AckingClaim? || pc.Queued? || (InJob(pc) && !pc.Over?)
  }

  /** Working, and its lease not yet given up: a Release that failed leaves it a holder. */
  predicate Holds(t: Task) {
    Working(t.pc) && !t.released
  }

  /** Points a holder reaches only after its own Complete or Fail. */
  predicate PastResult(pc: Pc) {
    pc.Announcing? || pc.Reporting? || pc.AnnouncingFailure? || pc.ReportingFailure? || pc.DeadLettering?
  }

  /** What a holder may rely on: until it writes a result the row is in progress under its own lease;
      from then on, until it releases, the row stays terminal. */
  predicate Secure(t: Task, row: Option<Row>) {
    && row.Some?
    && (t.wrote ==> Terminal(row.value.state))
    && (!t.wrote ==> row.value.state == InProgress && row.value.lease == Some(t.deadline))
    && (PastResult(t.pc) ==> t.wrote)
    && (t.pc.Recording? ==> t.pc.counted)
  }

  predicate IsHolder(s: State, rid: Rid) {
    rid in s.tasks && Holds(s.tasks[rid])
  }

  predicate SecureAt(s: State, rid: Rid) {
    && (IsHolder(s, rid) ==> Secure(s.tasks[rid], Lookup(s.table, StageKey(s.tasks[rid].message))))
    && (rid in s.tasks && s.tasks[rid].released ==> s.tasks[rid].pc.Republishing?)
  }

  predicate Apart(s: State, r1: Rid, r2: Rid) {
    IsHolder(s, r1) && IsHolder(s, r2) && r1 != r2 ==>
      StageKey(s.tasks[r1].message) != StageKey(s.tasks[r2].message)
  }

  ghost predicate Exclusion(s: State) {
    && (forall rid :: SecureAt(s, rid))
    && (forall r1, r2 :: Apart(s, r1, r2))
  }

  /** A holder's own lease is live until it has written its result. */
  predicate TimelyTask(s: State, rid: Rid) {
    IsHolder(s, rid) && !s.tasks[rid].wrote ==> s.now < s.tasks[rid].deadline
  }

  ghost predicate Timely(s: State) {
    forall rid :: TimelyTask(s, rid)
  }

  /** A claim against a secure, timely holder is refused and changes nothing. */
  lemma ClaimAgainstHolder(s: State, t: Task, d: int)
    requires Secure(t, Lookup(s.table, StageKey(t.message))) && (!t.wrote ==> s.now < t.deadline)
    ensures
      var st := Statement(DeploymentOf(t.message), STAGE, Op.Claim(d), s.now);
      !Acquires(SqlReply(s.table, st)) && SqlTable(s.table, st) == s.table
  {
    var st := Statement(DeploymentOf(t.message), STAGE, Op.Claim(d), s.now);
    RefusedClaimsChangeNothing(s.table, st);
  }

  /** The ledger statements a delivery can make before it works, and once it only sends its copy: only
      its claim. */
  lemma IdleCalls(cfg: Config, m: Message, pc: Pc)
    requires cfg.Valid() && !pc.Over? && (!Working(pc) || pc.Republishing?)
    ensures CallAt(cfg, m, pc).Sql? ==> pc.Claiming? && CallAt(cfg, m, pc) == Sql(Op.Claim(cfg.leaseDuration))
  {
  }

  /** After an advance by rid, the row of every other holder is as it was. */
  lemma OthersKeepTheirRow(cfg: Config, s: State, rid: Rid, w: World, other: Rid)
    requires cfg.Valid() && Enabled(s, Advance(rid, w))
    requires other != rid && IsHolder(s, other) && SecureAt(s, other) && Apart(s, rid, other) && TimelyTask(s, other)
    requires SecureAt(s, rid)
    ensures
      var k := StageKey(s.tasks[other].message);
      Lookup(Advanced(cfg, s, rid, w).table, k) == Lookup(s.table, k)
  {
    hide CallAt, After, Remember, Perform, Settle, Secure, Advanced;
    var t := s.tasks[rid];
    var e := EffectOf(cfg, s, rid, w);
    var k := StageKey(s.tasks[other].message);
    AdvanceTouches(cfg, s, rid, w);
    if StageKey(t.message) == k {
      IdleCalls(cfg, t.message, t.pc);
      ClaimAgainstHolder(s, s.tasks[other], cfg.leaseDuration);
    }
  }

  /** The outcome of a ledger statement of rid, and the row it leaves. */
  lemma OwnRow(cfg: Config, s: State, rid: Rid, w: World)
    requires cfg.Valid() && Enabled(s, Advance(rid, w))
    ensures
      var t := s.tasks[rid];
      var k, e := StageKey(t.message), EffectOf(cfg, s, rid, w);
      var row := Lookup(s.table, k);
      Lookup(Advanced(cfg, s, rid, w).table, k) ==
        if e.call.Sql? && e.outcome.Answered? then SqlRow(k.0, k.1, row, e.call.op, s.now).0 else row
    ensures
      var t := s.tasks[rid];
      var k, e := StageKey(t.message), EffectOf(cfg, s, rid, w);
      e.outcome.Answered? ==> e.call.Sql? && e.outcome.reply == SqlRow(k.0, k.1, Lookup(s.table, k), e.call.op, s.now).1
  {
    hide CallAt, After, Remember, Perform, Settle, Advanced, Resolve;
    AdvanceTouches(cfg, s, rid, w);
    var t := s.tasks[rid];
    ResolvedShape(s, DeploymentOf(t.message), CallAt(cfg, t.message, t.pc), w);
  }

  /** The holder's own step keeps it secure. */
  lemma HolderAdvances(cfg: Config, t: Task, row: Option<Row>, e: Effect)
    requires cfg.Valid() && Holds(t) && Secure(t, row)
    requires e.call == CallAt(cfg, t.message, t.pc)
    requires e.outcome.Answered? ==>
      e.call.Sql? && e.outcome.reply == SqlRow(DeploymentOf(t.message), STAGE, row, e.call.op, e.at).1
    requires e.call.Sql? ==> e.outcome.Err? || e.outcome.Answered?
    ensures
      var next := After(cfg, t.message, t.pc, e.outcome);
      var row' := if e.outcome.Answered? then SqlRow(DeploymentOf(t.message), STAGE, row, e.call.op, e.at).0 else row;
      Holds(Remember(cfg, t, e).(pc := next)) ==> Secure(Remember(cfg, t, e).(pc := next), row')
  {
    if e.outcome.Answered? {
      HolderWrites(cfg, t, row, e);
    } else {
      HolderMoves(cfg, t, e);
    }
  }

  /** A call without an answer of the ledger changes nothing that a holder relies on. */
  lemma HolderMoves(cfg: Config, t: Task, e: Effect)
    requires cfg.Valid() && Holds(t) && !e.outcome.Answered? && e.call == CallAt(cfg, t.message, t.pc)
    requires e.call.Sql? ==> e.outcome.Err?
    requires (PastResult(t.pc) ==> t.wrote) && (t.pc.Recording? ==> t.pc.counted)
    ensures
      var next := After(cfg, t.message, t.pc, e.outcome);
      Remember(cfg, t, e) == t && (PastResult(next) ==> t.wrote) && (next.Recording? ==> next.counted)
  {
    hide SuccessBundle, FailureBundle, RetryQueue, QueueNumber, RetryCopy, DeadCopy, RequestOf, Attempt;
  }

  /** A holder's own statements keep its row as it relies on it. */
  lemma HolderWrites(cfg: Config, t: Task, row: Option<Row>, e: Effect)
    requires cfg.Valid() && Holds(t) && Secure(t, row) && e.outcome.Answered?
    requires e.call == CallAt(cfg, t.message, t.pc) && e.call.Sql?
    requires e.outcome.reply == SqlRow(DeploymentOf(t.message), STAGE, row, e.call.op, e.at).1
    ensures
      var next := After(cfg, t.message, t.pc, e.outcome);
      var row' := SqlRow(DeploymentOf(t.message), STAGE, row, e.call.op, e.at).0;
      Holds(Remember(cfg, t, e).(pc := next)) ==> Secure(Remember(cfg, t, e).(pc := next), row')
  {
    hide SuccessBundle, FailureBundle, RetryQueue, QueueNumber, RetryCopy, DeadCopy, DeploymentOf,
         NewBuildSucceeded, NewBuildFailed, NewDeploymentBuildStarted, NewDeploymentBuildSucceeded,
         NewDeploymentBuildFailed, NewDeploymentBuildRetrying, RequestOf, Attempt;
  }

  /** Its Release, if answered, leaves only the copy to be sent. */
  lemma ReleaseIsLast(cfg: Config, t: Task, e: Effect)
    requires cfg.Valid() && !t.pc.Over? && !t.released && e.call == CallAt(cfg, t.message, t.pc)
    ensures
      var next := After(cfg, t.message, t.pc, e.outcome);
      Remember(cfg, t, e).released ==> next.Republishing?
  {
    hide RequestOf, Attempt, Decide;
  }

  /** A job that only sends its copy stays released. */
  lemma ReleasedStays(cfg: Config, t: Task, e: Effect)
    requires cfg.Valid() && t.pc.Republishing? && t.released && !e.outcome.Answered?
    ensures
      var next := After(cfg, t.message, t.pc, e.outcome);
      Remember(cfg, t, e) == t && (next.Over? || next.Republishing?)
  {
  }

  /** A delivery comes to work on its deployment by an acquired claim alone. */
  lemma WorksByAcquiring(cfg: Config, m: Message, pc: Pc, o: Outcome)
    requires cfg.Valid() && !pc.Over? && !Working(pc)
    ensures Working(After(cfg, m, pc, o)) ==> pc.Claiming? && o.Answered? && Acquires(o.reply)
  {
    hide CallAt, RequestOf, Attempt;
  }

  /** A delivery that comes to hold its deployment does so by an acquired claim. */
  lemma HoldsByAcquiring(cfg: Config, t: Task, row: Option<Row>, e: Effect)
    requires cfg.Valid() && !t.pc.Over? && !Working(t.pc) && !t.released
    requires e.call == CallAt(cfg, t.message, t.pc)
    requires e.outcome.Answered? ==>
      e.call.Sql? && e.outcome.reply == SqlRow(DeploymentOf(t.message), STAGE, row, e.call.op, e.at).1
    ensures
      var next := After(cfg, t.message, t.pc, e.outcome);
      var row' := if e.outcome.Answered? then SqlRow(DeploymentOf(t.message), STAGE, row, e.call.op, e.at).0 else row;
      && (!Working(next) ==> !Remember(cfg, t, e).released || next.Over?)
      && (Working(next) ==>
        && t.pc.Claiming? && e.outcome.Answered? && Acquires(e.outcome.reply)
        && !Remember(cfg, t, e).released
        && (row.None? || row.value.state != Unset ==> Secure(Remember(cfg, t, e).(pc := next), row')))
  {
    hide SuccessBundle, FailureBundle, RetryQueue, QueueNumber, RetryCopy, DeadCopy, DeploymentOf,
         NewBuildSucceeded, NewBuildFailed, NewDeploymentBuildStarted, NewDeploymentBuildSucceeded,
         NewDeploymentBuildFailed, NewDeploymentBuildRetrying, RequestOf, Attempt;
  }

  lemma ResolvedShape(s: State, id: string, call: Call, w: World)
    ensures
      var o := Resolve(s, id, call, w);
      && (call.Sql? ==> o.Err? || o.Answered?)
      && (o.Answered? ==>
            call.Sql? && !o.reply.NoRow? && o.reply == SqlReply(s.table, Statement(id, STAGE, call.op, s.now)))
  {
  }

  /** Where the advancing delivery stands afterwards. */
  lemma TaskAdvanced(cfg: Config, s: State, rid: Rid, w: World)
    requires cfg.Valid() && Enabled(s, Advance(rid, w))
    ensures
      var t, e := s.tasks[rid], EffectOf(cfg, s, rid, w);
      var next := After(cfg, t.message, t.pc, e.outcome);
      Lookup(Advanced(cfg, s, rid, w).tasks, rid) ==
        if next.Over? then None else Some(Remember(cfg, t, e).(pc := next))
  {
    hide CallAt, After, Remember, Perform, Settle, EffectOf;
    var t, e := s.tasks[rid], EffectOf(cfg, s, rid, w);
    RememberKeepsMessage(cfg, t, e);
    WhereAdvanced(s, rid, Remember(cfg, t, e), e, After(cfg, t.message, t.pc, e.outcome));
  }

  /** Rows in a reachable table have a real state. */
  ghost predicate RowsHaveStates(s: State) {
    forall k :: k in s.table ==> s.table[k].state != Unset
  }

  lemma AdvancerStaysSecure(cfg: Config, s: State, rid: Rid, w: World)
    requires cfg.Valid() && Enabled(s, Advance(rid, w)) && SecureAt(s, rid) && RowsHaveStates(s)
    ensures SecureAt(Advanced(cfg, s, rid, w), rid)
    ensures
      var k := StageKey(s.tasks[rid].message);
      IsHolder(Advanced(cfg, s, rid, w), rid) ==>
        && StageKey(Advanced(cfg, s, rid, w).tasks[rid].message) == k
        && (IsHolder(s, rid) ||
            Acquires(SqlReply(s.table, Statement(k.0, k.1, Op.Claim(cfg.leaseDuration), s.now))))
  {
    hide After, Remember, Perform, Settle, Advanced, Secure, Resolve, CallAt;
    var t, e := s.tasks[rid], EffectOf(cfg, s, rid, w);
    var row := Lookup(s.table, StageKey(t.message));
    OwnRow(cfg, s, rid, w);
    TaskAdvanced(cfg, s, rid, w);
    RememberKeepsMessage(cfg, t, e);
    ResolvedShape(s, DeploymentOf(t.message), CallAt(cfg, t.message, t.pc), w);
    if Holds(t) {
      HolderAdvances(cfg, t, row, e);
      ReleaseIsLast(cfg, t, e);
    } else {
      IdleCalls(cfg, t.message, t.pc);
      if t.released {
        ReleasedStays(cfg, t, e);
      } else {
        HoldsByAcquiring(cfg, t, row, e);
      }
    }
  }

  lemma AdvanceKeepsExclusion(cfg: Config, s: State, rid: Rid, w: World)
    requires cfg.Valid() && Enabled(s, Advance(rid, w)) && Exclusion(s) && Timely(s) && RowsHaveStates(s)
    ensures Exclusion(Advanced(cfg, s, rid, w))
  {
    hide Advanced, Secure, Holds;
    var s' := Advanced(cfg, s, rid, w);
    assert SecureAt(s, rid);
    AdvancerStaysSecure(cfg, s, rid, w);
    forall other
      ensures SecureAt(s', other) && Apart(s', rid, other) && Apart(s', other, rid)
    {
      assert SecureAt(s, other) && Apart(s, rid, other) && TimelyTask(s, other);
      if other != rid {
        StepFrames(cfg, s, Advance(rid, w), other);
        if IsHolder(s', other) {
          OthersKeepTheirRow(cfg, s, rid, w, other);
          ClaimAgainstHolder(s, s.tasks[other], cfg.leaseDuration);
        }
      }
    }
    forall r1, r2
      ensures Apart(s', r1, r2)
    {
      if r1 != rid && r2 != rid {
        StepFrames(cfg, s, Advance(rid, w), r1);
        StepFrames(cfg, s, Advance(rid, w), r2);
        assert Apart(s, r1, r2);
      }
    }
  }

  /** A renewal extends the holder's own lease, or finds its result already written. */
  lemma RenewalKeepsExclusion(cfg: Config, s: State, rid: Rid, ok: bool)
    requires cfg.Valid() && Enabled(s, RenewLease(rid, ok)) && Exclusion(s)
    ensures Exclusion(Renewed(cfg, s, rid, ok))
  {
    var s' := Renewed(cfg, s, rid, ok);
    var k := StageKey(s.tasks[rid].message);
    assert SecureAt(s, rid) && IsHolder(s, rid);
    forall other
      ensures SecureAt(s', other)
    {
      assert SecureAt(s, other) && Apart(s, rid, other);
      if other != rid && IsHolder(s, other) {
        var k2 := StageKey(s.tasks[other].message);
        assert k2 != k && Lookup(s'.table, k2) == Lookup(s.table, k2);
      }
    }
    forall r1, r2
      ensures Apart(s', r1, r2)
    {
      assert Apart(s, r1, r2);
    }
  }

  /** Every other step leaves the table alone and no new holder behind. */
  lemma QuietStepKeepsExclusion(cfg: Config, s: State, l: Label)
    requires cfg.Valid() && Enabled(s, l) && Exclusion(s) && !l.Advance? && !l.RenewLease?
    requires l.Deliver? ==> Conserved(s, l.rid)
    ensures Exclusion(Next(cfg, s, l))
  {
    hide Secure, Conserved;
    var s' := Next(cfg, s, l);
    forall rid
      ensures IsHolder(s', rid) ==> IsHolder(s, rid) && s'.tasks[rid] == s.tasks[rid]
    {
    }
    forall rid
      ensures SecureAt(s', rid)
    {
      assert SecureAt(s, rid);
    }
    forall r1, r2
      ensures Apart(s', r1, r2)
    {
      assert Apart(s, r1, r2);
    }
  }

  lemma ExclusionStep(cfg: Config, s: State, l: Label)
    requires cfg.Valid() && Enabled(s, l) && Exclusion(s) && Timely(s) && RowsHaveStates(s) && Conservation(s)
    ensures Exclusion(Next(cfg, s, l))
  {
    hide Exclusion, Timely, RowsHaveStates, Conserved, Advanced, Renewed;
    match l
    case Advance(rid, w) => AdvanceKeepsExclusion(cfg, s, rid, w);
    case RenewLease(rid, ok) => RenewalKeepsExclusion(cfg, s, rid, ok);
    case Deliver(rid) =>
      assert Conserved(s, rid);
      QuietStepKeepsExclusion(cfg, s, l);
    case _ => QuietStepKeepsExclusion(cfg, s, l);
  }

  /** Every state a run passes through before its last is timely. */
  ghost predicate TimelyRun(cfg: Config, run: Run)
    requires cfg.Valid()
  {
    run == [] ||
    (var init := run[..|run| - 1];
     TimelyRun(cfg, init) && RunTo(cfg, INITIAL, init).Some? && Timely(RunTo(cfg, INITIAL, init).value))
  }

  /** Mutual exclusion over all interleavings: in a run whose holders are timely, no two deliveries of
      one deployment are between claim and Release, and each holder's row is the one it left. */
  lemma {:induction false} AtMostOneHolder(cfg: Config, run: Run)
    requires cfg.Valid() && RunTo(cfg, INITIAL, run).Some? && TimelyRun(cfg, run)
    ensures Exclusion(RunTo(cfg, INITIAL, run).value)
  {
    if run != [] {
      var n := |run| - 1;
      var s := RunTo(cfg, INITIAL, run[..n]).value;
      AtMostOneHolder(cfg, run[..n]);
      RequestsAreConserved(cfg, run[..n]);
      forall k | k in s.table
        ensures s.table[k].state != Unset
      {
        RowsAreAccounted(cfg, run[..n], k);
      }
      ExclusionStep(cfg, s, run[n]);
    }
  }

  /** The request of a holder, sent again without headers. */
  function Duplicate(s: State, rid: Rid): Message
    requires rid in s.tasks
  {
    s.tasks[rid].message.(headers := map[])
  }

  /** A claim would take the row over. */
  predicate Takeable(row: Row, now: int) {
    row.state == InProgress && !Live(row.lease, now)
  }

  /** The steps by which a second delivery of the same deployment claims it. */
  function Joining(s: State, rid: Rid, other: Rid): Run
    requires rid in s.tasks
  {
    [Inject(other, Duplicate(s, rid)), Deliver(other), Advance(other, Succeeds(NO_RESULT))]
  }

  /** A delivery past its claim is joined by a second one exactly when the row can be taken over. */
  lemma JoinedIfTakeable(cfg: Config, s: State, rid: Rid, other: Rid)
    requires cfg.Valid() && rid in s.tasks && Working(s.tasks[rid].pc) && Conserved(s, rid)
    requires StageKey(s.tasks[rid].message) in s.table && s.table[StageKey(s.tasks[rid].message)].state != Unset
    requires other !in s.injected && Conserved(s, other)
    ensures RunTo(cfg, s, Joining(s, rid, other)).Some?
    ensures
      var s' := RunTo(cfg, s, Joining(s, rid, other)).value;
      && rid in s'.tasks && s'.tasks[rid] == s.tasks[rid]
      && other in s'.tasks && StageKey(s'.tasks[other].message) == StageKey(s.tasks[rid].message)
      && (Working(s'.tasks[other].pc) <==> Takeable(s.table[StageKey(s.tasks[rid].message)], s.now))
      && (Working(s'.tasks[other].pc) ==> IsHolder(s', other))
  {
    hide RunTo, Next, Acceptable, Conserved, Working, Takeable;
    var l1, l2, l3 := Inject(other, Duplicate(s, rid)), Deliver(other), Advance(other, Succeeds(NO_RESULT));
    DuplicateIsDelivered(cfg, s, rid, other);
    EmptyRun(cfg, s);
    RunExtends(cfg, s, [], l1);
    assert [] + [l1] == [l1] && [l1] + [l2] == [l1, l2] && [l1, l2] + [l3] == [l1, l2, l3];
    var s1 := Next(cfg, s, l1);
    RunExtends(cfg, s, [l1], l2);
    var s2 := Next(cfg, s1, l2);
    RunExtends(cfg, s, [l1, l2], l3);
    SecondClaim(cfg, s2, other, rid);
    NextAdvance(cfg, s2, other, Succeeds(NO_RESULT));
  }

  /** Timeliness is needed here: once the lease of a holder has run out before its result, and its row is
      still the one it left, a second delivery of the same deployment can claim it, and then both
      hold it. */
  lemma LateHolderCanBeJoined(cfg: Config, s: State, rid: Rid, other: Rid)
    requires cfg.Valid() && IsHolder(s, rid) && SecureAt(s, rid) && Conserved(s, rid)
    requires !TimelyTask(s, rid)
    requires other !in s.injected && Conserved(s, other)
    ensures RunTo(cfg, s, Joining(s, rid, other)).Some?
    ensures
      var s' := RunTo(cfg, s, Joining(s, rid, other)).value;
      && IsHolder(s', rid) && IsHolder(s', other)
      && StageKey(s'.tasks[rid].message) == StageKey(s'.tasks[other].message)
  {
    hide RunTo, Conserved, Working;
    JoinedIfTakeable(cfg, s, rid, other);
  }

  lemma NextAdvance(cfg: Config, s: State, rid: Rid, w: World)
    requires cfg.Valid() && Enabled(s, Advance(rid, w))
    ensures Next(cfg, s, Advance(rid, w)) == Advanced(cfg, s, rid, w)
  {
    hide Advanced;
  }

  lemma DuplicateIsDelivered(cfg: Config, s: State, rid: Rid, other: Rid)
    requires cfg.Valid() && rid in s.tasks && Working(s.tasks[rid].pc) && Conserved(s, rid)
    requires other !in s.injected && Conserved(s, other)
    ensures
      var s1 := Next(cfg, s, Inject(other, Duplicate(s, rid)));
      && Enabled(s, Inject(other, Duplicate(s, rid)))
      && Enabled(s1, Deliver(other))
      && var s2 := Next(cfg, s1, Deliver(other));
      && other in s2.tasks && s2.tasks[other].pc == Claiming && other != rid
      && rid in s2.tasks && s2.tasks[rid] == s.tasks[rid] && s2.table == s.table && s2.now == s.now
      && StageKey(s2.tasks[other].message) == StageKey(s2.tasks[rid].message)
  {
    hide Acceptable;
    assert Acceptable(Duplicate(s, rid).body);
  }

  lemma EmptyRun(cfg: Config, s: State)
    requires cfg.Valid()
    ensures RunTo(cfg, s, []) == Some(s)
  {
  }

  lemma SecondClaim(cfg: Config, s: State, other: Rid, rid: Rid)
    requires cfg.Valid() && other in s.tasks && s.tasks[other].pc == Claiming && other != rid && rid in s.tasks
    requires StageKey(s.tasks[other].message) == StageKey(s.tasks[rid].message)
    requires StageKey(s.tasks[rid].message) in s.table && s.table[StageKey(s.tasks[rid].message)].state != Unset
    ensures
      var s' := Advanced(cfg, s, other, Succeeds(NO_RESULT));
      && rid in s'.tasks && s'.tasks[rid] == s.tasks[rid]
      && other in s'.tasks && s'.tasks[other].message == s.tasks[other].message
      && (Working(s'.tasks[other].pc) <==> Takeable(s.table[StageKey(s.tasks[rid].message)], s.now))
      && (Working(s'.tasks[other].pc) ==> IsHolder(s', other))
  {
    hide Perform, Settle, Advanced;
    var w := Succeeds(NO_RESULT);
    StepFrames(cfg, s, Advance(other, w), rid);
    TaskAdvanced(cfg, s, other, w);
    RememberKeepsMessage(cfg, s.tasks[other], EffectOf(cfg, s, other, w));
  }
}
