/** Every delivery of every run is one of the paths of Stage: what holds of all paths holds of all runs. */
module ProtocolTraces {
  import opened Options
  import opened Config
  import opened Stage
  import opened Paths
  import opened Protocol
  import opened ProtocolLedger
  import opened ProtocolExclusion

  predicate IsRenewal(call: Call) {
    call.Sql? && call.op.Renew?
  }

  /** What one more entry makes of the effects so far. */
  function Continued(before: Trace, e: Entry, rid: Rid): Trace {
    match e
    case Delivered(r) => if r == rid then [] else before
    case Did(r, _, f) => if r == rid && !IsRenewal(f.call) then before + [f] else before
    case Lost(_, _) => before
  }

  /** The effects of the latest delivery of rid, renewals of its lease aside. */
  function Since(log: Log, rid: Rid): Trace {
    if log == [] then [] else Continued(Since(log[..|log| - 1], rid), log[|log| - 1], rid)
  }

  lemma SinceAppend(log: Log, e: Entry, rid: Rid)
    ensures Since(log + [e], rid) == Continued(Since(log, rid), e, rid)
  {
    assert (log + [e])[..|log|] == log;
  }

  predicate OnPath(cfg: Config, s: State, rid: Rid)
    requires cfg.Valid()
  {
    rid in s.tasks ==>
      var t := s.tasks[rid];
      Follow(cfg, t.message, Start(t.message), Since(s.log, rid)) == Some(t.pc)
  }

  lemma FollowExtends(cfg: Config, m: Message, pc: Pc, t: Trace, e: Effect)
    requires cfg.Valid() && Follow(cfg, m, pc, t).Some? && !Follow(cfg, m, pc, t).value.Over?
    requires e.call == CallAt(cfg, m, Follow(cfg, m, pc, t).value)
    ensures Follow(cfg, m, pc, t + [e]) == Some(After(cfg, m, Follow(cfg, m, pc, t).value, e.outcome))
  {
    hide CallAt, After;
    assert (t + [e])[..|t|] == t && (t + [e])[|t|] == e;
  }

  lemma NeverRenews(cfg: Config, m: Message, pc: Pc)
    requires cfg.Valid() && !pc.Over?
    ensures !IsRenewal(CallAt(cfg, m, pc))
  {
  }

  /** The call that a delivery makes extends its path, to its end if the delivery ends. */
  lemma AdvanceExtendsPath(cfg: Config, s: State, rid: Rid, w: World)
    requires cfg.Valid() && Enabled(s, Advance(rid, w)) && OnPath(cfg, s, rid)
    ensures
      var t, s' := s.tasks[rid], Next(cfg, s, Advance(rid, w));
      var next := After(cfg, t.message, t.pc, EffectOf(cfg, s, rid, w).outcome);
      && Follow(cfg, t.message, Start(t.message), Since(s'.log, rid)) == Some(next)
      && OnPath(cfg, s', rid)
  {
    hide CallAt, After, Remember, Perform, Settle, Advanced, Resolve, Follow, Next, DeploymentOf, Start, Since;
    var t, e := s.tasks[rid], EffectOf(cfg, s, rid, w);
    NextAdvance(cfg, s, rid, w);
    AdvanceTouches(cfg, s, rid, w);
    TaskAdvanced(cfg, s, rid, w);
    RememberKeeps(cfg, t, e);
    NeverRenews(cfg, t.message, t.pc);
    SinceAppend(s.log, Did(rid, DeploymentOf(t.message), e), rid);
    FollowExtends(cfg, t.message, Start(t.message), Since(s.log, rid), e);
  }

  lemma RememberKeeps(cfg: Config, t: Task, e: Effect)
    ensures Remember(cfg, t, e).message == t.message
  {
  }

  lemma QuietStepKeepsPath(cfg: Config, s: State, l: Label, rid: Rid)
    requires cfg.Valid() && Enabled(s, l) && OnPath(cfg, s, rid) && !(l.Advance? && l.rid == rid)
    ensures OnPath(cfg, Next(cfg, s, l), rid)
  {
    hide CallAt, After, Remember, Settle, Advanced, Resolve, Perform, ApplyEffect, DeploymentOf, Since, Start, EffectOf;
    StepLogs(cfg, s, l);
    if EntryOf(cfg, s, l).Some? {
      SinceAppend(s.log, EntryOf(cfg, s, l).value, rid);
    }
    if l.Tick? || l.rid != rid {
      StepFrames(cfg, s, l, rid);
    } else if l.RenewLease? {
      PerformTouches(s, rid, DeploymentOf(s.tasks[rid].message), RenewalOf(cfg, s, l.succeeds));
    }
  }

  /** In every reachable state, the effects of a delivery in progress since it was delivered, renewals aside,
      are a path from its start to where it stands. */
  lemma {:induction false} RunsFollowPaths(cfg: Config, run: Run, rid: Rid)
    requires cfg.Valid() && RunTo(cfg, INITIAL, run).Some?
    ensures OnPath(cfg, RunTo(cfg, INITIAL, run).value, rid)
  {
    if run != [] {
      hide Next, OnPath, Enabled;
      var n := |run| - 1;
      var s, l := RunTo(cfg, INITIAL, run[..n]).value, run[n];
      RunsFollowPaths(cfg, run[..n], rid);
      if l.Advance? && l.rid == rid {
        AdvanceExtendsPath(cfg, s, rid, l.world);
      } else {
        QuietStepKeepsPath(cfg, s, l, rid);
      }
    }
  }

  /** And a delivery that ends has made a whole path: in every run, the step by which it ends completes a
      path from its start to that end. */
  lemma EndsCompletePaths(cfg: Config, run: Run, rid: Rid, w: World)
    requires cfg.Valid() && RunTo(cfg, INITIAL, run).Some?
    requires Enabled(RunTo(cfg, INITIAL, run).value, Advance(rid, w))
    requires rid !in Next(cfg, RunTo(cfg, INITIAL, run).value, Advance(rid, w)).tasks
    ensures
      var s := RunTo(cfg, INITIAL, run).value;
      var m, s' := s.tasks[rid].message, Next(cfg, s, Advance(rid, w));
      var at := Follow(cfg, m, Start(m), Since(s'.log, rid));
      at.Some? && at.value.Over?
  {
    hide RunTo, Next, OnPath, Follow, After;
    RunsFollowPaths(cfg, run, rid);
    var s := RunTo(cfg, INITIAL, run).value;
    AdvanceExtendsPath(cfg, s, rid, w);
    TaskAdvanced(cfg, s, rid, w);
    NextAdvance(cfg, s, rid, w);
  }
}
