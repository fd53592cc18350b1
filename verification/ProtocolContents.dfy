/** What the queues hold: the message of a request is always the copy that was last sent of it. */
module ProtocolContents {
  import opened Options
  import opened Config
  import opened Stage
  import opened Paths
  import opened Protocol
  import opened ProtocolLedger
  import opened ProtocolConservation
  import opened ProtocolExclusion

  predicate SentLater(e: Entry, rid: Rid) {
    e.Did? && e.rid == rid && e.effect.call.SendRetry? && !e.effect.outcome.Err?
  }

  predicate SentDead(e: Entry, rid: Rid) {
    e.Did? && e.rid == rid && e.effect.call.SendDlq? && !e.effect.outcome.Err?
  }

  /** The copy of the request that was last sent to a retry queue, and the queue. */
  function LastDelayed(log: Log, rid: Rid): Option<Delayed> {
    if log == [] then None
    else
      var e := log[|log| - 1];
      if SentLater(e, rid) then Some(Delayed(e.effect.call.queue, e.effect.call.copy))
      else LastDelayed(log[..|log| - 1], rid)
  }

  function LastDead(log: Log, rid: Rid): Option<Message> {
    if log == [] then None
    else
      var e := log[|log| - 1];
      if SentDead(e, rid) then Some(e.effect.call.copy) else LastDead(log[..|log| - 1], rid)
  }

  /** The message a request goes by: the last delayed copy, or the message it came with. */
  function MessageOf(s: State, rid: Rid): Message
    requires rid in s.injected
  {
    match LastDelayed(s.log, rid)
    case None => s.injected[rid]
    case Some(d) => d.message
  }

  predicate HoldsLastSent(s: State, rid: Rid) {
    && (rid !in s.injected ==> LastDelayed(s.log, rid) == None)
    && (rid in s.main ==> rid in s.injected && s.main[rid] == MessageOf(s, rid))
    && (rid in s.tasks ==> rid in s.injected && s.tasks[rid].message == MessageOf(s, rid))
    && (rid in s.retry ==> LastDelayed(s.log, rid) == Some(s.retry[rid]))
    && (rid in s.dlq ==> LastDead(s.log, rid) == Some(s.dlq[rid]))
  }

  lemma LastAppend(log: Log, e: Entry, rid: Rid)
    ensures LastDelayed(log + [e], rid) ==
      if SentLater(e, rid) then Some(Delayed(e.effect.call.queue, e.effect.call.copy)) else LastDelayed(log, rid)
    ensures LastDead(log + [e], rid) == if SentDead(e, rid) then Some(e.effect.call.copy) else LastDead(log, rid)
  {
    assert (log + [e])[..|log|] == log;
  }

  lemma OwnContents(cfg: Config, s: State, rid: Rid, w: World)
    requires cfg.Valid() && Enabled(s, Advance(rid, w)) && HoldsLastSent(s, rid) && Conserved(s, rid)
    ensures HoldsLastSent(Next(cfg, s, Advance(rid, w)), rid)
  {
    hide CallAt, After, Remember, Perform, Settle, Advanced, EffectOf, Next, LastDelayed, LastDead, Acceptable,
         DeploymentOf;
    var t, e := s.tasks[rid], EffectOf(cfg, s, rid, w);
    var next := After(cfg, t.message, t.pc, e.outcome);
    NextAdvance(cfg, s, rid, w);
    AdvanceTouches(cfg, s, rid, w);
    AdvancedUnfolds(cfg, s, rid, w);
    RememberKeepsMessage(cfg, t, e);
    WhereAdvanced(s, rid, Remember(cfg, t, e), e, next);
    CallOfEffect(cfg, s, rid, w);
    MovesMatchCopies(cfg, t.message, t.pc, e.outcome);
    LastAppend(s.log, Did(rid, DeploymentOf(t.message), e), rid);
  }

  lemma CallOfEffect(cfg: Config, s: State, rid: Rid, w: World)
    requires cfg.Valid() && Enabled(s, Advance(rid, w))
    ensures EffectOf(cfg, s, rid, w).call == CallAt(cfg, s.tasks[rid].message, s.tasks[rid].pc)
  {
    hide CallAt, Resolve;
  }

  lemma OtherContents(cfg: Config, s: State, l: Label, rid: Rid)
    requires cfg.Valid() && Enabled(s, l) && HoldsLastSent(s, rid) && Conserved(s, rid)
    requires !(l.Advance? && l.rid == rid)
    ensures HoldsLastSent(Next(cfg, s, l), rid)
  {
    hide CallAt, After, Remember, Perform, Settle, Advanced, EffectOf, LastDelayed, LastDead, Acceptable, DeploymentOf,
         ApplyEffect, Resolve;
    StepLogs(cfg, s, l);
    if EntryOf(cfg, s, l).Some? {
      LastAppend(s.log, EntryOf(cfg, s, l).value, rid);
    }
    if l.Tick? || l.rid != rid {
      StepFrames(cfg, s, l, rid);
    } else if l.RenewLease? {
      PerformTouches(s, rid, DeploymentOf(s.tasks[rid].message), RenewalOf(cfg, s, l.succeeds));
      RenewalSendsNothing(cfg, s, rid, l.succeeds);
    }
  }

  lemma RenewalSendsNothing(cfg: Config, s: State, rid: Rid, ok: bool)
    requires rid in s.tasks
    ensures RenewalOf(cfg, s, ok).call.Sql?
    ensures
      var s' := Renewed(cfg, s, rid, ok);
      && s'.main == s.main && s'.retry == s.retry && s'.dlq == s.dlq && s'.injected == s.injected
      && rid in s'.tasks && s'.tasks[rid].message == s.tasks[rid].message
  {
    hide ApplyEffect, DeploymentOf;
  }

  /** In every reachable state a request is, wherever it is, the message it was injected with or the copy last sent
      to a retry queue, in the queue it was sent to; in the dead-letter queue it is the copy sent there. */
  lemma {:induction false} QueuesHoldWhatWasSent(cfg: Config, run: Run, rid: Rid)
    requires cfg.Valid() && RunTo(cfg, INITIAL, run).Some?
    ensures HoldsLastSent(RunTo(cfg, INITIAL, run).value, rid)
  {
    if run != [] {
      hide Next, HoldsLastSent, Enabled, Conserved;
      var n := |run| - 1;
      var s, l := RunTo(cfg, INITIAL, run[..n]).value, run[n];
      QueuesHoldWhatWasSent(cfg, run[..n], rid);
      RequestsAreConserved(cfg, run[..n]);
      assert Conserved(s, rid);
      if l.Advance? && l.rid == rid {
        OwnContents(cfg, s, rid, l.world);
      } else {
        OtherContents(cfg, s, l, rid);
      }
    }
  }
}
