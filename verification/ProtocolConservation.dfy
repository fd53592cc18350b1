/** No request is lost or duplicated by accident: where each injected request is, in every reachable state. */
module ProtocolConservation {
  import opened Options
  import opened Ledger
  import opened Config
  import opened Stage
  import opened Paths
  import opened Protocol
  import opened ProtocolLedger

  /** In how many places a request is: main queue, pipeline, retry queues, DLQ, settled, dropped. */
  function Places(s: State, rid: Rid): nat {
    One(rid in s.main) + One(rid in s.tasks) + One(rid in s.retry) + One(rid in s.dlq)
    + One(rid in s.settled) + One(rid in s.dropped)
  }

  predicate HandlesMalformed(pc: Pc) {
    pc.CopyingMalformed? || pc.AckingMalformed? || pc.Discarding?
  }

  /** All copies of a request carry the body it was injected with. */
  predicate SameBody(s: State, rid: Rid) {
    && (rid in s.main ==> rid in s.injected && s.main[rid].body == s.injected[rid].body)
    && (rid in s.tasks ==> rid in s.injected && s.tasks[rid].message.body == s.injected[rid].body)
    && (rid in s.retry ==> rid in s.injected && s.retry[rid].message.body == s.injected[rid].body)
    && (rid in s.dlq ==> rid in s.injected && s.dlq[rid].body == s.injected[rid].body)
  }

  /** A well-formed request is in exactly one place. A malformed one is too, except that it can be
      redelivered while its copy is already in the dead-letter queue; it is never retried or settled. */
  predicate Conserved(s: State, rid: Rid) {
    && SameBody(s, rid)
    && (rid in s.tasks ==>
          !s.tasks[rid].pc.Over? && (HandlesMalformed(s.tasks[rid].pc) <==> !Acceptable(s.tasks[rid].message.body)))
    && (if rid !in s.injected then Places(s, rid) == 0
        else if Acceptable(s.injected[rid].body) then Places(s, rid) == 1
        else
          && rid !in s.retry && rid !in s.settled
          && (Places(s, rid) == 1 || (Places(s, rid) == 2 && rid in s.dlq))
          && (rid in s.tasks && s.tasks[rid].pc.AckingMalformed? ==> rid in s.dlq))
  }

  ghost predicate Conservation(s: State) {
    forall rid :: Conserved(s, rid)
  }

  predicate SendsCopy(call: Call) {
    call.SendRetry? || call.SendDlq?
  }

  /** How a call moves a delivery on. */
  lemma MovesMatchCopies(cfg: Config, m: Message, pc: Pc, o: Outcome)
    requires cfg.Valid() && !pc.Over?
    ensures
      var next, call := After(cfg, m, pc, o), CallAt(cfg, m, pc);
      && (SendsCopy(call) ==> (call.copy.body == m.body))
      && (!next.Over? ==> (HandlesMalformed(next) <==> HandlesMalformed(pc)))
      && (!HandlesMalformed(pc) ==> (SendsCopy(call) && !o.Err? <==> next == Over(Moved)))
      && (HandlesMalformed(pc) ==>
            && !call.SendRetry?
            && next != Over(End.Settled)
            && (next == Over(Moved) ==> pc.AckingMalformed?)
            && (call.SendDlq? && !o.Err? <==> next.AckingMalformed?))
  {
    hide CallAt, After;
    CopyCalls(cfg, m, pc);
    if HandlesMalformed(pc) {
      MalformedMoves(cfg, m, pc, o);
    } else {
      OtherMoves(cfg, m, pc, o);
    }
  }

  lemma CopyCalls(cfg: Config, m: Message, pc: Pc)
    requires cfg.Valid() && !pc.Over?
    ensures
      var call := CallAt(cfg, m, pc);
      && (call.SendRetry? <==> pc.Republishing?)
      && (call.SendDlq? <==> pc.DeadLettering? || pc.CopyingMalformed?)
      && (SendsCopy(call) ==> call.copy.body == m.body)
  {
    hide After, RetryQueue, SuccessBundle, FailureBundle, Attempt;
  }

  lemma MalformedMoves(cfg: Config, m: Message, pc: Pc, o: Outcome)
    requires cfg.Valid() && HandlesMalformed(pc)
    ensures
      var next := After(cfg, m, pc, o);
      && (!next.Over? ==> HandlesMalformed(next))
      && next != Over(End.Settled) && (next == Over(Moved) ==> pc.AckingMalformed?)
      && (pc.CopyingMalformed? && !o.Err? <==> next.AckingMalformed?)
  {
    hide CallAt, Attempt, Decide, AfterClaim, AfterFailure;
  }

  lemma OtherMoves(cfg: Config, m: Message, pc: Pc, o: Outcome)
    requires cfg.Valid() && !pc.Over? && !HandlesMalformed(pc)
    ensures
      var next := After(cfg, m, pc, o);
      && (!next.Over? ==> !HandlesMalformed(next))
      && (next == Over(Moved) <==> (pc.Republishing? || pc.DeadLettering?) && !o.Err?)
  {
    hide CallAt, Attempt;
  }

  /** Where the delivery that advances is afterwards. */
  lemma WhereAdvanced(s: State, rid: Rid, t: Task, e: Effect, next: Pc)
    requires rid in s.tasks
    ensures
      var s' := Settle(Perform(s, rid, DeploymentOf(t.message), e), rid, t, next);
      var end := if next.Over? then Some(next.end) else None;
      && s'.injected == s.injected
      && Lookup(s'.tasks, rid) == (if end.None? then Some(t.(pc := next)) else None)
      && Lookup(s'.main, rid) == (if end == Some(Requeued) then Some(t.message) else Lookup(s.main, rid))
      && Lookup(s'.retry, rid) ==
           (if e.call.SendRetry? && !e.outcome.Err? then Some(Delayed(e.call.queue, e.call.copy))
            else Lookup(s.retry, rid))
      && Lookup(s'.dlq, rid) ==
           (if e.call.SendDlq? && !e.outcome.Err? then Some(e.call.copy) else Lookup(s.dlq, rid))
      && (rid in s'.settled <==> rid in s.settled || end == Some(End.Settled))
      && (rid in s'.dropped <==> rid in s.dropped || end == Some(Dropped))
  {
    hide ApplyEffect, DeploymentOf;
  }

  /** The delivery that advances stays in one place. */
  lemma AdvancedIsConserved(cfg: Config, s: State, rid: Rid, t: Task, e: Effect)
    requires cfg.Valid() && rid in s.tasks && Conserved(s, rid) && t.message == s.tasks[rid].message
    requires e.call == CallAt(cfg, t.message, s.tasks[rid].pc)
    ensures
      var next := After(cfg, t.message, s.tasks[rid].pc, e.outcome);
      Conserved(Settle(Perform(s, rid, DeploymentOf(t.message), e), rid, t, next), rid)
  {
    hide ApplyEffect, Acceptable, DeploymentOf, Perform, Settle, CallAt, After;
    var pc := s.tasks[rid].pc;
    MovesMatchCopies(cfg, t.message, pc, e.outcome);
    var next := After(cfg, t.message, pc, e.outcome);
    WhereAdvanced(s, rid, t, e, next);
    if next.Over? {
      assert next == Over(next.end);
      assert next.end == End.Settled || next.end == Requeued || next.end == Dropped || next.end == Moved;
    }
  }

  lemma FrameConserves(s: State, s': State, r: Rid)
    requires Conserved(s, r) && SameAt(s, s', r)
    ensures Conserved(s', r)
  {
    hide Acceptable;
  }

  lemma ConservationStep(cfg: Config, s: State, l: Label)
    requires cfg.Valid() && Enabled(s, l) && Conservation(s)
    ensures Conservation(Next(cfg, s, l))
  {
    hide Acceptable, CallAt, After, Remember, ApplyEffect, DeploymentOf, Perform, Settle, Next, Conserved;
    forall rid
      ensures Conserved(Next(cfg, s, l), rid)
    {
      assert Conserved(s, rid);
      if l.Tick? || rid != l.rid {
        StepFrames(cfg, s, l, rid);
        FrameConserves(s, Next(cfg, s, l), rid);
      } else {
        OwnMove(cfg, s, l);
      }
    }
  }

  lemma OwnMove(cfg: Config, s: State, l: Label)
    requires cfg.Valid() && Enabled(s, l) && !l.Tick? && Conserved(s, l.rid)
    ensures Conserved(Next(cfg, s, l), l.rid)
  {
    hide Acceptable, CallAt, After, Remember, ApplyEffect, DeploymentOf, Perform, Settle;
    match l
    case Advance(rid, w) =>
      var t := s.tasks[rid];
      var e := EffectOf(cfg, s, rid, w);
      RememberKeepsMessage(cfg, t, e);
      AdvancedIsConserved(cfg, s, rid, Remember(cfg, t, e), e);
    case Inject(_, _) =>
    case Deliver(_) =>
    case RenewLease(rid, ok) => RenewalMovesNothing(cfg, s, rid, ok);
    case Expire(_) =>
    case Lose(_) =>
  }

  lemma RememberKeepsMessage(cfg: Config, t: Task, e: Effect)
    ensures Remember(cfg, t, e).message == t.message
  {
  }

  lemma RenewalMovesNothing(cfg: Config, s: State, rid: Rid, ok: bool)
    requires rid in s.tasks && Conserved(s, rid)
    ensures Conserved(Renewed(cfg, s, rid, ok), rid)
  {
    hide Acceptable, ApplyEffect, DeploymentOf;
  }

  /** Request conservation, for every run. */
  lemma {:induction false} RequestsAreConserved(cfg: Config, run: Run)
    requires cfg.Valid() && RunTo(cfg, INITIAL, run).Some?
    ensures Conservation(RunTo(cfg, INITIAL, run).value)
  {
    if run != [] {
      var n := |run| - 1;
      RequestsAreConserved(cfg, run[..n]);
      ConservationStep(cfg, RunTo(cfg, INITIAL, run[..n]).value, run[n]);
    }
  }

  /** The outcomes by which a delivery drops its request: a malformed message that could not be copied
      to the DLQ, and, after the early Ack, a failed retrying event, a failed step of the exhaustion
      sequence, a retry copy that failed on both channels, or a failed DLQ copy. */
  predicate DropsRequest(pc: Pc, o: Outcome) {
    || (pc.Discarding? && !o.Err?)
    || (o.Err? &&
         (|| pc.EmittingRetry?
          || ((pc.Failing? || pc.AnnouncingFailure? || pc.ReportingFailure?) && pc.site.Exhausted?)
          || (pc.Republishing? && pc.onConsumerChannel)
          || pc.DeadLettering?))
  }

  lemma DropsExactly(cfg: Config, m: Message, pc: Pc, o: Outcome)
    requires cfg.Valid() && !pc.Over?
    ensures After(cfg, m, pc, o) == Over(Dropped) <==> DropsRequest(pc, o)
  {
    hide CallAt, After, DropsRequest;
    if pc.Failing? || pc.AnnouncingFailure? || pc.ReportingFailure? {
      FailureDrops(cfg, m, pc, o);
    } else if Unsettled(pc) {
      UnsettledDrops(cfg, m, pc, o);
    } else {
      OthersDrop(cfg, m, pc, o);
    }
  }

  lemma FailureDrops(cfg: Config, m: Message, pc: Pc, o: Outcome)
    requires cfg.Valid() && (pc.Failing? || pc.AnnouncingFailure? || pc.ReportingFailure?)
    ensures After(cfg, m, pc, o) == Over(Dropped) <==> DropsRequest(pc, o)
  {
    hide CallAt, Attempt, Decide, AfterClaim;
  }

  lemma UnsettledDrops(cfg: Config, m: Message, pc: Pc, o: Outcome)
    requires cfg.Valid() && Unsettled(pc)
    ensures After(cfg, m, pc, o) == Over(Dropped) <==> DropsRequest(pc, o)
  {
    hide CallAt, Attempt, Decide, AfterFailure;
  }

  lemma OthersDrop(cfg: Config, m: Message, pc: Pc, o: Outcome)
    requires cfg.Valid() && !pc.Over? && !Unsettled(pc)
    requires !pc.Failing? && !pc.AnnouncingFailure? && !pc.ReportingFailure?
    ensures After(cfg, m, pc, o) == Over(Dropped) <==> DropsRequest(pc, o)
  {
    hide CallAt, Attempt, AfterClaim, AfterFailure;
  }

  /** The step drops request rid. */
  predicate DroppedBy(cfg: Config, s: State, l: Label, rid: Rid)
    requires cfg.Valid() && Enabled(s, l)
  {
    match l
    case Advance(r, w) => r == rid && DropsRequest(s.tasks[r].pc, EffectOf(cfg, s, r, w).outcome)
    case Lose(r) => r == rid && !Unsettled(s.tasks[r].pc)
    case _ => false
  }

  /** These are the only steps after which a request is dropped that was not before. */
  lemma OnlyTheseStepsDrop(cfg: Config, s: State, l: Label, rid: Rid)
    requires cfg.Valid() && Enabled(s, l)
    ensures rid in Next(cfg, s, l).dropped <==> rid in s.dropped || DroppedBy(cfg, s, l, rid)
  {
    hide CallAt, After, Remember, Perform, Settle, DropsRequest, EffectOf;
    if !l.Tick? && rid == l.rid {
      if l.Advance? {
        var t := s.tasks[rid];
        var e := EffectOf(cfg, s, rid, l.world);
        DropsExactly(cfg, t.message, t.pc, e.outcome);
        RememberKeepsMessage(cfg, t, e);
        WhereAdvanced(s, rid, Remember(cfg, t, e), e, After(cfg, t.message, t.pc, e.outcome));
      } else if l.RenewLease? {
        PerformTouches(s, rid, DeploymentOf(s.tasks[rid].message), RenewalOf(cfg, s, l.succeeds));
      }
    } else {
      StepFrames(cfg, s, l, rid);
    }
  }

  /** Deliveries of rid by the broker, Ack and Nack calls for it, and deliveries cut short by the stop
      of their process before any such call. */
  function Tally(log: Log, rid: Rid): (int, int, int) {
    if log == [] then (0, 0, 0)
    else
      var (d, v, c) := Tally(log[..|log| - 1], rid);
      match log[|log| - 1]
      case Delivered(r) => (d + One(r == rid), v, c)
      case Did(r, _, e) => (d, v + One(r == rid && (e.call.Ack? || e.call.Nack?)), c)
      case Lost(r, unsettled) => (d, v, c + One(r == rid && unsettled))
  }

  /** Every delivery gets one Ack or Nack, unless it is still unsettled or its process stopped first. */
  predicate VerdictsMatch(s: State, rid: Rid) {
    var (deliveries, verdicts, cutShort) := Tally(s.log, rid);
    deliveries == verdicts + cutShort + One(rid in s.tasks && Unsettled(s.tasks[rid].pc))
  }

  lemma TallyAppend(log: Log, e: Entry, rid: Rid)
    ensures
      var (d, v, c) := Tally(log, rid);
      Tally(log + [e], rid) ==
        (match e
         case Delivered(r) => (d + One(r == rid), v, c)
         case Did(r, _, f) => (d, v + One(r == rid && (f.call.Ack? || f.call.Nack?)), c)
         case Lost(r, unsettled) => (d, v, c + One(r == rid && unsettled)))
  {
    assert (log + [e])[..|log|] == log;
  }

  lemma VerdictsStep(cfg: Config, s: State, l: Label, rid: Rid)
    requires cfg.Valid() && Enabled(s, l) && Conserved(s, rid) && VerdictsMatch(s, rid)
    requires l.Deliver? ==> Conserved(s, l.rid)
    ensures VerdictsMatch(Next(cfg, s, l), rid)
  {
    hide CallAt, After, Remember, Perform, Settle, EffectOf, Acceptable, Tally, Unsettled, ApplyEffect;
    var s' := Next(cfg, s, l);
    StepLogs(cfg, s, l);
    var e := EntryOf(cfg, s, l);
    if e.Some? {
      TallyAppend(s.log, e.value, rid);
    }
    if !l.Tick? && rid == l.rid {
      OwnVerdict(cfg, s, l);
    } else {
      StepFrames(cfg, s, l, rid);
    }
  }

  /** Whether the step settles the delivery with the broker, seen from its control points. */
  lemma OwnVerdict(cfg: Config, s: State, l: Label)
    requires cfg.Valid() && Enabled(s, l) && !l.Tick? && Conserved(s, l.rid)
    ensures
      var s' := Next(cfg, s, l);
      var before := l.rid in s.tasks && Unsettled(s.tasks[l.rid].pc);
      var after := l.rid in s'.tasks && Unsettled(s'.tasks[l.rid].pc);
      match l
      case Advance(r, w) =>
        var call := EffectOf(cfg, s, r, w).call;
        (after ==> before) && (call.Ack? || call.Nack? <==> before && !after)
      case Deliver(_) => !before && after
      case Lose(_) => !after && (before <==> Unsettled(s.tasks[l.rid].pc))
      case _ => before <==> after
  {
    hide CallAt, After, Remember, Perform, Settle, ApplyEffect, Acceptable;
    var rid := l.rid;
    if l.Advance? {
      var t := s.tasks[rid];
      var e := EffectOf(cfg, s, rid, l.world);
      RememberKeepsMessage(cfg, t, e);
      WhereAdvanced(s, rid, Remember(cfg, t, e), e, After(cfg, t.message, t.pc, e.outcome));
      VerdictStep(cfg, t.message, t.pc, e.outcome);
    } else if l.RenewLease? {
      PerformTouches(s, rid, DeploymentOf(s.tasks[rid].message), RenewalOf(cfg, s, l.succeeds));
    }
  }

  lemma {:induction false} EveryDeliveryGetsOneVerdict(cfg: Config, run: Run, rid: Rid)
    requires cfg.Valid() && RunTo(cfg, INITIAL, run).Some?
    ensures VerdictsMatch(RunTo(cfg, INITIAL, run).value, rid)
  {
    if run != [] {
      var n := |run| - 1;
      EveryDeliveryGetsOneVerdict(cfg, run[..n], rid);
      RequestsAreConserved(cfg, run[..n]);
      var s := RunTo(cfg, INITIAL, run[..n]).value;
      assert Conserved(s, rid) && (run[n].Deliver? ==> Conserved(s, run[n].rid));
      VerdictsStep(cfg, s, run[n], rid);
    }
  }
}
