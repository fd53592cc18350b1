/** Chains of retry copies: each one advances the header or the durable counter, so every chain ends. */
module ProtocolChain {
  import opened Options
  import opened Events
  import opened Config
  import opened Stage
  import opened Paths
  import opened Protocol
  import opened ProtocolLedger
  import opened ProtocolConservation
  import opened ProtocolExclusion
  import opened ProtocolRetry

  /** Retry copies of rid that were sent. */
  function RetryCopies(log: Log, rid: Rid): nat {
    if log == [] then 0 else
      RetryCopies(log[..|log| - 1], rid) + One(SentRetry(log[|log| - 1], rid))
  }

  predicate SentRetry(e: Entry, rid: Rid) {
    e.Did? && e.rid == rid && e.effect.call.SendRetry? && !e.effect.outcome.Err?
  }

  lemma RetryCopiesAppend(log: Log, e: Entry, rid: Rid)
    ensures RetryCopies(log + [e], rid) == RetryCopies(log, rid) + One(SentRetry(e, rid))
  {
    assert (log + [e])[..|log|] == log;
  }

  /** The job has fixed the attempt of the copy it is about to send. */
  predicate Committed(pc: Pc) {
    pc.EmittingRetry? || pc.Releasing? || pc.Republishing?
  }

  function Natural(n: int): nat {
    if n < 0 then 0 else n
  }

  /** Retry copies a chain can still send: attempts left by its header, plus retries left by the row. */
  function Left(cfg: Config, attempt: int, count: int): nat {
    Natural(cfg.maxAttempts - 1 - attempt) + Natural(cfg.maxAttempts - 1 - count)
  }

  function Allowance(cfg: Config): int {
    2 * (cfg.maxAttempts - 1)
  }

  /** The copies still possible for a request, wherever it is. */
  function Outstanding(cfg: Config, s: State, rid: Rid, count: int): nat {
    if rid in s.main then Left(cfg, Attempt(s.main[rid]), count)
    else if rid in s.retry then Left(cfg, Attempt(s.retry[rid].message), count)
    else if rid in s.tasks then
      var t := s.tasks[rid];
      if Committed(t.pc) then 1 + Left(cfg, t.pc.attempt, count) else Left(cfg, Attempt(t.message), count)
    else 0
  }

  /** A retry copy carries an attempt between 1 and maxAttempts - 1 and waits in the queue of its number. */
  predicate WellQueued(cfg: Config, d: Delayed)
    requires cfg.Valid()
  {
    var a := Attempt(d.message);
    && 1 <= a < cfg.maxAttempts
    && d.queue == RetryQueue(cfg, if a < |cfg.retryBackoffs| then a else |cfg.retryBackoffs|)
  }

  /** What the attempts in circulation may be. */
  predicate ChainShape(cfg: Config, s: State, rid: Rid)
    requires cfg.Valid()
  {
    && (rid in s.main ==> Attempt(s.main[rid]) >= 0)
    && (rid in s.tasks ==> Attempt(s.tasks[rid].message) >= 0)
    && (rid in s.tasks && Committed(s.tasks[rid].pc) ==> 1 <= s.tasks[rid].pc.attempt < cfg.maxAttempts)
    && (rid in s.retry ==> WellQueued(cfg, s.retry[rid]))
  }

  /** Copies sent and copies still possible stay within the allowance. */
  predicate ChainCount(cfg: Config, s: State, rid: Rid)
    requires cfg.Valid()
  {
    && (rid in s.injected ==>
          var count := CountOf(s, DeploymentOf(s.injected[rid]));
          RetryCopies(s.log, rid) + Outstanding(cfg, s, rid, count) <= Allowance(cfg))
    && (rid !in s.injected ==> RetryCopies(s.log, rid) == 0)
  }

  predicate ChainInv(cfg: Config, s: State, rid: Rid)
    requires cfg.Valid()
  {
    ChainShape(cfg, s, rid) && ChainCount(cfg, s, rid)
  }

  /** How a control point commits to an attempt, and what it then sends. */
  lemma Commitments(cfg: Config, m: Message, pc: Pc, o: Outcome)
    requires cfg.Valid() && !pc.Over?
    ensures
      var next := After(cfg, m, pc, o);
      && (Committed(next) ==> next.attempt < cfg.maxAttempts || Committed(pc))
      && (Committed(next) && Committed(pc) ==> next.attempt == pc.attempt)
      && (Committed(pc) ==> Committed(next) || (next.Over? && next != Over(Requeued)))
      && (Committed(next) && !Committed(pc) ==>
            && pc.Recording?
            && (if o.Answered? && o.reply.Count? then
                  next.attempt >= Attempt(m) && next.attempt >= o.reply.retries
                else next.attempt == Attempt(m) + 1))
    ensures
      var call := CallAt(cfg, m, pc);
      && (call.SendRetry? <==> pc.Republishing?)
      && (pc.Republishing? ==>
            call == SendRetry(RetryQueue(cfg, QueueNumber(cfg, pc.attempt)), RetryCopy(m, pc.attempt, pc.cause)))
      && (pc.Republishing? && !o.Err? ==> After(cfg, m, pc, o) == Over(Moved))
  {
    hide CallAt, After;
    CommittedFlow(cfg, m, pc, o);
    RetryCalls(cfg, m, pc);
  }

  lemma CommittedFlow(cfg: Config, m: Message, pc: Pc, o: Outcome)
    requires cfg.Valid() && !pc.Over?
    ensures
      var next := After(cfg, m, pc, o);
      && (Committed(pc) ==>
            || (Committed(next) && next.attempt == pc.attempt)
            || (next.Over? && next != Over(Requeued)))
      && (Committed(next) && !Committed(pc) ==>
            && pc.Recording? && next.attempt < cfg.maxAttempts
            && (if o.Answered? && o.reply.Count? then
                  next.attempt >= Attempt(m) && next.attempt >= o.reply.retries
                else next.attempt == Attempt(m) + 1))
      && (pc.Republishing? && !o.Err? ==> next == Over(Moved))
  {
    hide CallAt, Attempt, RequestOf;
  }

  lemma RetryCalls(cfg: Config, m: Message, pc: Pc)
    requires cfg.Valid() && !pc.Over?
    ensures
      var call := CallAt(cfg, m, pc);
      && (call.SendRetry? <==> pc.Republishing?)
      && (pc.Republishing? ==>
            call == SendRetry(RetryQueue(cfg, QueueNumber(cfg, pc.attempt)), RetryCopy(m, pc.attempt, pc.cause)))
  {
    hide After, RetryQueue, QueueNumber, RetryCopy, DeadCopy, SuccessBundle, FailureBundle;
  }

  lemma OwnChainStep(cfg: Config, s: State, rid: Rid, w: World)
    requires cfg.Valid() && Enabled(s, Advance(rid, w)) && ChainInv(cfg, s, rid) && Conserved(s, rid)
    requires CountOf(s, DeploymentOf(s.tasks[rid].message)) >= 0
    ensures ChainInv(cfg, Next(cfg, s, Advance(rid, w)), rid)
  {
    hide ChainShape, ChainCount, Next;
    OwnShapeStep(cfg, s, rid, w);
    OwnCountStep(cfg, s, rid, w);
  }

  lemma OwnShapeStep(cfg: Config, s: State, rid: Rid, w: World)
    requires cfg.Valid() && Enabled(s, Advance(rid, w)) && ChainShape(cfg, s, rid) && Conserved(s, rid)
    requires CountOf(s, DeploymentOf(s.tasks[rid].message)) >= 0
    ensures ChainShape(cfg, Next(cfg, s, Advance(rid, w)), rid)
  {
    hide CallAt, After, Remember, Perform, Settle, Advanced, Resolve, Acceptable, RetryQueue, RetryCopy,
         Attempt, ToInt32, DeploymentOf, QueueNumber, Next;
    var l := Advance(rid, w);
    var t, e := s.tasks[rid], EffectOf(cfg, s, rid, w);
    var next := After(cfg, t.message, t.pc, e.outcome);
    SameDeployment(s, rid);
    CountStep(cfg, s, l, DeploymentOf(t.message));
    RememberKeepsMessage(cfg, t, e);
    WhereAdvanced(s, rid, Remember(cfg, t, e), e, next);
    NextAdvance(cfg, s, rid, w);
    AdvancedUnfolds(cfg, s, rid, w);
    Commitments(cfg, t.message, t.pc, e.outcome);
    MovesMatchCopies(cfg, t.message, t.pc, e.outcome);
    if t.pc.Republishing? {
      HeaderRoundTrip(t.message, t.pc.attempt, t.pc.cause);
      QueueOfAttempt(cfg, t.pc.attempt);
    }
  }

  lemma OwnCountStep(cfg: Config, s: State, rid: Rid, w: World)
    requires cfg.Valid() && Enabled(s, Advance(rid, w)) && ChainInv(cfg, s, rid) && Conserved(s, rid)
    requires CountOf(s, DeploymentOf(s.tasks[rid].message)) >= 0
    ensures ChainCount(cfg, Next(cfg, s, Advance(rid, w)), rid)
  {
    hide CallAt, After, Remember, Perform, Settle, Advanced, Resolve, RetryCopies, Acceptable, RetryQueue, RetryCopy,
         Attempt, ToInt32, DeploymentOf, QueueNumber, Next, CountOf, WellQueued;
    var l := Advance(rid, w);
    var t, e := s.tasks[rid], EffectOf(cfg, s, rid, w);
    var next := After(cfg, t.message, t.pc, e.outcome);
    SameDeployment(s, rid);
    StepLogs(cfg, s, l);
    RetryCopiesAppend(s.log, EntryOf(cfg, s, l).value, rid);
    CountStep(cfg, s, l, DeploymentOf(t.message));
    RememberKeepsMessage(cfg, t, e);
    WhereAdvanced(s, rid, Remember(cfg, t, e), e, next);
    NextAdvance(cfg, s, rid, w);
    AdvancedUnfolds(cfg, s, rid, w);
    AdvanceTouches(cfg, s, rid, w);
    Commitments(cfg, t.message, t.pc, e.outcome);
    MovesMatchCopies(cfg, t.message, t.pc, e.outcome);
    if t.pc.Republishing? {
      HeaderRoundTrip(t.message, t.pc.attempt, t.pc.cause);
    }
  }

  lemma QueueOfAttempt(cfg: Config, attempt: int)
    requires attempt >= 1
    ensures QueueNumber(cfg, attempt) == if attempt < |cfg.retryBackoffs| then attempt else |cfg.retryBackoffs|
  {
  }

  /** Copies of one request name one deployment. */
  lemma SameDeployment(s: State, rid: Rid)
    requires Conserved(s, rid)
    ensures rid in s.tasks ==> rid in s.injected && DeploymentOf(s.tasks[rid].message) == DeploymentOf(s.injected[rid])
    ensures rid in s.main ==> rid in s.injected && DeploymentOf(s.main[rid]) == DeploymentOf(s.injected[rid])
    ensures rid in s.retry ==> rid in s.injected && DeploymentOf(s.retry[rid].message) == DeploymentOf(s.injected[rid])
    ensures rid in s.tasks ==> rid !in s.main && rid !in s.retry
    ensures rid in s.main ==> rid !in s.tasks && rid !in s.retry
  {
    hide Acceptable;
  }

  lemma OutstandingFrames(cfg: Config, s: State, s': State, rid: Rid, count: int, count': int)
    requires SameAt(s, s', rid) && count <= count'
    ensures Outstanding(cfg, s', rid, count') <= Outstanding(cfg, s, rid, count)
  {
    hide Attempt;
  }

  lemma OtherChainStep(cfg: Config, s: State, l: Label, rid: Rid)
    requires cfg.Valid() && Enabled(s, l) && ChainInv(cfg, s, rid) && (l.Tick? || rid != l.rid)
    ensures ChainInv(cfg, Next(cfg, s, l), rid)
  {
    hide Next, EntryOf, CallAt, RetryCopies, WellQueued, Attempt, DeploymentOf, Outstanding, CountOf, CountsRetry,
         Enabled;
    var s' := Next(cfg, s, l);
    StepFrames(cfg, s, l, rid);
    StepLogs(cfg, s, l);
    var e := EntryOf(cfg, s, l);
    if e.Some? {
      EntryIsByMover(cfg, s, l);
      RetryCopiesAppend(s.log, e.value, rid);
    }
    if rid in s.injected {
      var id := DeploymentOf(s.injected[rid]);
      CountStep(cfg, s, l, id);
      OutstandingFrames(cfg, s, s', rid, CountOf(s, id), CountOf(s', id));
    }
  }

  lemma EntryIsByMover(cfg: Config, s: State, l: Label)
    requires cfg.Valid() && Enabled(s, l) && EntryOf(cfg, s, l).Some?
    ensures !l.Tick? && EntryOf(cfg, s, l).value.rid == l.rid
  {
    hide CallAt, Resolve;
  }

  lemma QuietChainStep(cfg: Config, s: State, l: Label)
    requires cfg.Valid() && Enabled(s, l) && !l.Tick? && !l.Advance? && ChainInv(cfg, s, l.rid) && Conserved(s, l.rid)
    requires l.Inject? ==> CountOf(s, DeploymentOf(l.message)) >= 0
    ensures ChainInv(cfg, Next(cfg, s, l), l.rid)
  {
    hide CallAt, After, Remember, Settle, Advanced, Resolve, RetryCopies, RetryQueue, Attempt, DeploymentOf,
         Acceptable, Perform, ApplyEffect;
    var rid := l.rid;
    SameDeployment(s, rid);
    StepLogs(cfg, s, l);
    if EntryOf(cfg, s, l).Some? {
      RetryCopiesAppend(s.log, EntryOf(cfg, s, l).value, rid);
    }
    if rid in s.injected {
      CountStep(cfg, s, l, DeploymentOf(s.injected[rid]));
    }
    if l.Inject? {
      CountStep(cfg, s, l, DeploymentOf(l.message));
    }
    if l.RenewLease? {
      RenewalMovesNothing(cfg, s, rid, l.succeeds);
      PerformTouches(s, rid, DeploymentOf(s.tasks[rid].message), RenewalOf(cfg, s, l.succeeds));
      RenewalKeepsQueues(cfg, s, rid, l.succeeds);
    }
  }

  lemma RenewalKeepsQueues(cfg: Config, s: State, rid: Rid, ok: bool)
    requires rid in s.tasks
    ensures
      var s' := Renewed(cfg, s, rid, ok);
      && s'.main == s.main && s'.retry == s.retry && s'.injected == s.injected
      && rid in s'.tasks && s'.tasks[rid].message == s.tasks[rid].message && s'.tasks[rid].pc == s.tasks[rid].pc
  {
    hide ApplyEffect, DeploymentOf;
  }

  lemma CountsAreNatural(cfg: Config, run: Run, id: string)
    requires cfg.Valid() && RunTo(cfg, INITIAL, run).Some?
    ensures CountOf(RunTo(cfg, INITIAL, run).value, id) >= 0
  {
    RowsAreAccounted(cfg, run, (id, STAGE));
  }

  lemma {:induction false} ChainsAreBounded(cfg: Config, run: Run, rid: Rid)
    requires cfg.Valid() && RunTo(cfg, INITIAL, run).Some?
    ensures ChainInv(cfg, RunTo(cfg, INITIAL, run).value, rid)
  {
    if run != [] {
      hide Next, ChainInv, Conserved, CountOf, DeploymentOf;
      var n := |run| - 1;
      var s, l := RunTo(cfg, INITIAL, run[..n]).value, run[n];
      ChainsAreBounded(cfg, run[..n], rid);
      RequestsAreConserved(cfg, run[..n]);
      assert Conserved(s, rid);
      if l.Tick? || rid != l.rid {
        OtherChainStep(cfg, s, l, rid);
      } else if l.Advance? {
        CountsAreNatural(cfg, run[..n], DeploymentOf(s.tasks[rid].message));
        OwnChainStep(cfg, s, rid, l.world);
      } else {
        if l.Inject? {
          CountsAreNatural(cfg, run[..n], DeploymentOf(l.message));
        }
        QuietChainStep(cfg, s, l);
      }
    }
  }

  /** Retry chains terminate: even when RecordRetry fails now and then, the copies sent for one request
      number at most 2 * (maxAttempts - 1), and each waits, with an attempt below the maximum, in the
      queue of its number. */
  lemma RetryChainsTerminate(cfg: Config, run: Run, rid: Rid)
    requires cfg.Valid() && RunTo(cfg, INITIAL, run).Some?
    ensures
      var s := RunTo(cfg, INITIAL, run).value;
      && RetryCopies(s.log, rid) <= 2 * (cfg.maxAttempts - 1)
      && (rid in s.retry ==> WellQueued(cfg, s.retry[rid]))
  {
    hide ChainInv;
    ChainsAreBounded(cfg, run, rid);
    ChainGivesBound(cfg, RunTo(cfg, INITIAL, run).value, rid);
  }

  lemma ChainGivesBound(cfg: Config, s: State, rid: Rid)
    requires cfg.Valid() && ChainInv(cfg, s, rid)
    ensures RetryCopies(s.log, rid) <= 2 * (cfg.maxAttempts - 1)
    ensures rid in s.retry ==> WellQueued(cfg, s.retry[rid])
  {
  }
}
