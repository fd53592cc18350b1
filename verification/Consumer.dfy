/** The build consumer (build_consumer.go), one delivery at a time.

    The World object stands for everything outside the process: the broker, the file system, git and
    the builder. Every call on it may fail. It also carries a monitor: the control point of Stage that
    the delivery has reached. A method can only make the call that is due there, so the contracts
    below say that the code makes exactly the calls Stage prescribes, in that order. */
module Consumer {
  import opened Options
  import opened Events
  import opened Ledger
  import opened Config
  import opened Stage
  import opened Paths
  import opened Scripts

  type Error = Option<string>

  datatype Action = Action(ack: bool, requeue: bool)

  const ACTION_ACK := Action(true, false)
  const ACTION_NACK_REQUEUE := Action(false, true)

  datatype Job = Job(request: Request, message: Message)

  /** A job carries the request of its message. */
  predicate Packed(jobs: seq<Job>) {
    forall job :: job in jobs ==> job.request == RequestOf(job.message)
  }

  lemma OneMore(jobs: seq<Job>, job: Job)
    requires Packed(jobs) && job.request == RequestOf(job.message)
    ensures Packed(jobs + [job])
  {
  }

  /** Taking one job out leaves the others. */
  lemma TakeOut(jobs: seq<Job>, i: nat)
    requires i < |jobs|
    ensures multiset(jobs) == multiset{jobs[i]} + multiset(jobs[..i] + jobs[i + 1..])
    ensures Packed(jobs) ==> Packed([jobs[i]]) && Packed(jobs[..i] + jobs[i + 1..])
  {
    assert jobs == jobs[..i] + [jobs[i]] + jobs[i + 1..];
  }

  class World {
    const cfg: Config
    var trace: Trace
    var now: int
    /** Whether the lease of a job is being renewed, and how many work directories exist. */
    var renewing: bool
    var workdirs: nat
    ghost var message: Message
    ghost var origin: Pc
    ghost var pc: Pc
    ghost var base: Table

    ghost predicate Valid()
      reads this`message, this`origin, this`trace, this`pc
    {
      && cfg.Valid()
      && Follow(cfg, message, origin, trace) == Some(pc)
    }

    /** No job has left anything behind. */
    predicate Idle()
      reads this`renewing, this`workdirs
    {
      !renewing && workdirs == 0
    }

    /** In a job the lease is being renewed exactly where it should be. */
    predicate RenewsAt(pc: Pc)
      reads this`renewing
    {
      InJob(pc) ==> (renewing <==> Renewing(pc))
    }

    constructor (cfg: Config)
      requires cfg.Valid()
      ensures this.cfg == cfg && trace == [] && Valid() && Idle()
    {
      this.cfg := cfg;
      trace, now, renewing, workdirs := [], 0, false, 0;
      message, base := Message(Undecodable(""), map[], ""), map[];
      origin, pc := Queued, Queued;
    }

    /** Starts the record of one delivery at a control point, with the ledger as it then is. */
    method Begin(m: Message, ghost from: Pc, ghost rows: Table)
      requires cfg.Valid()
      modifies this`trace, this`message, this`origin, this`pc, this`base
      ensures Valid() && trace == [] && message == m && origin == pc == from && base == rows && now == old(now)
    {
      trace := [];
      message, origin, pc, base := m, from, from, rows;
    }

    /** Logs the call that is due and moves the monitor. */
    method Record(call: Call, outcome: Outcome)
      requires Valid() && !pc.Over? && call == CallAt(cfg, message, pc) && RenewsAt(pc)
      modifies this`trace, this`pc
      ensures Valid()
      ensures trace == old(trace) + [Effect(call, outcome, now)]
      ensures pc == After(cfg, message, old(pc), outcome)
    {
      assert (trace + [Effect(call, outcome, now)])[..|trace|] == trace;
      pc := After(cfg, message, pc, outcome);
      trace := trace + [Effect(call, outcome, now)];
    }

    method Clock() returns (t: int)
      modifies this`now
      ensures t == now >= old(now)
    {
      t :| t >= now;
      now := t;
    }

    /** Any call without a result of its own: it succeeds or gives an error. */
    method Perform(call: Call) returns (err: Error)
      requires Valid() && !pc.Over? && call == CallAt(cfg, message, pc) && !call.Sql? && RenewsAt(pc)
      modifies this`trace, this`pc
      ensures Valid()
      ensures trace == old(trace) + [Effect(call, OutcomeOf(err), now)]
      ensures pc == After(cfg, message, old(pc), OutcomeOf(err))
    {
      err := *;
      Record(call, OutcomeOf(err));
    }

    method BuildAndPush() returns (result: BuildResult, err: Error)
      requires Valid() && !pc.Over? && CallAt(cfg, message, pc) == Build && workdirs > 0 && RenewsAt(pc)
      modifies this`trace, this`pc
      ensures Valid()
      ensures trace == old(trace) + [Effect(Build, if err.Some? then Err(err.value) else Finished(result), now)]
      ensures pc == After(cfg, message, old(pc), if err.Some? then Err(err.value) else Finished(result))
    {
      result, err := *, *;
      Record(Build, if err.Some? then Err(err.value) else Finished(result));
    }
  }

  /** The outcome of a call that only succeeds or fails. */
  function OutcomeOf(err: Error): Outcome {
    if err.Some? then Err(err.value) else Ok
  }

  lemma OutcomeFails(err: Error)
    ensures OutcomeOf(err).Err? <==> err.Some?
  {
  }

  function StartProblem(reason: string): string {
    "publish build started event: " + reason
  }

  function WorkdirProblem(reason: string): string {
    "create workdir: " + reason
  }

  /** Where the stage body leaves its delivery: settled, or to be retried for the reason of its error. */
  function EndOfBody(action: Action, err: Error): Pc {
    if action.ack || err.None? then Over(Settled) else Recording(err.value, true)
  }

  lemma StartPoint(cfg: Config, m: Message, err: Error)
    requires cfg.Valid()
    ensures CallAt(cfg, m, Starting)
      == Publish(cfg.deploymentExchange, cfg.deploymentStartedKey, NewDeploymentBuildStarted(RequestOf(m)))
    ensures After(cfg, m, Starting, OutcomeOf(err))
      == if err.Some? then Recording(StartProblem(err.value), true) else MakingWorkdir
  {
  }

  lemma WorkdirPoint(cfg: Config, m: Message, err: Error)
    requires cfg.Valid()
    ensures CallAt(cfg, m, MakingWorkdir) == MakeWorkdir
    ensures After(cfg, m, MakingWorkdir, OutcomeOf(err))
      == if err.Some? then Failing(BeforeBuild, WorkdirProblem(err.value)) else Cloning
  {
  }

  lemma ClonePoint(cfg: Config, m: Message, err: Error)
    requires cfg.Valid()
    ensures CallAt(cfg, m, Cloning) == Clone
    ensures After(cfg, m, Cloning, OutcomeOf(err)) == if err.Some? then Failing(BeforeBuild, err.value) else Building
  {
  }

  lemma FailureActionPoint(message: string, problem: Error)
    ensures AfterFailure(BeforeBuild, message, problem)
      == if problem.None? then Over(Settled) else Recording(problem.value, true)
    ensures AfterFailure(InBuild, message, problem) == Over(Settled)
  {
  }

  lemma BuildPoint(cfg: Config, m: Message, result: BuildResult, err: Error)
    requires cfg.Valid()
    ensures CallAt(cfg, m, Building) == Build
    ensures After(cfg, m, Building, if err.Some? then Err(err.value) else Finished(result))
      == if err.Some? then Failing(InBuild, err.value) else Completing(result)
  {
  }

  lemma FailingPoint(cfg: Config, m: Message, site: Site, message: string, o: Outcome)
    requires cfg.Valid()
    ensures CallAt(cfg, m, Failing(site, message)) == Sql(Op.Fail(FailureBundle(cfg, RequestOf(m), message)))
    ensures After(cfg, m, Failing(site, message), o)
      == if o.Err? then AfterFailure(site, message, Some("persist build failure: " + o.reason))
         else AnnouncingFailure(site, message)
  {
    hide AfterFailure, RequestOf;
  }

  lemma AnnouncingFailurePoint(cfg: Config, m: Message, site: Site, message: string, err: Error)
    requires cfg.Valid()
    ensures CallAt(cfg, m, AnnouncingFailure(site, message))
      == Publish(cfg.serviceExchange, cfg.buildFailedKey, FailureBundle(cfg, RequestOf(m), message).service)
    ensures After(cfg, m, AnnouncingFailure(site, message), OutcomeOf(err))
      == if err.Some? then AfterFailure(site, message, Some(message + "; publish build failed event: " + err.value))
         else ReportingFailure(site, message)
  {
    hide AfterFailure, RequestOf;
  }

  lemma ReportingFailurePoint(cfg: Config, m: Message, site: Site, message: string, err: Error)
    requires cfg.Valid()
    ensures CallAt(cfg, m, ReportingFailure(site, message))
      == Publish(cfg.deploymentExchange, cfg.deploymentFailedKey, FailureBundle(cfg, RequestOf(m), message).progress)
    ensures After(cfg, m, ReportingFailure(site, message), OutcomeOf(err))
      == AfterFailure(site, message,
           if err.Some? then Some(message + "; publish deployment build failed event: " + err.value) else None)
  {
    hide AfterFailure, RequestOf;
  }

  lemma CompletingPoint(cfg: Config, m: Message, result: BuildResult, o: Outcome)
    requires cfg.Valid()
    ensures CallAt(cfg, m, Completing(result)) == Sql(Op.Complete(SuccessBundle(cfg, RequestOf(m), result)))
    ensures After(cfg, m, Completing(result), o)
      == if o.Err? then Recording("persist build result: " + o.reason, true) else Announcing(result)
  {
    hide RequestOf;
  }

  lemma AnnouncingPoint(cfg: Config, m: Message, result: BuildResult, err: Error)
    requires cfg.Valid()
    ensures CallAt(cfg, m, Announcing(result))
      == Publish(cfg.serviceExchange, cfg.buildSucceededKey, SuccessBundle(cfg, RequestOf(m), result).service)
    ensures After(cfg, m, Announcing(result), OutcomeOf(err))
      == if err.Some? then Recording("publish build succeeded event: " + err.value, true) else Reporting(result)
  {
    hide RequestOf;
  }

  lemma ReportingPoint(cfg: Config, m: Message, result: BuildResult, err: Error)
    requires cfg.Valid()
    ensures CallAt(cfg, m, Reporting(result))
      == Publish(cfg.deploymentExchange, cfg.deploymentSucceededKey, SuccessBundle(cfg, RequestOf(m), result).progress)
    ensures After(cfg, m, Reporting(result), OutcomeOf(err))
      == if err.Some? then Recording("publish deployment build succeeded event: " + err.value, true)
         else Over(Settled)
  {
    hide RequestOf;
  }

  /** completeFailure is renewed exactly if it was called for a failed build. */
  lemma RenewsThroughFailure(w: World, site: Site, message: string)
    requires w.renewing <==> site == InBuild
    ensures w.RenewsAt(Failing(site, message)) && w.RenewsAt(AnnouncingFailure(site, message))
    ensures w.RenewsAt(ReportingFailure(site, message))
  {
  }

  lemma RenewsThroughSuccess(w: World, result: BuildResult)
    requires w.renewing
    ensures w.RenewsAt(Completing(result)) && w.RenewsAt(Announcing(result)) && w.RenewsAt(Reporting(result))
  {
  }

  lemma RenewsNothingBefore(w: World)
    requires !w.renewing
    ensures w.RenewsAt(Starting) && w.RenewsAt(MakingWorkdir) && w.RenewsAt(Cloning)
  {
  }

  /** A delivery that is not a job yet has no lease renewed. */
  lemma RenewsNothingOutside(w: World, pc: Pc)
    requires Unsettled(pc)
    ensures w.RenewsAt(pc)
  {
  }

  lemma ClaimPoint(cfg: Config, m: Message, o: Outcome)
    requires cfg.Valid()
    ensures CallAt(cfg, m, Claiming) == Sql(Op.Claim(cfg.leaseDuration))
    ensures After(cfg, m, Claiming, o) == if o.Answered? then AfterClaim(o.reply) else Nacking
  {
    hide AfterClaim;
  }

  lemma SettlingPoints(cfg: Config, m: Message, o: Outcome)
    requires cfg.Valid()
    ensures CallAt(cfg, m, AckingClaim) == Ack == CallAt(cfg, m, AckingReplay) && CallAt(cfg, m, Nacking) == Nack(true)
    ensures After(cfg, m, AckingClaim, o) == if o.Err? then Over(Requeued) else Queued
    ensures After(cfg, m, AckingReplay, o) == Over(if o.Err? then Requeued else Settled)
    ensures After(cfg, m, Nacking, o) == Over(Requeued)
  {
  }

  lemma NotGrantedTail(cfg: Config, start: Trace, claim: Effect, end: Trace)
    requires start + [claim] <= end && !Granted([claim])
    ensures start <= end && !ClaimedAndAcked(cfg, end[|start|..])
  {
    assert end[|start|] == (start + [claim])[|start|] == claim;
  }

  lemma GrantedTail(cfg: Config, start: Trace, claim: Effect, ack: Effect)
    requires claim.call == Sql(Op.Claim(cfg.leaseDuration)) && Granted([claim])
    requires ack.call == Ack
    ensures start <= start + [claim] + [ack]
    ensures ClaimedAndAcked(cfg, (start + [claim] + [ack])[|start|..]) <==> !ack.outcome.Err?
  {
    assert (start + [claim] + [ack])[|start|..] == [claim, ack];
  }

  /** What one, two or three calls added to a trace. */
  lemma Tails(start: Trace, a: Effect, b: Effect, c: Effect)
    ensures start <= start + [a] && (start + [a])[|start|..] == [a]
    ensures start <= start + [a] + [b] && (start + [a] + [b])[|start|..] == [a, b]
    ensures start <= start + [a] + [b] + [c] && (start + [a] + [b] + [c])[|start|..] == [a, b, c]
  {
  }

  /** The trace after completeFailure, which may have ended after its first or second call. */
  lemma FailureTail(cfg: Config, r: Request, message: string, start: Trace, a: Effect, b: Effect, c: Effect)
    requires
      var bundle := FailureBundle(cfg, r, message);
      && a.call == Sql(Op.Fail(bundle))
      && b.call == Publish(cfg.serviceExchange, cfg.buildFailedKey, bundle.service)
      && c.call == Publish(cfg.deploymentExchange, cfg.deploymentFailedKey, bundle.progress)
    ensures
      var end := if a.outcome.Err? then start + [a] else if b.outcome.Err? then start + [a] + [b]
                 else start + [a] + [b] + [c];
      && start <= end && FailureTold(cfg, r, message, end[|start|..])
      && (Succeeded(end[|start|..]) <==> !a.outcome.Err? && !b.outcome.Err? && !c.outcome.Err?)
  {
    Tails(start, a, b, c);
    hide FailureBundle, FailureTold, Succeeded;
    TellsFailure(cfg, r, message, if a.outcome.Err? then [a] else if b.outcome.Err? then [a, b] else [a, b, c]);
  }

  lemma SuccessTail(cfg: Config, r: Request, result: BuildResult, start: Trace, a: Effect, b: Effect, c: Effect)
    requires
      var bundle := SuccessBundle(cfg, r, result);
      && a.call == Sql(Op.Complete(bundle))
      && b.call == Publish(cfg.serviceExchange, cfg.buildSucceededKey, bundle.service)
      && c.call == Publish(cfg.deploymentExchange, cfg.deploymentSucceededKey, bundle.progress)
    ensures
      var end := if a.outcome.Err? then start + [a] else if b.outcome.Err? then start + [a] + [b]
                 else start + [a] + [b] + [c];
      && start <= end && SuccessTold(cfg, r, result, end[|start|..])
      && (Succeeded(end[|start|..]) <==> !a.outcome.Err? && !b.outcome.Err? && !c.outcome.Err?)
  {
    Tails(start, a, b, c);
    hide SuccessBundle, SuccessTold, Succeeded;
    TellsSuccess(cfg, r, result, if a.outcome.Err? then [a] else if b.outcome.Err? then [a, b] else [a, b, c]);
  }

  class BuildConsumer {
    const cfg: Config
    const ledger: PostgresStageLedger
    const world: World
    /** The jobs channel of capacity one, and the jobs of goroutines waiting to send on it. */
    var channel: seq<Job>
    var parked: seq<Job>

    ghost predicate Valid()
      reads this`channel, this`parked, world`message, world`origin, world`trace, world`pc
    {
      && cfg.Valid() && world.cfg == cfg && world.Valid()
      && |channel| <= 1 && (parked != [] ==> channel != [])
      && Packed(channel) && Packed(parked)
    }

    /** The delivery of m stands at pc, and the ledger reflects the statements made so far. */
    ghost predicate At(m: Message, pc: Pc)
      reads this`channel, this`parked, world`message, world`origin, world`trace, world`pc, world`base, ledger
    {
      && Valid()
      && world.message == m && world.pc == pc
      && ledger.rows == ApplyTrace(world.base, RequestOf(m).deploymentId, world.trace)
    }

    constructor (cfg: Config)
      requires cfg.Valid()
      ensures Valid() && this.cfg == cfg && channel == [] && parked == [] && fresh(world) && fresh(ledger)
      ensures world.Idle()
    {
      this.cfg := cfg;
      world := new World(cfg);
      ledger := new PostgresStageLedger();
      channel, parked := [], [];
    }

    /** A call outside the ledger that is due at pc. */
    method Do(ghost m: Message, ghost pc: Pc, call: Call) returns (err: Error)
      requires !pc.Over? && At(m, pc) && call == CallAt(cfg, m, pc) && !call.Sql? && world.RenewsAt(pc)
      modifies world`trace, world`pc
      ensures At(m, After(cfg, m, pc, OutcomeOf(err)))
      ensures world.trace == old(world.trace) + [Effect(call, OutcomeOf(err), world.now)]
    {
      hide Packed, World.Valid, CallAt, After, ApplyTrace;
      ghost var before := world.trace;
      err := world.Perform(call);
      ghost var outcome := OutcomeOf(err);
      ApplyAppend(world.base, RequestOf(m).deploymentId, before, Effect(call, outcome, world.now));
    }

    /** A ledger statement that is due at pc. A refused one leaves the ledger as it was. */
    method Execute(ghost m: Message, ghost pc: Pc, id: string, op: Op) returns (o: Outcome)
      requires !pc.Over? && At(m, pc) && CallAt(cfg, m, pc) == Sql(op) && !op.Renew? && world.RenewsAt(pc)
      requires id == RequestOf(m).deploymentId
      modifies world`trace, world`pc, world`now, ledger
      ensures At(m, After(cfg, m, pc, o))
      ensures world.trace == old(world.trace) + [Effect(Sql(op), o, world.now)]
      ensures o.Err? || o.Answered?
      ensures o.Answered? ==>
        match op
        case Claim(_) => o.reply.Claimed?
        case RecordRetry => o.reply.Count?
        case _ => o.reply == Applied
    {
      hide Packed, World.Valid, CallAt, After, ApplyTrace;
      ghost var before := world.trace;
      var now := world.Clock();
      o := RunStatement(id, op, now);
      world.Record(Sql(op), o);
      ApplyAppend(world.base, id, before, Effect(Sql(op), o, now));
    }

    /** The ledger call itself, with any error text the driver likes. */
    method RunStatement(id: string, op: Op, now: int) returns (o: Outcome)
      requires !op.Renew?
      modifies ledger
      ensures o.Err? ==> ledger.rows == old(ledger.rows)
      ensures !o.Err? ==>
        var s := Statement(id, STAGE, op, now);
        o == Answered(SqlReply(old(ledger.rows), s)) && ledger.rows == SqlTable(old(ledger.rows), s)
      ensures o.Answered? ==>
        match op
        case Claim(_) => o.reply.Claimed?
        case RecordRetry => o.reply.Count?
        case _ => o.reply == Applied
    {
      var reason: string := *;
      var ok := true;
      match op {
        case Claim(d) =>
          var reply := ledger.Claim(id, STAGE, d, now);
          return if reply.Some? then Answered(reply.value) else Err(reason);
        case Complete(value) => ok := ledger.Complete(id, STAGE, value, now);
        case Fail(value) => ok := ledger.Fail(id, STAGE, value, now);
        case Release => ok := ledger.Release(id, STAGE, now);
        case RecordRetry =>
          var count := ledger.RecordRetry(id, STAGE, now);
          return if count.Some? then Answered(Count(count.value)) else Err(reason);
      }
      return if ok then Answered(Applied) else Err(reason);
    }

    method CompleteFailure(ghost m: Message, r: Request, ghost site: Site, buildErr: string)
      returns (action: Action, err: Error)
      requires r == RequestOf(m) && At(m, Failing(site, buildErr)) && (world.renewing <==> site == InBuild)
      modifies world`trace, world`pc, world`now, ledger
      ensures action == ACTION_ACK || action == ACTION_NACK_REQUEUE
      ensures err.Some?
      ensures action.ack ==> err == Some(buildErr)
      ensures At(m, AfterFailure(site, buildErr, if action.ack then None else err))
      ensures old(world.trace) <= world.trace
      ensures var t := world.trace[|old(world.trace)|..];
        FailureTold(cfg, r, buildErr, t) && (action.ack <==> Succeeded(t))
    {
      assert cfg.Valid();
      hide *;
      ghost var start := world.trace;
      var bundle := FailureBundle(cfg, r, buildErr);
      var service := Publish(cfg.serviceExchange, cfg.buildFailedKey, bundle.service);
      var progress := Publish(cfg.deploymentExchange, cfg.deploymentFailedKey, bundle.progress);
      FailingPoint(cfg, m, site, buildErr, Ok);
      RenewsThroughFailure(world, site, buildErr);
      var o := Execute(m, Failing(site, buildErr), r.deploymentId, Op.Fail(bundle));
      FailingPoint(cfg, m, site, buildErr, o);
      ghost var a := Effect(Sql(Op.Fail(bundle)), o, world.now);
      if o.Err? {
        FailureTail(cfg, r, buildErr, start, a, Effect(service, Ok, 0), Effect(progress, Ok, 0));
        return ACTION_NACK_REQUEUE, Some("persist build failure: " + o.reason);
      }
      AnnouncingFailurePoint(cfg, m, site, buildErr, None);
      var e := Do(m, AnnouncingFailure(site, buildErr), service);
      AnnouncingFailurePoint(cfg, m, site, buildErr, e);
      ghost var b := Effect(service, OutcomeOf(e), world.now);
      OutcomeFails(e);
      if e.Some? {
        FailureTail(cfg, r, buildErr, start, a, b, Effect(progress, Ok, 0));
        return ACTION_NACK_REQUEUE, Some(buildErr + "; publish build failed event: " + e.value);
      }
      ReportingFailurePoint(cfg, m, site, buildErr, None);
      e := Do(m, ReportingFailure(site, buildErr), progress);
      ReportingFailurePoint(cfg, m, site, buildErr, e);
      OutcomeFails(e);
      FailureTail(cfg, r, buildErr, start, a, b, Effect(progress, OutcomeOf(e), world.now));
      if e.Some? {
        return ACTION_NACK_REQUEUE, Some(buildErr + "; publish deployment build failed event: " + e.value);
      }
      return ACTION_ACK, Some(buildErr);
    }

    /** completeFailure where its action is the stage body's own. */
    method FailBeforeBuild(ghost m: Message, r: Request, buildErr: string) returns (action: Action, err: Error)
      requires r == RequestOf(m) && At(m, Failing(BeforeBuild, buildErr)) && !world.renewing
      modifies world`trace, world`pc, world`now, ledger
      ensures action == ACTION_ACK || action == ACTION_NACK_REQUEUE
      ensures (action.ack || err.Some?) && At(m, EndOfBody(action, err))
    {
      action, err := CompleteFailure(m, r, BeforeBuild, buildErr);
      FailureActionPoint(buildErr, if action.ack then None else err);
    }

    /** The stage body. Its work directory is given up at the end, whatever happens. */
    method HandleClaimedBuildEvent(ghost m: Message, r: Request) returns (action: Action, err: Error)
      requires r == RequestOf(m) && At(m, Starting) && !world.renewing
      modifies world`trace, world`pc, world`now, world`renewing, world`workdirs, ledger
      ensures action == ACTION_ACK || action == ACTION_NACK_REQUEUE
      ensures (action.ack || err.Some?) && At(m, EndOfBody(action, err))
      ensures !world.renewing && world.workdirs == old(world.workdirs)
    {
      assert cfg.Valid();
      hide *;
      StartPoint(cfg, m, None);
      RenewsNothingBefore(world);
      var e := Do(m, Starting,
                  Publish(cfg.deploymentExchange, cfg.deploymentStartedKey, NewDeploymentBuildStarted(r)));
      StartPoint(cfg, m, e);
      if e.Some? {
        return ACTION_NACK_REQUEUE, Some(StartProblem(e.value));
      }
      action, err := WorkInDirectory(m, r);
    }

    /** The part after the start was announced: a work directory is made, and removed at the end. */
    method WorkInDirectory(ghost m: Message, r: Request) returns (action: Action, err: Error)
      requires r == RequestOf(m) && At(m, MakingWorkdir) && !world.renewing
      modifies world`trace, world`pc, world`now, world`renewing, world`workdirs, ledger
      ensures action == ACTION_ACK || action == ACTION_NACK_REQUEUE
      ensures (action.ack || err.Some?) && At(m, EndOfBody(action, err))
      ensures !world.renewing && world.workdirs == old(world.workdirs)
    {
      assert cfg.Valid();
      hide *;
      WorkdirPoint(cfg, m, None);
      RenewsNothingBefore(world);
      var e := Do(m, MakingWorkdir, MakeWorkdir);
      WorkdirPoint(cfg, m, e);
      if e.Some? {
        action, err := FailBeforeBuild(m, r, WorkdirProblem(e.value));
        return;
      }
      action, err := InNewDirectory(m, r);
    }

    /** The directory exists from here to the end of the stage body. */
    method InNewDirectory(ghost m: Message, r: Request) returns (action: Action, err: Error)
      requires r == RequestOf(m) && At(m, Cloning) && !world.renewing
      modifies world`trace, world`pc, world`now, world`renewing, world`workdirs, ledger
      ensures action == ACTION_ACK || action == ACTION_NACK_REQUEUE
      ensures (action.ack || err.Some?) && At(m, EndOfBody(action, err))
      ensures !world.renewing && world.workdirs == old(world.workdirs)
    {
      world.workdirs := world.workdirs + 1;
      action, err := CloneAndBuild(m, r);
      world.workdirs := world.workdirs - 1;
    }

    /** The part inside the work directory. */
    method CloneAndBuild(ghost m: Message, r: Request) returns (action: Action, err: Error)
      requires r == RequestOf(m) && At(m, Cloning) && !world.renewing && world.workdirs > 0
      modifies world`trace, world`pc, world`now, world`renewing, ledger
      ensures action == ACTION_ACK || action == ACTION_NACK_REQUEUE
      ensures (action.ack || err.Some?) && At(m, EndOfBody(action, err))
      ensures !world.renewing
    {
      assert cfg.Valid();
      hide *;
      ClonePoint(cfg, m, None);
      RenewsNothingBefore(world);
      var e := Do(m, Cloning, Clone);
      ClonePoint(cfg, m, e);
      if e.Some? {
        action, err := FailBeforeBuild(m, r, e.value);
        return;
      }
      action, err := BuildAndSettle(m, r);
    }

    /** The lease is renewed from the build to the return of the stage body. */
    method BuildAndSettle(ghost m: Message, r: Request) returns (action: Action, err: Error)
      requires r == RequestOf(m) && At(m, Building) && !world.renewing && world.workdirs > 0
      modifies world`trace, world`pc, world`now, world`renewing, ledger
      ensures action == ACTION_ACK || action == ACTION_NACK_REQUEUE
      ensures (action.ack || err.Some?) && At(m, EndOfBody(action, err))
      ensures !world.renewing
    {
      assert cfg.Valid();
      world.renewing := true;
      var result, e := BuildAndPush(m);
      if e.Some? {
        action, err := CompleteFailure(m, r, InBuild, e.value);
        FailureActionPoint(e.value, if action.ack then None else err);
        action := ACTION_ACK;
      } else {
        action, err := CompleteSuccess(m, r, result);
      }
      world.renewing := false;
    }

    method BuildAndPush(ghost m: Message) returns (result: BuildResult, err: Error)
      requires At(m, Building) && world.renewing && world.workdirs > 0
      modifies world`trace, world`pc
      ensures At(m, if err.Some? then Failing(InBuild, err.value) else Completing(result))
    {
      hide Packed, World.Valid, CallAt, After, ApplyTrace;
      BuildPoint(cfg, m, NO_RESULT, None);
      ghost var before := world.trace;
      result, err := world.BuildAndPush();
      BuildPoint(cfg, m, result, err);
      ghost var outcome := if err.Some? then Err(err.value) else Finished(result);
      ApplyAppend(world.base, RequestOf(m).deploymentId, before, Effect(Build, outcome, world.now));
    }

    method CompleteSuccess(ghost m: Message, r: Request, result: BuildResult) returns (action: Action, err: Error)
      requires r == RequestOf(m) && At(m, Completing(result)) && world.renewing
      modifies world`trace, world`pc, world`now, ledger
      ensures action == ACTION_ACK || action == ACTION_NACK_REQUEUE
      ensures (action.ack || err.Some?) && At(m, EndOfBody(action, err))
      ensures old(world.trace) <= world.trace
      ensures var t := world.trace[|old(world.trace)|..];
        SuccessTold(cfg, r, result, t) && (action.ack <==> Succeeded(t))
    {
      assert cfg.Valid();
      hide *;
      ghost var start := world.trace;
      var bundle := SuccessBundle(cfg, r, result);
      var service := Publish(cfg.serviceExchange, cfg.buildSucceededKey, bundle.service);
      var progress := Publish(cfg.deploymentExchange, cfg.deploymentSucceededKey, bundle.progress);
      CompletingPoint(cfg, m, result, Ok);
      RenewsThroughSuccess(world, result);
      var o := Execute(m, Completing(result), r.deploymentId, Op.Complete(bundle));
      CompletingPoint(cfg, m, result, o);
      ghost var a := Effect(Sql(Op.Complete(bundle)), o, world.now);
      if o.Err? {
        SuccessTail(cfg, r, result, start, a, Effect(service, Ok, 0), Effect(progress, Ok, 0));
        return ACTION_NACK_REQUEUE, Some("persist build result: " + o.reason);
      }
      AnnouncingPoint(cfg, m, result, None);
      var e := Do(m, Announcing(result), service);
      AnnouncingPoint(cfg, m, result, e);
      ghost var b := Effect(service, OutcomeOf(e), world.now);
      OutcomeFails(e);
      if e.Some? {
        SuccessTail(cfg, r, result, start, a, b, Effect(progress, Ok, 0));
        return ACTION_NACK_REQUEUE, Some("publish build succeeded event: " + e.value);
      }
      ReportingPoint(cfg, m, result, None);
      e := Do(m, Reporting(result), progress);
      ReportingPoint(cfg, m, result, e);
      OutcomeFails(e);
      SuccessTail(cfg, r, result, start, a, b, Effect(progress, OutcomeOf(e), world.now));
      if e.Some? {
        return ACTION_NACK_REQUEUE, Some("publish deployment build succeeded event: " + e.value);
      }
      return ACTION_ACK, None;
    }

    method CopyToDlqWithAttempt(m: Message, ghost pc: Pc, cause: string, attempt: int) returns (err: Error)
      requires !pc.Over? && At(m, pc) && CallAt(cfg, m, pc) == SendDlq(DeadCopy(m, attempt, cause))
      requires world.RenewsAt(pc)
      modifies world`trace, world`pc
      ensures At(m, After(cfg, m, pc, OutcomeOf(err)))
    {
      hide Packed, Follow, ApplyTrace;
      var headers := m.headers;
      headers := headers[DEAD_LETTER_REASON_HEADER := Word(cause)];
      headers := headers[ATTEMPT_HEADER := Int32(ToInt32(attempt))];
      err := Do(m, pc, SendDlq(m.(headers := headers)));
    }

    method EmitExhausted(ghost m: Message, r: Request, ghost attempt: int, cause: string) returns (err: Error)
      requires r == RequestOf(m)
      requires At(m, Failing(Exhausted(attempt, cause), "retry attempts exhausted: " + cause)) && !world.renewing
      modifies world`trace, world`pc, world`now, ledger
      ensures At(m, if err.None? then DeadLettering(attempt, cause) else Over(Dropped))
    {
      var action;
      action, err := CompleteFailure(m, r, Exhausted(attempt, cause), "retry attempts exhausted: " + cause);
      if !action.ack {
        return err;
      }
      return None;
    }

    /** The first part of scheduleRetry: the durable count, or the header's if that is higher; if the
        ledger cannot count, one more than the header's. */
    method CountAttempt(m: Message, r: Request, cause: string, countAttempt: bool) returns (attempt: int)
      requires r == RequestOf(m) && At(m, Recording(cause, countAttempt)) && !world.renewing
      modifies world`trace, world`pc, world`now, ledger
      ensures At(m, Decide(cfg, attempt, cause, countAttempt))
      ensures |world.trace| == |old(world.trace)| + 1 && old(world.trace) <= world.trace
      ensures attempt == AttemptOf(m, world.trace[|old(world.trace)|].outcome)
    {
      hide Packed, Follow, ApplyTrace, Decide;
      attempt := HeaderAttempt(m.headers);
      var o := Execute(m, Recording(cause, countAttempt), r.deploymentId, Op.RecordRetry);
      if o.Err? {
        attempt := attempt + 1;
      } else if o.reply.retries > attempt {
        attempt := o.reply.retries;
      }
    }

    /** No error exactly when the job has sent one copy of the message, to a retry queue or to the
        dead-letter queue; otherwise it has sent none. */
    method ScheduleRetry(m: Message, r: Request, cause: string, countAttempt: bool) returns (err: Error)
      requires r == RequestOf(m) && At(m, Recording(cause, countAttempt)) && !world.renewing
      requires InJob(world.origin) && !world.origin.Over?
      modifies world`trace, world`pc, world`now, ledger
      ensures At(m, Over(if err.None? then Moved else Dropped))
      ensures Copies(world.trace) == if err.None? then 1 else 0
    {
      hide Packed, Follow, ApplyTrace, RetryCopy, DeadCopy, FailureBundle, NewDeploymentBuildRetrying, RequestOf,
           Copies;
      var attempt := CountAttempt(m, r, cause, countAttempt);
      err := None;
      if attempt >= cfg.maxAttempts {
        if countAttempt {
          err := EmitExhausted(m, r, attempt, cause);
        }
        if err.None? {
          err := CopyToDlqWithAttempt(m, DeadLettering(attempt, cause), cause, attempt);
        }
      } else {
        if countAttempt {
          var event := NewDeploymentBuildRetrying(r, attempt, cause);
          err := Do(m, EmittingRetry(attempt, cause),
                    Publish(cfg.deploymentExchange, cfg.deploymentRetryingKey, event));
        }
        if err.None? {
          err := Republish(m, r, attempt, cause, countAttempt);
        }
      }
      JobSendsAtMostOneCopy(cfg, m, world.origin, world.trace);
    }

    /** The rest of scheduleRetry: the lease is given up before the delayed copy is sent, and a failed
        Release is only logged. */
    method Republish(m: Message, r: Request, attempt: int, cause: string, countAttempt: bool) returns (err: Error)
      requires r == RequestOf(m) && !world.renewing
      requires At(m, if countAttempt then Releasing(attempt, cause) else Republishing(attempt, cause, false))
      modifies world`trace, world`pc, world`now, ledger
      ensures At(m, Over(if err.None? then Moved else Dropped))
    {
      hide Packed, Follow, ApplyTrace;
      var headers := m.headers;
      headers := headers[ATTEMPT_HEADER := Int32(ToInt32(attempt))];
      headers := headers[RETRY_REASON_HEADER := Word(cause)];
      if countAttempt {
        var _ := Execute(m, Releasing(attempt, cause), r.deploymentId, Op.Release);
      }
      var call := SendRetry(RetryQueue(cfg, QueueNumber(cfg, attempt)), m.(headers := headers));
      err := Do(m, Republishing(attempt, cause, false), call);
      if err.Some? {
        err := Do(m, Republishing(attempt, cause, true), call);
      }
    }

    /** One job of the worker loop: it ends settled, moved with exactly one copy sent, or dropped
        with none. */
    method RunBuildEvent(job: Job)
      requires Valid() && world.Idle() && job.request == RequestOf(job.message)
      modifies world, ledger
      ensures world.Idle()
      ensures world.pc.Over? && At(job.message, world.pc)
      ensures world.origin == Starting && world.base == old(ledger.rows)
      ensures world.pc.end == Settled || world.pc.end == Moved || world.pc.end == Dropped
      ensures Copies(world.trace) == (if world.pc.end == Moved then 1 else 0) && Verdicts(world.trace) == 0
    {
      world.Begin(job.message, Starting, ledger.rows);
      assert At(job.message, Starting);
      hide At, Packed, World.Valid, Follow, ApplyTrace, Copies, Verdicts, RequestOf, InJob;
      var action, err := HandleClaimedBuildEvent(job.message, job.request);
      if !action.ack && err.Some? {
        var _ := ScheduleRetry(job.message, job.request, err.value, true);
      }
      JobEnded(job.message, world.pc);
    }

    /** What the path of a whole job amounts to. */
    lemma JobEnded(m: Message, pc: Pc)
      requires At(m, pc) && world.origin == Starting && pc.Over?
      ensures pc == world.pc
      ensures pc.end == Settled || pc.end == Moved || pc.end == Dropped
      ensures Copies(world.trace) == (if pc.end == Moved then 1 else 0) && Verdicts(world.trace) == 0
    {
      hide Follow, Copies, Verdicts, ApplyTrace;
      JobSendsAtMostOneCopy(cfg, m, Starting, world.trace);
    }

    /** The jobs no worker has taken. */
    ghost function Waiting(): multiset<Job>
      reads this
    {
      multiset(channel) + multiset(parked)
    }

    /** The worker goroutine, for at most limit jobs or until the service stops. Every job that was waiting
        has run once, or still waits, or is the one that was received just as the service stopped and
        that is lost. Without a stop none is lost, and the worker never idles while one waits. Each
        run left its message settled, moved or dropped. */
    method Worker(limit: nat)
      returns (ghost ran: multiset<Job>, ghost ends: seq<End>, ghost lost: multiset<Job>, stopped: bool)
      requires Valid() && world.Idle()
      modifies this`channel, this`parked, world, ledger
      ensures Valid() && world.Idle()
      ensures ran + lost + Waiting() == old(Waiting())
      ensures |ran| <= limit && |lost| <= 1
      ensures !stopped ==> lost == multiset{} && (|ran| == limit || (channel == [] && parked == []))
      ensures |ends| == |ran| && forall e :: e in ends ==> e == Settled || e == Moved || e == Dropped
    {
      hide Packed, World.Valid, World.Idle;
      ran, ends, lost, stopped := multiset{}, [], multiset{}, false;
      for i := 0 to limit
        invariant Valid() && world.Idle() && |ran| == |ends| == i && lost == multiset{} && !stopped
        invariant ran + lost + Waiting() == old(Waiting())
        invariant forall e :: e in ends ==> e == Settled || e == Moved || e == Dropped
      {
        stopped := *;
        if stopped || channel == [] {
          return;
        }
        var job;
        ghost var end;
        job, stopped, end := RunNext();
        if stopped {
          lost := multiset{job};
          return;
        }
        ran, ends := ran + multiset{job}, ends + [end];
      }
    }

    /** One job of the worker; if the service has stopped meanwhile, the job is not run. */
    method RunNext() returns (job: Job, stopped: bool, ghost end: End)
      requires Valid() && world.Idle() && channel != []
      modifies this`channel, this`parked, world, ledger
      ensures Valid() && world.Idle()
      ensures multiset{job} + Waiting() == old(Waiting())
      ensures !stopped ==> end == Settled || end == Moved || end == Dropped
    {
      hide Packed, World.Valid, Follow, ApplyTrace, Copies, Verdicts, RequestOf;
      end := Dropped;
      job := ReceiveJob();
      stopped := *;
      if !stopped {
        RunBuildEvent(job);
        end := world.pc.end;
      }
    }

    /** Receiving from the full channel lets one of the parked senders go on, no matter which. */
    method ReceiveJob() returns (job: Job)
      requires Valid() && channel != []
      modifies this`channel, this`parked
      ensures Valid() && job.request == RequestOf(job.message)
      ensures multiset{job} + Waiting() == old(Waiting())
    {
      hide World.Valid, RequestOf;
      job := channel[0];
      assert channel == [job];
      channel := [];
      if parked != [] {
        var i :| 0 <= i < |parked|;
        TakeOut(parked, i);
        channel, parked := [parked[i]], parked[..i] + parked[i + 1..];
      }
    }

    method PublishBundle(ghost m: Message, b: Bundle) returns (action: Action, err: Error)
      requires At(m, ReplayingService(b))
      modifies world`trace, world`pc
      ensures action == ACTION_ACK || action == ACTION_NACK_REQUEUE
      ensures action.ack <==> err.None?
      ensures At(m, if action.ack then AckingReplay else Nacking)
      ensures old(world.trace) <= world.trace
    {
      hide Packed, Follow, ApplyTrace;
      err := Do(m, ReplayingService(b), Publish(cfg.serviceExchange, b.serviceKey, b.service));
      if err.Some? {
        return ACTION_NACK_REQUEUE, err;
      }
      err := Do(m, ReplayingProgress(b), Publish(cfg.deploymentExchange, b.progressKey, b.progress));
      if err.Some? {
        return ACTION_NACK_REQUEUE, err;
      }
      return ACTION_ACK, None;
    }

    /** processDelivery for the messages acceptDelivery gives it: those it cannot claim. */
    method ProcessMalformed(m: Message)
      requires At(m, CopyingMalformed)
      modifies world`trace, world`pc
      ensures world.pc.Over? && At(m, world.pc)
    {
      hide Packed, Follow, ApplyTrace;
      var err := CopyToDlqWithAttempt(m, CopyingMalformed, RejectReason(m.body), HeaderAttempt(m.headers));
      if err.None? {
        var _ := Do(m, AckingMalformed, Ack);
        return;
      }
      var _ := Do(m, Discarding, Nack(false));
    }

    /** A delivery is settled with the broker by one Ack or Nack, and becomes a job only when its
        claim was acquired and its early Ack succeeded. */
    method AcceptDelivery(m: Message)
      requires Valid()
      modifies this`channel, this`parked, world, ledger
      ensures At(m, world.pc) && world.origin == Start(m) && world.base == old(ledger.rows)
      ensures old(world.Idle()) ==> world.Idle()
      ensures world.pc.Over? || world.pc == Queued
      ensures world.pc == Queued <==> ClaimedAndAcked(cfg, world.trace)
      ensures Verdicts(world.trace) == 1
      ensures
        var job := [Job(RequestOf(m), m)];
        if world.pc != Queued then channel == old(channel) && parked == old(parked)
        else if old(channel) == [] then channel == job && parked == old(parked)
        else channel == old(channel) && parked == old(parked) + job
    {
      hide Follow, ApplyTrace, Verdicts, Packed, ClaimedAndAcked, RequestOf;
      ApplyNothing(ledger.rows, RequestOf(m).deploymentId);
      world.Begin(m, Start(m), ledger.rows);
      if !Acceptable(m.body) {
        ProcessMalformed(m);
        MalformedIsNotClaimed(cfg, m, world.trace);
      } else {
        var claimed := ClaimAndSettle(m);
        assert world.trace[0..] == world.trace;
        if claimed {
          var job := Job(RequestOf(m), m);
          OneMore(channel, job);
          OneMore(parked, job);
          if |channel| < 1 {
            channel := channel + [job];
          } else {
            parked := parked + [job];
          }
        }
      }
      OneVerdictPerDelivery(cfg, m, world.trace);
    }

    /** True when the delivery is claimed and its early Ack went through. */
    method ClaimAndSettle(m: Message) returns (claimed: bool)
      requires m.body.Decoded? && At(m, Claiming)
      modifies world`trace, world`pc, world`now, ledger
      ensures At(m, world.pc) && (if claimed then world.pc == Queued else world.pc.Over?)
      ensures old(world.trace) <= world.trace
      ensures claimed <==> ClaimedAndAcked(cfg, world.trace[|old(world.trace)|..])
    {
      assert cfg.Valid();
      hide Packed, Follow, ApplyTrace, CallAt, After, RequestOf;
      ghost var start := world.trace;
      ClaimPoint(cfg, m, Ok);
      RenewsNothingOutside(world, Claiming);
      var o := Execute(m, Claiming, RequestOf(m).deploymentId, Op.Claim(cfg.leaseDuration));
      ClaimPoint(cfg, m, o);
      ghost var claim := Effect(Sql(Op.Claim(cfg.leaseDuration)), o, world.now);
      if o.Err? || o.reply.disposition == Busy {
        HandBack(m);
        NotGrantedTail(cfg, start, claim, world.trace);
        return false;
      }
      if o.reply.disposition == Acquired {
        var err := Acknowledge(m);
        GrantedTail(cfg, start, claim, Effect(Ack, OutcomeOf(err), world.now));
        OutcomeFails(err);
        return err.None?;
      }
      var stored := o.reply.row.result;
      if stored.None? {
        // The stored result does not decode.
        HandBack(m);
      } else {
        Replay(m, stored.value);
      }
      NotGrantedTail(cfg, start, claim, world.trace);
      return false;
    }

    /** The early Ack. */
    method Acknowledge(ghost m: Message) returns (err: Error)
      requires At(m, AckingClaim)
      modifies world`trace, world`pc
      ensures At(m, if err.None? then Queued else Over(Requeued))
      ensures world.trace == old(world.trace) + [Effect(Ack, OutcomeOf(err), world.now)]
    {
      assert cfg.Valid();
      hide Packed, Follow, ApplyTrace, CallAt, After;
      SettlingPoints(cfg, m, Ok);
      RenewsNothingOutside(world, AckingClaim);
      err := Do(m, AckingClaim, Ack);
      SettlingPoints(cfg, m, OutcomeOf(err));
    }

    /** Back to the queue. */
    method HandBack(ghost m: Message)
      requires At(m, Nacking)
      modifies world`trace, world`pc
      ensures At(m, Over(Requeued)) && old(world.trace) <= world.trace
    {
      assert cfg.Valid();
      hide Packed, Follow, ApplyTrace, CallAt, After;
      SettlingPoints(cfg, m, Ok);
      RenewsNothingOutside(world, Nacking);
      var err := Do(m, Nacking, Nack(true));
      SettlingPoints(cfg, m, OutcomeOf(err));
    }

    /** publishStored and what its caller makes of it. */
    method Replay(ghost m: Message, b: Bundle)
      requires At(m, ReplayingService(b))
      modifies world`trace, world`pc
      ensures At(m, world.pc) && world.pc.Over? && old(world.trace) <= world.trace
    {
      assert cfg.Valid();
      hide Packed, Follow, ApplyTrace, CallAt, After;
      var action, err := PublishBundle(m, b);
      if err.Some? {
        HandBack(m);
        return;
      }
      SettlingPoints(cfg, m, Ok);
      RenewsNothingOutside(world, AckingReplay);
      err := Do(m, AckingReplay, Ack);
      SettlingPoints(cfg, m, OutcomeOf(err));
    }
  }
}
