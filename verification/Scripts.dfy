/** What the calls of a delivery say, written out field by field, and the order they come in: a second
    reading of the source that does without the event constructors and the result bundles of Stage. */
module Scripts {
  import opened Options
  import opened Text
  import opened Events
  import opened Ledger
  import opened LedgerHistory
  import opened Config
  import opened Stage
  import opened Paths

  // ------------------------------------------------------------------ what an event says

  /** The exchange and routing key of each type of event. */
  predicate Addressed(cfg: Config, exchange: string, key: string, t: EventType) {
    match t
    case BuildSucceeded => exchange == cfg.serviceExchange && key == cfg.buildSucceededKey
    case BuildFailed => exchange == cfg.serviceExchange && key == cfg.buildFailedKey
    case DeploymentBuildStarted => exchange == cfg.deploymentExchange && key == cfg.deploymentStartedKey
    case DeploymentBuildSucceeded => exchange == cfg.deploymentExchange && key == cfg.deploymentSucceededKey
    case DeploymentBuildFailed => exchange == cfg.deploymentExchange && key == cfg.deploymentFailedKey
    case DeploymentBuildRetrying => exchange == cfg.deploymentExchange && key == cfg.deploymentRetryingKey
  }

  /** The event names the deployment, project and service of r, and its id is made from the given words. */
  predicate Names(r: Request, ev: Event, words: string) {
    && ev.id == r.deploymentId + ":build:" + words
    && ev.deploymentId == r.deploymentId && ev.projectId == r.projectId && ev.serviceId == r.serviceId
    && ev.serviceName == (if r.serviceName == "" then r.payload.serviceAlias else r.serviceName)
  }

  predicate SaysStarted(r: Request, ev: Event) {
    && ev.eventType == DeploymentBuildStarted && ev.status == BuildingStatus && Names(r, ev, "BUILDING")
    && ev.details.Source?
    && ev.details.branch == r.payload.branch && ev.details.repositoryUrl == r.payload.repositoryUrl
  }

  predicate SaysBuilt(r: Request, ev: Event, result: BuildResult) {
    && (ev.eventType == BuildSucceeded || ev.eventType == DeploymentBuildSucceeded)
    && ev.status == SucceededStatus && Names(r, ev, "BUILD_SUCCEEDED")
    && (ev.eventType == BuildSucceeded ==> ev.userId == r.userId)
    && ev.details.Image? && ev.details.result == result
    && ev.details.projectSlug == r.payload.projectSlug && ev.details.serviceSlug == r.payload.serviceSlug
    && ev.details.containerPort == r.payload.containerPort
  }

  /** A failure is told without any result of a build. */
  predicate SaysFailed(r: Request, ev: Event, message: string) {
    && (ev.eventType == BuildFailed || ev.eventType == DeploymentBuildFailed)
    && ev.status == FailedStatus && Names(r, ev, "BUILD_FAILED")
    && (if ev.eventType == BuildFailed then
          ev.userId == r.userId && ev.details.Failure?
        else
          && ev.details.FailedImage?
          && ev.details.projectSlug == r.payload.projectSlug && ev.details.serviceSlug == r.payload.serviceSlug
          && ev.details.containerPort == r.payload.containerPort)
    && ev.details.result == BuildResult("", "", "") && ev.details.message == message
  }

  predicate SaysRetrying(r: Request, ev: Event, attempt: int, message: string) {
    && ev.eventType == DeploymentBuildRetrying && ev.status == RetryingStatus(attempt)
    && Names(r, ev, "BUILD_RETRYING:" + Integer(attempt))
    && ev.details.Again? && ev.details.attempt == attempt && ev.details.message == message
  }

  /** The event is one that the service may publish about request r. */
  predicate Genuine(r: Request, ev: Event) {
    match ev.eventType
    case DeploymentBuildStarted => SaysStarted(r, ev)
    case BuildSucceeded => ev.details.Image? && SaysBuilt(r, ev, ev.details.result)
    case DeploymentBuildSucceeded => ev.details.Image? && SaysBuilt(r, ev, ev.details.result)
    case BuildFailed => ev.details.Failure? && SaysFailed(r, ev, ev.details.message)
    case DeploymentBuildFailed => ev.details.FailedImage? && SaysFailed(r, ev, ev.details.message)
    case DeploymentBuildRetrying => ev.details.Again? && SaysRetrying(r, ev, ev.details.attempt, ev.details.message)
  }

  /** A success as the ledger stores it: the service event and the progress event, each under its own key. */
  predicate IsSuccess(cfg: Config, r: Request, result: BuildResult, b: Bundle) {
    && b.service.eventType == BuildSucceeded && SaysBuilt(r, b.service, result)
    && b.progress.eventType == DeploymentBuildSucceeded && SaysBuilt(r, b.progress, result)
    && b.serviceKey == cfg.buildSucceededKey && b.progressKey == cfg.deploymentSucceededKey
  }

  predicate IsFailure(cfg: Config, r: Request, message: string, b: Bundle) {
    && b.service.eventType == BuildFailed && SaysFailed(r, b.service, message)
    && b.progress.eventType == DeploymentBuildFailed && SaysFailed(r, b.progress, message)
    && b.serviceKey == cfg.buildFailedKey && b.progressKey == cfg.deploymentFailedKey
  }

  lemma IdWords(id: string, s: Status)
    ensures EventId(id, s) == id + ":build:" + StatusText(s)
  {
    assert id + ":" + STAGE + ":" == id + ":build:";
  }

  lemma SuccessSays(cfg: Config, r: Request, result: BuildResult)
    ensures IsSuccess(cfg, r, result, SuccessBundle(cfg, r, result))
  {
    hide EventId;
    IdWords(r.deploymentId, SucceededStatus);
  }

  lemma FailureSays(cfg: Config, r: Request, message: string)
    ensures IsFailure(cfg, r, message, FailureBundle(cfg, r, message))
  {
    hide EventId;
    IdWords(r.deploymentId, FailedStatus);
  }

  lemma StartSays(r: Request)
    ensures SaysStarted(r, NewDeploymentBuildStarted(r))
  {
    hide EventId;
    IdWords(r.deploymentId, BuildingStatus);
  }

  lemma RetryingSays(r: Request, attempt: int, cause: string)
    ensures SaysRetrying(r, NewDeploymentBuildRetrying(r, attempt, cause), attempt, cause)
  {
    hide EventId, Integer;
    IdWords(r.deploymentId, RetryingStatus(attempt));
  }

  // ------------------------------------------------------------------ the early acknowledgement

  /** The claim, which comes first, was granted. */
  predicate Granted(t: Trace) {
    t != [] && t[0].outcome.Answered? && Acquires(t[0].outcome.reply)
  }

  /** The claim was granted, and the Ack after it went through. */
  predicate ClaimedAndAcked(cfg: Config, t: Trace) {
    && |t| >= 2 && Granted(t) && t[0].call == Sql(Op.Claim(cfg.leaseDuration))
    && t[1].call == Ack && !t[1].outcome.Err?
  }

  /** The points of a delivery whose claim was not granted. */
  predicate Declined(pc: Pc) {
    Accepting(pc) && !pc.Claiming? && !pc.AckingClaim? && !pc.Queued?
  }

  /** A delivery reaches the jobs channel, and its job, exactly by a granted claim and a successful early Ack;
      an early Ack that fails after a granted claim ends it, and the message is on its queue again. */
  lemma {:induction false} JobsAreAcknowledged(cfg: Config, m: Message, t: Trace)
    requires cfg.Valid() && Complaint(m.body).None? && Follow(cfg, m, Start(m), t).Some?
    ensures t != [] ==> t[0].call == Sql(Op.Claim(cfg.leaseDuration))
    ensures
      var at := Follow(cfg, m, Start(m), t).value;
      && (at == Queued <==> |t| == 2 && ClaimedAndAcked(cfg, t))
      && (if t == [] then at == Claiming
          else if !Granted(t) then Declined(at)
          else if |t| == 1 then at == AckingClaim
          else if t[1].outcome.Err? then |t| == 2 && t[1].call == Ack && at == Over(Requeued)
          else ClaimedAndAcked(cfg, t) && (|t| > 2 ==> t[2].call == TakeJob && InJob(at)))
  {
    hide CallAt, After, Acceptable, InJob, Declined, Follow, Acquires, Complaint;
    AcceptableExactly(m.body);
    if t == [] {
      StartsClaiming(cfg, m);
    } else {
      var n := |t| - 1;
      LastStep(cfg, m, Start(m), t);
      JobsAreAcknowledged(cfg, m, t[..n]);
      ClaimingMoves(cfg, m, t[n].outcome);
      AckingMoves(cfg, m, t[n].outcome);
      QueuedIsTaken(cfg, m, t[n].outcome);
      var at := Follow(cfg, m, Start(m), t[..n]).value;
      if Declined(at) {
        DeclinedMoves(cfg, m, at, t[n].outcome);
      }
      if InJob(at) {
        JobContinues(cfg, m, at, t[n].outcome);
      }
      PointsDiffer(at);
      PointsDiffer(After(cfg, m, at, t[n].outcome));
    }
  }

  lemma StartsClaiming(cfg: Config, m: Message)
    requires cfg.Valid() && Acceptable(m.body)
    ensures Follow(cfg, m, Start(m), []) == Some(Claiming)
  {
  }

  lemma ClaimingMoves(cfg: Config, m: Message, o: Outcome)
    requires cfg.Valid()
    ensures CallAt(cfg, m, Claiming) == Sql(Op.Claim(cfg.leaseDuration))
    ensures
      var next := After(cfg, m, Claiming, o);
      if o.Answered? && Acquires(o.reply) then next == AckingClaim else Declined(next)
  {
  }

  lemma AckingMoves(cfg: Config, m: Message, o: Outcome)
    requires cfg.Valid()
    ensures CallAt(cfg, m, AckingClaim) == Ack
    ensures After(cfg, m, AckingClaim, o) == if o.Err? then Over(Requeued) else Queued
  {
  }

  lemma DeclinedMoves(cfg: Config, m: Message, pc: Pc, o: Outcome)
    requires cfg.Valid() && Declined(pc) && !pc.Over?
    ensures Declined(After(cfg, m, pc, o))
  {
  }

  lemma PointsDiffer(pc: Pc)
    ensures InJob(pc) || Declined(pc) ==> pc != Queued && pc != Claiming && pc != AckingClaim
    ensures InJob(pc) && Declined(pc) ==> pc.Over?
  {
  }

  // ------------------------------------------------------------------ cutting paths

  lemma {:induction false} FollowSplits(cfg: Config, m: Message, pc: Pc, t: Trace, u: Trace)
    requires cfg.Valid() && Follow(cfg, m, pc, t + u).Some?
    ensures Follow(cfg, m, pc, t).Some?
    ensures Follow(cfg, m, pc, t + u) == Follow(cfg, m, Follow(cfg, m, pc, t).value, u)
  {
    hide CallAt, After;
    if u == [] {
      assert t + u == t;
    } else {
      var n := |u| - 1;
      assert (t + u)[..|t + u| - 1] == t + u[..n];
      FollowSplits(cfg, m, pc, t, u[..n]);
      FollowConcat(cfg, m, pc, t, u);
    }
  }

  /** The part of a trace up to its first error. */
  function UpToError(t: Trace): (n: nat)
    ensures n <= |t| && (t != [] ==> n > 0) && AllButLastSucceeded(t[..n])
    ensures n < |t| ==> t[n - 1].outcome.Err?
  {
    if t == [] then 0
    else
      var n := UpToError(t[..|t| - 1]);
      if n < |t| - 1 || (n > 0 && t[n - 1].outcome.Err?) then n else |t|
  }

  // ------------------------------------------------------------------ the stage body

  /** What an unbroken job has built after its first four calls. */
  function ResultIn(t: Trace): BuildResult {
    if |t| > 3 && t[3].outcome.Finished? then t[3].outcome.result else NO_RESULT
  }

  /** Call i of a job whose calls before it all succeeded: announce the start, make a directory, clone, build,
      store the result with its events, publish the service event, publish the progress event. */
  predicate JobCall(cfg: Config, r: Request, t: Trace, i: nat)
    requires i < |t|
  {
    var call := t[i].call;
    match i
    case 0 =>
      && call.Publish? && Addressed(cfg, call.exchange, call.key, DeploymentBuildStarted)
      && SaysStarted(r, call.event)
    case 1 => call == MakeWorkdir
    case 2 => call == Clone
    case 3 => call == Build
    case 4 => call.Sql? && call.op.Complete? && IsSuccess(cfg, r, ResultIn(t), call.op.value)
    case 5 => t[4].call.Sql? && t[4].call.op.Complete?
      && call == Publish(cfg.serviceExchange, cfg.buildSucceededKey, t[4].call.op.value.service)
    case 6 => t[4].call.Sql? && t[4].call.op.Complete?
      && call == Publish(cfg.deploymentExchange, cfg.deploymentSucceededKey, t[4].call.op.value.progress)
    case _ => false
  }

  /** Where a job stands after done successful calls. */
  function JobPoint(result: BuildResult, done: nat): Pc {
    match done
    case 0 => Starting
    case 1 => MakingWorkdir
    case 2 => Cloning
    case 3 => Building
    case 4 => Completing(result)
    case 5 => Announcing(result)
    case 6 => Reporting(result)
    case _ => Over(Settled)
  }

  /** A success is stored with its two events and then told by them: each call only after the one before it
      succeeded, and all three unless one fails. */
  predicate SuccessTold(cfg: Config, r: Request, result: BuildResult, t: Trace) {
    && 1 <= |t| <= 3 && AllButLastSucceeded(t) && (|t| < 3 ==> !Succeeded(t))
    && t[0].call.Sql? && t[0].call.op.Complete?
    && var b := t[0].call.op.value;
       && IsSuccess(cfg, r, result, b)
       && (|t| > 1 ==> t[1].call == Publish(cfg.serviceExchange, cfg.buildSucceededKey, b.service))
       && (|t| > 2 ==> t[2].call == Publish(cfg.deploymentExchange, cfg.deploymentSucceededKey, b.progress))
  }

  /** What an error of call number done leads to: a retry, or the failure to announce. */
  function JobBreak(done: nat, reason: string): Pc {
    match done
    case 0 => Recording("publish build started event: " + reason, true)
    case 1 => Failing(BeforeBuild, "create workdir: " + reason)
    case 2 => Failing(BeforeBuild, reason)
    case 3 => Failing(InBuild, reason)
    case 4 => Recording("persist build result: " + reason, true)
    case 5 => Recording("publish build succeeded event: " + reason, true)
    case _ => Recording("publish deployment build succeeded event: " + reason, true)
  }

  /** The bundle an unbroken job stores. */
  function JobBundle(cfg: Config, r: Request, t: Trace): Bundle {
    SuccessBundle(cfg, r, ResultIn(t))
  }

  /** The call due after done successful ones, in terms of the result to be told. */
  function JobCallAt(cfg: Config, r: Request, result: BuildResult, done: nat): Call {
    var b := SuccessBundle(cfg, r, result);
    match done
    case 0 => Publish(cfg.deploymentExchange, cfg.deploymentStartedKey, NewDeploymentBuildStarted(r))
    case 1 => MakeWorkdir
    case 2 => Clone
    case 3 => Build
    case 4 => Sql(Op.Complete(b))
    case 5 => Publish(cfg.serviceExchange, cfg.buildSucceededKey, b.service)
    case _ => Publish(cfg.deploymentExchange, cfg.deploymentSucceededKey, b.progress)
  }

  lemma JobCallStep(cfg: Config, m: Message, result: BuildResult, done: nat)
    requires cfg.Valid() && done < 7
    ensures !JobPoint(result, done).Over?
    ensures CallAt(cfg, m, JobPoint(result, done)) == JobCallAt(cfg, RequestOf(m), result, done)
  {
    hide RequestOf, Attempt, After;
  }

  lemma JobMove(cfg: Config, m: Message, result: BuildResult, done: nat, o: Outcome)
    requires cfg.Valid() && done < 7
    ensures After(cfg, m, JobPoint(result, done), o) ==
      if o.Err? then JobBreak(done, o.reason)
      else JobPoint(if done == 3 then (if o.Finished? then o.result else NO_RESULT) else result, done + 1)
  {
    hide CallAt, AfterClaim, AfterFailure, Attempt, Decide;
  }

  lemma JobCallKept(cfg: Config, r: Request, init: Trace, e: Effect, i: nat)
    requires i < |init| && JobCall(cfg, r, init, i)
    ensures JobCall(cfg, r, init + [e], i)
    ensures i == 4 ==> JobBundle(cfg, r, init + [e]) == JobBundle(cfg, r, init)
  {
    hide IsSuccess, SaysStarted, SuccessBundle;
    var t := init + [e];
    assert t[i] == init[i];
    if i > 3 {
      assert t[3] == init[3];
    }
    if i > 4 {
      assert t[4] == init[4];
    }
  }

  /** The call that is due at a job's control point is the one the script asks for. */
  lemma JobCallDue(cfg: Config, m: Message, init: Trace, e: Effect)
    requires cfg.Valid() && |init| < 7 && e.call == CallAt(cfg, m, JobPoint(ResultIn(init), |init|))
    requires |init| > 4 ==> init[4].call == Sql(Op.Complete(JobBundle(cfg, RequestOf(m), init)))
    ensures JobCall(cfg, RequestOf(m), init + [e], |init|)
    ensures |init| == 4 ==> e.call == Sql(Op.Complete(JobBundle(cfg, RequestOf(m), init + [e])))
  {
    hide CallAt, After, SuccessBundle, NewDeploymentBuildStarted, RequestOf, IsSuccess, SaysStarted;
    var t, r := init + [e], RequestOf(m);
    assert t[|init|] == e;
    JobCallStep(cfg, m, ResultIn(init), |init|);
    StartSays(r);
    SuccessSays(cfg, r, ResultIn(init));
    if |init| > 3 {
      assert t[3] == init[3];
    }
    if |init| > 4 {
      assert t[4] == init[4];
    }
  }

  lemma Unbroken(init: Trace, e: Effect)
    requires AllButLastSucceeded(init + [e])
    ensures Succeeded(init) && AllButLastSucceeded(init)
    ensures Succeeded(init + [e]) <==> !e.outcome.Err?
  {
    assert forall i :: 0 <= i < |init| ==> (init + [e])[i] == init[i];
    assert (init + [e])[|init|] == e;
  }

  lemma JobCallsDue(cfg: Config, m: Message, init: Trace, e: Effect)
    requires cfg.Valid() && |init| < 7 && e.call == CallAt(cfg, m, JobPoint(ResultIn(init), |init|))
    requires |init| > 4 ==> init[4].call == Sql(Op.Complete(JobBundle(cfg, RequestOf(m), init)))
    requires forall i :: 0 <= i < |init| ==> JobCall(cfg, RequestOf(m), init, i)
    ensures forall i :: 0 <= i < |init + [e]| ==> JobCall(cfg, RequestOf(m), init + [e], i)
    ensures |init + [e]| > 4 ==> (init + [e])[4].call == Sql(Op.Complete(JobBundle(cfg, RequestOf(m), init + [e])))
  {
    hide CallAt, RequestOf, JobCall, JobBundle, ResultIn, JobPoint;
    var r, t := RequestOf(m), init + [e];
    JobCallDue(cfg, m, init, e);
    forall i | 0 <= i < |t|
      ensures JobCall(cfg, r, t, i)
    {
      if i < |init| {
        JobCallKept(cfg, r, init, e, i);
      }
    }
    if |init| > 4 {
      JobCallKept(cfg, r, init, e, 4);
    }
  }

  lemma JobMoves(cfg: Config, m: Message, init: Trace, e: Effect)
    requires cfg.Valid() && |init| < 7
    ensures After(cfg, m, JobPoint(ResultIn(init), |init|), e.outcome) ==
      if e.outcome.Err? then JobBreak(|init|, e.outcome.reason) else JobPoint(ResultIn(init + [e]), |init| + 1)
  {
    hide CallAt, After, JobBreak;
    JobMove(cfg, m, ResultIn(init), |init|, e.outcome);
    if |init| > 3 {
      assert (init + [e])[3] == init[3];
    }
  }

  /** The part of a job up to its first error. */
  lemma {:induction false} UnbrokenJob(cfg: Config, m: Message, t: Trace)
    requires cfg.Valid() && Follow(cfg, m, Starting, t).Some? && AllButLastSucceeded(t)
    ensures |t| <= 7 && forall i :: 0 <= i < |t| ==> JobCall(cfg, RequestOf(m), t, i)
    ensures |t| > 4 ==> t[4].call == Sql(Op.Complete(JobBundle(cfg, RequestOf(m), t)))
    ensures Follow(cfg, m, Starting, t).value ==
      if Succeeded(t) then JobPoint(ResultIn(t), |t|) else JobBreak(|t| - 1, t[|t| - 1].outcome.reason)
  {
    if t != [] {
      hide CallAt, After, RequestOf, JobBreak, JobCall, AllButLastSucceeded, Succeeded, Follow, JobBundle, ResultIn,
           JobPoint;
      var n := |t| - 1;
      var init := t[..n];
      assert t == init + [t[n]];
      LastStep(cfg, m, Starting, t);
      Unbroken(init, t[n]);
      UnbrokenJob(cfg, m, init);
      JobEnds(cfg, m, init);
      JobMoves(cfg, m, init, t[n]);
      JobCallsDue(cfg, m, init, t[n]);
    }
  }

  lemma JobEnds(cfg: Config, m: Message, t: Trace)
    ensures |t| == 7 ==> JobPoint(ResultIn(t), |t|).Over?
  {
  }

  /** A job: its calls up to the first error are those of the script, and that error decides what the rest of
      the job starts from. A job that goes on after n calls has broken at call n. */
  lemma JobsFollowTheirScript(cfg: Config, m: Message, t: Trace)
    requires cfg.Valid() && Follow(cfg, m, Starting, t).Some?
    ensures
      var n := UpToError(t);
      var end := Follow(cfg, m, Starting, t);
      && n <= 7 && (forall i :: 0 <= i < n ==> JobCall(cfg, RequestOf(m), t[..n], i))
      && (if Succeeded(t[..n]) then n == |t| && end == Some(JobPoint(ResultIn(t), n))
          else end == Follow(cfg, m, JobBreak(n - 1, t[n - 1].outcome.reason), t[n..]))
  {
    hide JobCall, JobBreak, JobPoint, CallAt, After, Follow;
    var n := UpToError(t);
    assert t == t[..n] + t[n..];
    FollowSplits(cfg, m, Starting, t[..n], t[n..]);
    UnbrokenJob(cfg, m, t[..n]);
    if n == |t| {
      assert t[..n] == t;
    } else {
      assert t[..n][n - 1].outcome.Err?;
    }
  }

  // ------------------------------------------------------------------ a failure and its two events

  /** Call i of completeFailure when its calls before succeeded: store the failure with its events, publish the
      service event, publish the progress event. */
  predicate FailureCall(cfg: Config, r: Request, message: string, t: Trace, i: nat)
    requires i < |t|
  {
    && t[0].call.Sql? && t[0].call.op.Fail?
    && var b, call := t[0].call.op.value, t[i].call;
       match i
       case 0 => IsFailure(cfg, r, message, b)
       case 1 => call == Publish(cfg.serviceExchange, cfg.buildFailedKey, b.service)
       case 2 => call == Publish(cfg.deploymentExchange, cfg.deploymentFailedKey, b.progress)
       case _ => false
  }

  predicate FailureTold(cfg: Config, r: Request, message: string, t: Trace) {
    && 1 <= |t| <= 3 && AllButLastSucceeded(t) && (|t| < 3 ==> !Succeeded(t))
    && forall i :: 0 <= i < |t| ==> FailureCall(cfg, r, message, t, i)
  }

  /** Where completeFailure stands after done successful calls. A failure that was told settles the delivery; that
      of an exhausted one lets its dead-letter copy be sent. */
  function FailurePoint(site: Site, message: string, done: nat): Pc {
    match done
    case 0 => Failing(site, message)
    case 1 => AnnouncingFailure(site, message)
    case 2 => ReportingFailure(site, message)
    case _ => if site.Exhausted? then DeadLettering(site.attempt, site.cause) else Over(Settled)
  }

  /** The error that an error of call number done becomes. */
  function FailureProblem(message: string, done: nat, reason: string): string {
    match done
    case 0 => "persist build failure: " + reason
    case 1 => message + "; publish build failed event: " + reason
    case _ => message + "; publish deployment build failed event: " + reason
  }

  /** What it leads to: a retry before the build, nothing more after it, and the loss of an exhausted request. */
  function FailureBreak(site: Site, message: string, done: nat, reason: string): Pc {
    match site
    case BeforeBuild => Recording(FailureProblem(message, done, reason), true)
    case InBuild => Over(Settled)
    case Exhausted(_, _) => Over(Dropped)
  }

  lemma FailureCallStep(cfg: Config, m: Message, site: Site, message: string, done: nat)
    requires cfg.Valid() && done < 3
    ensures
      var at, b := FailurePoint(site, message, done), FailureBundle(cfg, RequestOf(m), message);
      && !at.Over?
      && CallAt(cfg, m, at) ==
           (match done
            case 0 => Sql(Op.Fail(b))
            case 1 => Publish(cfg.serviceExchange, cfg.buildFailedKey, b.service)
            case _ => Publish(cfg.deploymentExchange, cfg.deploymentFailedKey, b.progress))
  {
    hide RequestOf, Attempt, After;
  }

  lemma FailureMove(cfg: Config, m: Message, site: Site, message: string, done: nat, o: Outcome)
    requires cfg.Valid() && done < 3
    ensures After(cfg, m, FailurePoint(site, message, done), o) ==
      if o.Err? then FailureBreak(site, message, done, o.reason) else FailurePoint(site, message, done + 1)
  {
    hide CallAt, After, FailureProblem;
    FailurePointMoves(cfg, m, site, message, done, o);
  }

  lemma FailurePointMoves(cfg: Config, m: Message, site: Site, message: string, done: nat, o: Outcome)
    requires cfg.Valid() && done < 3
    ensures After(cfg, m, FailurePoint(site, message, done), o) ==
      if o.Err? then AfterFailure(site, message, Some(FailureProblem(message, done, o.reason)))
      else if done < 2 then FailurePoint(site, message, done + 1) else AfterFailure(site, message, None)
  {
    hide CallAt, After, AfterFailure, FailureProblem;
    match done
    case 0 => FailingMoves(cfg, m, site, message, o);
    case 1 => AnnouncingMoves(cfg, m, site, message, o);
    case _ => ReportingMoves(cfg, m, site, message, o);
  }

  lemma FailingMoves(cfg: Config, m: Message, site: Site, message: string, o: Outcome)
    requires cfg.Valid()
    ensures After(cfg, m, Failing(site, message), o) ==
      if o.Err? then AfterFailure(site, message, Some(FailureProblem(message, 0, o.reason)))
      else AnnouncingFailure(site, message)
  {
    hide CallAt, AfterClaim, AfterFailure, Attempt, Decide;
  }

  lemma AnnouncingMoves(cfg: Config, m: Message, site: Site, message: string, o: Outcome)
    requires cfg.Valid()
    ensures After(cfg, m, AnnouncingFailure(site, message), o) ==
      if o.Err? then AfterFailure(site, message, Some(FailureProblem(message, 1, o.reason)))
      else ReportingFailure(site, message)
  {
    hide CallAt, AfterClaim, AfterFailure, Attempt, Decide;
  }

  lemma ReportingMoves(cfg: Config, m: Message, site: Site, message: string, o: Outcome)
    requires cfg.Valid()
    ensures After(cfg, m, ReportingFailure(site, message), o) ==
      AfterFailure(site, message, if o.Err? then Some(FailureProblem(message, 2, o.reason)) else None)
  {
    hide CallAt, AfterClaim, AfterFailure, Attempt, Decide;
  }

  lemma FailureCallDue(cfg: Config, m: Message, site: Site, message: string, init: Trace, e: Effect)
    requires cfg.Valid() && |init| < 3 && e.call == CallAt(cfg, m, FailurePoint(site, message, |init|))
    requires |init| > 0 ==> init[0].call == Sql(Op.Fail(FailureBundle(cfg, RequestOf(m), message)))
    ensures (init + [e])[0].call == Sql(Op.Fail(FailureBundle(cfg, RequestOf(m), message)))
    ensures FailureCall(cfg, RequestOf(m), message, init + [e], |init|)
  {
    hide CallAt, After, FailureBundle, RequestOf, IsFailure;
    assert (init + [e])[|init|] == e;
    FailureCallStep(cfg, m, site, message, |init|);
    FailureSays(cfg, RequestOf(m), message);
    if |init| > 0 {
      assert (init + [e])[0] == init[0];
    }
  }

  lemma FailureCallKept(cfg: Config, r: Request, message: string, init: Trace, e: Effect, i: nat)
    requires i < |init| && FailureCall(cfg, r, message, init, i)
    ensures FailureCall(cfg, r, message, init + [e], i)
  {
    hide IsFailure;
    assert (init + [e])[i] == init[i] && (init + [e])[0] == init[0];
  }

  /** completeFailure: each call only after the one before it succeeded, and the site decides what becomes of the
      delivery. */
  lemma {:induction false} UnbrokenFailure(cfg: Config, m: Message, site: Site, message: string, t: Trace)
    requires cfg.Valid() && Follow(cfg, m, Failing(site, message), t).Some? && AllButLastSucceeded(t) && |t| <= 3
    ensures t != [] ==> t[0].call == Sql(Op.Fail(FailureBundle(cfg, RequestOf(m), message)))
    ensures forall i :: 0 <= i < |t| ==> FailureCall(cfg, RequestOf(m), message, t, i)
    ensures Follow(cfg, m, Failing(site, message), t).value ==
      if Succeeded(t) then FailurePoint(site, message, |t|)
      else FailureBreak(site, message, |t| - 1, t[|t| - 1].outcome.reason)
  {
    if t != [] {
      hide CallAt, After, RequestOf, FailureBreak, AllButLastSucceeded, Succeeded, Follow, FailureBundle, FailureCall,
           FailurePoint;
      var n := |t| - 1;
      var init := t[..n];
      assert t == init + [t[n]];
      LastStep(cfg, m, Failing(site, message), t);
      Unbroken(init, t[n]);
      UnbrokenFailure(cfg, m, site, message, init);
      FailureMove(cfg, m, site, message, n, t[n].outcome);
      FailureCallDue(cfg, m, site, message, init, t[n]);
      forall i | 0 <= i < |t|
        ensures FailureCall(cfg, RequestOf(m), message, t, i)
      {
        if i < n {
          FailureCallKept(cfg, RequestOf(m), message, init, t[n], i);
        }
      }
    }
  }

  /** Three calls in a row, or fewer if one of them failed. */
  predicate InTurn(t: Trace, first: Call, second: Call, third: Call) {
    && 1 <= |t| <= 3 && t[0].call == first
    && (|t| > 1 ==> !t[0].outcome.Err? && t[1].call == second)
    && (|t| > 2 ==> !t[1].outcome.Err? && t[2].call == third)
    && (|t| < 3 ==> t[|t| - 1].outcome.Err?)
  }

  lemma TellsFailure(cfg: Config, r: Request, message: string, t: Trace)
    requires
      var b := FailureBundle(cfg, r, message);
      InTurn(t, Sql(Op.Fail(b)), Publish(cfg.serviceExchange, cfg.buildFailedKey, b.service),
             Publish(cfg.deploymentExchange, cfg.deploymentFailedKey, b.progress))
    ensures FailureTold(cfg, r, message, t) && (Succeeded(t) <==> !t[|t| - 1].outcome.Err?)
  {
    FailureSays(cfg, r, message);
    hide FailureBundle, IsFailure;
  }

  lemma TellsSuccess(cfg: Config, r: Request, result: BuildResult, t: Trace)
    requires
      var b := SuccessBundle(cfg, r, result);
      InTurn(t, Sql(Op.Complete(b)), Publish(cfg.serviceExchange, cfg.buildSucceededKey, b.service),
             Publish(cfg.deploymentExchange, cfg.deploymentSucceededKey, b.progress))
    ensures SuccessTold(cfg, r, result, t) && (Succeeded(t) <==> !t[|t| - 1].outcome.Err?)
  {
    SuccessSays(cfg, r, result);
    hide SuccessBundle, IsSuccess;
  }

  /** The failure of any site: the calls up to the first error, but no more than three, are those of the script,
      and the rest of the delivery starts from where they leave it. */
  lemma FailuresFollowTheirScript(cfg: Config, m: Message, site: Site, message: string, t: Trace)
    requires cfg.Valid() && Follow(cfg, m, Failing(site, message), t).Some?
    ensures
      var n := if UpToError(t) < 3 then UpToError(t) else 3;
      && (forall i :: 0 <= i < n ==> FailureCall(cfg, RequestOf(m), message, t[..n], i))
      && Follow(cfg, m, Failing(site, message), t) ==
           Follow(cfg, m,
                  if Succeeded(t[..n]) then FailurePoint(site, message, n)
                  else FailureBreak(site, message, n - 1, t[n - 1].outcome.reason),
                  t[n..])
  {
    hide FailureCall, FailureBreak, FailurePoint, CallAt, After, Follow;
    var n := if UpToError(t) < 3 then UpToError(t) else 3;
    assert t == t[..n] + t[n..];
    assert AllButLastSucceeded(t[..UpToError(t)]);
    assert forall i :: 0 <= i < n - 1 ==> t[..n][i] == t[..UpToError(t)][i];
    FollowSplits(cfg, m, Failing(site, message), t[..n], t[n..]);
    UnbrokenFailure(cfg, m, site, message, t[..n]);
    if !Succeeded(t[..n]) {
      assert t[..n][n - 1] == t[n - 1];
    }
  }

  // ------------------------------------------------------------------ copies of the message

  /** n is what 32 bits keep of the attempt. */
  predicate Truncated(n: int, attempt: int) {
    -0x8000_0000 <= n < 0x8000_0000 && (n - attempt) % 0x1_0000_0000 == 0
  }

  /** The message itself under two more headers: the attempt, and a reason under the given name. */
  predicate Labelled(copy: Message, m: Message, attempt: int, name: string, reason: string) {
    && copy.body == m.body && copy.contentType == m.contentType
    && copy.headers.Keys == m.headers.Keys + {"x-shiply-attempt", name}
    && copy.headers["x-shiply-attempt"].Int32? && Truncated(copy.headers["x-shiply-attempt"].n, attempt)
    && copy.headers[name] == Word(reason)
    && forall h :: h in m.headers && h != "x-shiply-attempt" && h != name ==> copy.headers[h] == m.headers[h]
  }

  lemma CopiesAreLabelled(m: Message, attempt: int, reason: string)
    ensures Labelled(RetryCopy(m, attempt, reason), m, attempt, "x-shiply-retry-reason", reason)
    ensures Labelled(DeadCopy(m, attempt, reason), m, attempt, "x-shiply-dead-letter-reason", reason)
  {
    assert ATTEMPT_HEADER[9] == 'a' && RETRY_REASON_HEADER[9] == 'r' && DEAD_LETTER_REASON_HEADER[9] == 'd';
  }

  // ------------------------------------------------------------------ a retry

  /** The attempt that a retry is: the durable count, or the header's if that is higher, and one more than the
      header's when the ledger cannot count. */
  function AttemptOf(m: Message, counted: Outcome): int {
    if counted.Answered? && counted.reply.Count? then
      if counted.reply.retries > Attempt(m) then counted.reply.retries else Attempt(m)
    else Attempt(m) + 1
  }

  /** Call i of scheduleRetry below the limit: count, announce, give the lease up, send the delayed copy to the
      queue of its number, and once more if that failed. */
  predicate RetryCall(cfg: Config, m: Message, cause: string, t: Trace, i: nat)
    requires i < |t|
  {
    var call, attempt := t[i].call, AttemptOf(m, t[0].outcome);
    match i
    case 0 => call == Sql(Op.RecordRetry)
    case 1 =>
      && call.Publish? && Addressed(cfg, call.exchange, call.key, DeploymentBuildRetrying)
      && SaysRetrying(RequestOf(m), call.event, attempt, cause)
    case 2 => call == Sql(Op.Release)
    case 3 => SendsLater(cfg, m, attempt, cause, call)
    case 4 => SendsLater(cfg, m, attempt, cause, call) && t[3].outcome.Err?
    case _ => false
  }

  predicate SendsLater(cfg: Config, m: Message, attempt: int, cause: string, call: Call) {
    && call.SendRetry? && Labelled(call.copy, m, attempt, "x-shiply-retry-reason", cause)
    && call.queue == cfg.retryQueuePrefix + "." +
         Integer(if attempt < |cfg.retryBackoffs| then attempt else |cfg.retryBackoffs|)
  }

  /** Where a retry stands after t. A Release that failed is only logged. */
  function RetryPoint(attempt: int, cause: string, t: Trace): Pc
    requires t != []
  {
    match |t|
    case 1 => EmittingRetry(attempt, cause)
    case 2 => if t[1].outcome.Err? then Over(Dropped) else Releasing(attempt, cause)
    case 3 => Republishing(attempt, cause, false)
    case 4 => if t[3].outcome.Err? then Republishing(attempt, cause, true) else Over(Moved)
    case _ => Over(if t[|t| - 1].outcome.Err? then Dropped else Moved)
  }

  lemma RetryCallStep(cfg: Config, m: Message, attempt: int, cause: string, t: Trace, e: Effect)
    requires cfg.Valid() && 1 <= attempt && t != [] && attempt == AttemptOf(m, t[0].outcome)
    requires !RetryPoint(attempt, cause, t).Over? && e.call == CallAt(cfg, m, RetryPoint(attempt, cause, t))
    ensures RetryCall(cfg, m, cause, t + [e], |t|)
  {
    hide After, SaysRetrying, NewDeploymentBuildRetrying, Labelled, RetryCopy, RequestOf, AttemptOf, Integer;
    RetryingSays(RequestOf(m), attempt, cause);
    CopiesAreLabelled(m, attempt, cause);
  }

  lemma RetryMove(cfg: Config, m: Message, attempt: int, cause: string, t: Trace, e: Effect)
    requires cfg.Valid() && t != [] && !RetryPoint(attempt, cause, t).Over?
    ensures |t| < 5
    ensures After(cfg, m, RetryPoint(attempt, cause, t), e.outcome) == RetryPoint(attempt, cause, t + [e])
  {
    hide CallAt, AfterClaim, AfterFailure, Attempt, Decide;
  }

  lemma RetryStarts(cfg: Config, m: Message, cause: string, o: Outcome)
    requires cfg.Valid()
    ensures CallAt(cfg, m, Recording(cause, true)) == Sql(Op.RecordRetry)
    ensures
      var attempt := AttemptOf(m, o);
      After(cfg, m, Recording(cause, true), o) ==
        if attempt >= cfg.maxAttempts then
          Failing(Exhausted(attempt, cause), "retry attempts exhausted: " + cause)
        else EmittingRetry(attempt, cause)
    ensures Attempt(m) >= 0 && (o.Answered? && o.reply.Count? ==> o.reply.retries >= 1) ==> AttemptOf(m, o) >= 1
  {
    hide Attempt;
  }

  /** scheduleRetry, once the ledger has answered the count or not: below the limit its calls are those of the
      script, each but the Release's successor only after the one before it succeeded, and the request is lost
      exactly when the announcement or both attempts to send the copy failed; at the limit the failure of the
      exhausted request is due. */
  lemma {:induction false} RetriesFollowTheirScript(cfg: Config, m: Message, cause: string, t: Trace)
    requires cfg.Valid() && Attempt(m) >= 0 && PositiveCounts(t) && t != []
    requires Follow(cfg, m, Recording(cause, true), t).Some?
    ensures t[0].call == Sql(Op.RecordRetry)
    ensures
      var attempt, end := AttemptOf(m, t[0].outcome), Follow(cfg, m, Recording(cause, true), t);
      if attempt >= cfg.maxAttempts then
        end == Follow(cfg, m, Failing(Exhausted(attempt, cause), "retry attempts exhausted: " + cause), t[1..])
      else
        && |t| <= 5 && end == Some(RetryPoint(attempt, cause, t))
        && forall i :: 0 <= i < |t| ==> RetryCall(cfg, m, cause, t, i)
  {
    hide CallAt, After, AttemptOf, RetryCall, RetryPoint, Follow, PositiveCounts;
    RetryBegins(cfg, m, cause, t);
    if AttemptOf(m, t[0].outcome) < cfg.maxAttempts {
      RetryGoesOn(cfg, m, cause, t);
    }
  }

  lemma RetryBegins(cfg: Config, m: Message, cause: string, t: Trace)
    requires cfg.Valid() && t != [] && Follow(cfg, m, Recording(cause, true), t).Some?
    ensures t[0].call == Sql(Op.RecordRetry)
    ensures Follow(cfg, m, Recording(cause, true), t)
      == Follow(cfg, m, After(cfg, m, Recording(cause, true), t[0].outcome), t[1..])
    ensures AttemptOf(m, t[0].outcome) >= cfg.maxAttempts ==>
      After(cfg, m, Recording(cause, true), t[0].outcome)
        == Failing(Exhausted(AttemptOf(m, t[0].outcome), cause), "retry attempts exhausted: " + cause)
  {
    hide CallAt, After, AttemptOf;
    assert t == [t[0]] + t[1..];
    FollowSplits(cfg, m, Recording(cause, true), [t[0]], t[1..]);
    LastStep(cfg, m, Recording(cause, true), [t[0]]);
    assert [t[0]][..0] == [];
    RetryStarts(cfg, m, cause, t[0].outcome);
  }

  lemma {:induction false} RetryGoesOn(cfg: Config, m: Message, cause: string, t: Trace)
    requires cfg.Valid() && Attempt(m) >= 0 && PositiveCounts(t) && t != []
    requires Follow(cfg, m, Recording(cause, true), t).Some?
    requires AttemptOf(m, t[0].outcome) < cfg.maxAttempts
    ensures |t| <= 5
    ensures Follow(cfg, m, Recording(cause, true), t) == Some(RetryPoint(AttemptOf(m, t[0].outcome), cause, t))
    ensures forall i :: 0 <= i < |t| ==> RetryCall(cfg, m, cause, t, i)
  {
    hide CallAt, After, AttemptOf, RetryCall, Follow, RetryPoint;
    var n, attempt := |t| - 1, AttemptOf(m, t[0].outcome);
    var init := t[..n];
    LastStep(cfg, m, Recording(cause, true), t);
    RetryStarts(cfg, m, cause, t[0].outcome);
    if n == 0 {
      RetryAlone(cfg, m, cause, t);
    } else {
      assert t == init + [t[n]] && init[0] == t[0];
      RetryGoesOn(cfg, m, cause, init);
      RetryMove(cfg, m, attempt, cause, init, t[n]);
      RetryCallStep(cfg, m, attempt, cause, init, t[n]);
      forall i | 0 <= i < |t|
        ensures RetryCall(cfg, m, cause, t, i)
      {
        if i < n {
          RetryCallKept(cfg, m, cause, init, t[n], i);
        }
      }
    }
  }

  lemma RetryCallKept(cfg: Config, m: Message, cause: string, init: Trace, e: Effect, i: nat)
    requires i < |init| && RetryCall(cfg, m, cause, init, i)
    ensures RetryCall(cfg, m, cause, init + [e], i)
  {
    hide SendsLater, SaysRetrying, AttemptOf;
    assert (init + [e])[i] == init[i] && (init + [e])[0] == init[0];
    if i > 3 {
      assert (init + [e])[3] == init[3];
    }
  }

  lemma RetryAlone(cfg: Config, m: Message, cause: string, t: Trace)
    requires cfg.Valid() && |t| == 1 && Follow(cfg, m, Recording(cause, true), t).Some?
    requires AttemptOf(m, t[0].outcome) < cfg.maxAttempts
    ensures RetryCall(cfg, m, cause, t, 0)
    ensures Follow(cfg, m, Recording(cause, true), t) == Some(RetryPoint(AttemptOf(m, t[0].outcome), cause, t))
  {
    hide CallAt, After, AttemptOf;
    assert t[..0] == [];
    LastStep(cfg, m, Recording(cause, true), t);
    RetryStarts(cfg, m, cause, t[0].outcome);
  }

  // ------------------------------------------------------------------ what cannot be claimed

  /** Not a request that can be claimed, and why: it does not decode, names no deployment, or has no address to
      clone from. */
  function Complaint(b: Body): Option<string> {
    match b
    case Undecodable(raw) => Some("decode build event: " + raw)
    case Decoded(r) =>
      if TrimSpace(r.deploymentId) == "" then Some("missing deploymentId")
      else if TrimSpace(r.payload.cloneUrl) == "" && TrimSpace(r.payload.repositoryUrl) == "" then
        Some("missing clone url")
      else None
  }

  lemma AcceptableExactly(b: Body)
    ensures Acceptable(b) <==> Complaint(b).None?
    ensures Complaint(b).Some? ==> Complaint(b) == Some(RejectReason(b))
  {
    hide TrimSpace;
  }

  /** Call i for a malformed message: a copy to the dead-letter queue under its own attempt; then an Ack if that
      was sent, and otherwise a Nack that does not put it back. */
  predicate MalformedCall(m: Message, reason: string, t: Trace, i: nat)
    requires i < |t|
  {
    var call := t[i].call;
    match i
    case 0 => call.SendDlq? && Labelled(call.copy, m, Attempt(m), "x-shiply-dead-letter-reason", reason)
    case 1 => call == if t[0].outcome.Err? then Nack(false) else Ack
    case _ => false
  }

  /** A message that cannot be claimed is copied to the dead-letter queue and acknowledged, or dropped if it cannot
      be copied; it comes back only if the broker does not take that answer. */
  lemma {:induction false} MalformedFollowTheirScript(cfg: Config, m: Message, t: Trace)
    requires cfg.Valid() && Complaint(m.body).Some? && Follow(cfg, m, Start(m), t).Some?
    ensures |t| <= 2 && forall i :: 0 <= i < |t| ==> MalformedCall(m, Complaint(m.body).value, t, i)
    ensures Follow(cfg, m, Start(m), t).value == MalformedPoint(t)
  {
    hide CallAt, After, Acceptable, Complaint, Labelled, Follow;
    MalformedStarts(cfg, m);
    if t != [] {
      var n := |t| - 1;
      var init := t[..n];
      LastStep(cfg, m, Start(m), t);
      MalformedFollowTheirScript(cfg, m, init);
      assert forall i :: 0 <= i < n ==> t[i] == init[i];
      MalformedStep(cfg, m, init, t[n]);
      assert t == init + [t[n]];
      forall i | 0 <= i < |t|
        ensures MalformedCall(m, Complaint(m.body).value, t, i)
      {
        if i < n {
          assert MalformedCall(m, Complaint(m.body).value, init, i);
        }
      }
    }
  }

  lemma MalformedIsNotClaimed(cfg: Config, m: Message, t: Trace)
    requires cfg.Valid() && !Acceptable(m.body) && Follow(cfg, m, Start(m), t).Some?
    ensures !ClaimedAndAcked(cfg, t)
  {
    hide Follow, Complaint, Labelled, Acceptable;
    AcceptableExactly(m.body);
    MalformedFollowTheirScript(cfg, m, t);
    assert t != [] ==> MalformedCall(m, Complaint(m.body).value, t, 0);
  }

  function MalformedPoint(t: Trace): Pc {
    match |t|
    case 0 => CopyingMalformed
    case 1 => if t[0].outcome.Err? then Discarding else AckingMalformed
    case _ => Over(if t[1].outcome.Err? then Requeued else if t[0].outcome.Err? then Dropped else Moved)
  }

  lemma MalformedStarts(cfg: Config, m: Message)
    requires cfg.Valid() && Complaint(m.body).Some?
    ensures Follow(cfg, m, Start(m), []) == Some(CopyingMalformed)
  {
    AcceptableExactly(m.body);
    hide Acceptable, Complaint;
  }

  lemma MalformedStep(cfg: Config, m: Message, t: Trace, e: Effect)
    requires cfg.Valid() && Complaint(m.body).Some? && !MalformedPoint(t).Over?
    requires e.call == CallAt(cfg, m, MalformedPoint(t))
    ensures |t| < 2 && MalformedCall(m, Complaint(m.body).value, t + [e], |t|)
    ensures After(cfg, m, MalformedPoint(t), e.outcome) == MalformedPoint(t + [e])
  {
    AcceptableExactly(m.body);
    CopiesAreLabelled(m, Attempt(m), RejectReason(m.body));
    hide Acceptable, Complaint, RejectReason, Labelled, DeadCopy, Attempt;
  }

  // ------------------------------------------------------------------ whose results are told

  /** A build of this delivery ended with the result. */
  ghost predicate BuiltIn(t: Trace, result: BuildResult) {
    exists i :: 0 <= i < |t| && IsBuild(t[i], result)
  }

  predicate IsBuild(e: Effect, result: BuildResult) {
    e.call == Build && !e.outcome.Err? && result == if e.outcome.Finished? then e.outcome.result else NO_RESULT
  }

  /** The event is told of the delivery's own request, and a success of its own build. */
  ghost predicate OwnEvent(cfg: Config, r: Request, t: Trace, call: Call)
    requires call.Publish?
  {
    && Addressed(cfg, call.exchange, call.key, call.event.eventType) && Genuine(r, call.event)
    && (call.event.details.Image? ==> BuiltIn(t, call.event.details.result))
  }

  /** The call publishes one half of a bundle, under the key stored with it. */
  predicate HalfOf(cfg: Config, b: Bundle, call: Call) {
    || call == Publish(cfg.serviceExchange, b.serviceKey, b.service)
    || call == Publish(cfg.deploymentExchange, b.progressKey, b.progress)
  }

  /** The delivery's claim, its first call, was answered with b. */
  predicate Replays(cfg: Config, t: Trace, b: Bundle) {
    t != [] && t[0].call == Sql(Op.Claim(cfg.leaseDuration)) && Stored(t[0].outcome, b)
  }

  /** The bundle is a result of the delivery's own request. */
  ghost predicate OwnResult(cfg: Config, r: Request, t: Trace, op: Op) {
    match op
    case Complete(b) => exists result :: BuiltIn(t, result) && IsSuccess(cfg, r, result, b)
    case Fail(b) => exists message :: IsFailure(cfg, r, message, b)
    case _ => true
  }

  /** What a control point knows of the calls so far. */
  ghost predicate Recalls(cfg: Config, t: Trace, pc: Pc) {
    match pc
    case Claiming => t == []
    case Completing(result) => BuiltIn(t, result)
    case Announcing(result) => BuiltIn(t, result)
    case Reporting(result) => BuiltIn(t, result)
    case ReplayingService(b) => Replays(cfg, t, b)
    case ReplayingProgress(b) => Replays(cfg, t, b)
    case _ => true
  }

  lemma RecallsMore(cfg: Config, m: Message, t: Trace, pc: Pc, e: Effect)
    requires cfg.Valid() && !pc.Over? && Recalls(cfg, t, pc) && e.call == CallAt(cfg, m, pc)
    ensures Recalls(cfg, t + [e], After(cfg, m, pc, e.outcome))
  {
    hide After, CallAt, BuiltIn, Replays, IsBuild;
    var next := After(cfg, m, pc, e.outcome);
    WhatIsRecalled(cfg, m, pc, e.outcome);
    if pc.Claiming? {
      ClaimIsRecalled(cfg, m, t, e);
    } else if next.Completing? {
      BuildIsRecalled(t, e, next.result);
    } else if next.Announcing? || next.Reporting? {
      BuiltInMore(t, e, next.result);
    } else if next.ReplayingProgress? {
      ReplaysMore(cfg, t, e, next.stored);
    }
  }

  /** Where these points come from. */
  lemma WhatIsRecalled(cfg: Config, m: Message, pc: Pc, o: Outcome)
    requires cfg.Valid() && !pc.Over?
    ensures
      var next := After(cfg, m, pc, o);
      && !next.Claiming?
      && (next.Completing? ==>
            && pc.Building? && !o.Err? && CallAt(cfg, m, pc) == Build
            && next.result == if o.Finished? then o.result else NO_RESULT)
      && (next.Announcing? ==> pc.Completing? && next.result == pc.result)
      && (next.Reporting? ==> pc.Announcing? && next.result == pc.result)
      && (next.ReplayingService? ==> pc.Claiming? && Stored(o, next.stored))
      && (next.ReplayingProgress? ==> pc.ReplayingService? && next.stored == pc.stored)
  {
    hide Attempt, RequestOf, SuccessBundle, FailureBundle, RetryQueue, RetryCopy, DeadCopy;
  }

  lemma ClaimIsRecalled(cfg: Config, m: Message, t: Trace, e: Effect)
    requires cfg.Valid() && t == [] && e.call == CallAt(cfg, m, Claiming)
    ensures Recalls(cfg, t + [e], After(cfg, m, Claiming, e.outcome))
  {
    ClaimingMoves(cfg, m, e.outcome);
    WhatIsRecalled(cfg, m, Claiming, e.outcome);
    assert (t + [e])[0] == e;
    hide After, CallAt;
  }

  lemma BuildIsRecalled(t: Trace, e: Effect, result: BuildResult)
    requires e.call == Build && !e.outcome.Err?
    requires result == if e.outcome.Finished? then e.outcome.result else NO_RESULT
    ensures BuiltIn(t + [e], result)
  {
    assert (t + [e])[|t|] == e;
  }

  lemma BuiltInMore(t: Trace, e: Effect, result: BuildResult)
    requires BuiltIn(t, result)
    ensures BuiltIn(t + [e], result)
  {
    var i :| 0 <= i < |t| && IsBuild(t[i], result);
    assert (t + [e])[i] == t[i];
  }

  lemma ReplaysMore(cfg: Config, t: Trace, e: Effect, b: Bundle)
    requires Replays(cfg, t, b)
    ensures Replays(cfg, t + [e], b)
  {
    assert (t + [e])[0] == t[0];
  }

  lemma {:induction false} PathsRecall(cfg: Config, m: Message, t: Trace)
    requires cfg.Valid() && Follow(cfg, m, Start(m), t).Some?
    ensures Recalls(cfg, t, Follow(cfg, m, Start(m), t).value)
  {
    hide CallAt, After, BuiltIn, Replays, Acceptable, Recalls;
    if t == [] {
      StartRecalls(cfg, m);
    } else {
      var n := |t| - 1;
      LastStep(cfg, m, Start(m), t);
      PathsRecall(cfg, m, t[..n]);
      RecallsMore(cfg, m, t[..n], Follow(cfg, m, Start(m), t[..n]).value, t[n]);
      assert t == t[..n] + [t[n]];
    }
  }

  lemma StartRecalls(cfg: Config, m: Message)
    ensures Recalls(cfg, [], Start(m))
  {
  }

  /** What is said at each control point. */
  lemma PointsSay(cfg: Config, m: Message, t: Trace, pc: Pc)
    requires cfg.Valid() && !pc.Over? && Recalls(cfg, t, pc)
    ensures
      var call := CallAt(cfg, m, pc);
      && (call.Publish? ==>
            if pc.ReplayingService? || pc.ReplayingProgress? then
              HalfOf(cfg, pc.stored, call) && Replays(cfg, t, pc.stored)
            else OwnEvent(cfg, RequestOf(m), t, call))
      && (call.Sql? ==> OwnResult(cfg, RequestOf(m), t, call.op))
  {
    if pc.Completing? || pc.Announcing? || pc.Reporting? {
      SuccessPointsSay(cfg, m, t, pc);
    } else if pc.Failing? || pc.AnnouncingFailure? || pc.ReportingFailure? {
      FailurePointsSay(cfg, m, t, pc);
    } else {
      OtherPointsSay(cfg, m, t, pc);
    }
  }

  lemma SuccessPointsSay(cfg: Config, m: Message, t: Trace, pc: Pc)
    requires cfg.Valid() && (pc.Completing? || pc.Announcing? || pc.Reporting?) && BuiltIn(t, pc.result)
    ensures
      var call := CallAt(cfg, m, pc);
      && (call.Publish? ==> OwnEvent(cfg, RequestOf(m), t, call))
      && (call.Sql? ==> OwnResult(cfg, RequestOf(m), t, call.op))
  {
    var r := RequestOf(m);
    SuccessSays(cfg, r, pc.result);
    hide RequestOf, BuiltIn, Names, EventId, FirstNonEmpty;
  }

  lemma FailurePointsSay(cfg: Config, m: Message, t: Trace, pc: Pc)
    requires cfg.Valid() && (pc.Failing? || pc.AnnouncingFailure? || pc.ReportingFailure?)
    ensures
      var call := CallAt(cfg, m, pc);
      && (call.Publish? ==> OwnEvent(cfg, RequestOf(m), t, call))
      && (call.Sql? ==> OwnResult(cfg, RequestOf(m), t, call.op))
  {
    var r := RequestOf(m);
    FailureSays(cfg, r, pc.message);
    hide RequestOf, BuiltIn, Names, EventId, FirstNonEmpty;
  }

  lemma OtherPointsSay(cfg: Config, m: Message, t: Trace, pc: Pc)
    requires cfg.Valid() && !pc.Over? && !pc.Completing? && !pc.Announcing? && !pc.Reporting?
    requires !pc.Failing? && !pc.AnnouncingFailure? && !pc.ReportingFailure? && Recalls(cfg, t, pc)
    ensures
      var call := CallAt(cfg, m, pc);
      && (call.Publish? ==>
            if pc.ReplayingService? || pc.ReplayingProgress? then
              HalfOf(cfg, pc.stored, call) && Replays(cfg, t, pc.stored)
            else OwnEvent(cfg, RequestOf(m), t, call))
      && (call.Sql? ==> OwnResult(cfg, RequestOf(m), t, call.op))
  {
    var r := RequestOf(m);
    StartSays(r);
    if pc.EmittingRetry? {
      RetryingSays(r, pc.attempt, pc.cause);
    }
    hide RequestOf, BuiltIn, Replays, Names, EventId, FirstNonEmpty, RetryQueue, RetryCopy, DeadCopy, Attempt;
  }

  /** Every publication of a delivery is told of its own request, a success of its own build, or is one half of
      the bundle that its claim was answered with; every result it stores is its own. */
  lemma CallsAreGenuine(cfg: Config, m: Message, t: Trace, i: nat)
    requires cfg.Valid() && Follow(cfg, m, Start(m), t).Some? && i < |t|
    ensures t[i].call.Publish? ==>
      || OwnEvent(cfg, RequestOf(m), t[..i], t[i].call)
      || exists b :: Replays(cfg, t[..i], b) && HalfOf(cfg, b, t[i].call)
    ensures t[i].call.Sql? ==> OwnResult(cfg, RequestOf(m), t[..i], t[i].call.op)
  {
    hide CallAt, After, BuiltIn, Replays, Acceptable, Recalls, OwnEvent, OwnResult, HalfOf, Follow;
    var done := t[..i + 1];
    assert t == done + t[i + 1..];
    FollowSplits(cfg, m, Start(m), done, t[i + 1..]);
    LastStep(cfg, m, Start(m), done);
    assert done[..i] == t[..i];
    PathsRecall(cfg, m, t[..i]);
    PointsSay(cfg, m, t[..i], Follow(cfg, m, Start(m), t[..i]).value);
  }
}
