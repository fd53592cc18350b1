/** The life of one delivery, one external call at a time (build_consumer.go).

    CallAt names the call made at a control point, After the control point its outcome leads to.
    The Consumer module shows that the methods of the consumer make exactly these calls; the
    Protocol module interleaves any number of deliveries. */
module Stage {
  import opened Options
  import opened Text
  import opened Events
  import opened Ledger
  import opened Config

  datatype HeaderValue = Int32(n: int) | Int64(n: int) | Int(n: int) | Word(text: string)

  type Headers = map<string, HeaderValue>

  /** A body that does not decode is kept as it came. */
  datatype Body = Undecodable(raw: string) | Decoded(request: Request)

  datatype Message = Message(body: Body, headers: Headers, contentType: string)

  const ATTEMPT_HEADER := "x-shiply-attempt"
  const RETRY_REASON_HEADER := "x-shiply-retry-reason"
  const DEAD_LETTER_REASON_HEADER := "x-shiply-dead-letter-reason"

  function HeaderAttempt(h: Headers): int {
    if ATTEMPT_HEADER !in h then 0
    else match h[ATTEMPT_HEADER]
      case Int32(n) => n
      case Int64(n) => n
      case Int(n) => n
      case Word(_) => 0
  }

  function Attempt(m: Message): int {
    HeaderAttempt(m.headers)
  }

  /** Go's conversion to int32. */
  function ToInt32(n: int): int {
    (n + 0x8000_0000) % 0x1_0000_0000 - 0x8000_0000
  }

  /** The copy that goes to a retry queue. */
  function RetryCopy(m: Message, attempt: int, cause: string): Message {
    m.(headers := m.headers[ATTEMPT_HEADER := Int32(ToInt32(attempt))][RETRY_REASON_HEADER := Word(cause)])
  }

  /** The copy that goes to the dead-letter queue. */
  function DeadCopy(m: Message, attempt: int, cause: string): Message {
    m.(headers := m.headers[DEAD_LETTER_REASON_HEADER := Word(cause)][ATTEMPT_HEADER := Int32(ToInt32(attempt))])
  }

  /** The attempt survives the header exactly when it fits 32 bits. Of a header that others have set, every type of
      number is read, and anything else is no attempt. */
  lemma HeaderRoundTrip(m: Message, attempt: int, cause: string)
    ensures Attempt(RetryCopy(m, attempt, cause)) == attempt <==> -0x8000_0000 <= attempt < 0x8000_0000
    ensures Attempt(DeadCopy(m, attempt, cause)) == attempt <==> -0x8000_0000 <= attempt < 0x8000_0000
    ensures forall v :: v in [Int32(attempt), Int64(attempt), Int(attempt)] ==>
      HeaderAttempt(m.headers[ATTEMPT_HEADER := v]) == attempt
    ensures HeaderAttempt(m.headers[ATTEMPT_HEADER := Word(cause)]) == 0 == HeaderAttempt(map[])
  {
    assert ATTEMPT_HEADER[9] == 'a' && RETRY_REASON_HEADER[9] == 'r' && DEAD_LETTER_REASON_HEADER[9] == 'd';
  }

  /** validateBuildPayload and the deployment id check: what acceptDelivery will claim. */
  predicate Acceptable(b: Body) {
    && b.Decoded?
    && TrimSpace(b.request.deploymentId) != ""
    && (TrimSpace(b.request.payload.cloneUrl) != "" || TrimSpace(b.request.payload.repositoryUrl) != "")
  }

  function RejectReason(b: Body): string {
    match b
    case Undecodable(raw) => "decode build event: " + raw
    case Decoded(r) => if TrimSpace(r.deploymentId) == "" then "missing deploymentId" else "missing clone url"
  }

  /** Decoding into a zero value that a failed decode leaves untouched. */
  function RequestOf(m: Message): Request {
    match m.body
    case Decoded(r) => r
    case Undecodable(_) => Request("", "", "", "", "", Payload("", "", "", "", "", "", 0))
  }

  datatype Call =
    | Sql(op: Op)
    | Publish(exchange: string, key: string, event: Event)
    | SendRetry(queue: string, copy: Message)
    | SendDlq(copy: Message)
    | Ack
    | Nack(requeue: bool)
    | TakeJob
    | MakeWorkdir
    | Clone
    | Build

  /** Finished names the built image of a Build; Answered is the reply to a ledger statement. */
  datatype Outcome =
    | Ok
    | Err(reason: string)
    | Finished(result: BuildResult)
    | Answered(reply: Reply)

  /** What completeFailure was called for; the exhausted site carries scheduleRetry's variables. */
  datatype Site = BeforeBuild | InBuild | Exhausted(attempt: int, cause: string)

  /** Where a delivery ends: nothing left to do, back on the main queue, lost, or moved to a retry
      queue or the dead-letter queue by the call just made. */
  datatype End = Settled | Requeued | Dropped | Moved

  datatype Pc =
    | Claiming
    | ReplayingService(stored: Bundle)
    | ReplayingProgress(stored: Bundle)
    | AckingReplay
    | Nacking
    | AckingClaim
    | CopyingMalformed
    | AckingMalformed
    | Discarding
    | Queued
    | Starting
    | MakingWorkdir
    | Cloning
    | Building
    | Completing(result: BuildResult)
    | Announcing(result: BuildResult)
    | Reporting(result: BuildResult)
    | Failing(site: Site, message: string)
    | AnnouncingFailure(site: Site, message: string)
    | ReportingFailure(site: Site, message: string)
    | Recording(cause: string, counted: bool)
    | EmittingRetry(attempt: int, cause: string)
    | Releasing(attempt: int, cause: string)
    | Republishing(attempt: int, cause: string, onConsumerChannel: bool)
    | DeadLettering(attempt: int, cause: string)
    | Over(end: End)

  /** makeBuildResultEvents for a success. */
  function SuccessBundle(cfg: Config, r: Request, result: BuildResult): Bundle {
    Bundle(cfg.buildSucceededKey, NewBuildSucceeded(r, result),
           cfg.deploymentSucceededKey, NewDeploymentBuildSucceeded(r, result))
  }

  /** makeBuildResultEvents for a failure; completeFailure is always given the empty result. */
  function FailureBundle(cfg: Config, r: Request, message: string): Bundle {
    Bundle(cfg.buildFailedKey, NewBuildFailed(r, NO_RESULT, message),
           cfg.deploymentFailedKey, NewDeploymentBuildFailed(r, NO_RESULT, message))
  }

  /** The name of retry queue number i, counted from 1. */
  function RetryQueue(cfg: Config, i: int): string {
    cfg.retryQueuePrefix + "." + Integer(i)
  }

  /** The number of the queue an attempt is sent to: its own or the last one, and 1 for attempt 0. For a
      negative attempt the number is not positive. */
  function QueueNumber(cfg: Config, attempt: int): int {
    var idx := if attempt > 0 then attempt - 1 else attempt;
    (if idx >= |cfg.retryBackoffs| then |cfg.retryBackoffs| - 1 else idx) + 1
  }

  function CallAt(cfg: Config, m: Message, pc: Pc): Call
    requires cfg.Valid() && !pc.Over?
  {
    var r := RequestOf(m);
    match pc
    case Claiming => Sql(Op.Claim(cfg.leaseDuration))
    case ReplayingService(b) => Publish(cfg.serviceExchange, b.serviceKey, b.service)
    case ReplayingProgress(b) => Publish(cfg.deploymentExchange, b.progressKey, b.progress)
    case AckingReplay => Ack
    case Nacking => Nack(true)
    case AckingClaim => Ack
    case CopyingMalformed => SendDlq(DeadCopy(m, Attempt(m), RejectReason(m.body)))
    case AckingMalformed => Ack
    case Discarding => Nack(false)
    case Queued => TakeJob
    case Starting => Publish(cfg.deploymentExchange, cfg.deploymentStartedKey, NewDeploymentBuildStarted(r))
    case MakingWorkdir => MakeWorkdir
    case Cloning => Clone
    case Building => Build
    case Completing(result) => Sql(Op.Complete(SuccessBundle(cfg, r, result)))
    case Announcing(result) => Publish(cfg.serviceExchange, cfg.buildSucceededKey, NewBuildSucceeded(r, result))
    case Reporting(result) =>
      Publish(cfg.deploymentExchange, cfg.deploymentSucceededKey, NewDeploymentBuildSucceeded(r, result))
    case Failing(_, message) => Sql(Op.Fail(FailureBundle(cfg, r, message)))
    case AnnouncingFailure(_, message) =>
      Publish(cfg.serviceExchange, cfg.buildFailedKey, NewBuildFailed(r, NO_RESULT, message))
    case ReportingFailure(_, message) =>
      Publish(cfg.deploymentExchange, cfg.deploymentFailedKey, NewDeploymentBuildFailed(r, NO_RESULT, message))
    case Recording(_, _) => Sql(Op.RecordRetry)
    case EmittingRetry(attempt, cause) =>
      Publish(cfg.deploymentExchange, cfg.deploymentRetryingKey, NewDeploymentBuildRetrying(r, attempt, cause))
    case Releasing(_, _) => Sql(Op.Release)
    case Republishing(attempt, cause, _) =>
      SendRetry(RetryQueue(cfg, QueueNumber(cfg, attempt)), RetryCopy(m, attempt, cause))
    case DeadLettering(attempt, cause) => SendDlq(DeadCopy(m, attempt, cause))
  }

  /** scheduleRetry's choice once the attempt is known. */
  function Decide(cfg: Config, attempt: int, cause: string, counted: bool): Pc {
    if attempt >= cfg.maxAttempts then
      if counted then Failing(Exhausted(attempt, cause), "retry attempts exhausted: " + cause)
      else DeadLettering(attempt, cause)
    else if counted then EmittingRetry(attempt, cause)
    else Republishing(attempt, cause, false)
  }

  /** What the callers of completeFailure do with its action. */
  function AfterFailure(site: Site, message: string, problem: Option<string>): Pc {
    match site
    case BeforeBuild => if problem.None? then Over(Settled) else Recording(problem.value, true)
    case InBuild => Over(Settled)
    case Exhausted(attempt, cause) => if problem.None? then DeadLettering(attempt, cause) else Over(Dropped)
  }

  function AfterClaim(reply: Reply): Pc {
    match reply
    case Claimed(Acquired, _) => AckingClaim
    case Claimed(Busy, _) => Nacking
    case Claimed(_, row) => if row.result.Some? then ReplayingService(row.result.value) else Nacking
    case _ => Nacking
  }

  function After(cfg: Config, m: Message, pc: Pc, o: Outcome): Pc
    requires cfg.Valid() && !pc.Over?
  {
    match pc
    case Claiming => if o.Answered? then AfterClaim(o.reply) else Nacking
    case ReplayingService(b) => if o.Err? then Nacking else ReplayingProgress(b)
    case ReplayingProgress(_) => if o.Err? then Nacking else AckingReplay
    case AckingReplay => Over(if o.Err? then Requeued else Settled)
    case Nacking => Over(Requeued)
    case AckingClaim => if o.Err? then Over(Requeued) else Queued
    case CopyingMalformed => if o.Err? then Discarding else AckingMalformed
    case AckingMalformed => Over(if o.Err? then Requeued else Moved)
    case Discarding => Over(if o.Err? then Requeued else Dropped)
    case Queued => Starting
    case Starting => if o.Err? then Recording("publish build started event: " + o.reason, true) else MakingWorkdir
    case MakingWorkdir => if o.Err? then Failing(BeforeBuild, "create workdir: " + o.reason) else Cloning
    case Cloning => if o.Err? then Failing(BeforeBuild, o.reason) else Building
    case Building =>
      (match o
       case Finished(result) => Completing(result)
       case Err(reason) => Failing(InBuild, reason)
       case _ => Completing(NO_RESULT))
    case Completing(result) =>
      if o.Err? then Recording("persist build result: " + o.reason, true) else Announcing(result)
    case Announcing(result) =>
      if o.Err? then Recording("publish build succeeded event: " + o.reason, true) else Reporting(result)
    case Reporting(_) =>
      if o.Err? then Recording("publish deployment build succeeded event: " + o.reason, true) else Over(Settled)
    case Failing(site, message) =>
      if o.Err? then AfterFailure(site, message, Some("persist build failure: " + o.reason))
      else AnnouncingFailure(site, message)
    case AnnouncingFailure(site, message) =>
      if o.Err? then AfterFailure(site, message, Some(message + "; publish build failed event: " + o.reason))
      else ReportingFailure(site, message)
    case ReportingFailure(site, message) =>
      AfterFailure(site, message,
        if o.Err? then Some(message + "; publish deployment build failed event: " + o.reason) else None)
    case Recording(cause, counted) =>
      var h := Attempt(m);
      if o.Answered? && o.reply.Count? then
        Decide(cfg, if o.reply.retries > h then o.reply.retries else h, cause, counted)
      else Decide(cfg, h + 1, cause, counted)
    case EmittingRetry(attempt, cause) => if o.Err? then Over(Dropped) else Releasing(attempt, cause)
    case Releasing(attempt, cause) => Republishing(attempt, cause, false)
    case Republishing(attempt, cause, again) =>
      if !o.Err? then Over(Moved) else if again then Over(Dropped) else Republishing(attempt, cause, true)
    case DeadLettering(_, _) => Over(if o.Err? then Dropped else Moved)
  }

  /** Where acceptDelivery starts. */
  function Start(m: Message): Pc {
    if Acceptable(m.body) then Claiming else CopyingMalformed
  }
}
