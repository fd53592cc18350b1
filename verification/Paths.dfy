/** What the sequences of calls of one delivery have in common, whatever the outcomes. */
module Paths {
  import opened Options
  import opened Events
  import opened Ledger
  import opened Config
  import opened Stage

  /** A call made, what came of it, and the clock when it took effect. */
  datatype Effect = Effect(call: Call, outcome: Outcome, at: int)

  type Trace = seq<Effect>

  /** The control point reached by t from pc, if every call of t is the one due. */
  function Follow(cfg: Config, m: Message, pc: Pc, t: Trace): Option<Pc>
    requires cfg.Valid()
  {
    if t == [] then Some(pc)
    else
      var last := t[|t| - 1];
      match Follow(cfg, m, pc, t[..|t| - 1])
      case None => None
      case Some(at) =>
        if !at.Over? && last.call == CallAt(cfg, m, at) then Some(After(cfg, m, at, last.outcome)) else None
  }

  /** Two stretches of a delivery make one. */
  lemma {:induction false} FollowConcat(cfg: Config, m: Message, pc: Pc, t: Trace, u: Trace)
    requires cfg.Valid() && Follow(cfg, m, pc, t).Some?
    ensures Follow(cfg, m, pc, t + u) == Follow(cfg, m, Follow(cfg, m, pc, t).value, u)
  {
    if u == [] {
      assert t + u == t;
    } else {
      var n := |u| - 1;
      FollowConcat(cfg, m, pc, t, u[..n]);
      assert (t + u)[..|t + u| - 1] == t + u[..n];
      assert (t + u)[|t + u| - 1] == u[n];
    }
  }

  /** The ledger statement an effect stands for; a refused statement stands for none. */
  function StatementOf(id: string, e: Effect): Option<Statement> {
    if e.call.Sql? && e.outcome.Answered? then Some(Statement(id, STAGE, e.call.op, e.at)) else None
  }

  function ApplyEffect(t: Table, id: string, e: Effect): Table {
    match StatementOf(id, e)
    case None => t
    case Some(s) => SqlTable(t, s)
  }

  /** The ledger after the statements of a path. */
  function ApplyTrace(t: Table, id: string, trace: Trace): Table {
    if trace == [] then t else
      ApplyEffect(ApplyTrace(t, id, trace[..|trace| - 1]), id, trace[|trace| - 1])
  }

  lemma ApplyNothing(t: Table, id: string)
    ensures ApplyTrace(t, id, []) == t
  {
  }

  lemma ApplyAppend(t: Table, id: string, trace: Trace, e: Effect)
    ensures ApplyTrace(t, id, trace + [e]) == ApplyEffect(ApplyTrace(t, id, trace), id, e)
  {
    assert (trace + [e])[..|trace|] == trace;
  }

  predicate IsCopy(e: Effect) {
    (e.call.SendRetry? || e.call.SendDlq?) && !e.outcome.Err?
  }

  /** Successful publications of the message to a retry queue or the dead-letter queue. */
  function Copies(t: Trace): nat {
    if t == [] then 0 else Copies(t[..|t| - 1]) + (if IsCopy(t[|t| - 1]) then 1 else 0)
  }

  /** The same message apart from the two headers the service owns. */
  predicate SameMessage(copy: Message, m: Message, reasonHeader: string) {
    && copy.body == m.body && copy.contentType == m.contentType
    && copy.headers.Keys == m.headers.Keys + {ATTEMPT_HEADER, reasonHeader}
    && forall h :: h in m.headers && h != ATTEMPT_HEADER && h != reasonHeader ==> copy.headers[h] == m.headers[h]
  }

  /** A copy that may be sent: the body unchanged; on a retry queue, an attempt below the maximum
      (and so readable from the header) in the queue of its number. */
  predicate ProperCopy(cfg: Config, m: Message, call: Call)
    requires cfg.Valid()
  {
    match call
    case SendRetry(queue, copy) =>
      && SameMessage(copy, m, RETRY_REASON_HEADER)
      && 1 <= Attempt(copy) < cfg.maxAttempts
      && Attempt(copy) >= Attempt(m)
      && queue == RetryQueue(cfg, if Attempt(copy) < |cfg.retryBackoffs| then Attempt(copy) else |cfg.retryBackoffs|)
    case SendDlq(copy) => SameMessage(copy, m, DEAD_LETTER_REASON_HEADER)
    case _ => true
  }

  /** The control points of scheduleRetry, with what is known of its attempt variable there. */
  predicate InRetry(cfg: Config, m: Message, pc: Pc) {
    match pc
    case Recording(_, _) => true
    case Failing(Exhausted(a, _), _) => a >= cfg.maxAttempts
    case AnnouncingFailure(Exhausted(a, _), _) => a >= cfg.maxAttempts
    case ReportingFailure(Exhausted(a, _), _) => a >= cfg.maxAttempts
    case EmittingRetry(a, _) => 1 <= a < cfg.maxAttempts && Attempt(m) <= a
    case Releasing(a, _) => 1 <= a < cfg.maxAttempts && Attempt(m) <= a
    case Republishing(a, _, _) => 1 <= a < cfg.maxAttempts && Attempt(m) <= a
    case DeadLettering(a, _) => a >= cfg.maxAttempts
    case Over(end) => end == Moved || end == Dropped
    case _ => false
  }

  /** RecordRetry counts are positive: a row's counter starts at zero and only grows. */
  predicate PositiveCounts(t: Trace) {
    forall i :: 0 <= i < |t| && t[i].outcome.Answered? && t[i].outcome.reply.Count? ==> t[i].outcome.reply.retries >= 1
  }

  /** One call of scheduleRetry keeps what is known of the attempt. */
  lemma RetryStep(cfg: Config, m: Message, pc: Pc, o: Outcome)
    requires cfg.Valid() && Attempt(m) >= 0 && InRetry(cfg, m, pc) && !pc.Over?
    requires o.Answered? && o.reply.Count? ==> o.reply.retries >= 1
    ensures InRetry(cfg, m, After(cfg, m, pc, o))
  {
  }

  /** Unrolls the last step of a path. */
  lemma LastStep(cfg: Config, m: Message, pc: Pc, t: Trace)
    requires cfg.Valid() && t != [] && Follow(cfg, m, pc, t).Some?
    ensures
      var init, last := t[..|t| - 1], t[|t| - 1];
      && Follow(cfg, m, pc, init).Some?
      && var at := Follow(cfg, m, pc, init).value;
      && !at.Over? && last.call == CallAt(cfg, m, at)
      && Follow(cfg, m, pc, t) == Some(After(cfg, m, at, last.outcome))
  {
  }

  lemma {:induction false} RetryPointsHold(cfg: Config, m: Message, pc: Pc, t: Trace)
    requires cfg.Valid() && Attempt(m) >= 0 && PositiveCounts(t)
    requires InRetry(cfg, m, pc) && !pc.Over?
    requires Follow(cfg, m, pc, t).Some?
    ensures InRetry(cfg, m, Follow(cfg, m, pc, t).value)
  {
    if t != [] {
      hide CallAt, After;
      LastStep(cfg, m, pc, t);
      RetryPointsHold(cfg, m, pc, t[..|t| - 1]);
      RetryStep(cfg, m, Follow(cfg, m, pc, t[..|t| - 1]).value, t[|t| - 1].outcome);
    }
  }

  /** The control points of a job, from the worker taking it to its end. */
  predicate InJob(pc: Pc) {
    || pc.Starting? || pc.MakingWorkdir? || pc.Cloning? || pc.Building? || pc.Completing? || pc.Announcing?
    || pc.Reporting? || pc.Failing? || pc.AnnouncingFailure? || pc.ReportingFailure? || pc.Recording?
    || pc.EmittingRetry? || pc.Releasing? || pc.Republishing? || pc.DeadLettering?
    || pc == Over(Settled) || pc == Over(Moved) || pc == Over(Dropped)
  }

  /** The renewal goroutine lives from the start of the build to the return of the stage body. */
  predicate Renewing(pc: Pc) {
    || pc.Building? || pc.Completing? || pc.Announcing? || pc.Reporting?
    || ((pc.Failing? || pc.AnnouncingFailure? || pc.ReportingFailure?) && pc.site == InBuild)
  }

  lemma JobStep(cfg: Config, m: Message, pc: Pc, o: Outcome)
    requires cfg.Valid() && InJob(pc) && !pc.Over?
    ensures InJob(After(cfg, m, pc, o))
    ensures IsCopy(Effect(CallAt(cfg, m, pc), o, 0)) <==> After(cfg, m, pc, o) == Over(Moved)
    ensures !CallAt(cfg, m, pc).Ack? && !CallAt(cfg, m, pc).Nack?
  {
    hide CallAt, After, InJob;
    JobContinues(cfg, m, pc, o);
    JobCalls(cfg, m, pc);
  }

  lemma JobContinues(cfg: Config, m: Message, pc: Pc, o: Outcome)
    requires cfg.Valid() && InJob(pc) && !pc.Over?
    ensures InJob(After(cfg, m, pc, o))
    ensures After(cfg, m, pc, o) == Over(Moved) <==> (pc.Republishing? || pc.DeadLettering?) && !o.Err?
  {
    hide CallAt, Attempt, AfterClaim;
  }

  lemma JobCalls(cfg: Config, m: Message, pc: Pc)
    requires cfg.Valid() && InJob(pc) && !pc.Over?
    ensures var call := CallAt(cfg, m, pc); call.SendRetry? || call.SendDlq? <==> pc.Republishing? || pc.DeadLettering?
    ensures !CallAt(cfg, m, pc).Ack? && !CallAt(cfg, m, pc).Nack?
  {
    hide After, RetryQueue, RetryCopy, DeadCopy, SuccessBundle, FailureBundle;
  }

  /** A job, and scheduleRetry within it, ends with the message moved exactly when one copy of it was
      sent; in every other case none was. A job makes no Ack or Nack. */
  lemma {:induction false} JobSendsAtMostOneCopy(cfg: Config, m: Message, pc: Pc, t: Trace)
    requires cfg.Valid() && InJob(pc) && !pc.Over?
    requires Follow(cfg, m, pc, t).Some?
    ensures
      var at := Follow(cfg, m, pc, t).value;
      InJob(at) && Copies(t) == (if at == Over(Moved) then 1 else 0) && Verdicts(t) == 0
  {
    if t != [] {
      hide CallAt, After;
      var n := |t| - 1;
      LastStep(cfg, m, pc, t);
      JobSendsAtMostOneCopy(cfg, m, pc, t[..n]);
      JobStep(cfg, m, Follow(cfg, m, pc, t[..n]).value, t[n].outcome);
    }
  }

  /** Every copy scheduleRetry tries to send is proper. */
  lemma {:induction false} RetryCopiesAreProper(cfg: Config, m: Message, pc: Pc, t: Trace, i: nat)
    requires cfg.Valid() && Attempt(m) >= 0 && PositiveCounts(t)
    requires InRetry(cfg, m, pc) && !pc.Over?
    requires Follow(cfg, m, pc, t).Some? && i < |t|
    ensures ProperCopy(cfg, m, t[i].call)
  {
    hide Follow, ProperCopy, CallAt, After;
    var n := |t| - 1;
    LastStep(cfg, m, pc, t);
    if i < n {
      RetryCopiesAreProper(cfg, m, pc, t[..n], i);
    } else {
      RetryPointsHold(cfg, m, pc, t[..n]);
      CallsAreProper(cfg, m, Follow(cfg, m, pc, t[..n]).value);
    }
  }

  lemma CallsAreProper(cfg: Config, m: Message, pc: Pc)
    requires cfg.Valid() && Attempt(m) >= 0 && InRetry(cfg, m, pc) && !pc.Over?
    ensures ProperCopy(cfg, m, CallAt(cfg, m, pc))
  {
    assert ATTEMPT_HEADER[9] == 'a' && RETRY_REASON_HEADER[9] == 'r' && DEAD_LETTER_REASON_HEADER[9] == 'd';
    if pc.Republishing? {
      HeaderRoundTrip(m, pc.attempt, pc.cause);
      assert 1 <= pc.attempt < cfg.maxAttempts;
    }
  }

  /** The effects of an exhausted delivery, in order. */
  function ExhaustionScript(cfg: Config, m: Message, attempt: int, cause: string): seq<Call> {
    var message := "retry attempts exhausted: " + cause;
    var b := FailureBundle(cfg, RequestOf(m), message);
    [Sql(Op.Fail(b)), Publish(cfg.serviceExchange, cfg.buildFailedKey, b.service),
     Publish(cfg.deploymentExchange, cfg.deploymentFailedKey, b.progress), SendDlq(DeadCopy(m, attempt, cause))]
  }

  predicate AllButLastSucceeded(t: Trace) {
    forall i :: 0 <= i < |t| - 1 ==> !t[i].outcome.Err?
  }

  predicate Succeeded(t: Trace) {
    forall i :: 0 <= i < |t| ==> !t[i].outcome.Err?
  }

  /** Exhaustion ordering: a counted failure at or above the limit runs through the script, each call
      only after the one before it succeeded, and the message counts as moved only at its end. */
  lemma {:induction false} ExhaustionIsOrdered(cfg: Config, m: Message, attempt: int, cause: string, t: Trace)
    requires cfg.Valid() && attempt >= cfg.maxAttempts
    requires Follow(cfg, m, Decide(cfg, attempt, cause, true), t).Some?
    ensures |t| <= |ExhaustionScript(cfg, m, attempt, cause)| == 4
    ensures forall i :: 0 <= i < |t| ==> t[i].call == ExhaustionScript(cfg, m, attempt, cause)[i]
    ensures AllButLastSucceeded(t)
    ensures
      var at := Follow(cfg, m, Decide(cfg, attempt, cause, true), t).value;
      && at == ExhaustionPoint(attempt, cause, |t|, Succeeded(t))
      && (at == Over(Moved) <==> |t| == 4 && Succeeded(t))
      && (!at.Over? <==> |t| < 4 && Succeeded(t))
  {
    hide CallAt, After, ExhaustionScript, Decide;
    DecideExhausted(cfg, m, attempt, cause);
    if t != [] {
      var n := |t| - 1;
      var init := t[..n];
      LastStep(cfg, m, Decide(cfg, attempt, cause, true), t);
      ExhaustionIsOrdered(cfg, m, attempt, cause, init);
      assert forall i :: 0 <= i < n ==> t[i] == init[i];
      ExhaustionStep(cfg, m, attempt, cause, n, t[n].outcome);
    }
  }

  lemma DecideExhausted(cfg: Config, m: Message, attempt: int, cause: string)
    requires cfg.Valid() && attempt >= cfg.maxAttempts
    ensures Decide(cfg, attempt, cause, true) == ExhaustionPoint(attempt, cause, 0, true)
    ensures |ExhaustionScript(cfg, m, attempt, cause)| == 4
  {
  }

  lemma ExhaustionStep(cfg: Config, m: Message, attempt: int, cause: string, done: nat, o: Outcome)
    requires cfg.Valid() && attempt >= cfg.maxAttempts && done < 4
    ensures |ExhaustionScript(cfg, m, attempt, cause)| == 4
    ensures
      var at := ExhaustionPoint(attempt, cause, done, true);
      && !at.Over?
      && CallAt(cfg, m, at) == ExhaustionScript(cfg, m, attempt, cause)[done]
      && After(cfg, m, at, o) == ExhaustionPoint(attempt, cause, done + 1, !o.Err?)
  {
  }

  function ExhaustionPoint(attempt: int, cause: string, done: nat, ok: bool): Pc {
    var site, message := Exhausted(attempt, cause), "retry attempts exhausted: " + cause;
    if done == 0 then Failing(site, message)
    else if !ok then Over(Dropped)
    else if done == 1 then AnnouncingFailure(site, message)
    else if done == 2 then ReportingFailure(site, message)
    else if done == 3 then DeadLettering(attempt, cause)
    else Over(Moved)
  }

  /** The calls after a failed build. */
  function BuildFailureScript(cfg: Config, m: Message, reason: string): seq<Call> {
    var b := FailureBundle(cfg, RequestOf(m), reason);
    [Sql(Op.Fail(b)), Publish(cfg.serviceExchange, cfg.buildFailedKey, b.service),
     Publish(cfg.deploymentExchange, cfg.deploymentFailedKey, b.progress)]
  }

  function BuildFailurePoint(reason: string, done: nat, ok: bool): Pc {
    if done == 0 then Failing(InBuild, reason)
    else if !ok then Over(Settled)
    else if done == 1 then AnnouncingFailure(InBuild, reason)
    else if done == 2 then ReportingFailure(InBuild, reason)
    else Over(Settled)
  }

  lemma BuildFailureStep(cfg: Config, m: Message, reason: string, done: nat, o: Outcome)
    requires cfg.Valid() && done < 3
    ensures |BuildFailureScript(cfg, m, reason)| == 3
    ensures
      var at := BuildFailurePoint(reason, done, true);
      && !at.Over?
      && CallAt(cfg, m, at) == BuildFailureScript(cfg, m, reason)[done]
      && After(cfg, m, at, o) == BuildFailurePoint(reason, done + 1, !o.Err?)
  {
  }

  lemma BuildFailureStarts(cfg: Config, m: Message, reason: string)
    requires cfg.Valid()
    ensures After(cfg, m, Building, Err(reason)) == BuildFailurePoint(reason, 0, true)
    ensures |BuildFailureScript(cfg, m, reason)| == 3
  {
  }

  /** A failed build is final: it is recorded and announced, each call only after the one before it
      succeeded, and the delivery is settled even if one of them fails. It is never retried, and no
      copy of the message is made. */
  lemma {:induction false} BuildFailuresAreNotRetried(cfg: Config, m: Message, reason: string, t: Trace)
    requires cfg.Valid() && Follow(cfg, m, After(cfg, m, Building, Err(reason)), t).Some?
    ensures |t| <= |BuildFailureScript(cfg, m, reason)| == 3
    ensures forall i :: 0 <= i < |t| ==> t[i].call == BuildFailureScript(cfg, m, reason)[i]
    ensures AllButLastSucceeded(t)
    ensures
      var at := Follow(cfg, m, After(cfg, m, Building, Err(reason)), t).value;
      && at == BuildFailurePoint(reason, |t|, Succeeded(t))
      && (at.Over? <==> |t| == 3 || !Succeeded(t)) && (at.Over? ==> at == Over(Settled))
  {
    hide CallAt, After, BuildFailureScript;
    BuildFailureStarts(cfg, m, reason);
    if t != [] {
      var n := |t| - 1;
      var init := t[..n];
      LastStep(cfg, m, Failing(InBuild, reason), t);
      BuildFailuresAreNotRetried(cfg, m, reason, init);
      assert forall i :: 0 <= i < n ==> t[i] == init[i];
      BuildFailureStep(cfg, m, reason, n, t[n].outcome);
    }
  }

  /** The calls of a redelivery that replays bundle b. */
  function ReplayScript(cfg: Config, b: Bundle): seq<Call> {
    [Publish(cfg.serviceExchange, b.serviceKey, b.service),
     Publish(cfg.deploymentExchange, b.progressKey, b.progress), Ack]
  }

  /** Where a replay stands after done successful calls. */
  function ReplayPoint(b: Bundle, done: nat): Pc {
    if done == 0 then ReplayingService(b)
    else if done == 1 then ReplayingProgress(b)
    else if done == 2 then AckingReplay
    else Over(Settled)
  }

  lemma ReplayStep(cfg: Config, m: Message, b: Bundle, done: nat, o: Outcome)
    requires cfg.Valid() && done < 3
    ensures
      var at := ReplayPoint(b, done);
      && CallAt(cfg, m, at) == ReplayScript(cfg, b)[done]
      && After(cfg, m, at, o) ==
           if !o.Err? then ReplayPoint(b, done + 1) else if done == 2 then Over(Requeued) else Nacking
    ensures CallAt(cfg, m, Nacking) == Nack(true) && After(cfg, m, Nacking, o) == Over(Requeued)
  {
  }

  /** The claim was answered with a terminal row that holds b. */
  predicate Stored(o: Outcome, b: Bundle) {
    && o.Answered? && o.reply.Claimed? && o.reply.row.result == Some(b)
    && (o.reply.disposition == AlreadyCompleted || o.reply.disposition == AlreadyFailed)
  }

  lemma StoredStarts(cfg: Config, m: Message, o: Outcome, b: Bundle)
    requires cfg.Valid() && Stored(o, b)
    ensures After(cfg, m, Claiming, o) == ReplayPoint(b, 0)
  {
  }

  /** A redelivery of a terminal deployment publishes the stored pair, service event first, and is
      settled exactly when both were published and acknowledged; otherwise it goes back to the queue.
      None of its calls is a ledger statement. */
  lemma {:induction false} ReplayIsExact(cfg: Config, m: Message, o: Outcome, b: Bundle, t: Trace)
    requires cfg.Valid() && Stored(o, b) && Follow(cfg, m, After(cfg, m, Claiming, o), t).Some?
    ensures |t| <= 3
    ensures forall i :: 0 <= i < |t| ==> t[i].call == ReplayScript(cfg, b)[i] || t[i].call == Nack(true)
    ensures forall i :: 0 <= i < |t| && t[i].call == Nack(true) ==> i == |t| - 1 && i > 0 && t[i - 1].outcome.Err?
    ensures
      var at := Follow(cfg, m, After(cfg, m, Claiming, o), t).value;
      && (at == Over(Settled) <==> |t| == 3 && Succeeded(t))
      && (at.Over? ==> at == Over(Settled) || at == Over(Requeued))
      && (if Succeeded(t) then at == ReplayPoint(b, |t|) else at == Nacking || at == Over(Requeued))
      && (at == Nacking ==> 1 <= |t| <= 2 && t[|t| - 1].outcome.Err?)
      && (at == Nacking || !at.Over? ==> forall i :: 0 <= i < |t| ==> t[i].call == ReplayScript(cfg, b)[i])
  {
    hide CallAt, After, ReplayScript;
    StoredStarts(cfg, m, o, b);
    if t != [] {
      var n := |t| - 1;
      var init := t[..n];
      LastStep(cfg, m, ReplayPoint(b, 0), t);
      ReplayIsExact(cfg, m, o, b, init);
      assert forall i :: 0 <= i < n ==> t[i] == init[i];
      var at := Follow(cfg, m, ReplayPoint(b, 0), init).value;
      ReplayLengths(cfg, b);
      ReplayStep(cfg, m, b, if Succeeded(init) then n else 0, t[n].outcome);
    } else {
      ReplayLengths(cfg, b);
    }
  }

  lemma ReplayLengths(cfg: Config, b: Bundle)
    ensures |ReplayScript(cfg, b)| == 3
    ensures forall i :: 0 <= i < 3 ==> ReplayScript(cfg, b)[i] != Nack(true)
  {
  }

  /** Ack and Nack calls. */
  function Verdicts(t: Trace): nat {
    if t == [] then 0 else
      Verdicts(t[..|t| - 1]) + (if t[|t| - 1].call.Ack? || t[|t| - 1].call.Nack? then 1 else 0)
  }

  /** The broker still holds the delivery as unacknowledged. */
  predicate Unsettled(pc: Pc) {
    || pc.Claiming? || pc.ReplayingService? || pc.ReplayingProgress? || pc.AckingReplay? || pc.Nacking?
    || pc.AckingClaim? || pc.CopyingMalformed? || pc.AckingMalformed? || pc.Discarding?
  }

  /** The call that settles a delivery is its one Ack or Nack. */
  lemma VerdictStep(cfg: Config, m: Message, pc: Pc, o: Outcome)
    requires cfg.Valid() && !pc.Over?
    ensures Unsettled(After(cfg, m, pc, o)) ==> Unsettled(pc)
    ensures
      var call := CallAt(cfg, m, pc);
      call.Ack? || call.Nack? <==> Unsettled(pc) && !Unsettled(After(cfg, m, pc, o))
  {
  }

  /** The ledger did not grant the claim, nor report a result. */
  predicate NotClaimed(o: Outcome) {
    || !o.Answered? || !o.reply.Claimed? || o.reply.disposition == Busy
    || (o.reply.disposition != Acquired && o.reply.row.result.None?)
  }

  /** A claim that fails, or finds the stage busy, or finds it over without a result to replay, is handed back at
      once: all that follows is one Nack with requeue, with no copy and no ledger statement, and the message is on
      its queue again. */
  lemma {:induction false} RefusedClaimsAreHandedBack(cfg: Config, m: Message, o: Outcome, t: Trace)
    requires cfg.Valid() && NotClaimed(o) && Follow(cfg, m, After(cfg, m, Claiming, o), t).Some?
    ensures |t| <= 1 && (forall e :: e in t ==> e.call == Nack(true))
    ensures Follow(cfg, m, After(cfg, m, Claiming, o), t).value == if t == [] then Nacking else Over(Requeued)
    ensures Copies(t) == 0 && Verdicts(t) == |t|
  {
    if t != [] {
      LastStep(cfg, m, Nacking, t);
      RefusedClaimsAreHandedBack(cfg, m, o, t[..|t| - 1]);
    }
  }

  /** Every delivery gets exactly one Ack or Nack call, and a job gets none after its early Ack. */
  lemma {:induction false} OneVerdictPerDelivery(cfg: Config, m: Message, t: Trace)
    requires cfg.Valid() && Follow(cfg, m, Start(m), t).Some?
    ensures Verdicts(t) == if Unsettled(Follow(cfg, m, Start(m), t).value) then 0 else 1
  {
    if t != [] {
      hide CallAt, After;
      LastStep(cfg, m, Start(m), t);
      OneVerdictPerDelivery(cfg, m, t[..|t| - 1]);
      VerdictStep(cfg, m, Follow(cfg, m, Start(m), t[..|t| - 1]).value, t[|t| - 1].outcome);
    }
  }

  lemma {:induction false} CountsAddUp(t: Trace, u: Trace)
    ensures Copies(t + u) == Copies(t) + Copies(u) && Verdicts(t + u) == Verdicts(t) + Verdicts(u)
  {
    if u == [] {
      assert t + u == t;
    } else {
      var n := |u| - 1;
      CountsAddUp(t, u[..n]);
      assert (t + u)[..|t + u| - 1] == t + u[..n] && (t + u)[|t + u| - 1] == u[n];
    }
  }

  /** The control points of acceptDelivery for a message it can claim. */
  predicate Accepting(pc: Pc) {
    || pc.Claiming? || pc.ReplayingService? || pc.ReplayingProgress? || pc.AckingReplay? || pc.Nacking?
    || pc.AckingClaim? || pc.Queued? || pc == Over(Settled) || pc == Over(Requeued)
  }

  lemma AcceptingStep(cfg: Config, m: Message, pc: Pc, o: Outcome)
    requires cfg.Valid() && Accepting(pc) && !pc.Over?
    ensures var next := After(cfg, m, pc, o); if pc.Queued? then InJob(next) && !Accepting(next) else Accepting(next)
    ensures !IsCopy(Effect(CallAt(cfg, m, pc), o, 0))
  {
  }

  lemma JobIsNotAccepting(pc: Pc)
    ensures InJob(pc) && !pc.Over? ==> !Accepting(pc)
    ensures Accepting(Claiming)
  {
  }

  /** Up to the jobs channel no copy is sent. */
  lemma {:induction false} AcceptingSendsNothing(cfg: Config, m: Message, t: Trace)
    requires cfg.Valid() && Follow(cfg, m, Claiming, t).Some?
    ensures
      var at := Follow(cfg, m, Claiming, t).value;
      (Accepting(at) || InJob(at)) && (Accepting(at) && !at.Over? ==> Copies(t) == 0)
  {
    hide CallAt, After, Accepting, InJob;
    JobIsNotAccepting(Claiming);
    if t != [] {
      var n := |t| - 1;
      LastStep(cfg, m, Claiming, t);
      AcceptingSendsNothing(cfg, m, t[..n]);
      var at := Follow(cfg, m, Claiming, t[..n]).value;
      JobIsNotAccepting(After(cfg, m, at, t[n].outcome));
      if Accepting(at) {
        AcceptingStep(cfg, m, at, t[n].outcome);
      } else {
        JobStep(cfg, m, at, t[n].outcome);
      }
    }
  }

  /** One delivery from the broker to the end of its job, across the jobs channel: acceptDelivery's part,
      the job being taken, and runBuildEvent's part make one path; over the whole of it the delivery
      gets one Ack or Nack, and one copy of its message exactly if it ends moved. */
  lemma DeliveryAndJob(cfg: Config, m: Message, accept: Trace, taken: Effect, job: Trace)
    requires cfg.Valid() && Acceptable(m.body)
    requires Follow(cfg, m, Start(m), accept) == Some(Queued)
    requires taken.call == TakeJob && Follow(cfg, m, Starting, job).Some?
    ensures
      var whole, end := accept + [taken] + job, Follow(cfg, m, Starting, job).value;
      && Follow(cfg, m, Start(m), whole) == Some(end)
      && Verdicts(whole) == 1
      && Copies(whole) == (if end == Over(Moved) then 1 else 0)
  {
    hide CallAt, After, Acceptable;
    var front := accept + [taken];
    assert front[..|front| - 1] == accept;
    QueuedIsTaken(cfg, m, taken.outcome);
    FollowConcat(cfg, m, Start(m), front, job);
    OneVerdictPerDelivery(cfg, m, accept);
    AcceptingSendsNothing(cfg, m, accept);
    JobSendsAtMostOneCopy(cfg, m, Starting, job);
    CountsAddUp(front, job);
    CountsAddUp(accept, [taken]);
    assert [taken][..0] == [];
  }

  lemma QueuedIsTaken(cfg: Config, m: Message, o: Outcome)
    requires cfg.Valid()
    ensures CallAt(cfg, m, Queued) == TakeJob && After(cfg, m, Queued, o) == Starting
    ensures !Unsettled(Queued) && InJob(Starting) && (Acceptable(m.body) ==> Start(m) == Claiming)
  {
  }
}
