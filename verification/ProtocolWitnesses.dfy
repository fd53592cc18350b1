/** Runs that show what the code does not exclude, for every acceptable request. */
module ProtocolWitnesses {
  import opened Options
  import opened Events
  import opened Ledger
  import opened Config
  import opened Stage
  import opened Paths
  import opened Protocol
  import opened ProtocolConservation
  import opened ProtocolExclusion
  import opened ProtocolChain
  import opened ProtocolPublishing
  import opened ProtocolVerdicts
  import opened ProtocolDrive

  const YES := Succeeds(NO_RESULT)
  const NO := Breaks("")

  /** A claim would be granted: no row, or one in progress without a lease. */
  predicate Open(row: Option<Row>) {
    row.None? || (row.value.state == InProgress && row.value.lease.None?)
  }

  /** The retries counted so far. */
  function Counted(row: Option<Row>): int {
    if row.Some? then row.value.retryCount else 0
  }

  /** The attempt that scheduleRetry takes: from the counter if the ledger answers, else by the header. */
  function Taking(m: Message, row: Option<Row>, w: World): int {
    if w.Succeeds? then if Counted(row) + 1 > Attempt(m) then Counted(row) + 1 else Attempt(m) else Attempt(m) + 1
  }

  predicate Published(t: Trace, ev: Event) {
    exists e :: e in t && e.call.Publish? && e.call.event == ev && !e.outcome.Err?
  }

  predicate Acked(t: Trace) {
    exists e :: e in t && e.call.Ack? && !e.outcome.Err?
  }

  // ------------------------------------------------------------------ stretches of one delivery

  const CLAIM := [YES, YES, YES]

  /** Claim, early Ack, job taken. */
  lemma Claims(cfg: Config, v: View, now: int)
    requires cfg.Valid() && v.task.pc == Claiming && Open(v.row) && !v.task.released
    ensures
      var u := Walk(cfg, v, CLAIM, now);
      && u.Some? && u.value.task.pc == Starting && u.value.task.message == v.task.message && !u.value.task.released
      && u.value.row.Some? && u.value.row.value.state == InProgress && Counted(u.value.row) == Counted(v.row)
      && Acked(u.value.done)
  {
    hide Walk, Step, Acked, Open;
    var a := Step(cfg, v, YES, now);
    ClaimIsAcquired(cfg, v, now);
    var b := Step(cfg, a, YES, now);
    ClaimIsAcked(cfg, a, now);
    JobIsTaken(cfg, b, now);
    ThreeSteps(cfg, v, YES, YES, YES, now);
  }

  lemma ClaimIsAcquired(cfg: Config, v: View, now: int)
    requires cfg.Valid() && v.task.pc == Claiming && Open(v.row)
    ensures
      var u := Step(cfg, v, YES, now);
      && u.task.pc == AckingClaim && u.task.message == v.task.message && !u.task.released
      && u.task.deadline == now + cfg.leaseDuration && !u.task.wrote
      && u.row.Some? && u.row.value.state == InProgress && Counted(u.row) == Counted(v.row)
  {
  }

  lemma ClaimIsAcked(cfg: Config, v: View, now: int)
    requires cfg.Valid() && v.task.pc == AckingClaim
    ensures
      var u := Step(cfg, v, YES, now);
      u.task == v.task.(pc := Queued) && u.row == v.row && Acked(u.done)
  {
    var u := Step(cfg, v, YES, now);
    assert u.done[|v.done|] in u.done;
  }

  lemma JobIsTaken(cfg: Config, v: View, now: int)
    requires cfg.Valid() && v.task.pc == Queued && Acked(v.done)
    ensures
      var u := Step(cfg, v, YES, now);
      u.task == v.task.(pc := Starting) && u.row == v.row && Acked(u.done)
  {
    var u := Step(cfg, v, YES, now);
    assert v.done <= u.done;
  }

  lemma OneStep(cfg: Config, v: View, w: World, now: int)
    requires cfg.Valid() && !v.task.pc.Over?
    ensures Walk(cfg, v, [w], now) == Some(Step(cfg, v, w, now))
  {
    hide Step;
    WalkFrom(cfg, v, w, [], now);
    assert [w] + [] == [w];
  }

  lemma TwoSteps(cfg: Config, v: View, w1: World, w2: World, now: int)
    requires cfg.Valid() && !v.task.pc.Over? && !Step(cfg, v, w1, now).task.pc.Over?
    ensures Walk(cfg, v, [w1, w2], now) == Some(Step(cfg, Step(cfg, v, w1, now), w2, now))
  {
    hide Step;
    OneStep(cfg, Step(cfg, v, w1, now), w2, now);
    WalkFrom(cfg, v, w1, [w2], now);
    assert [w1] + [w2] == [w1, w2];
  }

  lemma ThreeSteps(cfg: Config, v: View, w1: World, w2: World, w3: World, now: int)
    requires cfg.Valid() && !v.task.pc.Over? && !Step(cfg, v, w1, now).task.pc.Over?
    requires !Step(cfg, Step(cfg, v, w1, now), w2, now).task.pc.Over?
    ensures
      Walk(cfg, v, [w1, w2, w3], now) == Some(Step(cfg, Step(cfg, Step(cfg, v, w1, now), w2, now), w3, now))
  {
    hide Step;
    TwoSteps(cfg, Step(cfg, v, w1, now), w2, w3, now);
    WalkFrom(cfg, v, w1, [w2, w3], now);
    assert [w1] + [w2, w3] == [w1, w2, w3];
  }

  const BUILD := [YES, YES, YES] + [YES, YES, YES]

  /** The whole stage body up to the success event. */
  lemma Builds(cfg: Config, v: View, now: int)
    requires cfg.Valid() && v.task.pc == Starting && v.row.Some? && !v.task.released
    ensures
      var u := Walk(cfg, v, BUILD, now);
      && u.Some? && u.value.task.pc == Reporting(NO_RESULT) && u.value.task.message == v.task.message
      && !u.value.task.released
      && u.value.row.Some? && u.value.row.value.state == Completed && Counted(u.value.row) == Counted(v.row)
      && Published(u.value.done, NewBuildSucceeded(RequestOf(v.task.message), NO_RESULT))
  {
    hide Walk;
    var a := Step(cfg, Step(cfg, Step(cfg, v, YES, now), YES, now), YES, now);
    assert Step(cfg, v, YES, now).task.pc == MakingWorkdir;
    assert Step(cfg, Step(cfg, v, YES, now), YES, now).task.pc == Cloning;
    ThreeSteps(cfg, v, YES, YES, YES, now);
    assert a.task.pc == Building && a.row == v.row && a.task.message == v.task.message && !a.task.released;
    Finishes(cfg, a, now);
    WalkConcat(cfg, v, [YES, YES, YES], [YES, YES, YES], now);
  }

  lemma Finishes(cfg: Config, v: View, now: int)
    requires cfg.Valid() && v.task.pc == Building && v.row.Some? && !v.task.released
    ensures
      var u := Walk(cfg, v, [YES, YES, YES], now);
      && u.Some? && u.value.task.pc == Reporting(NO_RESULT) && u.value.task.message == v.task.message
      && !u.value.task.released
      && u.value.row.Some? && u.value.row.value.state == Completed && Counted(u.value.row) == Counted(v.row)
      && Published(u.value.done, NewBuildSucceeded(RequestOf(v.task.message), NO_RESULT))
  {
    hide Walk, Step, Published, RequestOf;
    var a := Step(cfg, v, YES, now);
    BuildEnds(cfg, v, now);
    var b := Step(cfg, a, YES, now);
    CompleteIsWritten(cfg, a, now);
    SuccessIsSent(cfg, b, now);
    ThreeSteps(cfg, v, YES, YES, YES, now);
  }

  lemma BuildEnds(cfg: Config, v: View, now: int)
    requires cfg.Valid() && v.task.pc == Building
    ensures Step(cfg, v, YES, now).task == v.task.(pc := Completing(NO_RESULT)) && Step(cfg, v, YES, now).row == v.row
  {
  }

  lemma CompleteIsWritten(cfg: Config, v: View, now: int)
    requires cfg.Valid() && v.task.pc == Completing(NO_RESULT) && v.row.Some? && !v.task.released
    ensures
      var u := Step(cfg, v, YES, now);
      && u.task == v.task.(pc := Announcing(NO_RESULT), wrote := true)
      && u.row.Some? && u.row.value.state == Completed && Counted(u.row) == Counted(v.row)
  {
    hide SuccessBundle;
  }

  lemma SuccessIsSent(cfg: Config, v: View, now: int)
    requires cfg.Valid() && v.task.pc == Announcing(NO_RESULT)
    ensures
      var u := Step(cfg, v, YES, now);
      && u.task == v.task.(pc := Reporting(NO_RESULT)) && u.row == v.row
      && Published(u.done, NewBuildSucceeded(RequestOf(v.task.message), NO_RESULT))
  {
    var u := Step(cfg, v, YES, now);
    assert u.done[|v.done|] in u.done;
  }

  /** The two ways to fail, to the point where the retry is counted. */
  lemma FailsToAnnounce(cfg: Config, v: View, now: int)
    requires cfg.Valid() && (v.task.pc == Starting || v.task.pc.Reporting?) && !v.task.released
    ensures
      var u := Step(cfg, v, NO, now);
      && Walk(cfg, v, [NO], now) == Some(u) && u.task.pc.Recording? && u.task.pc.counted
      && u.row == v.row && u.task.message == v.task.message && !u.task.released
  {
    hide Walk;
    OneStep(cfg, v, NO, now);
  }

  /** The retry is counted, by the ledger or by the header. */
  lemma Counts(cfg: Config, v: View, w: World, now: int)
    requires cfg.Valid() && v.task.pc.Recording? && v.task.pc.counted && !v.task.released && v.row.Some?
    ensures
      var u, a := Step(cfg, v, w, now), Taking(v.task.message, v.row, w);
      && Walk(cfg, v, [w], now) == Some(u) && u.task.message == v.task.message && !u.task.released
      && u.row.Some? && VerdictOf(u.row.value) == VerdictOf(v.row.value) && u.row.value.lease == v.row.value.lease
      && Counted(u.row) == Counted(v.row) + One(w.Succeeds?)
      && u.task.pc ==
           (if a >= cfg.maxAttempts then
              Failing(Exhausted(a, v.task.pc.cause), "retry attempts exhausted: " + v.task.pc.cause)
            else EmittingRetry(a, v.task.pc.cause))
  {
    hide Walk, Attempt;
    OneStep(cfg, v, w, now);
  }

  const GIVE_UP_LEASE := [YES, YES]

  /** The retrying event and the Release. */
  lemma GivesUpLease(cfg: Config, v: View, now: int)
    requires cfg.Valid() && v.task.pc.EmittingRetry? && v.row.Some?
    ensures
      var u := Walk(cfg, v, GIVE_UP_LEASE, now);
      && u.Some? && u.value.task.pc == Republishing(v.task.pc.attempt, v.task.pc.cause, false)
      && u.value.task.released && u.value.task.message == v.task.message
      && u.value.row.Some? && Open(u.value.row) && Counted(u.value.row) == Counted(v.row)
    ensures
      var a := Step(cfg, v, YES, now);
      && Walk(cfg, v, [YES], now) == Some(a) && a.task.pc.Releasing? && a.row == v.row
      && a.task.message == v.task.message
  {
    hide Walk;
    OneStep(cfg, v, YES, now);
    var a := Step(cfg, v, YES, now);
    assert a.task.pc == Releasing(v.task.pc.attempt, v.task.pc.cause);
    TwoSteps(cfg, v, YES, YES, now);
  }

  /** The failure of an exhausted delivery, up to its service event. */
  lemma AnnouncesFailure(cfg: Config, v: View, now: int)
    requires cfg.Valid() && v.task.pc.Failing? && v.row.Some?
    ensures
      var u := Walk(cfg, v, [YES, YES], now);
      && u.Some? && u.value.task.pc == ReportingFailure(v.task.pc.site, v.task.pc.message)
      && u.value.task.message == v.task.message
      && u.value.row.Some? && u.value.row.value.state == StageState.Failed
      && Published(u.value.done, NewBuildFailed(RequestOf(v.task.message), NO_RESULT, v.task.pc.message))
  {
    hide Walk;
    var a := Step(cfg, v, YES, now);
    assert a.task.pc == AnnouncingFailure(v.task.pc.site, v.task.pc.message);
    assert a.row.Some? && a.row.value.state == StageState.Failed;
    var b := Step(cfg, a, YES, now);
    TwoSteps(cfg, v, YES, YES, now);
    assert b.done[|a.done|] in b.done;
  }

  /** The stretch up to the lease being given up: the start cannot be announced, and the request is not
      on its last attempt. */
  function Retry(w: World): seq<World> {
    CLAIM + [NO] + [w] + GIVE_UP_LEASE
  }

  lemma Retries(cfg: Config, v: View, w: World, now: int)
    requires cfg.Valid() && v.task.pc == Claiming && Open(v.row) && !v.task.released
    requires Taking(v.task.message, v.row, w) < cfg.maxAttempts
    ensures
      var u := Walk(cfg, v, Retry(w), now);
      && u.Some? && u.value.task.pc.Republishing? && u.value.task.pc.attempt == Taking(v.task.message, v.row, w)
      && !u.value.task.pc.onConsumerChannel
      && u.value.task.released && u.value.task.message == v.task.message && Open(u.value.row) && u.value.row.Some?
      && Counted(u.value.row) == Counted(v.row) + One(w.Succeeds?)
      && Acked(u.value.done)
  {
    hide Walk, Step, Attempt, Open, Acked, Counted;
    Claims(cfg, v, now);
    var a := Walk(cfg, v, CLAIM, now).value;
    FailsToAnnounce(cfg, a, now);
    WalkConcat(cfg, v, CLAIM, [NO], now);
    var b := Step(cfg, a, NO, now);
    Counts(cfg, b, w, now);
    WalkConcat(cfg, v, CLAIM + [NO], [w], now);
    var c := Step(cfg, b, w, now);
    GivesUpLease(cfg, c, now);
    WalkConcat(cfg, v, CLAIM + [NO] + [w], GIVE_UP_LEASE, now);
    StaysAcked(cfg, v, CLAIM, [NO] + [w] + GIVE_UP_LEASE, now);
    assert Retry(w) == CLAIM + ([NO] + [w] + GIVE_UP_LEASE);
  }

  lemma StaysAcked(cfg: Config, v: View, a: seq<World>, b: seq<World>, now: int)
    requires cfg.Valid() && Walk(cfg, v, a, now).Some? && Acked(Walk(cfg, v, a, now).value.done)
    ensures Walk(cfg, v, a + b, now).Some? ==> Acked(Walk(cfg, v, a + b, now).value.done)
  {
    hide Walk, Step;
    WalkConcat(cfg, v, a, b, now);
    if Walk(cfg, v, a + b, now).Some? {
      WalkKeepsEffects(cfg, Walk(cfg, v, a, now).value, b, now);
    }
  }

  lemma StaysPublished(cfg: Config, v: View, a: seq<World>, b: seq<World>, now: int, ev: Event)
    requires cfg.Valid() && Walk(cfg, v, a, now).Some? && Published(Walk(cfg, v, a, now).value.done, ev)
    ensures Walk(cfg, v, a + b, now).Some? ==> Published(Walk(cfg, v, a + b, now).value.done, ev)
  {
    hide Walk, Step;
    WalkConcat(cfg, v, a, b, now);
    if Walk(cfg, v, a + b, now).Some? {
      WalkKeepsEffects(cfg, Walk(cfg, v, a, now).value, b, now);
    }
  }

  const SUCCEED := CLAIM + BUILD

  lemma AnnouncesSuccess(cfg: Config, v: View, now: int)
    requires cfg.Valid() && v.task.pc == Claiming && Open(v.row) && !v.task.released
    ensures
      var u := Walk(cfg, v, SUCCEED, now);
      && u.Some? && u.value.task.pc == Reporting(NO_RESULT) && u.value.task.message == v.task.message
      && !u.value.task.released
      && u.value.row.Some? && u.value.row.value.state == Completed && Counted(u.value.row) == Counted(v.row)
      && Published(u.value.done, NewBuildSucceeded(RequestOf(v.task.message), NO_RESULT))
  {
    hide Walk, Step, Open, Acked, Published;
    Claims(cfg, v, now);
    Builds(cfg, Walk(cfg, v, CLAIM, now).value, now);
    WalkConcat(cfg, v, CLAIM, BUILD, now);
  }

  const OVERTURN := SUCCEED + [NO] + [NO] + [YES, YES]

  /** On its last attempt, a delivery whose progress event cannot be published announces a failure after
      it has announced success. */
  lemma Overturns(cfg: Config, v: View, now: int)
    requires cfg.Valid() && v.task.pc == Claiming && Open(v.row) && !v.task.released
    requires Attempt(v.task.message) + 1 >= cfg.maxAttempts
    ensures
      var u, r := Walk(cfg, v, OVERTURN, now), RequestOf(v.task.message);
      && u.Some? && !u.value.task.pc.Over? && u.value.task.message == v.task.message
      && u.value.row.Some? && u.value.row.value.state == StageState.Failed
      && Published(u.value.done, NewBuildSucceeded(r, NO_RESULT))
      && (exists message :: Published(u.value.done, NewBuildFailed(r, NO_RESULT, message)))
  {
    hide Walk, Step, Open, Attempt, Published;
    var r := RequestOf(v.task.message);
    AnnouncesSuccess(cfg, v, now);
    var a := Walk(cfg, v, SUCCEED, now).value;
    FailsToAnnounce(cfg, a, now);
    WalkConcat(cfg, v, SUCCEED, [NO], now);
    var b := Step(cfg, a, NO, now);
    Counts(cfg, b, NO, now);
    WalkConcat(cfg, v, SUCCEED + [NO], [NO], now);
    var c := Step(cfg, b, NO, now);
    AnnouncesFailure(cfg, c, now);
    WalkConcat(cfg, v, SUCCEED + [NO] + [NO], [YES, YES], now);
    StaysPublished(cfg, v, SUCCEED, [NO] + [NO] + [YES, YES], now, NewBuildSucceeded(r, NO_RESULT));
    assert OVERTURN == SUCCEED + ([NO] + [NO] + [YES, YES]);
    assert Published(Walk(cfg, v, OVERTURN, now).value.done, NewBuildFailed(r, NO_RESULT, c.task.pc.message));
  }

  function Reopen(w: World): seq<World> {
    SUCCEED + [NO] + [w] + [YES]
  }

  /** Not on its last attempt, the same delivery comes to the Release of its completed row. */
  lemma Reopens(cfg: Config, v: View, w: World, now: int)
    requires cfg.Valid() && v.task.pc == Claiming && Open(v.row) && !v.task.released
    requires Taking(v.task.message, v.row, w) < cfg.maxAttempts
    ensures
      var u := Walk(cfg, v, Reopen(w), now);
      && u.Some? && u.value.task.pc.Releasing? && u.value.task.message == v.task.message
      && u.value.row.Some? && u.value.row.value.state == Completed
      && Published(u.value.done, NewBuildSucceeded(RequestOf(v.task.message), NO_RESULT))
  {
    hide Walk, Step, Open, Attempt, Published, Counted;
    AnnouncesSuccess(cfg, v, now);
    var a := Walk(cfg, v, SUCCEED, now).value;
    FailsToAnnounce(cfg, a, now);
    WalkConcat(cfg, v, SUCCEED, [NO], now);
    var b := Step(cfg, a, NO, now);
    Counts(cfg, b, w, now);
    WalkConcat(cfg, v, SUCCEED + [NO], [w], now);
    var c := Step(cfg, b, w, now);
    GivesUpLease(cfg, c, now);
    WalkConcat(cfg, v, SUCCEED + [NO] + [w], [YES], now);
    StaysPublished(cfg, v, SUCCEED, [NO] + [w] + [YES], now, NewBuildSucceeded(RequestOf(v.task.message), NO_RESULT));
    assert Reopen(w) == SUCCEED + ([NO] + [w] + [YES]);
  }

  // ------------------------------------------------------------------ from a waiting request

  /** The request waits on the main queue and its deployment can be claimed. */
  predicate Claimable(s: State, rid: Rid) {
    && rid in s.main && Acceptable(s.main[rid].body) && Attempt(s.main[rid]) >= 0
    && Open(Lookup(s.table, StageKey(s.main[rid])))
  }

  function Taken(m: Message): Task {
    Task(m, Claiming, 0, false, false)
  }

  /** Its delivery, followed by a walk. */
  lemma DeliverAndWalk(cfg: Config, s: State, rid: Rid, ws: seq<World>)
    requires cfg.Valid() && Claimable(s, rid)
    requires Walk(cfg, View(Taken(s.main[rid]), Lookup(s.table, StageKey(s.main[rid])), []), ws, s.now).Some?
    ensures RunTo(cfg, s, [Deliver(rid)] + Advances(rid, ws)).Some?
    ensures
      var m := s.main[rid];
      var mid, s' := Next(cfg, s, Deliver(rid)), RunTo(cfg, s, [Deliver(rid)] + Advances(rid, ws)).value;
      var v := Walk(cfg, View(Taken(m), Lookup(s.table, StageKey(m)), []), ws, s.now).value;
      Arrived(mid, s', rid, DeploymentOf(m), v) && v.task.message == m && mid.log == s.log + [Delivered(rid)]
  {
    hide Walk, Arrived, Advances, Attempt, Open, DeploymentOf, Next, RunTo, Enabled, Claimable;
    DeliverTakes(cfg, s, rid);
    var mid := Next(cfg, s, Deliver(rid));
    WalkArrives(cfg, mid, rid, ws);
    EmptyRun(cfg, s);
    RunExtends(cfg, s, [], Deliver(rid));
    assert [] + [Deliver(rid)] == [Deliver(rid)];
    RunConcat(cfg, s, [Deliver(rid)], Advances(rid, ws));
  }

  lemma DeliverTakes(cfg: Config, s: State, rid: Rid)
    requires cfg.Valid() && Claimable(s, rid)
    ensures Enabled(s, Deliver(rid)) && rid in s.main
    ensures
      var mid := Next(cfg, s, Deliver(rid));
      && rid in mid.tasks && mid.tasks[rid] == Taken(s.main[rid]) && mid.table == s.table && mid.now == s.now
      && mid.log == s.log + [Delivered(rid)] && mid.injected == s.injected
  {
    hide Attempt, Open, DeploymentOf;
  }

  lemma PublishedIsLogged(mid: State, s': State, rid: Rid, id: string, v: View, ev: Event)
    requires Arrived(mid, s', rid, id, v) && Published(v.done, ev)
    ensures Sent(s'.log, id, ev)
  {
    EntriesAt(rid, id, v.done);
    var e :| e in v.done && e.call.Publish? && e.call.event == ev && !e.outcome.Err?;
    var i :| 0 <= i < |v.done| && v.done[i] == e;
    assert s'.log[|mid.log| + i] == Did(rid, id, e);
    assert SentEvent(s'.log[|mid.log| + i], id, ev);
  }

  /** Success and failure of one deployment have both been announced, and the row says FAILED. */
  ghost predicate BothAnnounced(s: State, r: Request) {
    && Sent(s.log, r.deploymentId, NewBuildSucceeded(r, NO_RESULT))
    && (exists message :: Sent(s.log, r.deploymentId, NewBuildFailed(r, NO_RESULT, message)))
    && (r.deploymentId, STAGE) in s.table && s.table[(r.deploymentId, STAGE)].state == StageState.Failed
  }

  lemma OverturnsNow(cfg: Config, s: State, rid: Rid) returns (run: Run)
    requires cfg.Valid() && Claimable(s, rid) && Attempt(s.main[rid]) + 1 >= cfg.maxAttempts
    ensures RunTo(cfg, s, run).Some? && BothAnnounced(RunTo(cfg, s, run).value, RequestOf(s.main[rid]))
  {
    hide Walk, Next, RunTo, Attempt, Open, Published, Sent, RequestOf;
    var m := s.main[rid];
    var v := View(Taken(m), Lookup(s.table, StageKey(m)), []);
    Overturns(cfg, v, s.now);
    DeliverAndWalk(cfg, s, rid, OVERTURN);
    run := [Deliver(rid)] + Advances(rid, OVERTURN);
    var mid, s', u := Next(cfg, s, Deliver(rid)), RunTo(cfg, s, run).value, Walk(cfg, v, OVERTURN, s.now).value;
    var r := RequestOf(m);
    PublishedIsLogged(mid, s', rid, DeploymentOf(m), u, NewBuildSucceeded(r, NO_RESULT));
    var message :| Published(u.done, NewBuildFailed(r, NO_RESULT, message));
    PublishedIsLogged(mid, s', rid, DeploymentOf(m), u, NewBuildFailed(r, NO_RESULT, message));
  }

  /** Copies sent to a retry queue. */
  function Sends(t: Trace): nat {
    if t == [] then 0
    else Sends(t[..|t| - 1]) + One(t[|t| - 1].call.SendRetry? && !t[|t| - 1].outcome.Err?)
  }

  lemma {:induction false} CopiesOfEntries(log: Log, rid: Rid, id: string, t: Trace)
    ensures RetryCopies(log + Entries(rid, id, t), rid) == RetryCopies(log, rid) + Sends(t)
  {
    if t == [] {
      assert log + [] == log;
    } else {
      var init, last := t[..|t| - 1], Did(rid, id, t[|t| - 1]);
      CopiesOfEntries(log, rid, id, init);
      RetryCopiesAppend(log + Entries(rid, id, init), last, rid);
      assert log + (Entries(rid, id, init) + [last]) == log + Entries(rid, id, init) + [last];
    }
  }

  /** A walk that has not ended has sent nothing. */
  lemma {:induction false} WalkSendsNothing(cfg: Config, v: View, ws: seq<World>, now: int)
    requires cfg.Valid() && Walk(cfg, v, ws, now).Some? && !Walk(cfg, v, ws, now).value.task.pc.Over?
    ensures Sends(Walk(cfg, v, ws, now).value.done) == Sends(v.done)
  {
    hide CallAt, After, Remember, RowAfterEffect, OutcomeOf;
    if ws != [] {
      var init, w := ws[..|ws| - 1], ws[|ws| - 1];
      var u := Walk(cfg, v, init, now).value;
      WalkSendsNothing(cfg, v, init, now);
      var e := NextEffect(cfg, u.task, u.row, w, now);
      Commitments(cfg, u.task.message, u.task.pc, e.outcome);
      SendsExtend(u.done, e);
    }
  }

  lemma SendsExtend(t: Trace, e: Effect)
    ensures Sends(t + [e]) == Sends(t) + One(e.call.SendRetry? && !e.outcome.Err?)
  {
    assert (t + [e])[..|t|] == t;
  }

  /** One round through a retry queue: the request comes back with the next attempt, one copy later. */
  lemma RoundTrip(cfg: Config, s: State, rid: Rid, w: World) returns (run: Run)
    requires cfg.Valid() && Claimable(s, rid)
    requires Taking(s.main[rid], Lookup(s.table, StageKey(s.main[rid])), w) < cfg.maxAttempts
    requires Counted(Lookup(s.table, StageKey(s.main[rid]))) >= 0
    ensures RunTo(cfg, s, run).Some?
    ensures
      var s' := RunTo(cfg, s, run).value;
      var row := Lookup(s.table, StageKey(s.main[rid]));
      && Claimable(s', rid) && s'.main[rid].body == s.main[rid].body
      && Attempt(s'.main[rid]) == Taking(s.main[rid], row, w)
      && Counted(Lookup(s'.table, StageKey(s'.main[rid]))) == Counted(row) + One(w.Succeeds?)
      && RetryCopies(s'.log, rid) == RetryCopies(s.log, rid) + 1
  {
    hide Walk, RunTo, Step, Open, Attempt, Acceptable, Arrived, DeploymentOf, RetryCopy, Acked, RetryCopies,
         Counted, Sends;
    var m := s.main[rid];
    var v := View(Taken(m), Lookup(s.table, StageKey(m)), []);
    Retries(cfg, v, w, s.now);
    var u := Walk(cfg, v, Retry(w), s.now).value;
    SendsCopy(cfg, u, s.now);
    WalkExtends(cfg, v, Retry(w), YES, s.now);
    var ws := Retry(w) + [YES];
    DeliverAndWalk(cfg, s, rid, ws);
    var first := [Deliver(rid)] + Advances(rid, ws);
    var mid, s1, last := Next(cfg, s, Deliver(rid)), RunTo(cfg, s, first).value, Step(cfg, u, YES, s.now);
    HeaderRoundTrip(m, u.task.pc.attempt, u.task.pc.cause);
    TakingIsNatural(m, v.row, w);
    CopyWaits(mid, s1, rid, last, u);
    WalkSendsNothing(cfg, v, Retry(w), s.now);
    OneMoreSend(u.done, last.done);
    SentIsLogged(s, mid, s1, rid, DeploymentOf(m), last);
    RunExtends(cfg, s, first, Expire(rid));
    run := first + [Expire(rid)];
  }

  lemma TakingIsNatural(m: Message, row: Option<Row>, w: World)
    requires Attempt(m) >= 0
    ensures Taking(m, row, w) >= 0
  {
  }

  lemma OneMoreSend(before: Trace, after: Trace)
    requires |after| == |before| + 1 && before <= after && Sends(before) == Sends([])
    requires after[|before|].call.SendRetry? && !after[|before|].outcome.Err?
    ensures Sends(after) == 1
  {
    assert after == before + [after[|before|]];
    SendsExtend(before, after[|before|]);
  }

  lemma SentIsLogged(s: State, mid: State, s': State, rid: Rid, id: string, v: View)
    requires mid.log == s.log + [Delivered(rid)] && Arrived(mid, s', rid, id, v)
    ensures RetryCopies(s'.log, rid) == RetryCopies(s.log, rid) + Sends(v.done)
  {
    RetryCopiesAppend(s.log, Delivered(rid), rid);
    CopiesOfEntries(mid.log, rid, id, v.done);
  }

  lemma CopyWaits(mid: State, s': State, rid: Rid, v: View, u: View)
    requires Arrived(mid, s', rid, DeploymentOf(u.task.message), v)
    requires u.task.pc.Republishing? && v.task.pc == Over(Moved) && v.row == u.row && v.done != []
    requires v.done[|v.done| - 1].call.SendRetry?
    requires v.done[|v.done| - 1].call.copy == RetryCopy(u.task.message, u.task.pc.attempt, u.task.pc.cause)
    ensures rid in s'.retry && s'.retry[rid].message == RetryCopy(u.task.message, u.task.pc.attempt, u.task.pc.cause)
    ensures s'.retry[rid].message.body == u.task.message.body
    ensures Lookup(s'.table, StageKey(s'.retry[rid].message)) == u.row
  {
    hide RetryQueue;
  }

  lemma SendsCopy(cfg: Config, v: View, now: int)
    requires cfg.Valid() && v.task.pc.Republishing?
    ensures
      var u := Step(cfg, v, YES, now);
      && u.task.pc == Over(Moved) && u.row == v.row && |u.done| == |v.done| + 1 && v.done <= u.done
      && u.done[|v.done|].call.SendRetry? && !u.done[|v.done|].outcome.Err?
      && u.done[|v.done|].call.copy == RetryCopy(v.task.message, v.task.pc.attempt, v.task.pc.cause)
  {
    hide RetryCopy, RetryQueue, QueueNumber;
  }

  /** From any waiting request whose deployment can be claimed, some run announces both verdicts. */
  lemma {:induction false} BothFrom(cfg: Config, s: State, rid: Rid) returns (run: Run)
    requires cfg.Valid() && Claimable(s, rid) && Counted(Lookup(s.table, StageKey(s.main[rid]))) >= 0
    ensures RunTo(cfg, s, run).Some? && BothAnnounced(RunTo(cfg, s, run).value, RequestOf(s.main[rid]))
    decreases if Attempt(s.main[rid]) < cfg.maxAttempts then cfg.maxAttempts - Attempt(s.main[rid]) else 0
  {
    hide RunTo, BothAnnounced, Attempt, Acceptable, Open;
    if Attempt(s.main[rid]) + 1 >= cfg.maxAttempts {
      run := OverturnsNow(cfg, s, rid);
    } else {
      var first := RoundTrip(cfg, s, rid, NO);
      var more := BothFrom(cfg, RunTo(cfg, s, first).value, rid);
      RunConcat(cfg, s, first, more);
      run := first + more;
    }
  }

  // ------------------------------------------------------------------ from the initial state

  lemma Injected(cfg: Config, m: Message)
    requires cfg.Valid() && Acceptable(m.body) && Attempt(m) >= 0
    ensures RunTo(cfg, INITIAL, [Inject(0, m)]).Some?
    ensures
      var s := RunTo(cfg, INITIAL, [Inject(0, m)]).value;
      Claimable(s, 0) && s.main[0] == m && s.log == [] && s.now == 0 && s.table == map[] && s.injected == map[0 := m]
  {
    hide Attempt, Acceptable;
    EmptyRun(cfg, INITIAL);
    RunExtends(cfg, INITIAL, [], Inject(0, m));
    assert [] + [Inject(0, m)] == [Inject(0, m)];
  }

  const LOSE_RETRY := Retry(NO) + [NO, NO]

  /** The delayed copy fails on both channels. */
  lemma LosesRetry(cfg: Config, v: View, now: int)
    requires cfg.Valid() && v.task.pc == Claiming && Open(v.row) && !v.task.released
    requires 0 <= Attempt(v.task.message) < cfg.maxAttempts - 1
    ensures
      var u := Walk(cfg, v, LOSE_RETRY, now);
      u.Some? && u.value.task.pc == Over(Dropped) && Acked(u.value.done)
  {
    hide Walk, Attempt, Open, Acked, RetryQueue, RetryCopy;
    Retries(cfg, v, NO, now);
    var a := Walk(cfg, v, Retry(NO), now).value;
    var b := Step(cfg, a, NO, now);
    assert b.task.pc == Republishing(a.task.pc.attempt, a.task.pc.cause, true);
    TwoSteps(cfg, a, NO, NO, now);
    WalkConcat(cfg, v, Retry(NO), [NO, NO], now);
    StaysAcked(cfg, v, Retry(NO), [NO, NO], now);
  }

  const LOSE_DEAD_LETTER := CLAIM + [NO] + [NO] + [YES, YES] + [YES, NO]

  /** The dead-letter copy fails. */
  lemma LosesDeadLetter(cfg: Config, v: View, now: int)
    requires cfg.Valid() && v.task.pc == Claiming && Open(v.row) && !v.task.released
    requires Attempt(v.task.message) + 1 >= cfg.maxAttempts
    ensures
      var u := Walk(cfg, v, LOSE_DEAD_LETTER, now);
      u.Some? && u.value.task.pc == Over(Dropped) && Acked(u.value.done)
  {
    hide Walk, Step, Attempt, Open, Acked, Published;
    Claims(cfg, v, now);
    var a := Walk(cfg, v, CLAIM, now).value;
    FailsToAnnounce(cfg, a, now);
    WalkConcat(cfg, v, CLAIM, [NO], now);
    var b := Step(cfg, a, NO, now);
    Counts(cfg, b, NO, now);
    WalkConcat(cfg, v, CLAIM + [NO], [NO], now);
    AnnouncesFailure(cfg, Step(cfg, b, NO, now), now);
    WalkConcat(cfg, v, CLAIM + [NO] + [NO], [YES, YES], now);
    DeadLetterFails(cfg, Walk(cfg, v, CLAIM + [NO] + [NO] + [YES, YES], now).value, now);
    WalkConcat(cfg, v, CLAIM + [NO] + [NO] + [YES, YES], [YES, NO], now);
    StaysAcked(cfg, v, CLAIM, [NO] + [NO] + [YES, YES] + [YES, NO], now);
    assert LOSE_DEAD_LETTER == CLAIM + ([NO] + [NO] + [YES, YES] + [YES, NO]);
  }

  lemma DeadLetterFails(cfg: Config, v: View, now: int)
    requires cfg.Valid() && v.task.pc.ReportingFailure? && v.task.pc.site.Exhausted?
    ensures
      var u := Walk(cfg, v, [YES, NO], now);
      u.Some? && u.value.task.pc == Over(Dropped)
  {
    hide Walk, DeadCopy, FailureBundle;
    var a := Step(cfg, v, YES, now);
    assert a.task.pc == DeadLettering(v.task.pc.site.attempt, v.task.pc.site.cause);
    TwoSteps(cfg, v, YES, NO, now);
  }

  /** A failed copy after the early Ack loses the request: for every acceptable request there is a run
      after which it is dropped, although its delivery was acknowledged. */
  lemma LostAfterAck(cfg: Config, m: Message) returns (run: Run)
    requires cfg.Valid() && Acceptable(m.body) && Attempt(m) >= 0
    ensures RunTo(cfg, INITIAL, run).Some?
    ensures
      var s := RunTo(cfg, INITIAL, run).value;
      && 0 in s.dropped && 0 !in s.main && 0 !in s.tasks && 0 !in s.retry && 0 !in s.dlq
      && (exists e :: e in s.log && e.Did? && e.rid == 0 && e.effect.call.Ack? && !e.effect.outcome.Err?)
  {
    hide RunTo, Attempt, Acceptable, Walk, Next, Open, Arrived, Acked;
    Injected(cfg, m);
    var first := [Inject(0, m)];
    var s0 := RunTo(cfg, INITIAL, first).value;
    var v := View(Taken(m), Lookup(s0.table, StageKey(m)), []);
    var ws := if Attempt(m) < cfg.maxAttempts - 1 then LOSE_RETRY else LOSE_DEAD_LETTER;
    if Attempt(m) < cfg.maxAttempts - 1 {
      LosesRetry(cfg, v, s0.now);
    } else {
      LosesDeadLetter(cfg, v, s0.now);
    }
    DeliverAndWalk(cfg, s0, 0, ws);
    var walk := [Deliver(0)] + Advances(0, ws);
    RunConcat(cfg, INITIAL, first, walk);
    run := first + walk;
    var s := RunTo(cfg, INITIAL, run).value;
    DeliverTakes(cfg, s0, 0);
    DroppedIsGone(cfg, run, 0, m);
    DroppedAndAcked(Next(cfg, s0, Deliver(0)), s, 0, DeploymentOf(m), Walk(cfg, v, ws, s0.now).value);
  }

  lemma DroppedAndAcked(mid: State, s': State, rid: Rid, id: string, v: View)
    requires Arrived(mid, s', rid, id, v) && Acked(v.done) && v.task.pc == Over(Dropped)
    ensures rid in s'.dropped && s'.injected == mid.injected
    ensures exists e :: e in s'.log && e.Did? && e.rid == rid && e.effect.call.Ack? && !e.effect.outcome.Err?
  {
    EntriesAt(rid, id, v.done);
    var e :| e in v.done && e.call.Ack? && !e.outcome.Err?;
    var i :| 0 <= i < |v.done| && v.done[i] == e;
    assert s'.log[|mid.log| + i] == Did(rid, id, e);
  }

  /** Conservation says the rest: a dropped request is nowhere else. */
  lemma DroppedIsGone(cfg: Config, run: Run, rid: Rid, m: Message)
    requires cfg.Valid() && RunTo(cfg, INITIAL, run).Some?
    ensures
      var s := RunTo(cfg, INITIAL, run).value;
      rid in s.dropped && rid in s.injected && s.injected[rid] == m && Acceptable(m.body) ==>
        rid !in s.main && rid !in s.tasks && rid !in s.retry && rid !in s.dlq
  {
    hide RunTo, Acceptable;
    RequestsAreConserved(cfg, run);
    assert Conserved(RunTo(cfg, INITIAL, run).value, rid);
  }

  /** A deployment's success can be announced and then, by the same request, its failure: for every
      acceptable request there is such a run. */
  lemma SuccessThenFailure(cfg: Config, m: Message) returns (run: Run)
    requires cfg.Valid() && Acceptable(m.body) && Attempt(m) >= 0
    ensures RunTo(cfg, INITIAL, run).Some? && BothAnnounced(RunTo(cfg, INITIAL, run).value, RequestOf(m))
  {
    hide RunTo, BothAnnounced, Claimable, Attempt, Acceptable;
    Injected(cfg, m);
    var first := [Inject(0, m)];
    var more := BothFrom(cfg, RunTo(cfg, INITIAL, first).value, 0);
    RunConcat(cfg, INITIAL, first, more);
    run := first + more;
  }

  /** A COMPLETED row whose success has been announced can be reopened: if more than one attempt is allowed,
      then for every acceptable request whose header is below the limit there is a run whose last
      step does it. */
  lemma CompletedIsReopened(cfg: Config, m: Message) returns (run: Run, last: Label)
    requires cfg.Valid() && cfg.maxAttempts >= 2 && Acceptable(m.body) && 0 <= Attempt(m) < cfg.maxAttempts
    ensures RunTo(cfg, INITIAL, run).Some? && RunTo(cfg, INITIAL, run + [last]).Some?
    ensures
      var s, s' := RunTo(cfg, INITIAL, run).value, RunTo(cfg, INITIAL, run + [last]).value;
      && StageKey(m) in s.table && s.table[StageKey(m)].state == Completed
      && Sent(s.log, DeploymentOf(m), NewBuildSucceeded(RequestOf(m), NO_RESULT))
      && StageKey(m) in s'.table && s'.table[StageKey(m)].state == InProgress
  {
    hide RunTo, Claimable, Attempt, Acceptable, Walk, Next, Published, Open, RequestOf, Sent;
    Injected(cfg, m);
    var first := [Inject(0, m)];
    var s0 := RunTo(cfg, INITIAL, first).value;
    ReopensFrom(cfg, s0, 0);
    var walk := [Deliver(0)] + Advances(0, Reopen(YES));
    last := Advance(0, YES);
    RunConcat(cfg, INITIAL, first, walk);
    RunConcat(cfg, INITIAL, first, walk + [last]);
    run := first + walk;
    assert run + [last] == first + (walk + [last]);
  }

  lemma ReopensFrom(cfg: Config, s: State, rid: Rid)
    requires cfg.Valid() && Claimable(s, rid)
    requires Taking(s.main[rid], Lookup(s.table, StageKey(s.main[rid])), YES) < cfg.maxAttempts
    ensures
      var m, run := s.main[rid], [Deliver(rid)] + Advances(rid, Reopen(YES));
      && RunTo(cfg, s, run).Some? && RunTo(cfg, s, run + [Advance(rid, YES)]).Some?
      && var s1, s2 := RunTo(cfg, s, run).value, RunTo(cfg, s, run + [Advance(rid, YES)]).value;
         && StageKey(m) in s1.table && s1.table[StageKey(m)].state == Completed
         && Sent(s1.log, DeploymentOf(m), NewBuildSucceeded(RequestOf(m), NO_RESULT))
         && StageKey(m) in s2.table && s2.table[StageKey(m)].state == InProgress
  {
    hide Walk, Next, RunTo, Attempt, Open, Published, Sent, RequestOf, Step;
    var m := s.main[rid];
    var v := View(Taken(m), Lookup(s.table, StageKey(m)), []);
    Reopens(cfg, v, YES, s.now);
    DeliverAndWalk(cfg, s, rid, Reopen(YES));
    var run := [Deliver(rid)] + Advances(rid, Reopen(YES));
    var mid, s1, u := Next(cfg, s, Deliver(rid)), RunTo(cfg, s, run).value, Walk(cfg, v, Reopen(YES), s.now).value;
    PublishedIsLogged(mid, s1, rid, DeploymentOf(m), u, NewBuildSucceeded(RequestOf(m), NO_RESULT));
    RunExtends(cfg, s, run, Advance(rid, YES));
    StepArrives(cfg, s1, rid, YES, u.row, []);
    ReleaseReopens(cfg, u.task, u.row, s1.now);
  }

  lemma ReleaseReopens(cfg: Config, t: Task, row: Option<Row>, now: int)
    requires cfg.Valid() && t.pc.Releasing? && row.Some?
    ensures
      var v := Step(cfg, View(t, row, []), YES, now);
      v.row.Some? && v.row.value.state == InProgress
  {
  }
}
