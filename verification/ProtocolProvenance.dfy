/** Where everything that a run publishes, stores and builds comes from. */
module ProtocolProvenance {
  import opened Events
  import opened Ledger
  import opened LedgerHistory
  import opened Config
  import opened Stage
  import opened Paths
  import opened Scripts
  import opened Protocol
  import opened ProtocolLedger
  import opened ProtocolConservation
  import opened ProtocolExclusion
  import opened ProtocolTraces
  import ProtocolExecutions

  // ------------------------------------------------------------------ the entries of a log

  predicate PathTo(cfg: Config, m: Message, log: Log, i: nat)
    requires cfg.Valid() && i < |log|
  {
    log[i].Did? && Follow(cfg, m, Start(m), Since(log[..i + 1], log[i].rid)).Some?
  }

  /** The renewal of entry i is for a whole lease, and its delivery stands between the start of its build and the
      return of the stage body. */
  predicate RenewsBuild(cfg: Config, m: Message, log: Log, i: nat)
    requires cfg.Valid() && i < |log|
  {
    && log[i].Did? && log[i].effect.call == Sql(Op.Renew(cfg.leaseDuration))
    && var at := Follow(cfg, m, Start(m), Since(log[..i], log[i].rid));
       at.Some? && Renewing(at.value)
  }

  /** Entry i is the last call so far on a path of its own request, or renews the lease of its build. */
  ghost predicate OnOwnPath(cfg: Config, injected: map<Rid, Message>, log: Log, i: nat)
    requires cfg.Valid() && i < |log|
  {
    log[i].Did? ==>
      var rid := log[i].rid;
      && rid in injected && log[i].id == DeploymentOf(injected[rid])
      && exists m: Message :: m.body == injected[rid].body &&
           if IsRenewal(log[i].effect.call) then RenewsBuild(cfg, m, log, i) else PathTo(cfg, m, log, i)
  }

  /** The outcome of entry i is what the ledger of the entries before it answers; a build that went well has a
      result. */
  predicate Honest(log: Log, i: nat)
    requires i < |log|
  {
    var e := log[i];
    e.Did? ==>
      && (StatementOf(e.id, e.effect).Some? ==>
            e.effect.outcome.reply == SqlReply(TableAfter(Statements(log[..i])), StatementOf(e.id, e.effect).value))
      && (e.effect.call == Build ==> e.effect.outcome.Err? || e.effect.outcome.Finished?)
  }

  ghost predicate Documented(cfg: Config, s: State)
    requires cfg.Valid()
  {
    forall i :: 0 <= i < |s.log| ==> OnOwnPath(cfg, s.injected, s.log, i) && Honest(s.log, i)
  }

  lemma EntryStays(cfg: Config, before: map<Rid, Message>, after: map<Rid, Message>, log: Log, e: Entry, i: nat)
    requires cfg.Valid() && i < |log| && OnOwnPath(cfg, before, log, i) && Honest(log, i)
    requires forall rid :: rid in before ==> rid in after && after[rid] == before[rid]
    ensures OnOwnPath(cfg, after, log, i) && OnOwnPath(cfg, after, log + [e], i) && Honest(log + [e], i)
  {
    hide Follow, Since, TableAfter, Statements, SqlReply;
    var more := log + [e];
    assert more[..i] == log[..i] && more[..i + 1] == log[..i + 1] && more[i] == log[i];
    if log[i].Did? {
      var m: Message :| m.body == before[log[i].rid].body &&
        if IsRenewal(log[i].effect.call) then RenewsBuild(cfg, m, log, i) else PathTo(cfg, m, log, i);
      assert if IsRenewal(log[i].effect.call) then RenewsBuild(cfg, m, more, i) else PathTo(cfg, m, more, i);
    }
  }

  lemma NewEntry(cfg: Config, s: State, l: Label)
    requires cfg.Valid() && Enabled(s, l) && EntryOf(cfg, s, l).Some? && LedgerInv(s)
    requires l.Advance? || l.RenewLease? ==> OnPath(cfg, s, l.rid) && Conserved(s, l.rid)
    ensures
      var s' := Next(cfg, s, l);
      |s'.log| == |s.log| + 1 && OnOwnPath(cfg, s'.injected, s'.log, |s.log|) && Honest(s'.log, |s.log|)
  {
    hide Follow, Since, TableAfter, Statements, SqlReply, CallAt, After, Resolve, Next, Start, Ordered;
    var s' := Next(cfg, s, l);
    StepLogs(cfg, s, l);
    assert s'.log[..|s.log|] == s.log && s'.log[..|s.log| + 1] == s'.log;
    if l.Advance? {
      var t := s.tasks[l.rid];
      AdvanceExtendsPath(cfg, s, l.rid, l.world);
      NeverRenews(cfg, t.message, t.pc);
      AdvanceKeepsRequest(cfg, s, l.rid, l.world);
      assert PathTo(cfg, t.message, s'.log, |s.log|);
      ResolvedShape(s, DeploymentOf(t.message), CallAt(cfg, t.message, t.pc), l.world);
      BuildsFinish(s, DeploymentOf(t.message), CallAt(cfg, t.message, t.pc), l.world);
    } else if l.RenewLease? {
      var t := s.tasks[l.rid];
      RenewalIsApplied(cfg, s, DeploymentOf(t.message), l.succeeds);
      RenewalKeepsRequest(cfg, s, l.rid, l.succeeds);
      assert RenewsBuild(cfg, t.message, s'.log, |s.log|);
    }
  }

  lemma AdvanceKeepsRequest(cfg: Config, s: State, rid: Rid, w: World)
    requires cfg.Valid() && Enabled(s, Advance(rid, w)) && Conserved(s, rid)
    ensures
      var t, s' := s.tasks[rid], Next(cfg, s, Advance(rid, w));
      && rid in s'.injected && t.message.body == s'.injected[rid].body
      && DeploymentOf(t.message) == DeploymentOf(s'.injected[rid])
  {
    hide Acceptable, EffectOf, Advanced, HandlesMalformed, Places, Next;
    NextAdvance(cfg, s, rid, w);
    AdvanceTouches(cfg, s, rid, w);
  }

  lemma RenewalKeepsRequest(cfg: Config, s: State, rid: Rid, ok: bool)
    requires cfg.Valid() && Enabled(s, RenewLease(rid, ok)) && Conserved(s, rid)
    ensures
      var t, s' := s.tasks[rid], Next(cfg, s, RenewLease(rid, ok));
      && rid in s'.injected && t.message.body == s'.injected[rid].body
      && DeploymentOf(t.message) == DeploymentOf(s'.injected[rid])
  {
    hide Acceptable, HandlesMalformed, Places, ApplyEffect;
    PerformTouches(s, rid, DeploymentOf(s.tasks[rid].message), RenewalOf(cfg, s, ok));
  }

  lemma BuildsFinish(s: State, id: string, call: Call, w: World)
    ensures call == Build ==> var o := Resolve(s, id, call, w); o.Err? || o.Finished?
  {
  }

  lemma RenewalIsApplied(cfg: Config, s: State, id: string, ok: bool)
    ensures
      var e := RenewalOf(cfg, s, ok);
      && e.call == Sql(Op.Renew(cfg.leaseDuration)) && IsRenewal(e.call)
      && (StatementOf(id, e).Some? ==> e.outcome.reply == SqlReply(s.table, StatementOf(id, e).value))
  {
  }

  lemma DocumentedStep(cfg: Config, s: State, l: Label)
    requires cfg.Valid() && Enabled(s, l) && Documented(cfg, s) && LedgerInv(s)
    requires l.Advance? || l.RenewLease? ==> OnPath(cfg, s, l.rid) && Conserved(s, l.rid)
    ensures Documented(cfg, Next(cfg, s, l))
  {
    hide Next, OnOwnPath, Honest, OnPath, Conserved, LedgerInv, EntryOf, Enabled;
    var s' := Next(cfg, s, l);
    StepLogs(cfg, s, l);
    ProtocolExecutions.InjectedStays(cfg, s, l);
    var e := EntryOf(cfg, s, l);
    if e.Some? {
      NewEntry(cfg, s, l);
    }
    forall i | 0 <= i < |s'.log|
      ensures OnOwnPath(cfg, s'.injected, s'.log, i) && Honest(s'.log, i)
    {
      if i < |s.log| {
        EntryStays(cfg, s.injected, s'.injected, s.log, if e.Some? then e.value else Delivered(0), i);
      }
    }
  }

  /** Every call of a run lies on a path of its own request, or renews the lease of its build, and is answered by
      the ledger of the calls before. */
  lemma {:induction false} RunsAreDocumented(cfg: Config, run: Run)
    requires cfg.Valid() && RunTo(cfg, INITIAL, run).Some?
    ensures Documented(cfg, RunTo(cfg, INITIAL, run).value)
  {
    if run != [] {
      hide Next, Documented, OnPath, Conserved, LedgerInv, Enabled;
      var n := |run| - 1;
      var s, l := RunTo(cfg, INITIAL, run[..n]).value, run[n];
      RunsAreDocumented(cfg, run[..n]);
      RequestsAreConserved(cfg, run[..n]);
      LedgerFollowsLog(cfg, run[..n]);
      if l.Advance? || l.RenewLease? {
        RunsFollowPaths(cfg, run[..n], l.rid);
        assert Conserved(s, l.rid);
      }
      DocumentedStep(cfg, s, l);
    }
  }

  // ------------------------------------------------------------------ jobs

  /** A job is taken only for a delivery that has made exactly two calls before: a claim that was granted, and an
      Ack that went through. */
  lemma JobsWereAcknowledged(cfg: Config, run: Run, i: nat)
    requires cfg.Valid() && RunTo(cfg, INITIAL, run).Some?
    requires i < |RunTo(cfg, INITIAL, run).value.log|
    requires RunTo(cfg, INITIAL, run).value.log[i].Did? && RunTo(cfg, INITIAL, run).value.log[i].effect.call == TakeJob
    ensures
      var log := RunTo(cfg, INITIAL, run).value.log;
      var before := Since(log[..i], log[i].rid);
      |before| == 2 && ClaimedAndAcked(cfg, before)
  {
    hide RunTo, Follow, Since, ClaimedAndAcked, Honest;
    RunsAreDocumented(cfg, run);
    var s := RunTo(cfg, INITIAL, run).value;
    assert OnOwnPath(cfg, s.injected, s.log, i);
    var m: Message :| PathTo(cfg, m, s.log, i);
    PathUnfolds(cfg, m, s.log, i);
    TakenOnPath(cfg, m, Since(s.log[..i], s.log[i].rid), s.log[i].effect);
  }

  /** The path at an entry is the one before and the call of the entry. */
  lemma SinceLast(log: Log, i: nat)
    requires i < |log| && log[i].Did? && !IsRenewal(log[i].effect.call)
    ensures Since(log[..i + 1], log[i].rid) == Since(log[..i], log[i].rid) + [log[i].effect]
  {
    assert log[..i + 1] == log[..i] + [log[i]];
    SinceAppend(log[..i], log[i], log[i].rid);
  }

  lemma PathUnfolds(cfg: Config, m: Message, log: Log, i: nat)
    requires cfg.Valid() && i < |log| && PathTo(cfg, m, log, i) && !IsRenewal(log[i].effect.call)
    ensures Follow(cfg, m, Start(m), Since(log[..i], log[i].rid) + [log[i].effect]).Some?
  {
    hide Follow, Since;
    SinceLast(log, i);
  }

  lemma TakenOnPath(cfg: Config, m: Message, t: Trace, e: Effect)
    requires cfg.Valid() && Follow(cfg, m, Start(m), t + [e]).Some? && e.call == TakeJob
    ensures |t| == 2 && ClaimedAndAcked(cfg, t)
  {
    hide CallAt, After, Follow, ClaimedAndAcked, Complaint;
    var path := t + [e];
    assert path[..|path| - 1] == t;
    LastStep(cfg, m, Start(m), path);
    OnlyJobsAreTaken(cfg, m, Follow(cfg, m, Start(m), t).value);
    if Complaint(m.body).None? {
      JobsAreAcknowledged(cfg, m, t);
    } else {
      MalformedFollowTheirScript(cfg, m, t);
    }
  }

  lemma OnlyJobsAreTaken(cfg: Config, m: Message, pc: Pc)
    requires cfg.Valid() && !pc.Over?
    ensures CallAt(cfg, m, pc) == TakeJob ==> pc == Queued
  {
  }

  // ------------------------------------------------------------------ results

  /** The request had built the result before entry i. */
  ghost predicate BuiltBefore(log: Log, i: nat, rid: Rid, result: BuildResult)
    requires i <= |log|
  {
    exists j :: 0 <= j < i && log[j].Did? && log[j].rid == rid && log[j].effect.call == Build
      && log[j].effect.outcome == Finished(result)
  }

  /** What a ledger write of a result says. */
  ghost predicate WritesOwnResult(cfg: Config, r: Request, log: Log, i: nat)
    requires i < |log| && log[i].Did? && log[i].effect.call.Sql?
  {
    match log[i].effect.call.op
    case Complete(b) => exists result :: BuiltBefore(log, i, log[i].rid, result) && IsSuccess(cfg, r, result, b)
    case Fail(b) => exists message :: IsFailure(cfg, r, message, b)
    case _ => true
  }

  /** The effects of a delivery are in the log. */
  lemma {:induction false} SinceIsLogged(log: Log, rid: Rid, j: nat) returns (k: nat)
    requires j < |Since(log, rid)|
    ensures k < |log| && log[k].Did? && log[k].rid == rid && log[k].effect == Since(log, rid)[j]
  {
    var n := |log| - 1;
    var before := Since(log[..n], rid);
    if Since(log, rid) == before || j < |before| {
      k := SinceIsLogged(log[..n], rid, j);
    } else {
      k := n;
    }
  }

  lemma BuiltIsLogged(cfg: Config, s: State, i: nat, rid: Rid, result: BuildResult)
    requires cfg.Valid() && i <= |s.log| && Documented(cfg, s) && BuiltIn(Since(s.log[..i], rid), result)
    ensures BuiltBefore(s.log, i, rid, result)
  {
    hide Since, OnOwnPath, TableAfter, Statements, SqlReply;
    var t := Since(s.log[..i], rid);
    var j :| 0 <= j < |t| && IsBuild(t[j], result);
    var k := SinceIsLogged(s.log[..i], rid, j);
    assert s.log[..i][k] == s.log[k];
    assert Honest(s.log, k);
  }

  /** In every run, what a request writes to the ledger as a result is its own: a success of its own build, with
      events of the request itself under their own keys, or a failure of the request. */
  lemma ResultsAreOwn(cfg: Config, run: Run, i: nat)
    requires cfg.Valid() && RunTo(cfg, INITIAL, run).Some?
    requires i < |RunTo(cfg, INITIAL, run).value.log|
    requires RunTo(cfg, INITIAL, run).value.log[i].Did? && RunTo(cfg, INITIAL, run).value.log[i].effect.call.Sql?
    requires !IsRenewal(RunTo(cfg, INITIAL, run).value.log[i].effect.call)
    ensures
      var s := RunTo(cfg, INITIAL, run).value;
      && s.log[i].rid in s.injected && s.log[i].id == DeploymentOf(s.injected[s.log[i].rid])
      && WritesOwnResult(cfg, RequestOf(s.injected[s.log[i].rid]), s.log, i)
  {
    hide RunTo, OnOwnPath, Honest, WritesOwnResult, Documented, DeploymentOf;
    RunsAreDocumented(cfg, run);
    WriteIsOwn(cfg, RunTo(cfg, INITIAL, run).value, i);
  }

  lemma WriteIsOwn(cfg: Config, s: State, i: nat)
    requires cfg.Valid() && i < |s.log| && Documented(cfg, s)
    requires s.log[i].Did? && s.log[i].effect.call.Sql? && !IsRenewal(s.log[i].effect.call)
    ensures s.log[i].rid in s.injected && s.log[i].id == DeploymentOf(s.injected[s.log[i].rid])
    ensures WritesOwnResult(cfg, RequestOf(s.injected[s.log[i].rid]), s.log, i)
  {
    hide Follow, Since, Honest, BuiltIn, BuiltBefore, IsSuccess, IsFailure;
    assert OnOwnPath(cfg, s.injected, s.log, i);
    var rid, op := s.log[i].rid, s.log[i].effect.call.op;
    var m: Message :| m.body == s.injected[rid].body && PathTo(cfg, m, s.log, i);
    PathUnfolds(cfg, m, s.log, i);
    var t := Since(s.log[..i], rid);
    EntryIsGenuine(cfg, m, t, s.log[i].effect);
    if op.Complete? {
      var result :| BuiltIn(t, result) && IsSuccess(cfg, RequestOf(m), result, op.value);
      BuiltIsLogged(cfg, s, i, rid, result);
    }
  }

  /** The last call of a path. */
  lemma EntryIsGenuine(cfg: Config, m: Message, t: Trace, e: Effect)
    requires cfg.Valid() && Follow(cfg, m, Start(m), t + [e]).Some?
    ensures e.call.Publish? ==>
      OwnEvent(cfg, RequestOf(m), t, e.call) || exists b :: Replays(cfg, t, b) && HalfOf(cfg, b, e.call)
    ensures e.call.Sql? ==> OwnResult(cfg, RequestOf(m), t, e.call.op)
  {
    hide Follow, OwnEvent, OwnResult, Replays, HalfOf;
    assert (t + [e])[..|t|] == t && (t + [e])[|t|] == e;
    CallsAreGenuine(cfg, m, t + [e], |t|);
  }

  // ------------------------------------------------------------------ publications

  /** The publication of entry i is told of request origin, with a result that origin has built; it is the
      publisher's own request, or the ledger answered the publisher's claim with the event. */
  ghost predicate Originates(cfg: Config, s: State, i: nat, origin: Rid)
    requires i < |s.log| && s.log[i].Did? && s.log[i].effect.call.Publish?
  {
    var call := s.log[i].effect.call;
    && origin in s.injected && DeploymentOf(s.injected[origin]) == s.log[i].id
    && Addressed(cfg, call.exchange, call.key, call.event.eventType)
    && Genuine(RequestOf(s.injected[origin]), call.event)
    && (call.event.details.Image? ==> BuiltBefore(s.log, i, origin, call.event.details.result))
    && (origin != s.log[i].rid ==>
          exists b :: Replays(cfg, Since(s.log[..i], s.log[i].rid), b) && HalfOf(cfg, b, call))
  }

  /** In every run, every event published, for the first time or again, goes to the exchange and key of its type,
      says of the request it is told of what its type asks for, and tells of a success only what a build of that
      request has given. */
  lemma PublicationsAreGenuine(cfg: Config, run: Run, i: nat) returns (origin: Rid)
    requires cfg.Valid() && RunTo(cfg, INITIAL, run).Some?
    requires i < |RunTo(cfg, INITIAL, run).value.log|
    requires RunTo(cfg, INITIAL, run).value.log[i].Did? && RunTo(cfg, INITIAL, run).value.log[i].effect.call.Publish?
    ensures Originates(cfg, RunTo(cfg, INITIAL, run).value, i, origin)
  {
    hide RunTo, OnOwnPath, Honest, Originates, Documented;
    RunsAreDocumented(cfg, run);
    origin := PublicationIsGenuine(cfg, RunTo(cfg, INITIAL, run).value, i);
  }

  lemma PublicationIsGenuine(cfg: Config, s: State, i: nat) returns (origin: Rid)
    requires cfg.Valid() && i < |s.log| && Documented(cfg, s)
    requires s.log[i].Did? && s.log[i].effect.call.Publish?
    ensures Originates(cfg, s, i, origin)
  {
    hide Follow, Since, Honest, BuiltIn, BuiltBefore, Replays, HalfOf, Genuine, Addressed;
    assert OnOwnPath(cfg, s.injected, s.log, i);
    var rid, call := s.log[i].rid, s.log[i].effect.call;
    var m: Message :| m.body == s.injected[rid].body && PathTo(cfg, m, s.log, i);
    PathUnfolds(cfg, m, s.log, i);
    var t := Since(s.log[..i], rid);
    EntryIsGenuine(cfg, m, t, s.log[i].effect);
    if OwnEvent(cfg, RequestOf(m), t, call) {
      origin := rid;
      if call.event.details.Image? {
        BuiltIsLogged(cfg, s, i, rid, call.event.details.result);
      }
    } else {
      var b :| Replays(cfg, t, b) && HalfOf(cfg, b, call);
      var j := StoredWasWritten(cfg, s, i, rid, b);
      origin := s.log[j].rid;
      HalfIsGenuine(cfg, s, i, j, b);
    }
  }

  /** What a claim is answered with was written before, for the same deployment. */
  lemma StoredWasWritten(cfg: Config, s: State, i: nat, rid: Rid, b: Bundle) returns (j: nat)
    requires cfg.Valid() && i < |s.log| && Documented(cfg, s) && Replays(cfg, Since(s.log[..i], rid), b)
    requires s.log[i].Did? && s.log[i].rid == rid && !IsRenewal(s.log[i].effect.call)
    ensures j < i && WritesBundle(s.log[j], s.log[i].id, b)
  {
    hide Since, Statements, TableAfter, Follow;
    var k := SinceIsLogged(s.log[..i], rid, 0);
    assert s.log[..i][k] == s.log[k];
    var e := s.log[k];
    assert Honest(s.log, k) && OnOwnPath(cfg, s.injected, s.log, k) && OnOwnPath(cfg, s.injected, s.log, i);
    var h := Statements(s.log[..k]);
    ClaimReadsRow(h, e.id, cfg.leaseDuration, e.effect.at, b, e.effect.outcome);
    j := LatestIsLogged(s.log[..k], (e.id, STAGE), b);
    assert s.log[..k][j] == s.log[j];
  }

  predicate WritesBundle(e: Entry, id: string, b: Bundle) {
    e.Did? && e.id == id && (e.effect.call == Sql(Op.Complete(b)) || e.effect.call == Sql(Op.Fail(b)))
  }

  lemma ClaimReadsRow(h: History, id: string, d: int, at: int, b: Bundle, o: Outcome)
    requires Stored(o, b) && o.reply == SqlReply(TableAfter(h), Statement(id, STAGE, Op.Claim(d), at))
    ensures LatestResult(h, (id, STAGE)).Some? && LatestResult(h, (id, STAGE)).value.1 == b
  {
    hide TableAfter, LatestResult;
    TerminalRowIsLatestResult(h, (id, STAGE));
  }

  lemma {:induction false} LatestIsLogged(log: Log, k: Key, b: Bundle) returns (j: nat)
    requires k.1 == STAGE
    requires LatestResult(Statements(log), k).Some? && LatestResult(Statements(log), k).value.1 == b
    ensures j < |log| && WritesBundle(log[j], k.0, b)
  {
    var n := |log| - 1;
    var h, more := Statements(log[..n]), StatementIn(log[n]);
    if more == [] {
      assert h + more == h;
      j := LatestIsLogged(log[..n], k, b);
    } else {
      var st := more[0];
      assert (h + more)[..|h|] == h && (h + more)[|h|] == st;
      LastEvents(h + more, k);
      if LatestResult(h, k) == LatestResult(h + more, k) {
        j := LatestIsLogged(log[..n], k, b);
      } else {
        j := n;
      }
    }
  }

  lemma HalfIsGenuine(cfg: Config, s: State, i: nat, j: nat, b: Bundle)
    requires cfg.Valid() && j < i < |s.log| && Documented(cfg, s)
    requires s.log[i].Did? && s.log[i].effect.call.Publish? && HalfOf(cfg, b, s.log[i].effect.call)
    requires WritesBundle(s.log[j], s.log[i].id, b) && Replays(cfg, Since(s.log[..i], s.log[i].rid), b)
    ensures Originates(cfg, s, i, s.log[j].rid)
  {
    hide Since, Honest, OnOwnPath, BuiltBefore, Replays, Names, Documented;
    WriteIsOwn(cfg, s, j);
    var r, op := RequestOf(s.injected[s.log[j].rid]), s.log[j].effect.call.op;
    if op.Complete? {
      var result :| BuiltBefore(s.log, j, s.log[j].rid, result) && IsSuccess(cfg, r, result, b);
      BuiltStays(s.log, j, i, s.log[j].rid, result);
    } else {
      var message :| IsFailure(cfg, r, message, b);
    }
  }

  lemma BuiltStays(log: Log, i: nat, j: nat, rid: Rid, result: BuildResult)
    requires i <= j <= |log| && BuiltBefore(log, i, rid, result)
    ensures BuiltBefore(log, j, rid, result)
  {
  }
}
