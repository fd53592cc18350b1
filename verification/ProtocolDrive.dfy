/** Runs that move one delivery only: what they do depends on its task and its ledger row alone. */
module ProtocolDrive {
  import opened Options
  import opened Events
  import opened Ledger
  import opened Config
  import opened Stage
  import opened Paths
  import opened Protocol
  import opened ProtocolLedger
  import opened ProtocolConservation
  import opened ProtocolExclusion
  import opened ProtocolChain

  /** A delivery, the row of its deployment, and the effects of its calls so far. */
  datatype View = View(task: Task, row: Option<Row>, done: Trace)

  function OutcomeOf(id: string, row: Option<Row>, call: Call, w: World, now: int): Outcome {
    match w
    case Breaks(reason) => Err(reason)
    case Succeeds(result) =>
      match call
      case Sql(op) =>
        var reply := SqlRow(id, STAGE, row, op, now).1;
        if reply.NoRow? then Err("sql: no rows in result set") else Answered(reply)
      case Build => Finished(result)
      case _ => Ok
  }

  function NextEffect(cfg: Config, t: Task, row: Option<Row>, w: World, now: int): Effect
    requires cfg.Valid() && !t.pc.Over?
  {
    var call := CallAt(cfg, t.message, t.pc);
    Effect(call, OutcomeOf(DeploymentOf(t.message), row, call, w, now), now)
  }

  function RowAfterEffect(id: string, row: Option<Row>, e: Effect): Option<Row> {
    if e.call.Sql? && e.outcome.Answered? then SqlRow(id, STAGE, row, e.call.op, e.at).0 else row
  }

  /** One call of the delivery. */
  function Step(cfg: Config, v: View, w: World, now: int): View
    requires cfg.Valid() && !v.task.pc.Over?
  {
    var e := NextEffect(cfg, v.task, v.row, w, now);
    View(Remember(cfg, v.task, e).(pc := After(cfg, v.task.message, v.task.pc, e.outcome)),
         RowAfterEffect(DeploymentOf(v.task.message), v.row, e), v.done + [e])
  }

  /** One call for each answer of the world, if the delivery does not end before. */
  function Walk(cfg: Config, v: View, ws: seq<World>, now: int): Option<View>
    requires cfg.Valid()
  {
    if ws == [] then Some(v)
    else
      match Walk(cfg, v, ws[..|ws| - 1], now)
      case None => None
      case Some(u) => if u.task.pc.Over? then None else Some(Step(cfg, u, ws[|ws| - 1], now))
  }

  lemma WalkExtends(cfg: Config, v: View, ws: seq<World>, w: World, now: int)
    requires cfg.Valid() && Walk(cfg, v, ws, now).Some? && !Walk(cfg, v, ws, now).value.task.pc.Over?
    ensures Walk(cfg, v, ws + [w], now) == Some(Step(cfg, Walk(cfg, v, ws, now).value, w, now))
  {
    hide Step;
    assert (ws + [w])[..|ws|] == ws;
  }

  function Advances(rid: Rid, ws: seq<World>): Run {
    if ws == [] then [] else Advances(rid, ws[..|ws| - 1]) + [Advance(rid, ws[|ws| - 1])]
  }

  function Entries(rid: Rid, id: string, t: Trace): Log {
    if t == [] then [] else Entries(rid, id, t[..|t| - 1]) + [Did(rid, id, t[|t| - 1])]
  }

  function ViewOf(s: State, rid: Rid): View
    requires rid in s.tasks
  {
    View(s.tasks[rid], Lookup(s.table, StageKey(s.tasks[rid].message)), [])
  }

  /** State s' is s after the calls of v by rid, for deployment id. */
  ghost predicate Arrived(s: State, s': State, rid: Rid, id: string, v: View) {
    && s'.now == s.now && s'.injected == s.injected
    && s'.log == s.log + Entries(rid, id, v.done)
    && Lookup(s'.table, (id, STAGE)) == v.row
    && Lookup(s'.tasks, rid) == (if v.task.pc.Over? then None else Some(v.task))
    && (v.task.pc == Over(Dropped) ==> rid in s'.dropped)
    && (v.task.pc == Over(Moved) && v.done != [] && v.done[|v.done| - 1].call.SendRetry? ==>
          Lookup(s'.retry, rid) == Some(Delayed(v.done[|v.done| - 1].call.queue, v.done[|v.done| - 1].call.copy)))
    && (forall other :: other != rid ==> SameAt(s, s', other))
  }

  lemma OutcomeIsResolved(s: State, id: string, call: Call, w: World)
    ensures OutcomeOf(id, Lookup(s.table, (id, STAGE)), call, w, s.now) == Resolve(s, id, call, w)
  {
  }

  /** One step of the protocol is one step of the view. */
  lemma StepArrives(cfg: Config, s: State, rid: Rid, w: World, row: Option<Row>, done: Trace)
    requires cfg.Valid() && Enabled(s, Advance(rid, w))
    requires row == Lookup(s.table, StageKey(s.tasks[rid].message))
    ensures
      var t := s.tasks[rid];
      var s', v := Next(cfg, s, Advance(rid, w)), Step(cfg, View(t, row, done), w, s.now);
      && s'.log == s.log + [Did(rid, DeploymentOf(t.message), v.done[|done|])]
      && v.done == done + [NextEffect(cfg, t, row, w, s.now)]
      && s'.now == s.now && s'.injected == s.injected
      && Lookup(s'.table, StageKey(t.message)) == v.row
      && Lookup(s'.tasks, rid) == (if v.task.pc.Over? then None else Some(v.task))
      && (v.task.pc == Over(Dropped) ==> rid in s'.dropped)
      && (v.task.pc == Over(Moved) && v.done[|done|].call.SendRetry? ==>
            Lookup(s'.retry, rid) == Some(Delayed(v.done[|done|].call.queue, v.done[|done|].call.copy)))
      && v.task.message == t.message
  {
    hide CallAt, After, Remember, Perform, Settle, Advanced, Resolve, DeploymentOf, OutcomeOf;
    var t := s.tasks[rid];
    var id, e := DeploymentOf(t.message), EffectOf(cfg, s, rid, w);
    OutcomeIsResolved(s, id, CallAt(cfg, t.message, t.pc), w);
    assert e == NextEffect(cfg, t, row, w, s.now);
    NextAdvance(cfg, s, rid, w);
    AdvanceTouches(cfg, s, rid, w);
    TaskAdvanced(cfg, s, rid, w);
    OwnRow(cfg, s, rid, w);
    RememberKeepsMessage(cfg, t, e);
    AdvancedUnfolds(cfg, s, rid, w);
    var next := After(cfg, t.message, t.pc, e.outcome);
    WhereAdvanced(s, rid, Remember(cfg, t, e), e, next);
    MovedBySending(cfg, t.message, t.pc, e.outcome);
  }

  lemma MovedBySending(cfg: Config, m: Message, pc: Pc, o: Outcome)
    requires cfg.Valid() && !pc.Over?
    ensures After(cfg, m, pc, o) == Over(Moved) && CallAt(cfg, m, pc).SendRetry? ==> !o.Err?
  {
    hide CallAt, After;
    Commitments(cfg, m, pc, o);
    MovesMatchCopies(cfg, m, pc, o);
  }

  lemma EntriesExtend(rid: Rid, id: string, t: Trace, e: Effect)
    ensures Entries(rid, id, t + [e]) == Entries(rid, id, t) + [Did(rid, id, e)]
  {
    assert (t + [e])[..|t|] == t;
  }

  /** A walk of the view is a run of the protocol. */
  lemma {:induction false} WalkArrives(cfg: Config, s: State, rid: Rid, ws: seq<World>)
    requires cfg.Valid() && rid in s.tasks && !s.tasks[rid].pc.Over?
    requires Walk(cfg, ViewOf(s, rid), ws, s.now).Some?
    ensures RunTo(cfg, s, Advances(rid, ws)).Some?
    ensures
      var v := Walk(cfg, ViewOf(s, rid), ws, s.now).value;
      && Arrived(s, RunTo(cfg, s, Advances(rid, ws)).value, rid, DeploymentOf(s.tasks[rid].message), v)
      && v.task.message == s.tasks[rid].message
  {
    hide Next, Step, Remember, After, CallAt;
    if ws == [] {
      assert s.log + [] == s.log;
    } else {
      var n := |ws| - 1;
      var w, init := ws[n], ws[..n];
      WalkArrives(cfg, s, rid, init);
      var u, mid := Walk(cfg, ViewOf(s, rid), init, s.now).value, RunTo(cfg, s, Advances(rid, init)).value;
      RunExtends(cfg, s, Advances(rid, init), Advance(rid, w));
      WalkLands(cfg, s, mid, rid, u, w);
    }
  }

  lemma WalkLands(cfg: Config, s: State, mid: State, rid: Rid, u: View, w: World)
    requires cfg.Valid() && rid in s.tasks && !u.task.pc.Over? && u.task.message == s.tasks[rid].message
    requires Arrived(s, mid, rid, DeploymentOf(s.tasks[rid].message), u)
    ensures Enabled(mid, Advance(rid, w))
    ensures
      var v := Step(cfg, u, w, s.now);
      && Arrived(s, Next(cfg, mid, Advance(rid, w)), rid, DeploymentOf(s.tasks[rid].message), v)
      && v.task.message == s.tasks[rid].message
  {
    hide Next, Step, Remember, After, CallAt, DeploymentOf, NextEffect;
    var id := DeploymentOf(s.tasks[rid].message);
    var s', v := Next(cfg, mid, Advance(rid, w)), Step(cfg, u, w, s.now);
    StepArrives(cfg, mid, rid, w, u.row, u.done);
    EntriesExtend(rid, id, u.done, v.done[|u.done|]);
    forall other | other != rid
      ensures SameAt(s, s', other)
    {
      assert SameAt(s, mid, other);
      StepFrames(cfg, mid, Advance(rid, w), other);
    }
  }

  lemma {:induction false} WalkConcat(cfg: Config, v: View, a: seq<World>, b: seq<World>, now: int)
    requires cfg.Valid() && Walk(cfg, v, a, now).Some?
    ensures Walk(cfg, v, a + b, now) == Walk(cfg, Walk(cfg, v, a, now).value, b, now)
  {
    hide Step;
    if b == [] {
      assert a + b == a;
    } else {
      var n := |b| - 1;
      WalkConcat(cfg, v, a, b[..n], now);
      assert (a + b)[..|a + b| - 1] == a + b[..n];
    }
  }

  /** Walks one call at a time. */
  lemma WalkFrom(cfg: Config, v: View, w: World, rest: seq<World>, now: int)
    requires cfg.Valid() && !v.task.pc.Over?
    ensures Walk(cfg, v, [w] + rest, now) == Walk(cfg, Step(cfg, v, w, now), rest, now)
  {
    hide Step;
    assert [] + [w] == [w];
    WalkExtends(cfg, v, [], w, now);
    WalkConcat(cfg, v, [w], rest, now);
  }

  lemma {:induction false} WalkKeepsEffects(cfg: Config, v: View, ws: seq<World>, now: int)
    requires cfg.Valid() && Walk(cfg, v, ws, now).Some?
    ensures v.done <= Walk(cfg, v, ws, now).value.done
  {
    hide CallAt, After, Remember, RowAfterEffect;
    if ws != [] {
      WalkKeepsEffects(cfg, v, ws[..|ws| - 1], now);
    }
  }

  lemma {:induction false} EntriesAt(rid: Rid, id: string, t: Trace)
    ensures |Entries(rid, id, t)| == |t|
    ensures forall i :: 0 <= i < |t| ==> Entries(rid, id, t)[i] == Did(rid, id, t[i])
  {
    if t != [] {
      EntriesAt(rid, id, t[..|t| - 1]);
    }
  }
}
