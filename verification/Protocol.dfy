/** The whole service: any number of deliveries and workers over one broker and one ledger.

    A step is labelled with everything that is not determined by the state: which delivery moves and
    what the outside world answers. Any number of jobs may run at once, a superset of the one worker
    each process has, and Lose(rid) is the stop of the process that handles rid. */
module Protocol {
  import opened Options
  import opened Events
  import opened Ledger
  import opened LedgerHistory
  import opened Config
  import opened Stage
  import opened Paths

  /** Identifies one request injected by a producer, through all its copies. */
  type Rid = nat

  /** deadline, wrote and released are history variables: the end of the lease this delivery was last
      granted, and whether it has since written a terminal result and given its lease up. The code
      reads none of them. */
  datatype Task = Task(message: Message, pc: Pc, deadline: int, wrote: bool, released: bool)

  datatype Delayed = Delayed(queue: string, message: Message)

  datatype Entry =
    | Delivered(rid: Rid)
    | Did(rid: Rid, id: string, effect: Effect)
    | Lost(rid: Rid, unsettled: bool)

  type Log = seq<Entry>

  datatype State = State(
    now: int,
    injected: map<Rid, Message>,
    main: map<Rid, Message>,
    tasks: map<Rid, Task>,
    retry: map<Rid, Delayed>,
    dlq: map<Rid, Message>,
    settled: set<Rid>,
    dropped: set<Rid>,
    table: Table,
    log: Log)

  const INITIAL := State(0, map[], map[], map[], map[], map[], {}, {}, map[], [])

  /** What the outside world does with a call. */
  datatype World = Succeeds(result: BuildResult) | Breaks(reason: string)

  datatype Label =
    | Tick(to: int)
    | Inject(rid: Rid, message: Message)
    | Deliver(rid: Rid)
    | Advance(rid: Rid, world: World)
    | RenewLease(rid: Rid, succeeds: bool)
    | Expire(rid: Rid)
    | Lose(rid: Rid)

  function DeploymentOf(m: Message): string {
    RequestOf(m).deploymentId
  }

  function StageKey(m: Message): Key {
    (DeploymentOf(m), STAGE)
  }

  predicate Enabled(s: State, l: Label) {
    match l
    case Tick(to) => s.now <= to
    case Inject(rid, m) => rid !in s.injected && Attempt(m) >= 0
    case Deliver(rid) => rid in s.main
    case Advance(rid, _) => rid in s.tasks && !s.tasks[rid].pc.Over?
    case RenewLease(rid, _) => rid in s.tasks && Renewing(s.tasks[rid].pc)
    case Expire(rid) => rid in s.retry
    case Lose(rid) => rid in s.tasks
  }

  /** An outcome a call can have in state s: ledger statements answer from the table. */
  function Resolve(s: State, id: string, call: Call, w: World): Outcome {
    match w
    case Breaks(reason) => Err(reason)
    case Succeeds(result) =>
      match call
      case Sql(op) =>
        var reply := SqlReply(s.table, Statement(id, STAGE, op, s.now));
        if reply.NoRow? then Err("sql: no rows in result set") else Answered(reply)
      case Build => Finished(result)
      case _ => Ok
  }

  /** What a call does to the ledger and the queues. */
  function Perform(s: State, rid: Rid, id: string, e: Effect): State {
    s.(table := ApplyEffect(s.table, id, e),
       log := s.log + [Did(rid, id, e)],
       retry :=
         if e.call.SendRetry? && !e.outcome.Err? then s.retry[rid := Delayed(e.call.queue, e.call.copy)] else s.retry,
       dlq := if e.call.SendDlq? && !e.outcome.Err? then s.dlq[rid := e.call.copy] else s.dlq)
  }

  /** The history variables after an effect. */
  function Remember(cfg: Config, t: Task, e: Effect): Task {
    if e.outcome.Answered? && Acquires(e.outcome.reply) then
      t.(deadline := e.at + cfg.leaseDuration, wrote := false, released := false)
    else if e.outcome.Answered? && e.call.Sql? && (e.call.op.Complete? || e.call.op.Fail?) then
      t.(wrote := true)
    else if e.outcome.Answered? && e.call == Sql(Op.Release) then t.(released := true)
    else t
  }

  /** Moves the delivery to its next control point, or out of the pipeline. */
  function Settle(s: State, rid: Rid, t: Task, pc: Pc): State {
    s.(tasks := if pc.Over? then s.tasks - {rid} else s.tasks[rid := t.(pc := pc)],
       main := if pc == Over(Requeued) then s.main[rid := t.message] else s.main,
       settled := if pc == Over(End.Settled) then s.settled + {rid} else s.settled,
       dropped := if pc == Over(Dropped) then s.dropped + {rid} else s.dropped)
  }

  /** The call made by Advance and its outcome. */
  function EffectOf(cfg: Config, s: State, rid: Rid, w: World): Effect
    requires cfg.Valid() && Enabled(s, Advance(rid, w))
  {
    var t := s.tasks[rid];
    var call := CallAt(cfg, t.message, t.pc);
    Effect(call, Resolve(s, DeploymentOf(t.message), call, w), s.now)
  }

  function Advanced(cfg: Config, s: State, rid: Rid, w: World): State
    requires cfg.Valid() && Enabled(s, Advance(rid, w))
  {
    var t := s.tasks[rid];
    var e := EffectOf(cfg, s, rid, w);
    Settle(Perform(s, rid, DeploymentOf(t.message), e), rid, Remember(cfg, t, e),
           After(cfg, t.message, t.pc, e.outcome))
  }

  function RenewalOf(cfg: Config, s: State, succeeds: bool): Effect {
    Effect(Sql(Op.Renew(cfg.leaseDuration)), if succeeds then Answered(Applied) else Err("renew"), s.now)
  }

  function Renewed(cfg: Config, s: State, rid: Rid, succeeds: bool): State
    requires rid in s.tasks
  {
    var t := s.tasks[rid];
    var k := StageKey(t.message);
    var longer := succeeds && k in s.table && s.table[k].state == InProgress;
    Perform(s, rid, k.0, RenewalOf(cfg, s, succeeds)).(
      tasks := s.tasks[rid := if longer then t.(deadline := s.now + cfg.leaseDuration) else t])
  }

  function Next(cfg: Config, s: State, l: Label): State
    requires cfg.Valid() && Enabled(s, l)
  {
    match l
    case Tick(to) => s.(now := to)
    case Inject(rid, m) => s.(injected := s.injected[rid := m], main := s.main[rid := m])
    case Deliver(rid) =>
      s.(main := s.main - {rid}, tasks := s.tasks[rid := Task(s.main[rid], Start(s.main[rid]), 0, false, false)],
         log := s.log + [Delivered(rid)])
    case Advance(rid, w) => Advanced(cfg, s, rid, w)
    case RenewLease(rid, succeeds) => Renewed(cfg, s, rid, succeeds)
    case Expire(rid) => s.(retry := s.retry - {rid}, main := s.main[rid := s.retry[rid].message])
    case Lose(rid) =>
      var t := s.tasks[rid];
      s.(tasks := s.tasks - {rid}, log := s.log + [Lost(rid, Unsettled(t.pc))],
         main := if Unsettled(t.pc) then s.main[rid := t.message] else s.main,
         dropped := if Unsettled(t.pc) then s.dropped else s.dropped + {rid})
  }

  /** Request r is where it was, with the same contents. */
  predicate SameAt(s: State, s': State, r: Rid) {
    && Lookup(s'.injected, r) == Lookup(s.injected, r)
    && Lookup(s'.main, r) == Lookup(s.main, r)
    && Lookup(s'.tasks, r) == Lookup(s.tasks, r)
    && Lookup(s'.retry, r) == Lookup(s.retry, r)
    && Lookup(s'.dlq, r) == Lookup(s.dlq, r)
    && (r in s'.settled <==> r in s.settled)
    && (r in s'.dropped <==> r in s.dropped)
  }

  lemma PerformFrames(s: State, rid: Rid, id: string, e: Effect, other: Rid)
    requires other != rid
    ensures SameAt(s, Perform(s, rid, id, e), other)
  {
    hide ApplyEffect;
  }

  lemma SettleFrames(s: State, rid: Rid, t: Task, pc: Pc, other: Rid)
    requires other != rid
    ensures SameAt(s, Settle(s, rid, t, pc), other)
  {
  }

  /** A step moves only the request it names. */
  lemma StepFrames(cfg: Config, s: State, l: Label, other: Rid)
    requires cfg.Valid() && Enabled(s, l) && (l.Tick? || other != l.rid)
    ensures SameAt(s, Next(cfg, s, l), other)
  {
    hide CallAt, After, Resolve, Remember, Perform, Settle;
    if l.Advance? {
      var t := s.tasks[l.rid];
      var id, e := DeploymentOf(t.message), EffectOf(cfg, s, l.rid, l.world);
      PerformFrames(s, l.rid, id, e, other);
      SettleFrames(Perform(s, l.rid, id, e), l.rid, Remember(cfg, t, e), After(cfg, t.message, t.pc, e.outcome), other);
    } else if l.RenewLease? {
      PerformFrames(s, l.rid, DeploymentOf(s.tasks[l.rid].message), RenewalOf(cfg, s, l.succeeds), other);
    }
  }

  type Run = seq<Label>

  /** The state a run leads to, if each of its steps is possible. */
  function RunTo(cfg: Config, s: State, run: Run): Option<State>
    requires cfg.Valid()
  {
    if run == [] then Some(s)
    else
      match RunTo(cfg, s, run[..|run| - 1])
      case None => None
      case Some(mid) =>
        var l := run[|run| - 1];
        if Enabled(mid, l) then Some(Next(cfg, mid, l)) else None
  }

  lemma RunExtends(cfg: Config, s: State, run: Run, l: Label)
    requires cfg.Valid() && RunTo(cfg, s, run).Some? && Enabled(RunTo(cfg, s, run).value, l)
    ensures RunTo(cfg, s, run + [l]) == Some(Next(cfg, RunTo(cfg, s, run).value, l))
  {
    hide Next;
    assert (run + [l])[..|run|] == run;
  }

  lemma {:induction false} RunConcat(cfg: Config, s: State, run: Run, more: Run)
    requires cfg.Valid() && RunTo(cfg, s, run).Some?
    ensures RunTo(cfg, s, run + more) == RunTo(cfg, RunTo(cfg, s, run).value, more)
  {
    hide Next, Enabled;
    if more == [] {
      assert run + more == run;
    } else {
      var n := |more| - 1;
      RunConcat(cfg, s, run, more[..n]);
      assert (run + more)[..|run + more| - 1] == run + more[..n];
    }
  }
}
