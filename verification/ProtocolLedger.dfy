/** The ledger of a run is the ledger of its log: every theorem about histories speaks of runs. */
module ProtocolLedger {
  import opened Options
  import opened Ledger
  import opened LedgerHistory
  import opened Config
  import opened Stage
  import opened Paths
  import opened Protocol

  function StatementIn(e: Entry): History {
    if e.Did? && StatementOf(e.id, e.effect).Some? then [StatementOf(e.id, e.effect).value] else []
  }

  /** The ledger statements of a log, in order. */
  function Statements(log: Log): History {
    if log == [] then [] else Statements(log[..|log| - 1]) + StatementIn(log[|log| - 1])
  }

  ghost predicate LedgerInv(s: State) {
    && s.table == TableAfter(Statements(s.log))
    && Ordered(Statements(s.log))
    && (forall i :: 0 <= i < |Statements(s.log)| ==> Statements(s.log)[i].at <= s.now)
  }

  lemma StatementsAppend(log: Log, e: Entry)
    ensures Statements(log + [e]) == Statements(log) + StatementIn(e)
  {
    assert (log + [e])[..|log|] == log;
  }

  /** The log entry of a step, if it has one. */
  function EntryOf(cfg: Config, s: State, l: Label): Option<Entry>
    requires cfg.Valid() && Enabled(s, l)
  {
    match l
    case Deliver(rid) => Some(Delivered(rid))
    case Advance(rid, w) => Some(Did(rid, DeploymentOf(s.tasks[rid].message), EffectOf(cfg, s, rid, w)))
    case RenewLease(rid, succeeds) => Some(Did(rid, DeploymentOf(s.tasks[rid].message), RenewalOf(cfg, s, succeeds)))
    case Lose(rid) => Some(Lost(rid, Unsettled(s.tasks[rid].pc)))
    case _ => None
  }

  function ApplyEntry(t: Table, e: Entry): Table {
    if e.Did? then ApplyEffect(t, e.id, e.effect) else t
  }

  /** A step extends the log by its entry; only that entry changes the ledger. */
  lemma StepLogs(cfg: Config, s: State, l: Label)
    requires cfg.Valid() && Enabled(s, l)
    ensures
      var s' := Next(cfg, s, l);
      && s.now <= s'.now
      && (match EntryOf(cfg, s, l)
          case None => s'.log == s.log && s'.table == s.table
          case Some(e) =>
            s'.log == s.log + [e] && s'.table == ApplyEntry(s.table, e) && s'.now == s.now
            && (e.Did? ==> e.effect.at == s.now))
  {
    hide CallAt, After, Resolve, ApplyEffect, Remember;
    if l.Advance? {
      hide Advanced;
      AdvanceTouches(cfg, s, l.rid, l.world);
    }
  }

  lemma AdvancedUnfolds(cfg: Config, s: State, rid: Rid, w: World)
    requires cfg.Valid() && Enabled(s, Advance(rid, w))
    ensures
      var t, e := s.tasks[rid], EffectOf(cfg, s, rid, w);
      Advanced(cfg, s, rid, w) ==
        Settle(Perform(s, rid, DeploymentOf(t.message), e), rid, Remember(cfg, t, e),
               After(cfg, t.message, t.pc, e.outcome))
  {
    hide CallAt, After, Remember, Perform, Settle, EffectOf;
  }

  /** What every Advance does to the table, the log and the clock. */
  lemma AdvanceTouches(cfg: Config, s: State, rid: Rid, w: World)
    requires cfg.Valid() && Enabled(s, Advance(rid, w))
    ensures
      var s' := Advanced(cfg, s, rid, w);
      var id, e := DeploymentOf(s.tasks[rid].message), EffectOf(cfg, s, rid, w);
      && s'.table == ApplyEffect(s.table, id, e)
      && s'.log == s.log + [Did(rid, id, e)]
      && s'.now == s.now && s'.injected == s.injected
  {
    hide CallAt, After, Resolve, ApplyEffect, Remember, EffectOf, Perform, Settle;
    var t := s.tasks[rid];
    var id, e := DeploymentOf(t.message), EffectOf(cfg, s, rid, w);
    PerformTouches(s, rid, id, e);
    SettleTouches(Perform(s, rid, id, e), rid, Remember(cfg, t, e), After(cfg, t.message, t.pc, e.outcome));
  }

  lemma PerformTouches(s: State, rid: Rid, id: string, e: Effect)
    ensures
      var s' := Perform(s, rid, id, e);
      && s'.table == ApplyEffect(s.table, id, e)
      && s'.log == s.log + [Did(rid, id, e)]
      && s'.now == s.now && s'.injected == s.injected && s'.main == s.main && s'.tasks == s.tasks
      && s'.settled == s.settled && s'.dropped == s.dropped
  {
    hide ApplyEffect;
  }

  lemma SettleTouches(s: State, rid: Rid, t: Task, pc: Pc)
    ensures
      var s' := Settle(s, rid, t, pc);
      && s'.table == s.table && s'.log == s.log && s'.now == s.now && s'.injected == s.injected
      && s'.retry == s.retry && s'.dlq == s.dlq
  {
  }

  lemma LedgerGrows(s: State, s': State, e: Entry)
    requires LedgerInv(s) && s'.now == s.now
    requires s'.log == s.log + [e] && s'.table == ApplyEntry(s.table, e) && (e.Did? ==> e.effect.at == s.now)
    ensures LedgerInv(s')
  {
    hide SqlTable, TableAfter, Statements;
    StatementsAppend(s.log, e);
    var h := Statements(s.log);
    if StatementIn(e) != [] {
      HistoryGrows(h, StatementOf(e.id, e.effect).value);
    } else {
      assert h + [] == h;
    }
  }

  lemma HistoryGrows(h: History, s: Statement)
    requires Ordered(h) && forall i :: 0 <= i < |h| ==> h[i].at <= s.at
    ensures Ordered(h + [s]) && TableAfter(h + [s]) == SqlTable(TableAfter(h), s)
  {
    hide SqlTable;
    assert (h + [s])[..|h|] == h && (h + [s])[|h|] == s;
  }

  lemma LedgerStep(cfg: Config, s: State, l: Label)
    requires cfg.Valid() && Enabled(s, l) && LedgerInv(s)
    ensures LedgerInv(Next(cfg, s, l))
  {
    hide Next, EntryOf;
    StepLogs(cfg, s, l);
    var e := EntryOf(cfg, s, l);
    if e.Some? {
      LedgerGrows(s, Next(cfg, s, l), e.value);
    }
  }

  /** For every run, the table is what the logged statements make of an empty ledger. */
  lemma {:induction false} LedgerFollowsLog(cfg: Config, run: Run)
    requires cfg.Valid() && RunTo(cfg, INITIAL, run).Some?
    ensures LedgerInv(RunTo(cfg, INITIAL, run).value)
  {
    if run != [] {
      var n := |run| - 1;
      LedgerFollowsLog(cfg, run[..n]);
      LedgerStep(cfg, RunTo(cfg, INITIAL, run[..n]).value, run[n]);
    }
  }

  /** The CHECK constraints of the schema, and what a terminal row holds, in every reachable state. */
  lemma RowsAreAccounted(cfg: Config, run: Run, k: Key)
    requires cfg.Valid() && RunTo(cfg, INITIAL, run).Some?
    ensures
      var s := RunTo(cfg, INITIAL, run).value;
      && Accounted(Statements(s.log), k)
      && (k in s.table ==>
            && s.table[k].attempt > 0 && s.table[k].retryCount >= 0 && s.table[k].state != Unset
            && (Terminal(s.table[k].state) ==>
                  && s.table[k].result.Some?
                  && LatestResult(Statements(s.log), k) == Some((s.table[k].state, s.table[k].result.value))))
  {
    LedgerFollowsLog(cfg, run);
    var s := RunTo(cfg, INITIAL, run).value;
    EveryHistoryIsAccounted(Statements(s.log), k);
  }
}
