/** The in-memory ledger against the PostgreSQL ledger: which histories they cannot be told apart on. */
module LedgerRefinement {
  import opened Options
  import opened Events
  import opened Ledger

  /** What a caller of the ledger interface acts on: disposition, attempt, retry count, result, error. */
  datatype Observation =
    | SawClaim(disposition: Disposition, attempt: int, retries: int, result: Option<Bundle>)
    | SawApplied
    | SawCount(retries: int)
    | SawNoRow

  function Observe(reply: Reply): Observation {
    match reply
    case Claimed(d, r) => SawClaim(d, r.attempt, r.retryCount, r.result)
    case Applied => SawApplied
    case Count(n) => SawCount(n)
    case NoRow => SawNoRow
  }

  /** A memory record that claims behave towards as if it were absent. */
  predicate Blank(m: Row, now: int) {
    && !Terminal(m.state)
    && m.attempt == 0 && m.retryCount == 0 && m.result.None?
    && !Live(m.lease, now)
  }

  /** The coupling: leases must agree on rows in progress only. */
  predicate Coupled(sql: Option<Row>, mem: Option<Row>, now: int) {
    match sql
    case None => mem.None? || Blank(mem.value, now)
    case Some(s) =>
      && s.state != Unset
      && mem.Some?
      && var m := mem.value;
      && m.attempt == s.attempt && m.retryCount == s.retryCount && m.result == s.result
      && (m.state == s.state || (m.state == Unset && s.state == InProgress))
      && (s.state == InProgress ==> m.lease == s.lease)
  }

  /** The calls the two ledgers treat alike: any call on a claimed key, and on an unclaimed one a
      Claim, a Release, or a Renew that grants no time. */
  predicate Safe(sql: Option<Row>, op: Op) {
    sql.Some? || op.Claim? || op.Release? || (op.Renew? && op.duration <= 0)
  }

  lemma RowsAgree(id: string, stage: string, sql: Option<Row>, mem: Option<Row>, op: Op, before: int, now: int)
    requires Coupled(sql, mem, before) && before <= now
    requires Safe(sql, op)
    ensures Observe(SqlRow(id, stage, sql, op, now).1) == Observe(MemRow(id, stage, mem, op, now).1)
    ensures Coupled(SqlRow(id, stage, sql, op, now).0, MemRow(id, stage, mem, op, now).0, now)
  {
  }

  predicate NulFree(s: string) {
    '\0' !in s
  }

  /** Keys of NUL-free stages do not collide, whatever the deployment ids contain. */
  lemma MemKeyInjective(id1: string, stage1: string, id2: string, stage2: string)
    requires NulFree(stage1) && NulFree(stage2)
    requires MemKey(id1, stage1) == MemKey(id2, stage2)
    ensures id1 == id2 && stage1 == stage2
  {
    var k := MemKey(id1, stage1);
    assert k[|id1|] == '\0' && k[|id2|] == '\0';
    assert |id1| == |id2|;
    assert id1 == k[..|id1|] == id2;
    assert stage1 == k[|id1| + 1..] == stage2;
  }

  /** A stage that contains NUL can collide: the condition on stages is needed. */
  lemma MemKeyCollision()
    ensures MemKey("a\0b", "c") == MemKey("a", "b\0c")
  {
    assert MemKey("a\0b", "c") == ['a', '\0', 'b', '\0', 'c'] == MemKey("a", "b\0c");
  }

  ghost predicate CoupledTables(sql: Table, mem: map<string, Row>, now: int) {
    forall id: string, stage: string :: NulFree(stage) ==>
      Coupled(Lookup(sql, (id, stage)), Lookup(mem, MemKey(id, stage)), now)
  }

  /** The observations of a whole history on each ledger. */
  function SqlTrace(t: Table, h: seq<Statement>): seq<Observation>
    decreases |h|
  {
    if h == [] then [] else [Observe(SqlReply(t, h[0]))] + SqlTrace(SqlTable(t, h[0]), h[1..])
  }

  function MemTrace(m: map<string, Row>, h: seq<Statement>): seq<Observation>
    decreases |h|
  {
    if h == [] then [] else [Observe(MemReply(m, h[0]))] + MemTrace(MemTable(m, h[0]), h[1..])
  }

  predicate OrderedFrom(h: seq<Statement>, now: int) {
    h == [] || (now <= h[0].at && OrderedFrom(h[1..], h[0].at))
  }

  predicate NulFreeStages(h: seq<Statement>) {
    forall i :: 0 <= i < |h| ==> NulFree(h[i].stage)
  }

  /** Every call of the history is safe when it is made. */
  predicate SafeHistory(t: Table, h: seq<Statement>)
    decreases |h|
  {
    h == [] ||
    (Safe(Lookup(t, (h[0].id, h[0].stage)), h[0].op) && SafeHistory(SqlTable(t, h[0]), h[1..]))
  }

  /** One step keeps every key coupled, not only the one it touches. */
  lemma TablesStayCoupled(sql: Table, mem: map<string, Row>, s: Statement, before: int)
    requires CoupledTables(sql, mem, before) && before <= s.at && NulFree(s.stage)
    requires Safe(Lookup(sql, (s.id, s.stage)), s.op)
    ensures Observe(SqlReply(sql, s)) == Observe(MemReply(mem, s))
    ensures CoupledTables(SqlTable(sql, s), MemTable(mem, s), s.at)
  {
    var q, m := Lookup(sql, (s.id, s.stage)), Lookup(mem, MemKey(s.id, s.stage));
    RowsAgree(s.id, s.stage, q, m, s.op, before, s.at);
    var sql', mem' := SqlTable(sql, s), MemTable(mem, s);
    forall id: string, stage: string | NulFree(stage)
      ensures Coupled(Lookup(sql', (id, stage)), Lookup(mem', MemKey(id, stage)), s.at)
    {
      assert Coupled(Lookup(sql, (id, stage)), Lookup(mem, MemKey(id, stage)), before);
      if (id, stage) != (s.id, s.stage) {
        if MemKey(id, stage) == MemKey(s.id, s.stage) {
          MemKeyInjective(id, stage, s.id, s.stage);
        }
        assert Lookup(sql', (id, stage)) == Lookup(sql, (id, stage));
        assert Lookup(mem', MemKey(id, stage)) == Lookup(mem, MemKey(id, stage));
      }
    }
  }

  /** Refinement: on a safe history of any length the two ledgers answer alike at every call. */
  lemma {:induction false} LedgersAgree(sql: Table, mem: map<string, Row>, h: seq<Statement>, now: int)
    requires CoupledTables(sql, mem, now)
    requires OrderedFrom(h, now) && NulFreeStages(h) && SafeHistory(sql, h)
    ensures SqlTrace(sql, h) == MemTrace(mem, h)
    decreases |h|
  {
    if h != [] {
      TablesStayCoupled(sql, mem, h[0], now);
      LedgersAgree(SqlTable(sql, h[0]), MemTable(mem, h[0]), h[1..], h[0].at);
    }
  }

  /** The consumer's own discipline: every call other than Claim is on a key claimed earlier. */
  predicate ClaimsFirst(h: seq<Statement>) {
    forall i :: 0 <= i < |h| && !h[i].op.Claim? ==>
      exists j :: 0 <= j < i && h[j].op.Claim? && h[j].id == h[i].id && h[j].stage == h[i].stage
  }

  lemma {:induction false} ClaimsFirstIsSafe(t: Table, past: seq<Statement>, h: seq<Statement>)
    requires ClaimsFirst(past + h)
    requires forall j :: 0 <= j < |past| && past[j].op.Claim? ==> (past[j].id, past[j].stage) in t
    ensures SafeHistory(t, h)
    decreases |h|
  {
    if h != [] {
      var i := |past|;
      assert (past + h)[i] == h[0];
      if !h[0].op.Claim? {
        var j :| 0 <= j < i && (past + h)[j].op.Claim? && (past + h)[j].id == h[0].id
            && (past + h)[j].stage == h[0].stage;
        assert past[j] == (past + h)[j];
      }
      var t' := SqlTable(t, h[0]);
      assert past + h == (past + [h[0]]) + h[1..];
      forall j | 0 <= j < i + 1 && (past + [h[0]])[j].op.Claim?
        ensures ((past + [h[0]])[j].id, (past + [h[0]])[j].stage) in t'
      {
        if j < i {
          var k := (past[j].id, past[j].stage);
          assert k in t;
          assert Lookup(t', k).Some?;
        }
      }
      ClaimsFirstIsSafe(t', past + [h[0]], h[1..]);
    }
  }

  /** From empty ledgers, histories whose non-Claim calls touch claimed keys are answered alike. */
  lemma FreshLedgersAgree(h: seq<Statement>, now: int)
    requires OrderedFrom(h, now) && NulFreeStages(h) && ClaimsFirst(h)
    ensures SqlTrace(map[], h) == MemTrace(map[], h)
  {
    assert [] + h == h;
    ClaimsFirstIsSafe(map[], [], h);
    assert CoupledTables(map[], map[], now);
    LedgersAgree(map[], map[], h, now);
  }

  ghost predicate AgreeFromHereOn(sql: Table, mem: map<string, Row>, s: Statement) {
    forall later: seq<Statement> ::
      OrderedFrom(later, s.at) && NulFreeStages(later) && SafeHistory(SqlTable(sql, s), later) ==>
        SqlTrace(sql, [s] + later) == MemTrace(mem, [s] + later)
  }

  /** The boundary is exact: a call keeps the ledgers alike for ever if and only if it is safe. */
  lemma SafeExactlyWhenIndistinguishable(sql: Table, mem: map<string, Row>, s: Statement, now: int)
    requires CoupledTables(sql, mem, now) && now <= s.at && NulFree(s.stage)
    ensures Safe(Lookup(sql, (s.id, s.stage)), s.op) <==> AgreeFromHereOn(sql, mem, s)
  {
    var sql', mem' := SqlTable(sql, s), MemTable(mem, s);
    if Safe(Lookup(sql, (s.id, s.stage)), s.op) {
      TablesStayCoupled(sql, mem, s, now);
      forall later: seq<Statement> | OrderedFrom(later, s.at) && NulFreeStages(later) && SafeHistory(sql', later)
        ensures SqlTrace(sql, [s] + later) == MemTrace(mem, [s] + later)
      {
        LedgersAgree(sql', mem', later, s.at);
        assert ([s] + later)[1..] == later;
      }
    } else {
      // The witness: claim the key again at the same instant.
      var probe := Statement(s.id, s.stage, Op.Claim(1), s.at);
      var later := [probe];
      assert Coupled(Lookup(sql, (s.id, s.stage)), Lookup(mem, MemKey(s.id, s.stage)), now);
      assert SafeHistory(SqlTable(sql', probe), later[1..]);
      assert OrderedFrom(later, s.at) && NulFreeStages(later) && SafeHistory(sql', later);
      UnsafeCallShows(sql, mem, s, now);
      assert ([s] + later)[0] == s && ([s] + later)[1..] == later;
      assert SqlTrace(sql, [s] + later) == [Observe(SqlReply(sql, s))] + SqlTrace(sql', later);
      assert MemTrace(mem, [s] + later) == [Observe(MemReply(mem, s))] + MemTrace(mem', later);
      assert SqlTrace(sql', later)[0] == Observe(SqlReply(sql', probe));
      assert MemTrace(mem', later)[0] == Observe(MemReply(mem', probe));
      assert SqlTrace(sql, [s] + later)[1] == SqlTrace(sql', later)[0];
      assert MemTrace(mem, [s] + later)[1] == MemTrace(mem', later)[0];
      assert !AgreeFromHereOn(sql, mem, s);
    }
  }

  lemma UnsafeCallShows(sql: Table, mem: map<string, Row>, s: Statement, now: int)
    requires CoupledTables(sql, mem, now) && now <= s.at && NulFree(s.stage)
    requires !Safe(Lookup(sql, (s.id, s.stage)), s.op)
    ensures
      var probe := Statement(s.id, s.stage, Op.Claim(1), s.at);
      || Observe(SqlReply(sql, s)) != Observe(MemReply(mem, s))
      || Observe(SqlReply(SqlTable(sql, s), probe)) != Observe(MemReply(MemTable(mem, s), probe))
  {
    assert Coupled(Lookup(sql, (s.id, s.stage)), Lookup(mem, MemKey(s.id, s.stage)), now);
    assert (s.id, s.stage) !in SqlTable(sql, s);
    assert Lookup(MemTable(mem, s), MemKey(s.id, s.stage)) ==
           MemRow(s.id, s.stage, Lookup(mem, MemKey(s.id, s.stage)), s.op, s.at).0;
  }
}
