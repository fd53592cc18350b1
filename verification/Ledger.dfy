/** The stage ledger (ledger.go): one row per (deployment, stage), claimed with a time-limited lease.

    SqlRow and MemRow say what one atomic statement does to one row in the PostgreSQL ledger and
    in the in-memory ledger; the two classes at the end execute those statements in place. */
module Ledger {
  import opened Options
  import opened Events

  /** Unset is the empty state string of a record that the in-memory ledger makes up for a missing key. */
  datatype StageState = Unset | InProgress | Completed | Failed

  datatype Disposition = Acquired | AlreadyCompleted | Busy | AlreadyFailed

  datatype Row = Row(deploymentId: string, stage: string, state: StageState, attempt: int,
                        retryCount: int, lease: Option<int>, result: Option<Bundle>)

  datatype Op =
    | Claim(duration: int)
    | Renew(duration: int)
    | Complete(value: Bundle)
    | Fail(value: Bundle)
    | Release
    | RecordRetry

  /** NoRow is the "no rows in result set" error of an UPDATE ... RETURNING that matches nothing. */
  datatype Reply =
    | Claimed(disposition: Disposition, row: Row)
    | Applied
    | Count(retries: int)
    | NoRow

  /** A statement together with the clock reading it uses. */
  datatype Statement = Statement(id: string, stage: string, op: Op, at: int)

  type Key = (string, string)
  type Table = map<Key, Row>

  predicate Terminal(state: StageState) {
    state == Completed || state == Failed
  }

  /** The statement that sets a terminal state. */
  function WriteAs(state: StageState, value: Bundle): Op {
    if state == Completed then Op.Complete(value) else Op.Fail(value)
  }

  /** A lease that ends strictly after now is live; one that ends now is not. */
  predicate Live(lease: Option<int>, now: int) {
    lease.Some? && lease.value > now
  }

  function FreshRow(id: string, stage: string, expires: int): Row {
    Row(id, stage, InProgress, 1, 0, Some(expires), None)
  }

  function SqlClaim(id: string, stage: string, row: Option<Row>, duration: int, now: int): (Option<Row>, Reply) {
    match row
    case None =>
      var r := FreshRow(id, stage, now + duration);
      (Some(r), Claimed(Acquired, r))
    case Some(r) =>
      if r.state == Completed then (row, Claimed(AlreadyCompleted, r))
      else if r.state == Failed then (row, Claimed(AlreadyFailed, r))
      else if Live(r.lease, now) then (row, Claimed(Busy, r))
      else
        var next := r.(attempt := r.attempt + 1, lease := Some(now + duration));
        (Some(next.(state := InProgress)), Claimed(Acquired, next))
  }

  function SqlRow(id: string, stage: string, row: Option<Row>, op: Op, now: int): (Option<Row>, Reply) {
    match op
    case Claim(d) => SqlClaim(id, stage, row, d, now)
    case Renew(d) =>
      (if row.Some? && row.value.state == InProgress then Some(row.value.(lease := Some(now + d))) else row, Applied)
    case Complete(v) =>
      (if row.Some? then Some(row.value.(state := Completed, result := Some(v), lease := None)) else None, Applied)
    case Fail(v) =>
      (if row.Some? then Some(row.value.(state := Failed, result := Some(v), lease := None)) else None, Applied)
    case Release =>
      (if row.Some? then Some(row.value.(state := InProgress, lease := None)) else None, Applied)
    case RecordRetry =>
      if row.Some? then
        (Some(row.value.(retryCount := row.value.retryCount + 1)), Count(row.value.retryCount + 1))
      else
        (None, NoRow)
  }

  /** What Go's map lookup yields for a missing key. */
  function ZeroRow(): Row {
    Row("", "", Unset, 0, 0, None, None)
  }

  function MemRow(id: string, stage: string, row: Option<Row>, op: Op, now: int): (Option<Row>, Reply) {
    var r := if row.Some? then row.value else ZeroRow();
    match op
    case Claim(d) =>
      if row.None? then
        var first := FreshRow(id, stage, now + d);
        (Some(first), Claimed(Acquired, first))
      else if r.state == Completed then (row, Claimed(AlreadyCompleted, r))
      else if r.state == Failed then (row, Claimed(AlreadyFailed, r))
      else if Live(r.lease, now) then (row, Claimed(Busy, r))
      else
        var next := r.(attempt := r.attempt + 1, lease := Some(now + d));
        (Some(next), Claimed(Acquired, next))
    case Renew(d) => (Some(r.(lease := Some(now + d))), Applied)
    case Complete(v) => (Some(r.(state := Completed, result := Some(v))), Applied)
    case Fail(v) => (Some(r.(state := Failed, result := Some(v))), Applied)
    case Release => (Some(r.(state := InProgress, lease := None)), Applied)
    case RecordRetry => (Some(r.(retryCount := r.retryCount + 1)), Count(r.retryCount + 1))
  }

  function Lookup<K, T>(m: map<K, T>, k: K): Option<T> {
    if k in m then Some(m[k]) else None
  }

  function Store<K(!new), T>(m: map<K, T>, k: K, v: Option<T>): (r: map<K, T>)
    ensures v.None? && k !in m ==> r == m
    ensures v.Some? ==> k in r && r[k] == v.value
    ensures forall other :: other != k ==> Lookup(r, other) == Lookup(m, other)
  {
    if v.Some? then m[k := v.value] else m
  }

  function SqlReply(t: Table, s: Statement): Reply {
    SqlRow(s.id, s.stage, Lookup(t, (s.id, s.stage)), s.op, s.at).1
  }

  function SqlTable(t: Table, s: Statement): Table {
    Store(t, (s.id, s.stage), SqlRow(s.id, s.stage, Lookup(t, (s.id, s.stage)), s.op, s.at).0)
  }

  const NUL: string := ['\0']

  /** The in-memory ledger's map key. */
  function MemKey(id: string, stage: string): string {
    id + NUL + stage
  }

  function MemReply(m: map<string, Row>, s: Statement): Reply {
    MemRow(s.id, s.stage, Lookup(m, MemKey(s.id, s.stage)), s.op, s.at).1
  }

  function MemTable(m: map<string, Row>, s: Statement): map<string, Row> {
    Store(m, MemKey(s.id, s.stage), MemRow(s.id, s.stage, Lookup(m, MemKey(s.id, s.stage)), s.op, s.at).0)
  }

  /** A database that may refuse any statement; a refused statement changes nothing. */
  class PostgresStageLedger {
    var rows: Table

    constructor ()
      ensures rows == map[]
    {
      rows := map[];
    }

    method Claim(id: string, stage: string, lease: int, now: int) returns (reply: Option<Reply>)
      modifies this
      ensures reply.None? ==> rows == old(rows)
      ensures reply.Some? ==>
        var s := Statement(id, stage, Op.Claim(lease), now);
        reply.value == SqlReply(old(rows), s) && rows == SqlTable(old(rows), s)
    {
      if * { return None; }
      var key := (id, stage);
      var expires := now + lease;
      if key !in rows {
        var inserted := FreshRow(id, stage, expires);
        rows := rows[key := inserted];
        return Some(Claimed(Acquired, inserted));
      }
      var r := rows[key];
      if r.state == Completed {
        return Some(Claimed(AlreadyCompleted, r));
      }
      if r.state == Failed {
        return Some(Claimed(AlreadyFailed, r));
      }
      if Live(r.lease, now) {
        return Some(Claimed(Busy, r));
      }
      r := r.(attempt := r.attempt + 1, lease := Some(expires));
      rows := rows[key := r.(state := InProgress)];
      return Some(Claimed(Acquired, r));
    }

    method Renew(id: string, stage: string, d: int, now: int) returns (ok: bool)
      modifies this
      ensures rows == if ok then SqlTable(old(rows), Statement(id, stage, Op.Renew(d), now)) else old(rows)
    {
      if * { return false; }
      if (id, stage) in rows && rows[(id, stage)].state == InProgress {
        rows := rows[(id, stage) := rows[(id, stage)].(lease := Some(now + d))];
      }
      return true;
    }

    method Set(id: string, stage: string, state: StageState, value: Bundle, ghost now: int) returns (ok: bool)
      requires Terminal(state)
      modifies this
      ensures rows ==
        if ok then
          SqlTable(old(rows), Statement(id, stage, WriteAs(state, value), now))
        else old(rows)
    {
      if * { return false; }
      if (id, stage) in rows {
        rows := rows[(id, stage) := rows[(id, stage)].(state := state, result := Some(value), lease := None)];
      }
      return true;
    }

    method Complete(id: string, stage: string, value: Bundle, ghost now: int) returns (ok: bool)
      modifies this
      ensures rows == if ok then SqlTable(old(rows), Statement(id, stage, Op.Complete(value), now)) else old(rows)
    {
      ok := Set(id, stage, Completed, value, now);
    }

    method Fail(id: string, stage: string, value: Bundle, ghost now: int) returns (ok: bool)
      modifies this
      ensures rows == if ok then SqlTable(old(rows), Statement(id, stage, Op.Fail(value), now)) else old(rows)
    {
      ok := Set(id, stage, Failed, value, now);
    }

    method Release(id: string, stage: string, ghost now: int) returns (ok: bool)
      modifies this
      ensures rows == if ok then SqlTable(old(rows), Statement(id, stage, Op.Release, now)) else old(rows)
    {
      if * { return false; }
      if (id, stage) in rows {
        rows := rows[(id, stage) := rows[(id, stage)].(state := InProgress, lease := None)];
      }
      return true;
    }

    /** No count is returned when the database fails or when the key has no row. */
    method RecordRetry(id: string, stage: string, ghost now: int) returns (count: Option<int>)
      modifies this
      ensures count.None? ==> rows == old(rows)
      ensures count.Some? ==>
        var s := Statement(id, stage, Op.RecordRetry, now);
        SqlReply(old(rows), s) == Count(count.value) && rows == SqlTable(old(rows), s)
    {
      if * { return None; }
      if (id, stage) !in rows {
        return None;
      }
      var n := rows[(id, stage)].retryCount + 1;
      rows := rows[(id, stage) := rows[(id, stage)].(retryCount := n)];
      return Some(n);
    }
  }

  /** The ledger the tests use: a Go map of records, every missing key read as a zero record. */
  class MemoryStageLedger {
    var records: map<string, Row>

    constructor ()
      ensures records == map[]
    {
      records := map[];
    }

    method Get(k: string) returns (r: Row)
      ensures r == if k in records then records[k] else ZeroRow()
    {
      if k in records {
        return records[k];
      }
      return ZeroRow();
    }

    method Claim(id: string, stage: string, d: int, now: int) returns (reply: Reply)
      modifies this
      ensures
        var s := Statement(id, stage, Op.Claim(d), now);
        reply == MemReply(old(records), s) && records == MemTable(old(records), s)
    {
      var k := MemKey(id, stage);
      if k !in records {
        records := records[k := FreshRow(id, stage, now + d)];
        return Claimed(Acquired, records[k]);
      }
      var r := records[k];
      if r.state == Completed {
        return Claimed(AlreadyCompleted, r);
      }
      if r.state == Failed {
        return Claimed(AlreadyFailed, r);
      }
      if Live(r.lease, now) {
        return Claimed(Busy, r);
      }
      r := r.(attempt := r.attempt + 1, lease := Some(now + d));
      records := records[k := r];
      return Claimed(Acquired, r);
    }

    method Renew(id: string, stage: string, d: int, now: int)
      modifies this
      ensures records == MemTable(old(records), Statement(id, stage, Op.Renew(d), now))
    {
      var r := Get(MemKey(id, stage));
      records := records[MemKey(id, stage) := r.(lease := Some(now + d))];
    }

    method Set(id: string, stage: string, state: StageState, value: Bundle, ghost now: int)
      requires Terminal(state)
      modifies this
      ensures records ==
        MemTable(old(records), Statement(id, stage, WriteAs(state, value), now))
    {
      var r := Get(MemKey(id, stage));
      records := records[MemKey(id, stage) := r.(state := state, result := Some(value))];
    }

    method Complete(id: string, stage: string, value: Bundle, ghost now: int)
      modifies this
      ensures records == MemTable(old(records), Statement(id, stage, Op.Complete(value), now))
    {
      Set(id, stage, Completed, value, now);
    }

    method Fail(id: string, stage: string, value: Bundle, ghost now: int)
      modifies this
      ensures records == MemTable(old(records), Statement(id, stage, Op.Fail(value), now))
    {
      Set(id, stage, Failed, value, now);
    }

    method Release(id: string, stage: string, ghost now: int)
      modifies this
      ensures records == MemTable(old(records), Statement(id, stage, Op.Release, now))
    {
      var r := Get(MemKey(id, stage));
      records := records[MemKey(id, stage) := r.(state := InProgress, lease := None)];
    }

    method RecordRetry(id: string, stage: string, ghost now: int) returns (count: int)
      modifies this
      ensures
        var s := Statement(id, stage, Op.RecordRetry, now);
        MemReply(old(records), s) == Count(count) && records == MemTable(old(records), s)
    {
      var r := Get(MemKey(id, stage));
      records := records[MemKey(id, stage) := r.(retryCount := r.retryCount + 1)];
      return r.retryCount + 1;
    }
  }
}
