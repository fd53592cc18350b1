/** What a whole history of statements says about the rows of the PostgreSQL ledger. */
module LedgerHistory {
  import opened Options
  import opened Events
  import opened Ledger

  type History = seq<Statement>

  function KeyOf(s: Statement): Key {
    (s.id, s.stage)
  }

  function TableAfter(h: History): Table {
    if h == [] then map[] else SqlTable(TableAfter(h[..|h| - 1]), h[|h| - 1])
  }

  function RowAfter(h: History, k: Key): Option<Row> {
    Lookup(TableAfter(h), k)
  }

  function ReplyAt(h: History, i: nat): Reply
    requires i < |h|
  {
    SqlReply(TableAfter(h[..i]), h[i])
  }

  predicate Acquires(reply: Reply) {
    reply.Claimed? && reply.disposition == Acquired
  }

  /** Number of ClaimAcquired answers for k. */
  function Acquisitions(h: History, k: Key): nat {
    if h == [] then 0 else
      var i := |h| - 1;
      Acquisitions(h[..i], k) + (if KeyOf(h[i]) == k && Acquires(ReplyAt(h, i)) then 1 else 0)
  }

  /** Acquisitions that took over a row still carrying an expired lease. */
  function Takeovers(h: History, k: Key): nat {
    if h == [] then 0 else
      var i := |h| - 1;
      var before := RowAfter(h[..i], k);
      Takeovers(h[..i], k) +
      (if KeyOf(h[i]) == k && Acquires(ReplyAt(h, i)) && before.Some? && before.value.lease.Some? then 1 else 0)
  }

  function Releases(h: History, k: Key): nat {
    if h == [] then 0 else
      var i := |h| - 1;
      Releases(h[..i], k) + (if KeyOf(h[i]) == k && h[i].op.Release? then 1 else 0)
  }

  /** Number of successful RecordRetry calls for k. */
  function Retries(h: History, k: Key): nat {
    if h == [] then 0 else
      var i := |h| - 1;
      Retries(h[..i], k) + (if KeyOf(h[i]) == k && ReplyAt(h, i).Count? then 1 else 0)
  }

  /** The latest Complete or Fail that found a row. */
  function LatestResult(h: History, k: Key): Option<(StageState, Bundle)> {
    if h == [] then None else
      var i := |h| - 1;
      if KeyOf(h[i]) == k && h[i].op.Complete? && RowAfter(h[..i], k).Some? then Some((Completed, h[i].op.value))
      else if KeyOf(h[i]) == k && h[i].op.Fail? && RowAfter(h[..i], k).Some? then
        Some((StageState.Failed, h[i].op.value))
      else LatestResult(h[..i], k)
  }

  /** A lease set to run until a time, or ended by a result or by a Release. */
  datatype LeaseEvent = Granted(until: int) | Prolonged(until: int) | Closed | Freed

  /** The lease of a row in progress is what its latest lease event made it. */
  predicate LeftBy(event: Option<LeaseEvent>, lease: Option<int>) {
    match event
    case Some(Granted(until)) => lease == Some(until)
    case Some(Prolonged(until)) => lease == Some(until)
    case Some(Freed) => lease == None
    case _ => false
  }

  /** The latest acquisition, Renew, Complete/Fail or Release of k. */
  function LastLeaseEvent(h: History, k: Key): Option<LeaseEvent> {
    if h == [] then None else
      var i := |h| - 1;
      if KeyOf(h[i]) != k then LastLeaseEvent(h[..i], k)
      else match h[i].op
        case Claim(d) => if Acquires(ReplyAt(h, i)) then Some(Granted(h[i].at + d)) else LastLeaseEvent(h[..i], k)
        case Renew(d) => Some(Prolonged(h[i].at + d))
        case Complete(_) => Some(Closed)
        case Fail(_) => Some(Closed)
        case Release => Some(Freed)
        case RecordRetry => LastLeaseEvent(h[..i], k)
  }

  /** The books balance: every column of a row is a function of what happened to its key. */
  ghost predicate Accounted(h: History, k: Key) {
    match RowAfter(h, k)
    case None => Acquisitions(h, k) == 0 && Retries(h, k) == 0 && LatestResult(h, k) == None
    case Some(r) =>
      && r.deploymentId == k.0 && r.stage == k.1
      && r.attempt == Acquisitions(h, k) > 0
      && r.retryCount == Retries(h, k)
      && (match LatestResult(h, k)
          case None => r.result == None && r.state == InProgress
          case Some(last) => r.result == Some(last.1) && (Terminal(r.state) ==> r.state == last.0))
      && r.state != Unset
      && (Terminal(r.state) ==> r.lease == None)
      && (r.state == InProgress ==> LeftBy(LastLeaseEvent(h, k), r.lease))
  }

  /** The row and the reply of the last statement. */
  lemma LastStatement(h: History, k: Key)
    requires h != []
    ensures
      var i := |h| - 1;
      var before, s := RowAfter(h[..i], k), h[i];
      && RowAfter(h, k) == (if KeyOf(s) == k then SqlRow(s.id, s.stage, before, s.op, s.at).0 else before)
      && (KeyOf(s) == k ==> ReplyAt(h, i) == SqlRow(s.id, s.stage, before, s.op, s.at).1)
  {
  }

  /** What the last statement adds to the counts. */
  lemma LastCounts(h: History, k: Key)
    requires h != []
    ensures
      var i := |h| - 1;
      var before, reply, mine := RowAfter(h[..i], k), ReplyAt(h, i), KeyOf(h[i]) == k;
      && Acquisitions(h, k) == Acquisitions(h[..i], k) + One(mine && Acquires(reply))
      && Takeovers(h, k) ==
           Takeovers(h[..i], k) + One(mine && Acquires(reply) && before.Some? && before.value.lease.Some?)
      && Releases(h, k) == Releases(h[..i], k) + One(mine && h[i].op.Release?)
      && Retries(h, k) == Retries(h[..i], k) + One(mine && reply.Count?)
  {
    hide TableAfter, SqlRow;
  }

  /** What the last statement makes of the latest result and lease event. */
  lemma LastEvents(h: History, k: Key)
    requires h != []
    ensures
      var i := |h| - 1;
      var op := h[i].op;
      var known := KeyOf(h[i]) == k && RowAfter(h[..i], k).Some?;
      && LatestResult(h, k) ==
           (if known && op.Complete? then Some((Completed, op.value))
            else if known && op.Fail? then Some((StageState.Failed, op.value))
            else LatestResult(h[..i], k))
      && LastLeaseEvent(h, k) ==
           (if KeyOf(h[i]) != k then LastLeaseEvent(h[..i], k)
            else match op
              case Claim(d) =>
                if Acquires(ReplyAt(h, i)) then Some(Granted(h[i].at + d)) else LastLeaseEvent(h[..i], k)
              case Renew(d) => Some(Prolonged(h[i].at + d))
              case Complete(_) => Some(Closed)
              case Fail(_) => Some(Closed)
              case Release => Some(Freed)
              case RecordRetry => LastLeaseEvent(h[..i], k))
  {
    hide TableAfter, SqlRow;
  }

  lemma {:induction false} EveryHistoryIsAccounted(h: History, k: Key)
    ensures Accounted(h, k)
  {
    if h != [] {
      hide TableAfter, Acquisitions, Retries, LatestResult, LastLeaseEvent, LeftBy;
      LastStatement(h, k);
      LastCounts(h, k);
      LastEvents(h, k);
      var i := |h| - 1;
      EveryHistoryIsAccounted(h[..i], k);
      LeaseIsLeft(h, k);
    } else {
      NothingHappened(k);
    }
  }

  /** The last statement, as far as the lease goes. */
  lemma LeaseIsLeft(h: History, k: Key)
    requires h != [] && Accounted(h[..|h| - 1], k)
    ensures
      var r := RowAfter(h, k);
      r.Some? && r.value.state == InProgress ==> LeftBy(LastLeaseEvent(h, k), r.value.lease)
  {
    hide TableAfter, Acquisitions, Retries, LatestResult, LastLeaseEvent;
    LastStatement(h, k);
    LastEvents(h, k);
  }

  lemma NothingHappened(k: Key)
    ensures RowAfter([], k) == None && Acquisitions([], k) == 0 && Retries([], k) == 0 && LatestResult([], k) == None
    ensures Releases([], k) == 0 && Takeovers([], k) == 0
  {
  }

  /** A terminal row is what the latest Complete/Fail wrote. */
  lemma TerminalRowIsLatestResult(h: History, k: Key)
    requires RowAfter(h, k).Some? && Terminal(RowAfter(h, k).value.state)
    ensures
      var r := RowAfter(h, k).value;
      r.lease == None && r.result.Some? && LatestResult(h, k) == Some((r.state, r.result.value))
  {
    EveryHistoryIsAccounted(h, k);
  }

  /** Every acquisition but the first is paid for by a Release or by an expired lease. */
  lemma {:induction false} AcquisitionBudget(h: History, k: Key)
    ensures Acquisitions(h, k) <= 1 + Releases(h, k) + Takeovers(h, k)
    ensures
      match RowAfter(h, k)
      case None => Acquisitions(h, k) == 0
      case Some(r) =>
        r.state == InProgress && r.lease == None ==> Acquisitions(h, k) <= Releases(h, k) + Takeovers(h, k)
  {
    if h != [] {
      hide TableAfter, LatestResult, LastLeaseEvent, Acquisitions, Takeovers, Releases, Retries;
      LastCounts(h, k);
      var i := |h| - 1;
      AcquisitionBudget(h[..i], k);
      EveryHistoryIsAccounted(h[..i], k);
      LastStatement(h, k);
    }
  }

  predicate Ordered(h: History) {
    forall i, j :: 0 <= i <= j < |h| ==> h[i].at <= h[j].at
  }

  /** Call i of h grants or extends the lease of k. */
  predicate SetsLease(h: History, k: Key, i: nat)
    requires i < |h|
  {
    && KeyOf(h[i]) == k
    && (Acquires(ReplyAt(h, i)) ||
        (h[i].op.Renew? && RowAfter(h[..i], k).Some? && RowAfter(h[..i], k).value.state == InProgress))
  }

  predicate LeasesLast(h: History, k: Key, d: int) {
    forall i :: 0 <= i < |h| && KeyOf(h[i]) == k ==>
      (h[i].op.Claim? ==> h[i].op.duration == d) && (h[i].op.Renew? ==> h[i].op.duration == d)
  }

  predicate NoReleaseBetween(h: History, k: Key, i: nat, j: nat)
    requires j <= |h|
  {
    forall m :: i < m < j ==> !(KeyOf(h[m]) == k && h[m].op.Release?)
  }

  /** While nobody releases, the row stays terminal or keeps a lease at least as long as the one i set. */
  lemma {:induction false} LeaseOutlives(h: History, k: Key, d: int, i: nat, j: nat)
    requires i < j <= |h| && Ordered(h) && LeasesLast(h, k, d)
    requires SetsLease(h, k, i) && NoReleaseBetween(h, k, i, j)
    ensures RowAfter(h[..j], k).Some?
    ensures
      var r := RowAfter(h[..j], k).value;
      Terminal(r.state) || (r.state == InProgress && r.lease.Some? && r.lease.value >= h[i].at + d)
    decreases j
  {
    hide TableAfter, Acquisitions, Retries, LatestResult, LastLeaseEvent;
    var m := j - 1;
    var s := h[m];
    LastStatement(h[..j], k);
    assert h[..j][..m] == h[..m] && h[..j][m] == s;
    EveryHistoryIsAccounted(h[..m], k);
    if i < m {
      LeaseOutlives(h, k, d, i, m);
    }
  }

  /** Lease spacing: with no Release between, an acquisition comes at least d after any earlier
      grant or renewal of the same key. */
  lemma AcquisitionsAreSpaced(h: History, k: Key, d: int, i: nat, j: nat)
    requires i < j < |h| && Ordered(h) && LeasesLast(h, k, d)
    requires SetsLease(h, k, i) && NoReleaseBetween(h, k, i, j)
    requires KeyOf(h[j]) == k && Acquires(ReplyAt(h, j))
    ensures h[j].at >= h[i].at + d
  {
    LeaseOutlives(h, k, d, i, j);
  }

  /** A busy or terminal answer changes no row at all. */
  lemma RefusedClaimsChangeNothing(t: Table, s: Statement)
    requires s.op.Claim? && !Acquires(SqlReply(t, s))
    ensures SqlTable(t, s) == t
  {
    var k := KeyOf(s);
    assert k in t && SqlTable(t, s) == t[k := t[k]];
  }

  predicate OnlyClaims(h: History, k: Key) {
    forall i :: 0 <= i < |h| ==> KeyOf(h[i]) == k && h[i].op.Claim?
  }

  lemma {:induction false} RedeliveriesChangeNothing(h: History, claims: History, k: Key)
    requires RowAfter(h, k).Some? && Terminal(RowAfter(h, k).value.state) && OnlyClaims(claims, k)
    ensures TableAfter(h + claims) == TableAfter(h)
    decreases |claims|
  {
    if claims == [] {
      assert h + claims == h;
    } else {
      var n := |claims| - 1;
      RedeliveriesChangeNothing(h, claims[..n], k);
      assert (h + claims)[..|h| + n] == h + claims[..n] && (h + claims)[|h| + n] == claims[n];
      assert KeyOf(claims[n]) == k && claims[n].op.Claim?;
      RefusedClaimsChangeNothing(TableAfter(h), claims[n]);
    }
  }

  /** Any number of redeliveries of a terminal deployment, at any times: each is answered with the very
      row of the first, and so with the result of the latest Complete or Fail, and the table stays. */
  lemma RedeliveriesReadOneRow(h: History, claims: History, k: Key, i: nat)
    requires RowAfter(h, k).Some? && Terminal(RowAfter(h, k).value.state) && OnlyClaims(claims, k) && i < |claims|
    ensures TableAfter(h + claims) == TableAfter(h)
    ensures
      var r := RowAfter(h, k).value;
      && ReplyAt(h + claims, |h| + i)
           == Claimed(if r.state == Completed then AlreadyCompleted else AlreadyFailed, r)
      && LatestResult(h, k).Some? && r.result == Some(LatestResult(h, k).value.1)
  {
    TerminalRowIsLatestResult(h, k);
    RedeliveriesChangeNothing(h, claims, k);
    RedeliveriesChangeNothing(h, claims[..i], k);
    hide TableAfter, LatestResult;
    assert (h + claims)[..|h| + i] == h + claims[..i] && (h + claims)[|h| + i] == claims[i];
    assert KeyOf(claims[i]) == k && claims[i].op.Claim?;
  }
}
