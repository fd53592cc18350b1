/** The lease renewal loop of a running build (startLeaseRenewal) against claims by other workers. */
module LeaseRenewal {
  import opened Options
  import opened Ledger

  const MINUTE := 60_000_000_000

  /** The ticker period, in nanoseconds: a third of the lease, or a minute if that rounds to nothing. */
  function Interval(d: int): int
    requires d > 0
  {
    if d / 3 <= 0 then MINUTE else d / 3
  }

  datatype Attempt = Attempt(duration: int, at: int)

  /** The claims other workers make before a tick's Renew takes effect, whether it succeeds, and how long
      after the tick it takes effect. */
  datatype Beat = Beat(claims: seq<Attempt>, renewed: bool, late: nat)

  function AfterClaims(row: Row, claims: seq<Attempt>): Row {
    if claims == [] then row else
      var n := |claims| - 1;
      var before := AfterClaims(row, claims[..n]);
      SqlClaim(row.deploymentId, row.stage, Some(before), claims[n].duration, claims[n].at).0.value
  }

  function ClaimReplies(row: Row, claims: seq<Attempt>): seq<Reply> {
    if claims == [] then [] else
      var n := |claims| - 1;
      ClaimReplies(row, claims[..n]) +
      [SqlClaim(row.deploymentId, row.stage, Some(AfterClaims(row, claims[..n])), claims[n].duration, claims[n].at).1]
  }

  /** The row after the given beats of a renewal that started at s. */
  function AfterBeats(row: Row, beats: seq<Beat>, s: int, d: int): Row
    requires d > 0
  {
    if beats == [] then row else
      var n := |beats|;
      var claimed := AfterClaims(AfterBeats(row, beats[..n - 1], s, d), beats[n - 1].claims);
      if beats[n - 1].renewed then
        SqlRow(row.deploymentId, row.stage, Some(claimed), Op.Renew(d), s + n * Interval(d) + beats[n - 1].late).0.value
      else claimed
  }

  function BeatReplies(row: Row, beats: seq<Beat>, s: int, d: int): seq<Reply>
    requires d > 0
  {
    if beats == [] then [] else
      var n := |beats|;
      BeatReplies(row, beats[..n - 1], s, d) + ClaimReplies(AfterBeats(row, beats[..n - 1], s, d), beats[n - 1].claims)
  }

  /** The claims of beat n (counted from 0) are made no later than its Renew takes effect, and that is at
      most slack after its tick. */
  predicate Punctual(beats: seq<Beat>, s: int, period: int, slack: int) {
    forall n :: 0 <= n < |beats| ==>
      && beats[n].late <= slack
      && forall i :: 0 <= i < |beats[n].claims| ==>
           beats[n].claims[i].at <= s + (n + 1) * period + beats[n].late
  }

  predicate NeverTwoFailures(beats: seq<Beat>) {
    forall n :: 0 <= n < |beats| - 1 ==> beats[n].renewed || beats[n + 1].renewed
  }

  predicate IsBusy(reply: Reply) {
    reply.Claimed? && reply.disposition == Busy
  }

  lemma {:induction false} LiveLeaseRefusesAll(row: Row, claims: seq<Attempt>)
    requires row.state == InProgress && row.lease.Some?
    requires forall i :: 0 <= i < |claims| ==> claims[i].at < row.lease.value
    ensures AfterClaims(row, claims) == row
    ensures forall i :: 0 <= i < |ClaimReplies(row, claims)| ==> IsBusy(ClaimReplies(row, claims)[i])
  {
    if claims != [] {
      LiveLeaseRefusesAll(row, claims[..|claims| - 1]);
    }
  }

  /** A renewed lease is never taken over: if the lease is at least 3ns, each Renew takes effect within a
      slack of less than what two periods leave of the lease, the lease held when renewal starts
      outlasts the first two, and no two in a row fail, then every other claim is answered busy and
      the row keeps its owner's attempt. */
  lemma {:induction false} RenewalKeepsOthersOut(row: Row, beats: seq<Beat>, s: int, d: int, slack: int)
    requires d >= 3 && 0 <= slack < d - 2 * (d / 3)
    requires row.state == InProgress && row.lease.Some? && row.lease.value > s + 2 * (d / 3) + slack
    requires Punctual(beats, s, d / 3, slack) && NeverTwoFailures(beats)
    ensures
      var r := AfterBeats(row, beats, s, d);
      && r == row.(lease := r.lease)
      && r.lease.Some?
      && (beats != [] && beats[|beats| - 1].renewed ==>
            r.lease.value == s + |beats| * (d / 3) + beats[|beats| - 1].late + d)
      && var ahead := if beats == [] || beats[|beats| - 1].renewed then 2 else 1;
         r.lease.value > s + (|beats| + ahead) * (d / 3) + slack
    ensures forall i :: 0 <= i < |BeatReplies(row, beats, s, d)| ==> IsBusy(BeatReplies(row, beats, s, d)[i])
  {
    if beats != [] {
      var n := |beats|;
      var init := beats[..n - 1];
      assert forall m :: 0 <= m < n - 1 ==> init[m] == beats[m];
      RenewalKeepsOthersOut(row, init, s, d, slack);
      var r := AfterBeats(row, init, s, d);
      TickTimes(n, s, d, slack);
      assert n >= 2 && !beats[n - 1].renewed ==> beats[n - 2].renewed && init[|init| - 1] == beats[n - 2];
      assert Interval(d) == d / 3;
      hide Interval;
      LiveLeaseRefusesAll(r, beats[n - 1].claims);
    }
  }

  /** Each period ends a period after the one before, and a lease granted at its end covers two more. */
  lemma TickTimes(n: nat, s: int, d: int, slack: int)
    requires d >= 3 && n > 0 && slack < d - 2 * (d / 3)
    ensures s + n * (d / 3) + d > s + (n + 2) * (d / 3) + slack
    ensures s + (n - 1 + 1) * (d / 3) == s + n * (d / 3)
    ensures s + (n - 1 + 2) * (d / 3) == s + (n + 1) * (d / 3) >= s + n * (d / 3)
    ensures n == 1 ==> s + (n + 1) * (d / 3) == s + 2 * (d / 3)
  {
    var k := d / 3;
    assert (n + 2) * k == n * k + 2 * k && (n + 1) * k == n * k + k;
  }

  /** A lease below 3ns is not covered: its first tick is a minute away, and a claim made when the
      lease ends is granted. */
  lemma ShortLeaseIsTakenOver(row: Row, s: int, d: int)
    requires 0 < d < 3
    requires row.state == InProgress && row.lease == Some(s + d)
    ensures forall late: nat ::
      AfterBeats(row, [Beat([], true, late)], s, d).lease == Some(s + 60_000_000_000 + late + d)
    ensures
      var beat := Beat([Attempt(d, s + d)], true, 0);
      Punctual([beat], s, 60_000_000_000, 0) && !IsBusy(BeatReplies(row, [beat], s, d)[0])
  {
    var claims := [Attempt(d, s + d)];
    var beats := [Beat(claims, true, 0)];
    assert beats[..0] == [] && claims[..0] == [];
    assert AfterClaims(row, []) == row && AfterBeats(row, [], s, d) == row;
    assert ClaimReplies(row, claims) == [SqlClaim(row.deploymentId, row.stage, Some(row), d, s + d).1];
    assert BeatReplies(row, beats, s, d) == ClaimReplies(row, claims);
  }
}
