/** What one database update of the queue does, as functions from old rows to new rows. */
module Queue {
  import opened Tables
  import opened Choice

  /** How stale `last_seen` may get before a request refreshes it. */
  const HEARTBEAT_TTL: int := 5_000_000_000

  // ---------------------------------------------------------------- claiming

  predicate IsPending(runs: Runs, id: int) {
    id in runs && runs[id].status == Pending
  }

  function PendingIds(runs: Runs): set<int> {
    set id | id in runs && runs[id].status == Pending
  }

  function ClaimedIds(runs: Runs): set<int> {
    set id | id in runs && runs[id].status == Claimed
  }

  /** ORDER BY priority DESC, created_at ASC, with ties in both directions. */
  predicate Precedes(a: Run, b: Run) {
    a.priority > b.priority || (a.priority == b.priority && a.createdAt <= b.createdAt)
  }

  /** Any row the claim query may return first; SQL leaves ties open. */
  predicate IsHead(runs: Runs, id: int) {
    IsPending(runs, id) && forall j | j in runs && runs[j].status == Pending :: Precedes(runs[id], runs[j])
  }

  function Leased(r: Run, worker: string, now: Time): Run {
    r.(status := Claimed, workerId := Some(worker), claimedAt := Some(now))
  }

  /** The name a lease is recorded under. */
  function Claimant(header: string): string {
    if header == "" then "unknown" else header
  }

  /** The claim query never comes back empty while something is pending. */
  lemma HeadExistsIff(runs: Runs)
    ensures (exists id :: IsHead(runs, id)) <==> PendingIds(runs) != {}
  {
    if PendingIds(runs) != {} {
      var id := Best(runs, PendingIds(runs));
      forall j | j in runs && runs[j].status == Pending ensures Precedes(runs[id], runs[j]) {
        assert j in PendingIds(runs);
      }
      assert IsHead(runs, id);
    } else {
      forall id ensures !IsHead(runs, id) {
        assert id !in PendingIds(runs);
      }
    }
  }

  lemma {:induction false} Best(runs: Runs, ids: set<int>) returns (best: int)
    requires ids != {} && ids <= runs.Keys
    ensures best in ids && forall j | j in ids :: Precedes(runs[best], runs[j])
  {
    var k := Pick(ids);
    var rest := ids - {k};
    if rest == {} {
      best := k;
      assert ids == {k};
    } else {
      var b := Best(runs, rest);
      best := if Precedes(runs[k], runs[b]) then k else b;
      forall j | j in ids ensures Precedes(runs[best], runs[j]) {
        assert j == k || j in rest;
      }
    }
  }

  // --------------------------------------------------------------- reporting

  function ParseTerminalStatus(s: string): Option<Status> {
    if s == "succeeded" then Some(Succeeded)
    else if s == "failed" then Some(Failed)
    else if s == "timed_out" then Some(TimedOut)
    else if s == "cancelled" then Some(Cancelled)
    else None
  }

  /** The sticky-terminal guard: may a report of `reported` still land on a row in `current`? */
  predicate Admits(current: Status, reported: Status) {
    match current
    case Succeeded | Failed | TimedOut => false
    case Cancelled => reported == Cancelled
    case Pending | Claimed | Running => true
  }

  /** The status column's values, as they are spelled. */
  function Name(s: Status): string {
    match s
    case Pending => "pending"
    case Claimed => "claimed"
    case Running => "running"
    case Succeeded => "succeeded"
    case Failed => "failed"
    case TimedOut => "timed_out"
    case Cancelled => "cancelled"
  }

  lemma NamesDiffer(s: Status, t: Status)
    ensures Name(s) == Name(t) <==> s == t
  {
    assert Name(s)[0] == Name(t)[0] && |Name(s)| == |Name(t)| ==> s == t;
  }

  /** The ends a run can come to. */
  predicate Terminates(s: Status) {
    s == Succeeded || s == Failed || s == TimedOut || s == Cancelled
  }

  /** A report is understood exactly if it spells one of the four ends. */
  lemma ParsesIff(x: string, s: Status)
    ensures ParseTerminalStatus(x) == Some(s) <==>
            Terminates(s) && x == Name(s)
  {
    match s
    case Succeeded =>
    case Failed =>
    case TimedOut =>
    case Cancelled =>
    case _ =>
  }

  /** May a report spelling x still end a run in status s? */
  predicate Ends(s: Status, x: string) {
    (x == "succeeded" || x == "failed" || x == "timed_out" || x == "cancelled") &&
    match s
    case Pending | Claimed | Running => true
    case Cancelled => x == "cancelled"
    case _ => false
  }

  predicate Accepts(runs: Runs, id: int, report: Report) {
    ParseTerminalStatus(report.status).Some? && id in runs &&
    Admits(runs[id].status, ParseTerminalStatus(report.status).value)
  }

  function KeepUnless<T>(kept: Option<T>, replace: bool, replacement: T): Option<T> {
    if replace then Some(replacement) else kept
  }

  /** The row after an accepted report: empty and absent fields leave their columns alone. */
  function Settled(r: Run, status: Status, report: Report, now: Time): Run {
    r.(status := status,
       finishedAt := Some(now),
       score := if report.score.Some? then report.score else r.score,
       result := if report.result.Some? then report.result else r.result,
       error := KeepUnless(r.error, report.error != "", report.error),
       startedAt := if report.startedAt.Some? then report.startedAt else r.startedAt,
       stdout := KeepUnless(r.stdout, report.stdout != "", report.stdout),
       stderr := KeepUnless(r.stderr, report.stderr != "", report.stderr))
  }

  // ----------------------------------------------------------------- workers

  /** INSERT … ON CONFLICT (name) DO UPDATE SET last_seen. */
  function Upserted(workers: Workers, name: string, now: Time): Workers {
    workers[name := if name in workers then workers[name].(lastSeen := now) else Worker(now, 0, now)]
  }

  /** UPDATE … SET runs_handled = runs_handled + 1, last_seen WHERE name: no row, no effect. */
  function Bumped(workers: Workers, name: string, now: Time): Workers {
    if name in workers
    then workers[name := workers[name].(runsHandled := workers[name].runsHandled + 1, lastSeen := now)]
    else workers
  }

  /** Does a success reported under this name reach a counter? */
  predicate Counts(workers: Workers, name: string) {
    name != "" && name in workers
  }

  // ---------------------------------------------------------------- sweeping

  function Fresh(workers: Workers, cutoff: Time): set<string> {
    set name | name in workers && workers[name].lastSeen > cutoff
  }

  /** SQL's `column NOT IN (names…)`: NULL in, NULL out. */
  function SqlNotIn(column: Option<string>, names: set<string>): Option<bool> {
    if column.None? then None else Some(column.value !in names)
  }

  /** The WHERE clause of the sweep: a row is updated only when it evaluates to TRUE. */
  predicate SweepSelects(r: Run, live: set<string>) {
    r.status == Claimed && (live == {} || SqlNotIn(r.workerId, live) == Some(true))
  }

  function Requeued(r: Run): Run {
    r.(status := Pending, workerId := Some(""), claimedAt := None)
  }

  function Swept(runs: Runs, workers: Workers, cutoff: Time): Runs {
    var live := Fresh(workers, cutoff);
    map id | id in runs :: if SweepSelects(runs[id], live) then Requeued(runs[id]) else runs[id]
  }

  /** What the sweep is for: the lease's holder is nobody that has been seen after the cutoff. */
  predicate Orphaned(r: Run, workers: Workers, cutoff: Time) {
    r.status == Claimed &&
    (r.workerId.Some? && r.workerId.value in workers ==> workers[r.workerId.value].lastSeen <= cutoff)
  }

  function Reclaimed(runs: Runs, workers: Workers, cutoff: Time): set<int> {
    set id | id in runs && SweepSelects(runs[id], Fresh(workers, cutoff))
  }

  /** The sweep in terms of the rows it updates; it leaves the table as it was exactly when there are none. */
  lemma SweepByRows(runs: Runs, workers: Workers, cutoff: Time)
    ensures var hit := Reclaimed(runs, workers, cutoff);
      Swept(runs, workers, cutoff) == (map id | id in runs :: if id in hit then Requeued(runs[id]) else runs[id]) &&
      (Swept(runs, workers, cutoff) == runs <==> hit == {})
  {
    var hit := Reclaimed(runs, workers, cutoff);
    if hit != {} {
      var id := Pick(hit);
      assert Swept(runs, workers, cutoff)[id] != runs[id];
    }
  }

  /** For any tables: the SQL sweep meets its purpose exactly when it has no NULL holder to trip over. */
  lemma SweepMeetsPurposeIff(runs: Runs, workers: Workers, cutoff: Time)
    ensures (forall id | id in runs ::
               Swept(runs, workers, cutoff)[id] ==
               if Orphaned(runs[id], workers, cutoff) then Requeued(runs[id]) else runs[id])
       <==> (Fresh(workers, cutoff) == {} ||
             forall id | id in runs && runs[id].status == Claimed :: runs[id].workerId.Some?)
  {
    var live := Fresh(workers, cutoff);
    forall id | id in runs
      ensures runs[id].workerId.Some? || live == {}
              ==> (SweepSelects(runs[id], live) <==> Orphaned(runs[id], workers, cutoff))
    {
      if runs[id].workerId.Some? {
        var w := runs[id].workerId.value;
        assert w in live <==> w in workers && workers[w].lastSeen > cutoff;
      }
    }
    forall id | id in runs && runs[id].status == Claimed && runs[id].workerId.None? && live != {}
      ensures Orphaned(runs[id], workers, cutoff) && !SweepSelects(runs[id], live)
      ensures Requeued(runs[id]) != runs[id]
    {
    }
  }

  // ------------------------------------------------------- operator actions

  /** Which rows an operator action names: one run, or all of a submission's. */
  datatype Target = OneRun(id: int) | AllOf(submission: int)

  predicate Hits(target: Target, id: int, r: Run) {
    match target
    case OneRun(i) => id == i
    case AllOf(s) => r.submission == s
  }

  function CancelledRow(target: Target, id: int, r: Run, now: Time): Run {
    if Hits(target, id, r) && r.status.InFlight() then r.(status := Cancelled, finishedAt := Some(now)) else r
  }

  function CancelRuns(runs: Runs, target: Target, now: Time): Runs {
    map id | id in runs :: CancelledRow(target, id, runs[id], now)
  }

  function RetriedRow(submission: int, r: Run): Run {
    if r.submission == submission && r.status.Retryable()
    then r.(status := Pending, workerId := Some(""), claimedAt := None, startedAt := None, finishedAt := None,
            score := None, result := None, error := Some(""))
    else r
  }

  function RetryRuns(runs: Runs, submission: int): Runs {
    map id | id in runs :: RetriedRow(submission, runs[id])
  }

  function PrioritizedRow(submission: int, r: Run, now: Time): Run {
    if r.submission == submission && r.status == Pending then r.(priority := now) else r
  }

  function PrioritizeRuns(runs: Runs, submission: int, now: Time): Runs {
    map id | id in runs :: PrioritizedRow(submission, runs[id], now)
  }

  function InsertRuns(runs: Runs, batch: map<int, NewRun>): Runs {
    runs + (map id | id in batch :: Inserted(batch[id]))
  }
}
