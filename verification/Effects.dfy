/** What every step writes, column by column, and what a claim and a report come to over whole runs. */
module Effects {
  import opened Tables
  import opened Queue
  import opened Protocol
  import opened Invariants
  import opened Leases
  import opened History

  // ------------------------------------------------------------------ requests

  /** A request is known by the X-Worker-Id that it came with. */
  lemma {:induction false} RequestKeepsName(b: Behavior, i: nat, c: int) returns (j: nat)
    requires IsBehavior(b) && i < |b.states| && c in b.states[i].conns
    ensures j < i && b.events[j] == Arrive(c, b.states[i].conns[c].worker)
    ensures forall k | j < k <= i :: c in b.states[k].conns
  {
    assert StepAt(b, i - 1);
    j := i - 1;
    if !(b.events[j].Arrive? && b.events[j].conn == c) {
      ConnKept(b.states[j], b.events[j], b.states[i], c);
      j := RequestKeepsName(b, i - 1, c);
    }
  }

  // -------------------------------------------------------------------- claims

  /** A claim takes a run with the highest priority, the oldest of these, and books it under the request's name. */
  lemma ClaimBooks(b: Behavior, i: nat, c: int, id: int)
    requires IsBehavior(b) && i < |b.events| && b.events[i] == Claim(c, Some(id))
    ensures c in b.states[i].conns && id in b.states[i].runs && b.states[i].runs[id].status == Pending
    ensures var s, w := b.states[i], b.states[i].conns[c].worker;
      b.states[i + 1].runs == s.runs[id := s.runs[id].(
        status := Claimed, workerId := Some(if w == "" then "unknown" else w), claimedAt := Some(s.now))]
    ensures var runs := b.states[i].runs;
      forall j | j in runs && runs[j].status == Pending ::
        runs[j].priority < runs[id].priority ||
        (runs[j].priority == runs[id].priority && runs[id].createdAt <= runs[j].createdAt)
  {
    assert StepAt(b, i);
  }

  /** At step m worker w is safe from the sweeper. */
  ghost predicate Tended(s: State, w: string) {
    w in s.contact && Accounted(s, w) && s.now - s.contact[w] <= s.timeout - HEARTBEAT_TTL
  }

  /** Step m reports on run id with effect, or cancels it. */
  ghost predicate Taken(b: Behavior, m: nat, id: int)
    requires IsBehavior(b) && m < |b.events|
  {
    ReportLands(b, m, id) ||
    (b.events[m].Cancel? && id in b.states[m].runs &&
     match b.events[m].target
     case OneRun(i) => i == id
     case AllOf(sub) => b.states[m].runs[id].submission == sub)
  }

  lemma LeaseKept(b: Behavior, m: nat, id: int, w: string)
    requires IsBehavior(b) && m < |b.events| && Holds(b.states[m], w, id)
    requires !Taken(b, m, id) && (b.events[m].Sweep? ==> Tended(b.states[m], w))
    ensures id in b.states[m + 1].runs && b.states[m + 1].runs[id] == b.states[m].runs[id]
  {
    assert StepAt(b, m);
    RowMoves(b.states[m], b.events[m], b.states[m + 1], id);
    if b.events[m].Sweep? {
      LiveLeasesSurvive(b, m, w, id);
    }
  }

  /**
   From end to end: a run granted to a worker that gives its name is still that worker's, row and all, as
   long as the worker is tended to at every sweep and nobody reports on the run or cancels it.
   */
  lemma {:induction false} GrantLasts(b: Behavior, i: nat, k: nat, c: int, id: int, w: string)
    requires IsBehavior(b) && i < k <= |b.events| && b.events[i] == Claim(c, Some(id))
    requires c in b.states[i].conns && b.states[i].conns[c].worker == w && w != ""
    requires forall m: nat | i < m < k :: !Taken(b, m, id) && (b.events[m].Sweep? ==> Tended(b.states[m], w))
    ensures id in b.states[i].runs && id in b.states[k].runs
    ensures b.states[k].runs[id] == b.states[i].runs[id].(
      status := Claimed, workerId := Some(w), claimedAt := Some(b.states[i].now))
    decreases k
  {
    ClaimBooks(b, i, c, id);
    if i + 1 < k {
      GrantLasts(b, i, k - 1, c, id, w);
      LeaseKept(b, k - 1, id, w);
    }
  }

  // ------------------------------------------------------------------- reports

  /** Which reports take effect, and the whole row that they leave: absent and empty fields touch nothing. */
  lemma ReportWrites(b: Behavior, i: nat, c: int, id: int, report: Report, bumpOk: bool)
    requires IsBehavior(b) && i < |b.events| && b.events[i] == Result(c, id, report, bumpOk)
    ensures ReportLands(b, i, id) <==> id in b.states[i].runs && Ends(b.states[i].runs[id].status, report.status)
    ensures !ReportLands(b, i, id) ==> b.states[i + 1].runs == b.states[i].runs
    ensures ReportLands(b, i, id) ==>
      id in b.states[i].runs && id in b.states[i + 1].runs &&
      var was, row := b.states[i].runs[id], b.states[i + 1].runs[id];
      Name(row.status) == report.status &&
      row == was.(status := row.status,
                  finishedAt := Some(b.states[i].now),
                  score := if report.score.Some? then report.score else was.score,
                  result := if report.result.Some? then report.result else was.result,
                  startedAt := if report.startedAt.Some? then report.startedAt else was.startedAt,
                  error := if report.error == "" then was.error else Some(report.error),
                  stdout := if report.stdout == "" then was.stdout else Some(report.stdout),
                  stderr := if report.stderr == "" then was.stderr else Some(report.stderr)) &&
      b.states[i + 1].runs == b.states[i].runs[id := row]
  {
    assert StepAt(b, i);
    if ParseTerminalStatus(report.status).Some? {
      ParsesIff(report.status, ParseTerminalStatus(report.status).value);
    }
  }

  // ---------------------------------------------------- sweeps and the operator

  /** A sweep gives a row back to the queue, and takes nothing of it but the lease. */
  lemma SweepWrites(b: Behavior, i: nat, id: int)
    requires IsBehavior(b) && i < |b.events| && b.events[i].Sweep? && id in b.states[i].runs
    ensures id in b.states[i + 1].runs
    ensures var s, r := b.states[i], b.states[i].runs[id];
      b.states[i + 1].runs[id] ==
      if r.status == Claimed && r.workerId.Some? &&
         (r.workerId.value in s.workers ==> s.workers[r.workerId.value].lastSeen <= s.now - s.timeout)
      then r.(status := Pending, workerId := Some(""), claimedAt := None)
      else r
  {
    Reachable(b, i);
    SweepIsExact(b, i);
    assert RowOk(b.states[i].runs[id], b.states[i].now);
  }

  /** Is run id one of the target's? */
  predicate Targets(target: Target, id: int, submission: int) {
    target == OneRun(id) || target == AllOf(submission)
  }

  /** After a cancel nothing of its target is queued, claimed or running, and nothing else has changed. */
  lemma CancelReaches(b: Behavior, i: nat, target: Target, id: int)
    requires IsBehavior(b) && i < |b.events| && b.events[i] == Cancel(target) && id in b.states[i].runs
    ensures id in b.states[i + 1].runs
    ensures var was, row := b.states[i].runs[id], b.states[i + 1].runs[id];
      (Targets(target, id, was.submission) ==> row.status !in {Pending, Claimed, Running}) &&
      (row == was || (Targets(target, id, was.submission) && was.status in {Pending, Claimed, Running} &&
                      row == was.(status := Cancelled, finishedAt := Some(b.states[i].now))))
  {
    assert StepAt(b, i);
    RowMoves(b.states[i], b.events[i], b.states[i + 1], id);
  }

  /** After a retry no run of its submission has ended without success; a retried run keeps its place in the order. */
  lemma RetryReaches(b: Behavior, i: nat, submission: int, id: int)
    requires IsBehavior(b) && i < |b.events| && b.events[i] == Retry(submission) && id in b.states[i].runs
    ensures id in b.states[i + 1].runs
    ensures var was, row := b.states[i].runs[id], b.states[i + 1].runs[id];
      (was.submission == submission ==> row.status !in {Failed, TimedOut, Cancelled}) &&
      (row == was || (was.submission == submission && was.status in {Failed, TimedOut, Cancelled} &&
                      row == was.(status := Pending, workerId := Some(""), claimedAt := None, startedAt := None,
                                  finishedAt := None, score := None, result := None, error := Some(""))))
  {
    assert StepAt(b, i);
    RowMoves(b.states[i], b.events[i], b.states[i + 1], id);
  }

  /** "Send to top" dates the priority of what is queued of its submission, and changes nothing else. */
  lemma PrioritizeReaches(b: Behavior, i: nat, submission: int, id: int)
    requires IsBehavior(b) && i < |b.events| && b.events[i] == Prioritize(submission) && id in b.states[i].runs
    ensures id in b.states[i + 1].runs
    ensures var was, row := b.states[i].runs[id], b.states[i + 1].runs[id];
      row == if was.submission == submission && was.status == Pending then was.(priority := b.states[i].now) else was
  {
    assert StepAt(b, i);
    RowMoves(b.states[i], b.events[i], b.states[i + 1], id);
  }

  /** An enqueue adds its runs as the schema's defaults have them, and changes no other. */
  lemma EnqueueAdds(b: Behavior, i: nat, batch: map<int, NewRun>, announced: bool)
    requires IsBehavior(b) && i < |b.events| && b.events[i] == Enqueue(batch, announced)
    ensures b.states[i + 1].runs.Keys == b.states[i].runs.Keys + batch.Keys && batch.Keys !! b.states[i].runs.Keys
    ensures forall id | id in b.states[i].runs :: b.states[i + 1].runs[id] == b.states[i].runs[id]
    ensures forall id | id in batch ::
      b.states[i + 1].runs[id] ==
      Run(batch[id].suite, batch[id].submission, batch[id].seed, batch[id].at,
          Pending, 0, None, None, None, None, None, None, None, None, None)
  {
    assert StepAt(b, i);
  }

  /** The clock, arriving and leaving requests, heartbeats, a claim that finds nothing and a restart change no run. */
  lemma OthersLeaveRuns(b: Behavior, i: nat)
    requires IsBehavior(b) && i < |b.events|
    requires var e := b.events[i];
      e.Tick? || e.Arrive? || e.Record? || e.Leave? || e.Restart? || (e.Claim? && e.pick.None?)
    ensures b.states[i + 1].runs == b.states[i].runs
  {
    assert StepAt(b, i);
  }

  // ------------------------------------------------------------------- workers

  /** Step i counts a success for w. */
  ghost predicate Credits(b: Behavior, i: nat, w: string)
    requires IsBehavior(b) && i < |b.events|
  {
    var s, e := b.states[i], b.events[i];
    e.Result? && ReportLands(b, i, e.id) && e.report.status == "succeeded" && e.bumpOk &&
    e.conn in s.conns && s.conns[e.conn].worker == w && w != "" && w in s.workers
  }

  /** Step i is a heartbeat of w that the database takes. */
  ghost predicate Beats(b: Behavior, i: nat, w: string)
    requires IsBehavior(b) && i < |b.events|
  {
    var s, e := b.states[i], b.events[i];
    e.Record? && e.ok && e.conn in s.conns && s.conns[e.conn].worker == w
  }

  /** A worker's row begins at zero with its first heartbeat; later ones date it, a success dates and counts. */
  lemma WorkerRow(b: Behavior, i: nat, w: string)
    requires IsBehavior(b) && i < |b.events|
    ensures var s, s' := b.states[i], b.states[i + 1];
      (w in s'.workers <==> w in s.workers || Beats(b, i, w)) &&
      (w in s'.workers ==>
         s'.workers[w] ==
         if w !in s.workers then Worker(s.now, 0, s.now)
         else if Beats(b, i, w) then s.workers[w].(lastSeen := s.now)
         else if Credits(b, i, w) then s.workers[w].(lastSeen := s.now, runsHandled := s.workers[w].runsHandled + 1)
         else s.workers[w])
  {
    assert StepAt(b, i);
  }
}
