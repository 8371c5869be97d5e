/** What the next attempt at a retried run starts from. */
module Retries {
  import opened Tables
  import opened Queue
  import opened Protocol
  import opened Leases
  import opened History

  /** The columns that a retry clears. */
  predicate Wiped(r: Run) {
    r.score.None? && r.result.None? && r.startedAt.None? && r.error == Some("")
  }

  predicate SameLogs(r: Run, was: Run) {
    r.stdout == was.stdout && r.stderr == was.stderr
  }

  /** No report on run id takes effect in steps i to j − 1. */
  ghost predicate Unreported(b: Behavior, i: nat, j: nat, id: int)
    requires IsBehavior(b) && j <= |b.events|
  {
    forall k: nat | i <= k < j :: !ReportLands(b, k, id)
  }

  lemma QuietStep(b: Behavior, k: nat, id: int)
    requires IsBehavior(b) && k < |b.events| && id in b.states[k].runs && !ReportLands(b, k, id)
    ensures id in b.states[k + 1].runs && SameLogs(b.states[k + 1].runs[id], b.states[k].runs[id])
    ensures Wiped(b.states[k].runs[id]) || RetriedBack(b, k, id) ==> Wiped(b.states[k + 1].runs[id])
  {
    assert StepAt(b, k);
    RowMoves(b.states[k], b.events[k], b.states[k + 1], id);
  }

  /** Claims, sweeps, cancels and further retries neither fill what the retry cleared nor clear what it left. */
  lemma {:induction false} RetryLasts(b: Behavior, i: nat, j: nat, id: int)
    requires IsBehavior(b) && i < j <= |b.events| && RetriedBack(b, i, id) && Unreported(b, i, j, id)
    ensures id in b.states[j].runs && Wiped(b.states[j].runs[id])
    ensures SameLogs(b.states[j].runs[id], b.states[i].runs[id])
    decreases j
  {
    if i + 1 < j {
      RetryLasts(b, i, j - 1, id);
    }
    QuietStep(b, j - 1, id);
  }

  /**
   The slate is clean of the score, result, error and start of the earlier attempt, but not of its logs:
   each survives the next report exactly when that report brings none, or the very same.
   */
  lemma CleanSlateIff(b: Behavior, i: nat, j: nat, id: int, x: string)
    requires IsBehavior(b) && i < j < |b.events| && RetriedBack(b, i, id)
    requires Unreported(b, i, j, id) && ReportLands(b, j, id) && x != ""
    ensures id in b.states[j + 1].runs
    ensures var was, row, report := b.states[i].runs[id], b.states[j + 1].runs[id], b.events[j].report;
      row.score == report.score && row.result == report.result && row.startedAt == report.startedAt &&
      row.error == Some(report.error) &&
      (was.stdout == Some(x) ==> (row.stdout == Some(x) <==> report.stdout == "" || report.stdout == x)) &&
      (was.stderr == Some(x) ==> (row.stderr == Some(x) <==> report.stderr == "" || report.stderr == x))
  {
    RetryLasts(b, i, j, id);
    assert StepAt(b, j);
    RowMoves(b.states[j], b.events[j], b.states[j + 1], id);
  }

  /** A second attempt that succeeds without a word, and the row shows what the failed first one wrote. */
  lemma StaleLogs(timeout: int) returns (b: Behavior, i: nat, j: nat)
    ensures IsBehavior(b) && i < j < |b.events| && RetriedBack(b, i, 1)
    ensures Unreported(b, i, j, 1) && ReportLands(b, j, 1) && b.events[j].report.stdout == ""
    ensures 1 in b.states[j + 1].runs && b.states[j + 1].runs[1].status == Succeeded
    ensures b.states[j + 1].runs[1].stdout == Some("panic") && b.states[j + 1].runs[1].stderr == Some("trace")
  {
    var before;
    before, i := Reattempted(timeout);
    j := |before.events|;
    b := Then(before, Result(3, 1, Report("succeeded", Some(1.0), None, "", None, "", ""), true));
    forall k: nat | i <= k < j ensures !ReportLands(b, k, 1) {
      assert !ReportLands(before, k, 1);
    }
    assert before.states[i] == b.states[i];
  }

  /** Retried, claimed again, and about to report. */
  lemma Reattempted(timeout: int) returns (b: Behavior, i: nat)
    ensures IsBehavior(b) && i < |b.events| && RetriedBack(b, i, 1) && Unreported(b, i, |b.events|, 1)
    ensures 1 in Last(b).runs && Last(b).runs[1].status == Claimed && InService(Last(b), 3)
    ensures Last(b).runs[1].stdout == Some("panic") && Last(b).runs[1].stderr == Some("trace")
  {
    var before := Retried(timeout);
    i := |before.events| - 1;
    b := Then(before, Arrive(2, ""));
    b := Then(b, Claim(2, Some(1)));
    b := Then(b, Arrive(3, ""));
    assert b.states[i] == before.states[i] && b.events[i] == before.events[i];
  }

  lemma Retried(timeout: int) returns (b: Behavior)
    ensures IsBehavior(b) && |b.events| > 0 && RetriedBack(b, |b.events| - 1, 1) && Last(b).conns == map[]
    ensures Last(b).runs.Keys == {1} && Last(b).runs[1].status == Pending
    ensures Last(b).runs[1].stdout == Some("panic") && Last(b).runs[1].stderr == Some("trace")
  {
    b := Attempted(timeout, Report("failed", None, None, "crashed", None, "panic", "trace"));
    b := Then(b, Retry(0));
  }

  /** The first attempt, under no name. */
  lemma Attempted(timeout: int, report: Report) returns (b: Behavior)
    requires report.status == "failed"
    ensures IsBehavior(b) && Last(b).runs.Keys == {1} && Last(b).conns == map[] && Last(b).now == 0
    ensures Last(b).runs[1] == Settled(Leased(Inserted(NewRun(0, 0, "seed", 0)), "unknown", 0), Failed, report, 0)
  {
    b := FirstClaim(timeout);
    b := Then(b, Arrive(1, ""));
    b := Then(b, Result(1, 1, report, true));
  }

  lemma FirstClaim(timeout: int) returns (b: Behavior)
    ensures IsBehavior(b) && Last(b).conns == map[] && Last(b).now == 0
    ensures Last(b).runs == map[1 := Leased(Inserted(NewRun(0, 0, "seed", 0)), "unknown", 0)]
  {
    b := Then(Empty(timeout), Enqueue(map[1 := NewRun(0, 0, "seed", 0)], true));
    b := Then(b, Arrive(0, ""));
    b := Then(b, Claim(0, Some(1)));
  }
}
