/**
 The handlers that change rows, each as it runs under writeMu, proved against the row functions
 that Protocol.Next is made of.
 */
module Handlers {
  import opened Tables
  import opened Queue
  import opened Choice

  datatype Reply = Ok(id: int, run: Run) | NoContent | NotFound | BadRequest

  /** Adding the NOT IN condition only when there are names leaves the same rows as one predicate. */
  lemma Selection(runs: Runs, workers: Workers, cutoff: Time, seen: set<string>, selected: set<int>)
    requires seen == set name | name in workers && workers[name].lastSeen > cutoff
    requires forall id :: id in selected <==>
      id in runs && runs[id].status == Claimed && (seen != {} ==> SqlNotIn(runs[id].workerId, seen) == Some(true))
    ensures selected == Reclaimed(runs, workers, cutoff)
  {
    assert seen == Fresh(workers, cutoff);
    forall id ensures id in selected <==> id in Reclaimed(runs, workers, cutoff) {
      assert id in selected <==> id in runs && SweepSelects(runs[id], seen);
    }
  }

  /** Rewriting the rows selected by a retry grows the queue by their number. */
  lemma RetriedRows(runs: Runs, submission: int, hit: set<int>, runs': Runs)
    requires hit == set id | id in runs && runs[id].submission == submission && runs[id].status.Retryable()
    requires runs'.Keys == runs.Keys
    requires forall id | id in runs :: runs'[id] == if id in hit then RetriedRow(submission, runs[id]) else runs[id]
    ensures runs' == RetryRuns(runs, submission) && |PendingIds(runs')| == |PendingIds(runs)| + |hit|
  {
    assert forall id | id in runs :: runs'[id] == RetriedRow(submission, runs[id]);
    forall id ensures id in PendingIds(runs') <==> id in PendingIds(runs) + hit {
      if id in runs {
        assert runs'[id] == RetriedRow(submission, runs[id]);
      }
    }
    assert PendingIds(runs') == PendingIds(runs) + hit;
  }

  lemma Understood(runs: Runs, id: int, body: Report)
    ensures var parsed := ParseTerminalStatus(body.status);
      (parsed.None? <==> body.status !in ["succeeded", "failed", "timed_out", "cancelled"]) &&
      (parsed.Some? ==> Name(parsed.value) == body.status) &&
      (Accepts(runs, id, body) <==> id in runs && Ends(runs[id].status, body.status))
  {
    forall s ensures ParseTerminalStatus(body.status) == Some(s) <==> Terminates(s) && body.status == Name(s) {
      ParsesIff(body.status, s);
    }
  }

  class Deps {
    const workerTimeout: int
    var runs: Runs
    var workers: Workers
    var hbCache: map<string, Time>

    constructor (timeout: int)
      ensures workerTimeout == timeout && runs == map[] && workers == map[] && hbCache == map[]
    {
      workerTimeout := timeout;
      runs, workers, hbCache := map[], map[], map[];
    }

    // ------------------------------------------------------------- heartbeat

    /** The middleware's decision: at most one write per worker and TTL. */
    method ShouldHeartbeat(id: string, now: Time) returns (due: bool)
      modifies this`hbCache
      ensures due <==> id !in old(hbCache) || now - old(hbCache)[id] >= HEARTBEAT_TTL
      ensures hbCache == if due then old(hbCache)[id := now] else old(hbCache)
    {
      if id in hbCache {
        var last := hbCache[id];
        if now - last < HEARTBEAT_TTL {
          return false;
        }
      }
      hbCache := hbCache[id := now];
      return true;
    }

    /** The middleware's write, when the database takes it: an old row keeps its counter. */
    method UpsertWorker(name: string, now: Time)
      modifies this`workers
      ensures workers == Upserted(old(workers), name, now)
    {
      var row := Worker(now, 0, now);
      if name in workers {
        row := workers[name];
        row := row.(lastSeen := now);
      }
      workers := workers[name := row];
    }

    method BumpRunsHandled(name: string, now: Time)
      modifies this`workers
      ensures workers == if Counts(old(workers), name) then Bumped(old(workers), name, now) else old(workers)
    {
      if name == "" {
        return;
      }
      if name in workers {
        var row := workers[name];
        row := row.(runsHandled := row.runsHandled + 1);
        row := row.(lastSeen := now);
        workers := workers[name := row];
      }
    }

    // ----------------------------------------------------- claims and results

    /** Leases a run that no pending run must go before, or finds none pending. */
    method HandleClaim(header: string, now: Time) returns (reply: Reply, notified: bool)
      modifies this`runs
      ensures notified == reply.Ok?
      ensures reply.Ok? || (reply == NoContent && PendingIds(old(runs)) == {} && runs == old(runs))
      ensures reply.Ok? ==>
        IsHead(old(runs), reply.id) && reply.run == Leased(old(runs)[reply.id], Claimant(header), now) &&
        runs == old(runs)[reply.id := reply.run]
      ensures reply.Ok? ==>
        reply.id in old(runs) && old(runs)[reply.id].status == Pending &&
        reply.run == old(runs)[reply.id].(
          status := Claimed, workerId := Some(if header == "" then "unknown" else header), claimedAt := Some(now))
    {
      var workerID := header;
      if workerID == "" {
        workerID := "unknown";
      }
      var heads := set i | i in runs && IsHead(runs, i);
      if heads == {} {
        HeadExistsIff(runs);
        assert forall h | IsHead(runs, h) :: h in heads;
        return NoContent, false;
      }
      var id := Any(heads);
      var updated := runs[id].(status := Claimed);
      updated := updated.(workerId := Some(workerID));
      updated := updated.(claimedAt := Some(now));
      runs := runs[id := updated];
      return Ok(id, updated), true;
    }

    /** Ends the run with the report unless it has ended already, and credits a success to its reporter. */
    method HandleResult(pathId: Option<int>, json: Option<Report>, header: string, bumpOk: bool, now: Time)
      returns (reply: Reply, notified: bool)
      modifies this`runs, this`workers
      ensures reply == BadRequest || reply == NotFound || reply == NoContent
      ensures reply == BadRequest <==> pathId.None? || json.None? || ParseTerminalStatus(json.value.status).None?
      ensures pathId.Some? && json.Some? ==>
        (reply == BadRequest <==> json.value.status !in ["succeeded", "failed", "timed_out", "cancelled"])
      ensures reply == NotFound <==> reply != BadRequest && pathId.value !in old(runs)
      ensures notified <==> reply == NoContent && Accepts(old(runs), pathId.value, json.value)
      ensures notified ==>
        runs == old(runs)[pathId.value := Settled(old(runs)[pathId.value],
                                                  ParseTerminalStatus(json.value.status).value, json.value, now)]
      ensures notified <==> reply == NoContent && Ends(old(runs)[pathId.value].status, json.value.status)
      ensures notified ==>
        pathId.value in runs && Name(runs[pathId.value].status) == json.value.status &&
        runs[pathId.value].finishedAt == Some(now)
      ensures notified && json.value.status == "succeeded" && bumpOk && Counts(old(workers), header)
              ==> workers == Bumped(old(workers), header, now)
      ensures !(notified && json.value.status == "succeeded" && bumpOk && Counts(old(workers), header))
              ==> workers == old(workers)
      ensures !notified ==> runs == old(runs)
    {
      if pathId.None? || json.None? {
        return BadRequest, false;
      }
      var id, body := pathId.value, json.value;
      var status := ParseTerminalStatus(body.status);
      Understood(runs, id, body);
      if status.None? {
        return BadRequest, false;
      }
      if id !in runs {
        return NotFound, false;
      }
      var cur := runs[id].status;
      if cur == Succeeded || cur == Failed || cur == TimedOut {
        return NoContent, false;
      }
      if cur == Cancelled && status.value != Cancelled {
        return NoContent, false;
      }

      var upd := runs[id].(status := status.value, finishedAt := Some(now));
      if body.score.Some? {
        upd := upd.(score := body.score);
      }
      if body.result.Some? {
        upd := upd.(result := body.result);
      }
      if body.error != "" {
        upd := upd.(error := Some(body.error));
      }
      if body.startedAt.Some? {
        upd := upd.(startedAt := body.startedAt);
      }
      if body.stdout != "" {
        upd := upd.(stdout := Some(body.stdout));
      }
      if body.stderr != "" {
        upd := upd.(stderr := Some(body.stderr));
      }
      assert upd == Settled(runs[id], status.value, body, now);
      runs := runs[id := upd];

      if status.value == Succeeded && bumpOk {
        BumpRunsHandled(header, now);
      }
      return NoContent, true;
    }

    // ------------------------------------------------- sweeping and operators

    /** One tick of the sweeper: n is the number of runs reclaimed, and only then are the dashboards woken. */
    method SweepTick(now: Time) returns (n: nat, notified: bool)
      modifies this`runs
      ensures runs == Swept(old(runs), workers, now - workerTimeout)
      ensures n == |Reclaimed(old(runs), workers, now - workerTimeout)|
      ensures notified <==> runs != old(runs)
    {
      var cutoff := now - workerTimeout;
      var seen := set name | name in workers && workers[name].lastSeen > cutoff;
      var selected := set id | id in runs && runs[id].status == Claimed;
      if |seen| > 0 {
        selected := set id | id in selected && SqlNotIn(runs[id].workerId, seen) == Some(true);
      }
      Selection(runs, workers, cutoff, seen, selected);
      SweepByRows(runs, workers, cutoff);
      runs := map id | id in runs ::
        if id in selected then runs[id].(status := Pending, workerId := Some(""), claimedAt := None) else runs[id];
      n := |selected|;
      notified := n > 0;
    }

    /** Cancels what is still in flight of the target; n rows change. */
    method CancelTarget(target: Target, now: Time) returns (n: nat)
      modifies this`runs
      ensures runs == CancelRuns(old(runs), target, now)
      ensures n == |set id | id in old(runs) && old(runs)[id] != runs[id]|
    {
      var hit := set id | id in runs && Hits(target, id, runs[id]) && runs[id].status.InFlight();
      runs := map id | id in runs ::
        if id in hit then runs[id].(status := Cancelled, finishedAt := Some(now)) else runs[id];
      assert hit == set id | id in old(runs) && old(runs)[id] != runs[id];
      n := |hit|;
    }

    /** Puts the submission's runs that ended without success back in the queue; the queue grows by n. */
    method RetrySubmission(submission: int) returns (n: nat)
      modifies this`runs
      ensures runs == RetryRuns(old(runs), submission)
      ensures n == |PendingIds(runs)| - |PendingIds(old(runs))|
    {
      var hit := set id | id in runs && runs[id].submission == submission && runs[id].status.Retryable();
      runs := map id | id in runs ::
        if id in hit
        then runs[id].(status := Pending, workerId := Some(""), claimedAt := None, startedAt := None,
                       finishedAt := None, score := None, result := None, error := Some(""))
        else runs[id];
      RetriedRows(old(runs), submission, hit, runs);
      n := |hit|;
    }

    /** Sends the submission's pending runs to the top. */
    method PrioritizeSubmission(submission: int, now: Time) returns (n: nat)
      modifies this`runs
      ensures runs == PrioritizeRuns(old(runs), submission, now)
      ensures n == |set id | id in PendingIds(runs) && runs[id].submission == submission|
    {
      var hit := set id | id in runs && runs[id].submission == submission && runs[id].status == Pending;
      runs := map id | id in runs :: if id in hit then runs[id].(priority := now) else runs[id];
      assert forall id | id in runs :: runs[id] == PrioritizeRuns(old(runs), submission, now)[id];
      assert hit == set id | id in PendingIds(runs) && runs[id].submission == submission;
      n := |hit|;
    }
  }
}
