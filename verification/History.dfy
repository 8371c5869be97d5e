/** What whole runs of the server never do, whatever the interleaving. */
module History {
  import opened Tables
  import opened Queue
  import opened Protocol
  import opened Invariants
  import opened Leases

  // ---------------------------------------------------------- exclusive leases

  /** Step k is a sweep that reclaims run id from a holder nobody has seen lately. */
  ghost predicate SweptBack(b: Behavior, k: nat, id: int)
    requires IsBehavior(b) && k < |b.events|
  {
    var s := b.states[k];
    b.events[k].Sweep? && id in s.runs && Orphaned(s.runs[id], s.workers, s.now - s.timeout)
  }

  /** Step k is an operator's retry of run id, which had ended without success. */
  ghost predicate RetriedBack(b: Behavior, k: nat, id: int)
    requires IsBehavior(b) && k < |b.events|
  {
    var s := b.states[k];
    b.events[k].Retry? && id in s.runs && s.runs[id].submission == b.events[k].submission &&
    s.runs[id].status.Retryable()
  }

  lemma BackInQueue(b: Behavior, k: nat, id: int)
    requires IsBehavior(b) && k < |b.events| && id in b.states[k].runs && !IsPending(b.states[k].runs, id)
    ensures id in b.states[k + 1].runs
    ensures IsPending(b.states[k + 1].runs, id) ==> SweptBack(b, k, id) || RetriedBack(b, k, id)
  {
    assert StepAt(b, k);
    RowMoves(b.states[k], b.events[k], b.states[k + 1], id);
    if b.events[k].Sweep? {
      SweepIsExact(b, k);
    }
  }

  lemma {:induction false} LeavesQueueAgain(b: Behavior, i: nat, j: nat, id: int)
    requires IsBehavior(b) && i <= j < |b.states| && id in b.states[i].runs && !IsPending(b.states[i].runs, id)
    requires IsPending(b.states[j].runs, id)
    ensures exists k :: i <= k < j && (SweptBack(b, k, id) || RetriedBack(b, k, id))
    decreases j - i
  {
    BackInQueue(b, i, id);
    if !IsPending(b.states[i + 1].runs, id) {
      LeavesQueueAgain(b, i + 1, j, id);
    }
  }

  /** Between two grants of the same run there is always a sweep that reclaimed it, or a retry. */
  lemma ClaimsAreSeparated(b: Behavior, i: nat, j: nat, id: int)
    requires IsBehavior(b) && i < j < |b.events| && Grants(b.events[i], id) && Grants(b.events[j], id)
    ensures exists k :: i < k < j && (SweptBack(b, k, id) || RetriedBack(b, k, id))
  {
    assert StepAt(b, i) && StepAt(b, j);
    LeavesQueueAgain(b, i + 1, j, id);
  }

  // ------------------------------------------------------------ sweep is exact

  /** On every reachable state the sweep moves the orphaned runs back to pending, and nothing else. */
  lemma SweepIsExact(b: Behavior, i: nat)
    requires IsBehavior(b) && i < |b.events| && b.events[i].Sweep?
    ensures var s, s' := b.states[i], b.states[i + 1];
      s'.runs.Keys == s.runs.Keys && s' == s.(runs := s'.runs) &&
      forall id | id in s.runs ::
        s'.runs[id] == if Orphaned(s.runs[id], s.workers, s.now - s.timeout) then Requeued(s.runs[id]) else s.runs[id]
  {
    var s := b.states[i];
    Reachable(b, i);
    assert StepAt(b, i);
    SweepMeetsPurposeIff(s.runs, s.workers, s.now - s.timeout);
    assert forall id | id in s.runs :: RowOk(s.runs[id], s.now);
  }

  // ----------------------------------------------------------- orphans come back

  /** Worker w has no request in the server. */
  predicate Absent(s: State, w: string) {
    forall c | c in s.conns :: s.conns[c].worker != w
  }

  lemma AbsenceStep(b: Behavior, k: nat, w: string)
    requires IsBehavior(b) && k < |b.events| && Absent(b.states[k], w)
    requires !(b.events[k].Arrive? && b.events[k].worker == w)
    ensures Absent(b.states[k + 1], w) && b.states[k].now <= b.states[k + 1].now
    ensures w in b.states[k + 1].workers ==>
      w in b.states[k].workers && b.states[k + 1].workers[w].lastSeen == b.states[k].workers[w].lastSeen
  {
    assert StepAt(b, k);
  }

  lemma {:induction false} AbsenceLasts(b: Behavior, i: nat, j: nat, w: string)
    requires IsBehavior(b) && i <= j < |b.states| && Absent(b.states[i], w)
    requires forall k | i <= k < j :: !(b.events[k].Arrive? && b.events[k].worker == w)
    ensures Absent(b.states[j], w)
    ensures w in b.states[j].workers ==>
      w in b.states[i].workers && b.states[j].workers[w].lastSeen == b.states[i].workers[w].lastSeen
    decreases j
  {
    if i < j {
      AbsenceLasts(b, i, j - 1, w);
      AbsenceStep(b, j - 1, w);
    }
  }

  /** The first sweep at least workerTimeout after a worker fell silent returns every run it still holds. */
  lemma DeadLeasesReturn(b: Behavior, i: nat, j: nat, w: string, id: int)
    requires IsBehavior(b) && i <= j < |b.events| && b.events[j].Sweep? && Holds(b.states[j], w, id)
    requires Absent(b.states[i], w) && forall k | i <= k < j :: !(b.events[k].Arrive? && b.events[k].worker == w)
    requires b.states[i].now + b.states[j].timeout <= b.states[j].now
    ensures IsPending(b.states[j + 1].runs, id)
  {
    AbsenceLasts(b, i, j, w);
    Reachable(b, i);
    SweepIsExact(b, j);
  }

  // ------------------------------------------------------ first report is final

  /** No retry of run id's submission in steps i to j − 1. */
  ghost predicate Unretried(b: Behavior, i: nat, j: nat, id: int)
    requires IsBehavior(b) && i <= j < |b.states| && id in b.states[i].runs
  {
    forall k | i <= k < j :: b.events[k] != Retry(b.states[i].runs[id].submission)
  }

  lemma EndStep(b: Behavior, k: nat, id: int)
    requires IsBehavior(b) && k < |b.events| && id in b.states[k].runs && b.states[k].runs[id].status.Terminal()
    requires b.states[k].runs[id].status == Succeeded || b.events[k] != Retry(b.states[k].runs[id].submission)
    ensures id in b.states[k + 1].runs && b.states[k + 1].runs[id].status == b.states[k].runs[id].status
    ensures b.states[k + 1].runs[id].submission == b.states[k].runs[id].submission
    ensures b.states[k].runs[id].status != Cancelled ==> b.states[k + 1].runs[id] == b.states[k].runs[id]
  {
    assert StepAt(b, k);
    RowMoves(b.states[k], b.events[k], b.states[k + 1], id);
  }

  /**
   A success is for ever, and so is any other end until the operator retries it: the whole row stays
   as it was, except that a cancelled run may still be sent its logs.
   */
  lemma {:induction false} EndIsFinal(b: Behavior, i: nat, j: nat, id: int)
    requires IsBehavior(b) && i <= j < |b.states| && id in b.states[i].runs && b.states[i].runs[id].status.Terminal()
    requires b.states[i].runs[id].status == Succeeded || Unretried(b, i, j, id)
    ensures id in b.states[j].runs && b.states[j].runs[id].status == b.states[i].runs[id].status
    ensures b.states[j].runs[id].submission == b.states[i].runs[id].submission
    ensures b.states[i].runs[id].status != Cancelled ==> b.states[j].runs[id] == b.states[i].runs[id]
    decreases j
  {
    if i < j {
      EndIsFinal(b, i, j - 1, id);
      EndStep(b, j - 1, id);
    }
  }

  /** At step i a result report for run id takes effect. */
  ghost predicate ReportLands(b: Behavior, i: nat, id: int)
    requires IsBehavior(b) && i < |b.events|
  {
    Lands(b.states[i], b.events[i]) && b.events[i].id == id
  }

  /** Of all reports of one attempt, or ever after a success, one lands — except that cancelled ones may repeat. */
  lemma OneReportLands(b: Behavior, i: nat, j: nat, id: int)
    requires IsBehavior(b) && i < j < |b.events| && ReportLands(b, i, id) && ReportLands(b, j, id)
    requires b.events[i].report.status == "succeeded" || Unretried(b, i, j, id)
    ensures b.events[i].report.status == "cancelled" && b.events[j].report.status == "cancelled"
  {
    assert StepAt(b, i);
    RowMoves(b.states[i], b.events[i], b.states[i + 1], id);
    EndIsFinal(b, i + 1, j, id);
  }

  // --------------------------------------------------------- lease conservation

  /** How many leases event e grants in state s. */
  function Granted(e: Event): nat {
    if e.Claim? && e.pick.Some? then 1 else 0
  }

  /** The leases that event e ends in state s. */
  function Ended(s: State, e: Event): set<int> {
    match e
    case Sweep => Reclaimed(s.runs, s.workers, s.now - s.timeout)
    case Result(_, id, _, _) => if Lands(s, e) && s.runs[id].status == Claimed then {id} else {}
    case Cancel(target) => set id | id in s.runs && s.runs[id].status == Claimed && Hits(target, id, s.runs[id])
    case _ => {}
  }

  datatype Tally = Tally(granted: nat, reclaimed: nat, reported: nat, cancelled: nat)

  function Count(t: Tally, s: State, e: Event): Tally {
    var t1 := t.(granted := t.granted + Granted(e));
    match e
    case Sweep => t1.(reclaimed := t.reclaimed + |Ended(s, e)|)
    case Result(_, _, _, _) => t1.(reported := t.reported + |Ended(s, e)|)
    case Cancel(_) => t1.(cancelled := t.cancelled + |Ended(s, e)|)
    case _ => t1
  }

  /** The tally over the first n steps. */
  function TallyOf(b: Behavior, n: nat): Tally
    requires n <= |b.events| <= |b.states|
  {
    if n == 0 then Tally(0, 0, 0, 0) else Count(TallyOf(b, n - 1), b.states[n - 1], b.events[n - 1])
  }

  function GainedIds(e: Event): set<int> {
    if e.Claim? && e.pick.Some? then {e.pick.value} else {}
  }

  lemma ClaimedRow(s: State, e: Event, s': State, id: int)
    requires Step(s, e, s')
    ensures id in ClaimedIds(s'.runs) <==> id in ClaimedIds(s.runs) - Ended(s, e) || id in GainedIds(e)
    ensures id in Ended(s, e) ==> id in ClaimedIds(s.runs)
    ensures id in GainedIds(e) ==> id !in ClaimedIds(s.runs)
  {
    if id in s.runs {
      RowMoves(s, e, s', id);
    } else if id in s'.runs {
      RowAppears(s, e, s', id);
    }
  }

  lemma ClaimedStep(s: State, e: Event, s': State)
    requires Step(s, e, s')
    ensures |ClaimedIds(s'.runs)| == |ClaimedIds(s.runs)| - |Ended(s, e)| + Granted(e)
  {
    ClaimedSets(s, e, s');
    var kept := ClaimedIds(s.runs) - Ended(s, e);
    assert |kept + GainedIds(e)| == |kept| + |GainedIds(e)|;
  }

  lemma ClaimedSets(s: State, e: Event, s': State)
    requires Step(s, e, s')
    ensures ClaimedIds(s'.runs) == ClaimedIds(s.runs) - Ended(s, e) + GainedIds(e)
    ensures Ended(s, e) <= ClaimedIds(s.runs) && GainedIds(e) !! ClaimedIds(s.runs)
  {
    forall id
      ensures id in ClaimedIds(s'.runs) <==> id in ClaimedIds(s.runs) - Ended(s, e) || id in GainedIds(e)
      ensures id in Ended(s, e) ==> id in ClaimedIds(s.runs)
      ensures id in GainedIds(e) ==> id !in ClaimedIds(s.runs)
    {
      ClaimedRow(s, e, s', id);
    }
  }

  /** Every lease ever granted was reclaimed, reported, cancelled, or is held now. */
  lemma {:induction false} LeasesConserved(b: Behavior, n: nat)
    requires IsBehavior(b) && n <= |b.events|
    ensures var t := TallyOf(b, n);
      t.granted == t.reclaimed + t.reported + t.cancelled + |ClaimedIds(b.states[n].runs)|
  {
    if n > 0 {
      LeasesConserved(b, n - 1);
      assert StepAt(b, n - 1);
      ClaimedStep(b.states[n - 1], b.events[n - 1], b.states[n]);
    } else {
      assert ClaimedIds(b.states[0].runs) == {};
    }
  }
}
