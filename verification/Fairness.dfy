/** In what order pending runs are handed out, and how long one can wait. */
module Fairness {
  import opened Tables
  import opened Queue
  import opened Protocol
  import opened Invariants
  import opened Leases
  import opened History
  import opened Sorting

  // ------------------------------------------------------------ draining sorts

  function Elements(ids: seq<int>): set<int> {
    set k | k in ids
  }

  /** The ids, all pending, stand with the higher priority first, and the older among equals. */
  ghost predicate InClaimOrder(runs: Runs, ids: seq<int>) {
    (forall i | 0 <= i < |ids| :: IsPending(runs, ids[i])) &&
    forall i, j | 0 <= i < j < |ids| ::
      runs[ids[i]].priority > runs[ids[j]].priority ||
      (runs[ids[i]].priority == runs[ids[j]].priority && runs[ids[i]].createdAt <= runs[ids[j]].createdAt)
  }

  /** One granted claim: which run, to whom, when. */
  datatype Grant = Grant(id: int, worker: string, at: Time)

  function Ids(gs: seq<Grant>): seq<int> {
    seq(|gs|, i requires 0 <= i < |gs| => gs[i].id)
  }

  function Taken(runs: Runs, g: Grant): Runs
    requires g.id in runs
  {
    runs[g.id := Leased(runs[g.id], g.worker, g.at)]
  }

  /** One claim after another is granted as in gs, and then nothing is left. */
  ghost predicate Drains(runs: Runs, gs: seq<Grant>)
    decreases |gs|
  {
    if gs == [] then PendingIds(runs) == {}
    else IsHead(runs, gs[0].id) && Drains(Taken(runs, gs[0]), gs[1..])
  }

  /** The sequences a queue can drain in are exactly the sorted listings of its pending runs. */
  lemma {:induction false} DrainingIsSorting(runs: Runs, gs: seq<Grant>)
    ensures Drains(runs, gs) <==>
            Distinct(Ids(gs)) && InClaimOrder(runs, Ids(gs)) && PendingIds(runs) == Elements(Ids(gs))
    decreases |gs|
  {
    if gs == [] {
      return;
    }
    var ids, head := Ids(gs), gs[0].id;
    if head !in runs {
      assert !IsHead(runs, head) && !IsPending(runs, ids[0]);
      return;
    }
    var after := Taken(runs, gs[0]);
    DrainingIsSorting(after, gs[1..]);
    assert Ids(gs[1..]) == ids[1..];
    assert PendingIds(after) == PendingIds(runs) - {head};
    if Drains(runs, gs) {
      DrainSorts(runs, after, ids);
    } else if Distinct(ids) && InClaimOrder(runs, ids) && PendingIds(runs) == Elements(ids) {
      SortDrains(runs, after, ids);
    }
  }

  lemma DrainSorts(runs: Runs, after: Runs, ids: seq<int>)
    requires ids != [] && IsHead(runs, ids[0]) && PendingIds(after) == PendingIds(runs) - {ids[0]}
    requires forall j | j in runs && j != ids[0] :: j in after && after[j] == runs[j]
    requires Distinct(ids[1..]) && InClaimOrder(after, ids[1..])
    requires PendingIds(after) == Elements(ids[1..])
    ensures Distinct(ids) && InClaimOrder(runs, ids) && PendingIds(runs) == Elements(ids)
  {
    var rest := ids[1..];
    forall i | 0 <= i < |ids| ensures IsPending(runs, ids[i]) && (0 < i ==> ids[i] != ids[0]) {
      if 0 < i {
        assert ids[i] == rest[i - 1] && IsPending(after, rest[i - 1]);
        assert rest[i - 1] in PendingIds(after);
      }
    }
    forall i, j | 0 <= i < j < |ids| ensures ids[i] != ids[j] && Precedes(runs[ids[i]], runs[ids[j]]) {
      if 0 < i {
        assert ids[i] == rest[i - 1] && ids[j] == rest[j - 1];
      }
    }
    forall k ensures k in PendingIds(runs) <==> k in ids {
      assert k in ids <==> k == ids[0] || k in rest;
      assert k in rest <==> k in PendingIds(after);
    }
  }

  lemma SortDrains(runs: Runs, after: Runs, ids: seq<int>)
    requires ids != [] && PendingIds(after) == PendingIds(runs) - {ids[0]}
    requires forall j | j in runs && j != ids[0] :: j in after && after[j] == runs[j]
    requires Distinct(ids) && InClaimOrder(runs, ids) && PendingIds(runs) == Elements(ids)
    ensures IsHead(runs, ids[0])
    ensures Distinct(ids[1..]) && InClaimOrder(after, ids[1..])
    ensures PendingIds(after) == Elements(ids[1..])
  {
    var rest := ids[1..];
    assert forall i | 0 <= i < |rest| :: rest[i] == ids[i + 1];
    forall j | j in runs && runs[j].status == Pending ensures Precedes(runs[ids[0]], runs[j]) {
      assert j in PendingIds(runs) && j in ids;
    }
    forall k ensures k in PendingIds(after) <==> k in rest {
      assert k in ids <==> k == ids[0] || k in rest;
      assert k in ids <==> k in PendingIds(runs);
    }
  }

  // -------------------------------------------------------------- bounded wait

  /** The pending runs a claim may prefer to run id. */
  function Ahead(runs: Runs, id: int): set<int>
    requires id in runs
  {
    set j | j in runs && j != id && runs[j].status == Pending && Precedes(runs[j], runs[id])
  }

  /** The runs that event e puts before run id: swept back, retried, enqueued with no later date, or sent to the top. */
  function Overtaking(s: State, e: Event, id: int): set<int>
    requires id in s.runs
  {
    var r := s.runs[id];
    match e
    case Sweep => set j | j in Ended(s, e) && Precedes(s.runs[j], r)
    case Retry(sub) =>
      set j | j in s.runs && s.runs[j].submission == sub && s.runs[j].status.Retryable() && Precedes(s.runs[j], r)
    case Enqueue(batch, _) => set j | j in batch && Precedes(Inserted(batch[j]), r)
    case Prioritize(sub) =>
      set j | j in s.runs && j != id && IsPending(s.runs, j) && s.runs[j].submission == sub &&
              !Precedes(s.runs[j], r) && Precedes(PrioritizedRow(sub, s.runs[j], s.now), PrioritizedRow(sub, r, s.now))
    case _ => {}
  }

  /** How many times a run has been put before run id in steps i to j − 1. */
  function Overtaken(b: Behavior, i: nat, j: nat, id: int): nat
    requires i <= j <= |b.events| <= |b.states|
  {
    if i == j then 0
    else Overtaken(b, i, j - 1, id) +
         if id in b.states[j - 1].runs then |Overtaking(b.states[j - 1], b.events[j - 1], id)| else 0
  }

  /** A waiting run changes only in priority, and only when its own submission is sent to the top. */
  lemma PendingKept(s: State, e: Event, s': State, id: int)
    requires Step(s, e, s') && IsPending(s.runs, id) && IsPending(s'.runs, id)
    ensures s'.runs[id] == (if e.Prioritize? then PrioritizedRow(e.submission, s.runs[id], s.now) else s.runs[id])
    ensures !Grants(e, id)
  {
    RowMoves(s, e, s', id);
  }

  lemma AheadRow(s: State, e: Event, s': State, id: int, j: int)
    requires RowsOk(s) && Step(s, e, s') && IsPending(s.runs, id) && IsPending(s'.runs, id)
    requires j in Ahead(s'.runs, id)
    ensures j in Ahead(s.runs, id) || j in Overtaking(s, e, id)
    ensures !Grants(e, j)
  {
    PendingKept(s, e, s', id);
    assert RowOk(s.runs[id], s.now);
    if j in s.runs {
      RowMoves(s, e, s', j);
      assert RowOk(s.runs[j], s.now);
    } else {
      RowAppears(s, e, s', j);
    }
  }

  lemma SubsetSize<T>(a: set<T>, b: set<T>)
    requires a <= b
    ensures |a| <= |b|
  {
    assert b == a + (b - a);
  }

  lemma RankStep(s: State, e: Event, s': State, id: int)
    requires RowsOk(s) && Step(s, e, s') && IsPending(s.runs, id) && IsPending(s'.runs, id)
    ensures |Ahead(s'.runs, id)| + Granted(e) <= |Ahead(s.runs, id)| + |Overtaking(s, e, id)|
  {
    var was, now, ahead := Ahead(s.runs, id), Ahead(s'.runs, id), Overtaking(s, e, id);
    forall j | j in now ensures j in was + ahead && !Grants(e, j) {
      AheadRow(s, e, s', id, j);
    }
    if Granted(e) == 1 {
      PendingKept(s, e, s', id);
      assert e.pick.value in was && e.pick.value !in now;
      SubsetSize(now, was - {e.pick.value});
    } else {
      SubsetSize(now, was + ahead);
    }
  }

  /**
   While run id waits, every grant to another is paid for by a run ahead of it or one put before it
   since: by the sweeper, a retry, a late enqueue, or "send to top". Without those it is claimed within
   |Ahead| + 1 grants.
   */
  lemma {:induction false} WaitIsBounded(b: Behavior, i: nat, j: nat, id: int)
    requires IsBehavior(b) && i <= j <= |b.events|
    requires IsPending(b.states[i].runs, id) && IsPending(b.states[j].runs, id)
    requires forall k | i <= k <= j :: IsPending(b.states[k].runs, id)
    ensures |Ahead(b.states[j].runs, id)| + TallyOf(b, j).granted - TallyOf(b, i).granted
         <= |Ahead(b.states[i].runs, id)| + Overtaken(b, i, j, id)
    decreases j
  {
    if i < j {
      WaitIsBounded(b, i, j - 1, id);
      Reachable(b, j - 1);
      assert StepAt(b, j - 1);
      RankStep(b.states[j - 1], b.events[j - 1], b.states[j], id);
    }
  }

  /** All the while the row stays as it was, but for the priority that its own submission is given. */
  lemma {:induction false} WaitingUnchanged(b: Behavior, i: nat, j: nat, id: int)
    requires IsBehavior(b) && i <= j <= |b.events|
    requires IsPending(b.states[i].runs, id) && IsPending(b.states[j].runs, id)
    requires forall k | i <= k <= j :: IsPending(b.states[k].runs, id)
    ensures b.states[j].runs[id] == b.states[i].runs[id].(priority := b.states[j].runs[id].priority)
    ensures (forall k: nat | i <= k < j :: b.events[k] != Prioritize(b.states[i].runs[id].submission)) ==>
      b.states[j].runs[id] == b.states[i].runs[id]
    decreases j
  {
    if i < j {
      WaitingUnchanged(b, i, j - 1, id);
      assert StepAt(b, j - 1);
      PendingKept(b.states[j - 1], b.events[j - 1], b.states[j], id);
    }
  }

  // ------------------------------------------------------------ sending to top

  /** A pending run of another submission that was itself sent to the top this very instant, and is no younger. */
  ghost predicate Rival(s: State, submission: int, j: int) {
    IsPending(s.runs, j) && s.runs[j].submission != submission && s.runs[j].priority == s.now &&
    forall i | IsPending(s.runs, i) && s.runs[i].submission == submission :: s.runs[j].createdAt <= s.runs[i].createdAt
  }

  /** The next claim may take run h, which is not the submission's. */
  ghost predicate Outruns(runs: Runs, h: int, submission: int) {
    IsHead(runs, h) && runs[h].submission != submission
  }

  /** After "send to top" the next claim can miss that submission exactly when it has a rival. */
  lemma RivalsOutrunIff(b: Behavior, k: nat, s': State, id: int)
    requires IsBehavior(b) && k < |b.events| && b.events[k].Prioritize? && s' == b.states[k + 1]
    requires IsPending(b.states[k].runs, id) && b.states[k].runs[id].submission == b.events[k].submission
    ensures (exists h :: Outruns(s'.runs, h, b.events[k].submission))
       <==> exists j :: Rival(b.states[k], b.events[k].submission, j)
  {
    var s, sub := b.states[k], b.events[k].submission;
    assert StepAt(b, k);
    Reachable(b, k);
    assert s'.runs == PrioritizeRuns(s.runs, sub, s.now);
    if j :| Rival(s, sub, j) {
      RivalLeads(s, s', sub, j, id);
    }
    forall h | Outruns(s'.runs, h, sub) ensures Rival(s, sub, h) {
      assert RowOk(s.runs[h], s.now);
      assert Precedes(s'.runs[h], s'.runs[id]);
      forall i | IsPending(s.runs, i) && s.runs[i].submission == sub
        ensures s.runs[h].createdAt <= s.runs[i].createdAt
      {
        assert Precedes(s'.runs[h], s'.runs[i]);
      }
    }
  }

  lemma RivalLeads(s: State, s': State, sub: int, j: int, id: int)
    requires RowsOk(s) && s'.runs == PrioritizeRuns(s.runs, sub, s.now) && Rival(s, sub, j)
    ensures exists h :: Outruns(s'.runs, h, sub)
  {
    var others := set i | i in s'.runs && s'.runs[i].status == Pending && s'.runs[i].submission != sub;
    assert j in others;
    var h := Best(s'.runs, others);
    assert Precedes(s'.runs[h], s'.runs[j]);
    forall i | i in s'.runs && s'.runs[i].status == Pending ensures Precedes(s'.runs[h], s'.runs[i]) {
      assert RowOk(s.runs[i], s.now) && RowOk(s.runs[h], s.now);
      if s'.runs[i].submission == sub {
        assert IsPending(s.runs, i) && s.runs[i].submission == sub;
      } else {
        assert i in others;
      }
    }
    assert Outruns(s'.runs, h, sub);
  }

  /** Two submissions sent to the top in one instant: the first keeps its place before the last. */
  lemma RivalReachable(timeout: int) returns (b: Behavior, k: nat)
    ensures IsBehavior(b) && k < |b.events| && b.events[k] == Prioritize(1)
    ensures IsPending(b.states[k].runs, 10) && b.states[k].runs[10].submission == 1
    ensures Rival(b.states[k], 1, 20) && Outruns(b.states[k + 1].runs, 20, 1)
  {
    b := SentToTop(timeout);
    k := |b.events|;
    b := Then(b, Prioritize(1));
  }

  lemma SentToTop(timeout: int) returns (b: Behavior)
    ensures IsBehavior(b) && Last(b).now == 7
    ensures Last(b).runs == map[10 := Inserted(NewRun(0, 1, "seed", 0)),
                                20 := Inserted(NewRun(0, 2, "seed", 0)).(priority := 7)]
  {
    b := Then(Empty(timeout), Enqueue(map[10 := NewRun(0, 1, "seed", 0), 20 := NewRun(0, 2, "seed", 0)], true));
    b := Then(b, Tick(7));
    b := Then(b, Prioritize(2));
  }
}
