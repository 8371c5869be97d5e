/** `workers.runs_handled` against the runs that succeeded. */
module Accounting {
  import opened Tables
  import opened Queue
  import opened Protocol
  import opened Invariants
  import opened Leases
  import opened Choice

  /** The sum of the counters of all worker rows. */
  ghost function Total(m: Workers): int
    decreases |m|
  {
    if m.Keys == {} then 0
    else
      var k := Pick(m.Keys);
      m[k].runsHandled + Total(m - {k})
  }

  lemma {:induction false} TotalSplit(m: Workers, k: string)
    requires k in m
    ensures Total(m) == m[k].runsHandled + Total(m - {k})
    decreases |m|
  {
    var p := Pick(m.Keys);
    if p != k {
      TotalSplit(m - {p}, k);
      TotalSplit(m - {k}, p);
      assert m - {p} - {k} == m - {k} - {p};
    }
  }

  lemma TotalPut(m: Workers, k: string, w: Worker)
    ensures Total(m[k := w]) == Total(m) + w.runsHandled - (if k in m then m[k].runsHandled else 0)
  {
    TotalSplit(m[k := w], k);
    if k in m {
      TotalSplit(m, k);
      assert m[k := w] - {k} == m - {k};
    } else {
      assert m[k := w] - {k} == m;
    }
  }

  function SucceededIds(runs: Runs): set<int> {
    set id | id in runs && runs[id].status == Succeeded
  }

  /** A success is accepted in state s. */
  predicate LandsSuccess(s: State, e: Event) {
    Lands(s, e) && e.report.status == "succeeded"
  }

  /** The name a report comes under: the request's X-Worker-Id. */
  function Reporter(s: State, e: Event): string {
    if e.Result? && e.conn in s.conns then s.conns[e.conn].worker else ""
  }

  /** How many of the first n steps accept a success that no counter sees. */
  function Uncounted(b: Behavior, n: nat): nat
    requires n <= |b.events| <= |b.states|
  {
    if n == 0 then 0
    else
      var s, e := b.states[n - 1], b.events[n - 1];
      Uncounted(b, n - 1) + (if LandsSuccess(s, e) && !LandsCounted(s, e) then 1 else 0)
  }

  lemma SucceededRow(s: State, e: Event, s': State, id: int)
    requires Step(s, e, s')
    ensures id in SucceededIds(s'.runs) <==> id in SucceededIds(s.runs) || (LandsSuccess(s, e) && e.id == id)
    ensures LandsSuccess(s, e) && e.id == id ==> id !in SucceededIds(s.runs)
  {
    if id in s.runs {
      RowMoves(s, e, s', id);
    } else if id in s'.runs {
      RowAppears(s, e, s', id);
    }
  }

  lemma SucceededStep(s: State, e: Event, s': State)
    requires Step(s, e, s')
    ensures |SucceededIds(s'.runs)| == |SucceededIds(s.runs)| + (if LandsSuccess(s, e) then 1 else 0)
  {
    var landed := if LandsSuccess(s, e) then {e.id} else {};
    assert SucceededIds(s'.runs) == SucceededIds(s.runs) + landed && landed !! SucceededIds(s.runs) by {
      forall id
        ensures id in SucceededIds(s'.runs) <==> id in SucceededIds(s.runs) || id in landed
        ensures id in landed ==> id !in SucceededIds(s.runs)
      {
        SucceededRow(s, e, s', id);
      }
    }
  }

  lemma TotalStep(s: State, e: Event, s': State)
    requires Step(s, e, s')
    ensures Total(s'.workers) == Total(s.workers) + (if LandsCounted(s, e) then 1 else 0)
  {
    if e.Record? && e.ok {
      var w := s.conns[e.conn].worker;
      TotalPut(s.workers, w, Upserted(s.workers, w, s.now)[w]);
    } else if LandsCounted(s, e) {
      var w := s.conns[e.conn].worker;
      TotalPut(s.workers, w, Bumped(s.workers, w, s.now)[w]);
    } else {
      assert s'.workers == s.workers;
    }
  }

  /** Counters plus the successes no counter saw are exactly the runs that succeeded, after any n steps. */
  lemma {:induction false} HandledRunsAddUp(b: Behavior, n: nat)
    requires IsBehavior(b) && n <= |b.events|
    ensures Total(b.states[n].workers) + Uncounted(b, n) == |SucceededIds(b.states[n].runs)|
  {
    if n == 0 {
      assert SucceededIds(b.states[0].runs) == {};
    } else {
      HandledRunsAddUp(b, n - 1);
      assert StepAt(b, n - 1);
      SucceededStep(b.states[n - 1], b.events[n - 1], b.states[n]);
      TotalStep(b.states[n - 1], b.events[n - 1], b.states[n]);
    }
  }

  /** Whose successes are counted: with the bump and the reporter's heartbeats in order, anyone with a name. */
  lemma NamedSuccessesCount(b: Behavior, i: nat)
    requires IsBehavior(b) && i < |b.events| && LandsSuccess(b.states[i], b.events[i]) && b.events[i].bumpOk
    requires Accounted(b.states[i], Reporter(b.states[i], b.events[i]))
    ensures LandsCounted(b.states[i], b.events[i]) <==> Reporter(b.states[i], b.events[i]) != ""
  {
    var s := b.states[i];
    Reachable(b, i);
    assert StepAt(b, i);
    var w := Reporter(s, b.events[i]);
    assert ConnOk(s, b.events[i].conn);
    assert w != "" ==> ContactOk(s, w);
  }
}
