/** When a worker keeps the run it claimed, and how a run changes hands. */
module Leases {
  import opened Tables
  import opened Queue
  import opened Protocol
  import opened Invariants

  // ------------------------------------------------------ live leases survive

  /** No heartbeat of w is on its way to the table or lost. */
  ghost predicate Accounted(s: State, w: string) {
    w !in s.failed && !Owing(s, w)
  }

  ghost predicate Holds(s: State, w: string, id: int) {
    id in s.runs && s.runs[id].status == Claimed && s.runs[id].workerId == Some(w)
  }

  /** At step i a sweep takes run id from worker w, whose last request was `gap` ago. */
  ghost predicate Stolen(b: Behavior, i: nat, w: string, id: int, gap: int) {
    IsBehavior(b) && i < |b.events| && b.events[i].Sweep? && Holds(b.states[i], w, id) &&
    w in b.states[i].contact && b.states[i].now - b.states[i].contact[w] == gap &&
    IsPending(b.states[i + 1].runs, id)
  }

  /**
   A sweep leaves alone every run of a worker that made a request within workerTimeout − heartbeatTTL,
   in every interleaving, as long as that worker's heartbeats are accounted for.
   */
  lemma LiveLeasesSurvive(b: Behavior, i: nat, w: string, id: int)
    requires IsBehavior(b) && i < |b.events| && b.events[i].Sweep? && Holds(b.states[i], w, id)
    requires var s := b.states[i];
      w in s.contact && Accounted(s, w) && s.now - s.contact[w] <= s.timeout - HEARTBEAT_TTL
    ensures id in b.states[i + 1].runs && b.states[i + 1].runs[id] == b.states[i].runs[id]
  {
    var s := b.states[i];
    Reachable(b, i);
    assert ContactOk(s, w);
    assert w in Fresh(s.workers, s.now - s.timeout);
    assert StepAt(b, i);
    RowMoves(s, b.events[i], b.states[i + 1], id);
  }

  ghost function Empty(timeout: int): Behavior
    ensures IsBehavior(Empty(timeout)) && Last(Empty(timeout)).timeout == timeout
  {
    Behavior([State(0, timeout, map[], map[], map[], map[], map[], {})], [])
  }

  lemma Arrivals(timeout: int) returns (b: Behavior)
    ensures IsBehavior(b) && Last(b).now == 0 && Last(b).timeout == timeout
    ensures Last(b).runs == map[1 := Inserted(NewRun(0, 0, "seed", 0))] && Last(b).workers == map[]
    ensures Last(b).contact == map["w" := 0] && Last(b).hbCache == map["w" := 0] && Last(b).failed == {}
    ensures Last(b).conns == map[0 := Recording("w")]
  {
    b := Then(Empty(timeout), Enqueue(map[1 := NewRun(0, 0, "seed", 0)], true));
    b := Then(b, Arrive(0, "w"));
  }

  /** The heartbeat written at time 0 is still the one in the table when the next request is throttled. */
  lemma ThrottledLease(timeout: int) returns (b: Behavior)
    ensures IsBehavior(b) && Last(b).timeout == timeout && Last(b).now == HEARTBEAT_TTL - 1
    ensures Holds(Last(b), "w", 1) && Last(b).workers == map["w" := Worker(0, 0, 0)]
    ensures Last(b).contact == map["w" := HEARTBEAT_TTL - 1] && Last(b).conns == map[] && Last(b).failed == {}
  {
    b := Arrivals(timeout);
    b := Then(b, Record(0, true));
    b := Then(b, Claim(0, Some(1)));
    b := Then(b, Tick(HEARTBEAT_TTL - 1));
    b := Then(b, Arrive(1, "w"));
    b := Then(b, Leave(1));
  }

  /** … past which the silence a worker can afford does not stretch by a nanosecond. */
  lemma SilenceCosts(timeout: int, gap: int) returns (b: Behavior, i: nat)
    requires 0 <= gap && gap > timeout - HEARTBEAT_TTL
    ensures Stolen(b, i, "w", 1, gap) && b.states[i].timeout == timeout && Accounted(b.states[i], "w")
  {
    b := ThrottledLease(timeout);
    b := Then(b, Tick(HEARTBEAT_TTL - 1 + gap));
    i := |b.events|;
    assert "w" !in Fresh(Last(b).workers, Last(b).now - timeout);
    b := Then(b, Sweep);
  }

  /** The exact price of the throttle: how long a silence can cost an accounted-for worker its lease. */
  lemma LeaseLossIff(timeout: int, gap: int)
    requires 0 <= gap
    ensures (exists b, i: nat, w, id ::
               Stolen(b, i, w, id, gap) && b.states[i].timeout == timeout && Accounted(b.states[i], w))
       <==> gap > timeout - 5_000_000_000
  {
    if gap > timeout - HEARTBEAT_TTL {
      var b, i := SilenceCosts(timeout, gap);
    } else {
      forall b, i: nat, w, id |
        Stolen(b, i, w, id, gap) && b.states[i].timeout == timeout && Accounted(b.states[i], w)
        ensures false
      {
        LiveLeasesSurvive(b, i, w, id);
      }
    }
  }

  /**
   Without Accounted there is no bound at all: while the first heartbeat is still owed (lost = false),
   or once it is lost, a worker can lose its run in the instant of its request.
   */
  lemma UnaccountedIsUnprotected(timeout: nat, lost: bool) returns (b: Behavior, i: nat)
    ensures Stolen(b, i, "w", 1, 0) && b.states[i].timeout == timeout
    ensures if lost then "w" in b.states[i].failed else Owing(b.states[i], "w") && b.states[i].failed == {}
  {
    b := Arrivals(timeout);
    if lost {
      b := Then(b, Record(0, false));
      b := Then(b, Claim(0, Some(1)));
    } else {
      b := Then(b, Arrive(1, "w"));
      b := Then(b, Claim(1, Some(1)));
      assert Last(b).conns[0] == Recording("w");
    }
    i := |b.events|;
    b := Then(b, Sweep);
  }
}
