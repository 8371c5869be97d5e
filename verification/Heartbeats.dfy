/** Which calls write a worker's row, and what the sweeper makes of the calls there have been. */
module Heartbeats {
  import opened Tables
  import opened Queue
  import opened Protocol
  import opened Invariants
  import opened Leases
  import opened History

  lemma ClockStep(b: Behavior, k: nat)
    requires IsBehavior(b) && k < |b.events|
    ensures b.states[k].now <= b.states[k + 1].now && b.states[k + 1].timeout == b.states[k].timeout
  {
    assert StepAt(b, k);
  }

  // ---------------------------------------------------------- when a call upserts

  /** The call of step k is one of w's that goes on to write w's row. */
  ghost predicate Books(b: Behavior, k: nat, w: string)
    requires IsBehavior(b) && k < |b.events|
  {
    b.events[k].Arrive? && b.events[k].worker == w && b.events[k].conn in b.states[k + 1].conns &&
    b.states[k + 1].conns[b.events[k].conn] == Recording(w)
  }

  /** w booked a write after time t, in the life of the process that state i belongs to. */
  ghost predicate BookedSince(b: Behavior, i: nat, w: string, t: Time)
    requires IsBehavior(b) && i < |b.states|
  {
    exists k: nat | k < i :: Books(b, k, w) && t < b.states[k].now && forall m | k < m < i :: !b.events[m].Restart?
  }

  ghost predicate CachedSince(s: State, w: string, t: Time) {
    w in s.hbCache && t < s.hbCache[w]
  }

  lemma CacheEntryStep(b: Behavior, k: nat, w: string, t: Time)
    requires IsBehavior(b) && k < |b.events|
    ensures CachedSince(b.states[k + 1], w, t) <==>
      !b.events[k].Restart? && if Books(b, k, w) then t < b.states[k].now else CachedSince(b.states[k], w, t)
  {
    assert StepAt(b, k);
  }

  lemma BookedStep(b: Behavior, k: nat, w: string, t: Time)
    requires IsBehavior(b) && k < |b.events|
    ensures BookedSince(b, k + 1, w, t) <==>
      (Books(b, k, w) && t < b.states[k].now) || (!b.events[k].Restart? && BookedSince(b, k, w, t))
  {
    if !b.events[k].Restart? && BookedSince(b, k, w, t) {
      var m: nat :| m < k && Books(b, m, w) && t < b.states[m].now && forall n | m < n < k :: !b.events[n].Restart?;
      assert forall n | m < n < k + 1 :: !b.events[n].Restart?;
    }
  }

  lemma {:induction false} NoneBookedLater(b: Behavior, i: nat, w: string, t: Time)
    requires IsBehavior(b) && i < |b.states| && b.states[i].now <= t
    ensures !BookedSince(b, i, w, t)
  {
    if i > 0 {
      ClockStep(b, i - 1);
      NoneBookedLater(b, i - 1, w, t);
      BookedStep(b, i - 1, w, t);
    }
  }

  lemma {:induction false} CacheIsHistory(b: Behavior, i: nat, w: string, t: Time)
    requires IsBehavior(b) && i < |b.states|
    ensures CachedSince(b.states[i], w, t) <==> BookedSince(b, i, w, t)
  {
    if i > 0 {
      CacheIsHistory(b, i - 1, w, t);
      CacheEntryStep(b, i - 1, w, t);
      BookedStep(b, i - 1, w, t);
      if b.states[i - 1].now <= t {
        NoneBookedLater(b, i - 1, w, t);
      }
    }
  }

  /** A call upserts the worker's row exactly when it names a worker that has booked no write within the TTL. */
  lemma CallUpsertsIff(b: Behavior, i: nat, w: string)
    requires IsBehavior(b) && i < |b.events| && b.events[i].Arrive? && b.events[i].worker == w
    ensures Books(b, i, w) <==> w != "" && !BookedSince(b, i, w, b.states[i].now - HEARTBEAT_TTL)
  {
    CacheIsHistory(b, i, w, b.states[i].now - HEARTBEAT_TTL);
    assert StepAt(b, i);
  }

  // ----------------------------------------------------- what the sweeper goes by

  /** Step k writes w's last_seen: a heartbeat that the database takes, or a counted success. */
  ghost predicate Touches(b: Behavior, k: nat, w: string)
    requires IsBehavior(b) && k < |b.events|
  {
    var s, e := b.states[k], b.events[k];
    (e.Record? && e.ok && e.conn in s.conns && s.conns[e.conn].worker == w) ||
    (LandsCounted(s, e) && s.conns[e.conn].worker == w)
  }

  ghost predicate TouchedSince(b: Behavior, i: nat, w: string, t: Time)
    requires IsBehavior(b) && i < |b.states|
  {
    exists k: nat | k < i :: Touches(b, k, w) && t < b.states[k].now
  }

  predicate SeenSince(s: State, w: string, t: Time) {
    w in s.workers && t < s.workers[w].lastSeen
  }

  lemma SeenStep(b: Behavior, k: nat, w: string, t: Time)
    requires IsBehavior(b) && k < |b.events|
    ensures SeenSince(b.states[k + 1], w, t) <==>
      if Touches(b, k, w) then t < b.states[k].now else SeenSince(b.states[k], w, t)
  {
    assert StepAt(b, k);
  }

  lemma {:induction false} NoneTouchedLater(b: Behavior, i: nat, w: string, t: Time)
    requires IsBehavior(b) && i < |b.states| && b.states[i].now <= t
    ensures !TouchedSince(b, i, w, t)
  {
    if i > 0 {
      ClockStep(b, i - 1);
      NoneTouchedLater(b, i - 1, w, t);
    }
  }

  lemma {:induction false} SeenIsHistory(b: Behavior, i: nat, w: string, t: Time)
    requires IsBehavior(b) && i < |b.states|
    ensures SeenSince(b.states[i], w, t) <==> TouchedSince(b, i, w, t)
  {
    if i > 0 {
      SeenIsHistory(b, i - 1, w, t);
      SeenStep(b, i - 1, w, t);
      if b.states[i - 1].now <= t {
        NoneTouchedLater(b, i - 1, w, t);
      }
    }
  }

  /** A sweep takes a held run exactly when its holder's row has not been written within workerTimeout. */
  lemma SweptIffUntouched(b: Behavior, i: nat, w: string, id: int)
    requires IsBehavior(b) && i < |b.events| && b.events[i].Sweep? && Holds(b.states[i], w, id)
    ensures IsPending(b.states[i + 1].runs, id) <==>
            !TouchedSince(b, i, w, b.states[i].now - b.states[i].timeout)
  {
    SweepIsExact(b, i);
    SeenIsHistory(b, i, w, b.states[i].now - b.states[i].timeout);
  }

  // ------------------------------------------------------------ nameless workers

  lemma {:induction false} TouchNeedsName(b: Behavior, i: nat, w: string)
    requires IsBehavior(b) && i < |b.states| && w !in b.states[i].contact
    ensures forall k: nat | k < i :: !Touches(b, k, w)
  {
    if i > 0 {
      var s, e := b.states[i - 1], b.events[i - 1];
      assert StepAt(b, i - 1);
      Reachable(b, i - 1);
      ContactGrows(s, e, b.states[i]);
      TouchNeedsName(b, i - 1, w);
      assert forall c | c in s.conns :: ConnOk(s, c);
    }
  }

  /**
   A lease taken without a name is held by "unknown": a sweep takes it exactly when no worker that goes
   by that very name has been written within workerTimeout, and always when there never was one.
   */
  lemma AnonymousLeaseFalls(b: Behavior, i: nat, id: int)
    requires IsBehavior(b) && i < |b.events| && b.events[i].Sweep? && Holds(b.states[i], Claimant(""), id)
    ensures IsPending(b.states[i + 1].runs, id) <==>
            !TouchedSince(b, i, "unknown", b.states[i].now - b.states[i].timeout)
    ensures "unknown" !in b.states[i].contact ==> IsPending(b.states[i + 1].runs, id)
  {
    SweptIffUntouched(b, i, "unknown", id);
    if "unknown" !in b.states[i].contact {
      TouchNeedsName(b, i, "unknown");
    }
  }

  /** Both happen: alone the nameless worker loses its run in the instant of its claim, whatever the timeout. */
  lemma AnonymousLeases(timeout: int, namesake: bool) returns (b: Behavior, i: nat)
    requires namesake ==> 0 < timeout
    ensures IsBehavior(b) && i < |b.events| && b.events[i].Sweep? && Holds(b.states[i], Claimant(""), 1)
    ensures b.states[i].timeout == timeout && b.states[i].now == 0
    ensures IsPending(b.states[i + 1].runs, 1) <==> !namesake
  {
    b := AnonymousLease(timeout);
    if namesake {
      b := Then(b, Arrive(1, "unknown"));
      b := Then(b, Record(1, true));
      assert "unknown" in Fresh(Last(b).workers, 0 - timeout);
    }
    i := |b.events|;
    b := Then(b, Sweep);
  }

  lemma AnonymousLease(timeout: int) returns (b: Behavior)
    ensures IsBehavior(b) && Last(b).timeout == timeout && Last(b).now == 0
    ensures Holds(Last(b), "unknown", 1)
    ensures Last(b).workers == map[] && Last(b).conns == map[] && Last(b).hbCache == map[]
  {
    b := Then(Empty(timeout), Enqueue(map[1 := NewRun(0, 0, "seed", 0)], true));
    b := Then(b, Arrive(0, ""));
    b := Then(b, Claim(0, Some(1)));
  }
}
