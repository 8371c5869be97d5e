/** What every reachable state keeps. */
module Invariants {
  import opened Tables
  import opened Queue
  import opened Protocol

  /** Which columns a row may carry in each status, and in what order its times lie. */
  ghost predicate RowOk(r: Run, now: Time) {
    0 <= r.createdAt <= now && 0 <= r.priority <= now &&
    (r.claimedAt.Some? ==> r.createdAt <= r.claimedAt.value <= now) &&
    (r.finishedAt.Some? ==> r.createdAt <= r.finishedAt.value <= now) &&
    (r.claimedAt.Some? && r.finishedAt.Some? ==> r.claimedAt.value <= r.finishedAt.value) &&
    match r.status
    case Pending =>
      (r.workerId.Some? ==> r.workerId.value == "") && r.claimedAt.None? && r.finishedAt.None? && r.score.None?
    case Claimed =>
      r.workerId.Some? && r.workerId.value != "" && r.claimedAt.Some? && r.finishedAt.None? && r.score.None?
    case Running => false
    case _ => r.finishedAt.Some?
  }

  ghost predicate RowsOk(s: State) {
    0 <= s.now && forall id | id in s.runs :: RowOk(s.runs[id], s.now)
  }

  /** Worker w's heartbeat of time t is in the table, is still owed, or was lost. */
  ghost predicate Backed(s: State, w: string, t: Time) {
    w in s.failed || Owing(s, w) || (w in s.workers && t <= s.workers[w].lastSeen)
  }

  /** The last request is less than one TTL younger than the row. */
  ghost predicate ContactOk(s: State, w: string)
    requires w in s.contact
  {
    w != "" && s.contact[w] <= s.now && Backed(s, w, s.contact[w] - HEARTBEAT_TTL + 1)
  }

  /** A cached heartbeat has been written, and has throttled only requests within its TTL. */
  ghost predicate CacheOk(s: State, w: string)
    requires w in s.hbCache
  {
    w in s.contact && s.hbCache[w] <= s.contact[w] < s.hbCache[w] + HEARTBEAT_TTL && Backed(s, w, s.hbCache[w])
  }

  ghost predicate ConnOk(s: State, c: int)
    requires c in s.conns
  {
    if s.conns[c].worker == "" then s.conns[c].Serving? else s.conns[c].worker in s.contact
  }

  ghost predicate HeartbeatsOk(s: State) {
    (forall w | w in s.contact :: ContactOk(s, w)) &&
    (forall w | w in s.hbCache :: CacheOk(s, w)) &&
    (forall c | c in s.conns :: ConnOk(s, c)) &&
    forall w | w in s.workers :: w in s.contact && s.workers[w].lastSeen <= s.now
  }

  ghost predicate Inv(s: State) {
    RowsOk(s) && HeartbeatsOk(s)
  }

  lemma SettledOk(r: Run, status: Status, report: Report, now: Time)
    requires RowOk(r, now) && status.Terminal()
    ensures RowOk(Settled(r, status, report, now), now)
  {
  }

  lemma RowNextOk(s: State, e: Event, id: int)
    requires 0 <= s.now && id in s.runs && RowOk(s.runs[id], s.now) && Enabled(s, e)
    ensures RowOk(RowNext(s, e, id), s.now)
  {
    if Lands(s, e) && e.id == id {
      SettledOk(s.runs[id], ParseTerminalStatus(e.report.status).value, e.report, s.now);
    }
  }

  lemma RowStep(s: State, e: Event, s': State, id: int)
    requires RowsOk(s) && Step(s, e, s') && id in s'.runs
    ensures RowOk(s'.runs[id], s'.now)
  {
    if id in s.runs {
      RowMoves(s, e, s', id);
      assert RowOk(s.runs[id], s.now);
      RowNextOk(s, e, id);
    } else {
      RowAppears(s, e, s', id);
    }
  }

  lemma RowsStep(s: State, e: Event, s': State)
    requires RowsOk(s) && Step(s, e, s')
    ensures RowsOk(s')
  {
    forall id | id in s'.runs ensures RowOk(s'.runs[id], s'.now) {
      RowStep(s, e, s', id);
    }
  }

  /** Owed writes stay owed unless this very connection pays or the process dies. */
  lemma OwingKept(s: State, e: Event, s': State, w: string)
    requires Step(s, e, s') && Owing(s, w)
    requires !(e.Record? && s.conns[e.conn].worker == w) && !e.Restart?
    ensures Owing(s', w)
  {
    var c :| c in s.conns && s.conns[c] == Recording(w);
    assert c in s'.conns && s'.conns[c] == Recording(w);
  }

  lemma BackedKept(s: State, e: Event, s': State, w: string, t: Time)
    requires Step(s, e, s') && Backed(s, w, t) && t <= s.now
    ensures Backed(s', w, t)
  {
    if w in s.failed || (w in s.workers && t <= s.workers[w].lastSeen) {
    } else if !(e.Record? && s.conns[e.conn].worker == w) && !e.Restart? {
      OwingKept(s, e, s', w);
    }
  }

  lemma ContactStep(s: State, e: Event, s': State, w: string)
    requires Step(s, e, s') && w in s'.contact
    requires (w in s.contact ==> ContactOk(s, w)) && (w in s.hbCache ==> CacheOk(s, w))
    ensures ContactOk(s', w)
  {
    if e.Arrive? && e.worker == w {
      ContactMade(s, e, s');
    } else {
      assert w in s.contact && s'.contact[w] == s.contact[w];
      BackedKept(s, e, s', w, s.contact[w] - HEARTBEAT_TTL + 1);
    }
  }

  lemma ContactMade(s: State, e: Event, s': State)
    requires Step(s, e, s') && e.Arrive? && e.worker in s'.contact && (e.worker in s.hbCache ==> CacheOk(s, e.worker))
    requires e.worker in s.contact ==> ContactOk(s, e.worker)
    ensures ContactOk(s', e.worker)
  {
    if Due(s, e.worker) {
      assert s'.conns[e.conn] == Recording(e.worker);
    } else {
      BackedKept(s, e, s', e.worker, s.now - HEARTBEAT_TTL + 1);
    }
  }

  lemma CacheStep(s: State, e: Event, s': State, w: string)
    requires Step(s, e, s') && w in s'.hbCache
    requires (w in s.contact ==> ContactOk(s, w)) && (w in s.hbCache ==> CacheOk(s, w))
    ensures CacheOk(s', w)
  {
    if e.Arrive? && e.worker == w && Due(s, w) {
      EntryMade(s, e, s');
    } else {
      assert w in s.hbCache && s'.hbCache[w] == s.hbCache[w];
      BackedKept(s, e, s', w, s.hbCache[w]);
    }
  }

  lemma EntryMade(s: State, e: Event, s': State)
    requires Step(s, e, s') && e.Arrive? && e.worker in s'.hbCache && Due(s, e.worker)
    requires e.worker in s.hbCache ==> CacheOk(s, e.worker)
    requires e.worker in s.contact ==> ContactOk(s, e.worker)
    ensures CacheOk(s', e.worker)
  {
    assert s'.conns[e.conn] == Recording(e.worker);
  }

  lemma ContactGrows(s: State, e: Event, s': State)
    requires Step(s, e, s')
    ensures s.contact.Keys <= s'.contact.Keys
  {
  }

  lemma ConnStep(s: State, e: Event, s': State, c: int)
    requires Step(s, e, s') && c in s'.conns && (c in s.conns ==> ConnOk(s, c))
    ensures ConnOk(s', c)
  {
    if !(e.Arrive? && e.conn == c) {
      ConnKept(s, e, s', c);
      ContactGrows(s, e, s');
    }
  }

  /** A connection keeps its worker, and once past the middleware it stays there. */
  lemma ConnKept(s: State, e: Event, s': State, c: int)
    requires Step(s, e, s') && c in s'.conns && !(e.Arrive? && e.conn == c)
    ensures c in s.conns && s'.conns[c].worker == s.conns[c].worker && (s.conns[c].Serving? ==> s'.conns[c].Serving?)
  {
  }

  lemma WorkerStep(s: State, e: Event, s': State, w: string)
    requires Step(s, e, s') && w in s'.workers
    requires w in s.workers ==> w in s.contact && s.workers[w].lastSeen <= s.now
    requires e.Record? ==> ConnOk(s, e.conn)
    ensures w in s'.contact && s'.workers[w].lastSeen <= s'.now
  {
    ContactGrows(s, e, s');
  }

  lemma HeartbeatsStep(s: State, e: Event, s': State)
    requires HeartbeatsOk(s) && Step(s, e, s')
    ensures HeartbeatsOk(s')
  {
    assert forall w | w in s'.contact :: ContactOk(s', w) by {
      forall w | w in s'.contact ensures ContactOk(s', w) { ContactStep(s, e, s', w); }
    }
    assert forall w | w in s'.hbCache :: CacheOk(s', w) by {
      forall w | w in s'.hbCache ensures CacheOk(s', w) { CacheStep(s, e, s', w); }
    }
    assert forall c | c in s'.conns :: ConnOk(s', c) by {
      forall c | c in s'.conns ensures ConnOk(s', c) { ConnStep(s, e, s', c); }
    }
    assert forall w | w in s'.workers :: w in s'.contact && s'.workers[w].lastSeen <= s'.now by {
      forall w | w in s'.workers ensures w in s'.contact && s'.workers[w].lastSeen <= s'.now {
        WorkerStep(s, e, s', w);
      }
    }
  }

  lemma {:induction false} Reachable(b: Behavior, i: nat)
    requires IsBehavior(b) && i < |b.states|
    ensures Inv(b.states[i])
  {
    if i > 0 {
      Reachable(b, i - 1);
      assert StepAt(b, i - 1);
      RowsStep(b.states[i - 1], b.events[i - 1], b.states[i]);
      HeartbeatsStep(b.states[i - 1], b.events[i - 1], b.states[i]);
    }
  }
}
