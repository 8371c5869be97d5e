/**
 The server as a state machine. Each section under `writeMu` is one event, except that the
 heartbeat middleware is two: it decides under its own mutex (Arrive) and writes later (Record),
 so other requests, the sweeper and the operator run in between.
 */
module Protocol {
  import opened Tables
  import opened Queue

  /** An authenticated worker request: still owing its heartbeat write, or past the middleware. */
  datatype Conn = Recording(worker: string) | Serving(worker: string)

  datatype State = State(
    now: Time,
    timeout: int,                  // workerTimeout
    runs: Runs,
    workers: Workers,
    hbCache: map<string, Time>,
    conns: map<int, Conn>,
    contact: map<string, Time>,    // history: when each named worker last made a request
    failed: set<string>)           // history: workers whose heartbeat was lost and not made up for

  datatype Event =
    | Tick(to: Time)
    | Enqueue(batch: map<int, NewRun>, announced: bool)
    | Arrive(conn: int, worker: string)
    | Record(conn: int, ok: bool)
    | Claim(conn: int, pick: Option<int>)
    | Result(conn: int, id: int, report: Report, bumpOk: bool)
    | Leave(conn: int)
    | Sweep
    | Cancel(target: Target)
    | Retry(submission: int)
    | Prioritize(submission: int)
    | Restart

  ghost predicate Init(s: State) {
    0 <= s.now && s.runs == map[] && s.workers == map[] && s.hbCache == map[] && s.conns == map[] &&
    s.contact == map[] && s.failed == {}
  }

  predicate InService(s: State, conn: int) {
    conn in s.conns && s.conns[conn].Serving?
  }

  ghost predicate Enabled(s: State, e: Event) {
    match e
    case Tick(to) => s.now <= to
    case Enqueue(batch, _) => batch.Keys !! s.runs.Keys && forall id | id in batch :: 0 <= batch[id].at <= s.now
    case Arrive(conn, _) => conn !in s.conns
    case Record(conn, _) => conn in s.conns && s.conns[conn].Recording?
    case Claim(conn, pick) =>
      InService(s, conn) && (match pick case None => PendingIds(s.runs) == {} case Some(id) => IsHead(s.runs, id))
    case Result(conn, _, _, _) => InService(s, conn)
    case Leave(conn) => InService(s, conn)
    case _ => true
  }

  /** shouldHeartbeat's verdict. */
  predicate Due(s: State, worker: string) {
    !(worker in s.hbCache && s.now - s.hbCache[worker] < HEARTBEAT_TTL)
  }

  function Arrived(s: State, conn: int, worker: string): State {
    if worker == "" then s.(conns := s.conns[conn := Serving(worker)])
    else if Due(s, worker) then
      s.(conns := s.conns[conn := Recording(worker)], hbCache := s.hbCache[worker := s.now],
         contact := s.contact[worker := s.now])
    else
      s.(conns := s.conns[conn := Serving(worker)], contact := s.contact[worker := s.now])
  }

  function Recorded(s: State, conn: int, ok: bool): State
    requires conn in s.conns
  {
    var w := s.conns[conn].worker;
    var s1 := s.(conns := s.conns[conn := Serving(w)]);
    if ok then s1.(workers := Upserted(s.workers, w, s.now), failed := s.failed - {w})
    else s1.(failed := s.failed + {w})
  }

  /** The event grants a lease on run `id`. */
  predicate Grants(e: Event, id: int) {
    e.Claim? && e.pick == Some(id)
  }

  /** Is this result report one that takes effect? */
  predicate Lands(s: State, e: Event) {
    e.Result? && Accepts(s.runs, e.id, e.report)
  }

  /** … with a success that reaches the reporter's counter? */
  predicate LandsCounted(s: State, e: Event) {
    Lands(s, e) && e.report.status == "succeeded" && e.bumpOk && e.conn in s.conns &&
    Counts(s.workers, s.conns[e.conn].worker)
  }

  function Reported(s: State, e: Event): State
    requires e.Result? && e.conn in s.conns
  {
    var w := s.conns[e.conn].worker;
    var s1 := s.(conns := s.conns - {e.conn});
    if !Lands(s, e) then s1
    else
      var status := ParseTerminalStatus(e.report.status).value;
      var s2 := s1.(runs := s.runs[e.id := Settled(s.runs[e.id], status, e.report, s.now)]);
      if LandsCounted(s, e) then s2.(workers := Bumped(s.workers, w, s.now), failed := s.failed - {w}) else s2
  }

  /** The workers with a heartbeat write decided on but not made. */
  predicate Owing(s: State, worker: string) {
    exists c | c in s.conns :: s.conns[c] == Recording(worker)
  }

  /** The process dies: its cache and connections go, and with them the writes still owed. */
  function Restarted(s: State): State {
    s.(hbCache := map[], conns := map[],
       failed := s.failed + set c | c in s.conns && s.conns[c].Recording? :: s.conns[c].worker)
  }

  function Next(s: State, e: Event): State
    requires e.Record? || e.Claim? || e.Result? ==> e.conn in s.conns
    requires e.Claim? && e.pick.Some? ==> e.pick.value in s.runs
  {
    match e
    case Tick(to) => s.(now := to)
    case Enqueue(batch, _) => s.(runs := InsertRuns(s.runs, batch))
    case Arrive(conn, worker) => Arrived(s, conn, worker)
    case Record(conn, ok) => Recorded(s, conn, ok)
    case Claim(conn, pick) =>
      var s1 := s.(conns := s.conns - {conn});
      (match pick
       case None => s1
       case Some(id) => s1.(runs := s.runs[id := Leased(s.runs[id], Claimant(s.conns[conn].worker), s.now)]))
    case Result(_, _, _, _) => Reported(s, e)
    case Leave(conn) => s.(conns := s.conns - {conn})
    case Sweep => s.(runs := Swept(s.runs, s.workers, s.now - s.timeout))
    case Cancel(target) => s.(runs := CancelRuns(s.runs, target, s.now))
    case Retry(submission) => s.(runs := RetryRuns(s.runs, submission))
    case Prioritize(submission) => s.(runs := PrioritizeRuns(s.runs, submission, s.now))
    case Restart => Restarted(s)
  }

  ghost predicate Step(s: State, e: Event, s': State) {
    Enabled(s, e) && s' == Next(s, e)
  }

  // ------------------------------------------------------- one row at a time

  /** What event e makes of run id. */
  function RowNext(s: State, e: Event, id: int): Run
    requires id in s.runs
    requires e.Claim? || e.Result? ==> e.conn in s.conns
  {
    var r := s.runs[id];
    match e
    case Claim(conn, pick) => if Grants(e, id) then Leased(r, Claimant(s.conns[conn].worker), s.now) else r
    case Result(_, i, report, _) =>
      if i == id && Lands(s, e) then Settled(r, ParseTerminalStatus(report.status).value, report, s.now) else r
    case Sweep => if SweepSelects(r, Fresh(s.workers, s.now - s.timeout)) then Requeued(r) else r
    case Cancel(target) => CancelledRow(target, id, r, s.now)
    case Retry(submission) => RetriedRow(submission, r)
    case Prioritize(submission) => PrioritizedRow(submission, r, s.now)
    case _ => r
  }

  /** Rows are never deleted, and each moves as RowNext says. */
  lemma RowMoves(s: State, e: Event, s': State, id: int)
    requires Step(s, e, s') && id in s.runs
    ensures id in s'.runs && s'.runs[id] == RowNext(s, e, id)
  {
    match e
    case Enqueue(batch, _) =>
    case Result(_, _, _, _) =>
    case _ =>
  }

  lemma RowAppears(s: State, e: Event, s': State, id: int)
    requires Step(s, e, s') && id !in s.runs && id in s'.runs
    ensures e.Enqueue? && id in e.batch && s'.runs[id] == Inserted(e.batch[id])
  {
    match e
    case Result(_, _, _, _) =>
    case _ =>
  }

  // ---------------------------------------------------------------- behaviours

  /** A run of the server: |events| events between |events| + 1 states. */
  datatype Behavior = Behavior(states: seq<State>, events: seq<Event>)

  ghost predicate StepAt(b: Behavior, i: int)
    requires 0 <= i < |b.events| < |b.states|
  {
    Step(b.states[i], b.events[i], b.states[i + 1])
  }

  ghost predicate IsBehavior(b: Behavior) {
    |b.states| == |b.events| + 1 && Init(b.states[0]) && forall i | 0 <= i < |b.events| :: StepAt(b, i)
  }

  function Last(b: Behavior): State
    requires |b.states| > 0
  {
    b.states[|b.states| - 1]
  }

  /** One more event at the end of a behaviour. */
  ghost function Then(b: Behavior, e: Event): (b': Behavior)
    requires IsBehavior(b) && Enabled(Last(b), e)
    ensures IsBehavior(b') && Last(b') == Next(Last(b), e)
    ensures |b'.events| == |b.events| + 1 && b'.events[|b.events|] == e && b'.states[|b.events|] == Last(b)
    ensures b.states <= b'.states && b.events <= b'.events
  {
    var b' := Behavior(b.states + [Next(Last(b), e)], b.events + [e]);
    assert forall i | 0 <= i < |b'.events| :: StepAt(b', i) by {
      forall i | 0 <= i < |b'.events| ensures StepAt(b', i) {
        if i < |b.events| {
          assert StepAt(b, i);
        }
      }
    }
    b'
  }
}
