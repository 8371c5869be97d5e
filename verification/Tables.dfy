/** The rows the queue lives in: `runs` and `workers`, as the ent schema declares them. */
module Tables {

  datatype Option<+T> = None | Some(value: T)

  /** Nanoseconds on the server's clock. */
  type Time = int

  datatype Status = Pending | Claimed | Running | Succeeded | Failed | TimedOut | Cancelled {

    /** The states an operator's cancel still reaches. */
    predicate InFlight() {
      Pending? || Claimed? || Running?
    }

    /** The states an operator's retry re-enqueues. */
    predicate Retryable() {
      Failed? || TimedOut? || Cancelled?
    }

    predicate Terminal() {
      Succeeded? || Retryable()
    }
  }

  /** A row of `runs`; None is SQL NULL. */
  datatype Run = Run(
    suite: int,
    submission: int,
    seed: string,
    createdAt: Time,
    status: Status,
    priority: int,
    workerId: Option<string>,
    claimedAt: Option<Time>,
    startedAt: Option<Time>,
    finishedAt: Option<Time>,
    score: Option<real>,
    result: Option<string>,
    error: Option<string>,
    stdout: Option<string>,
    stderr: Option<string>)

  type Runs = map<int, Run>

  /** A row of `workers`; its unique name is the key. */
  datatype Worker = Worker(lastSeen: Time, runsHandled: int, createdAt: Time)

  type Workers = map<string, Worker>

  /** What an insert supplies; every other column takes its schema default. */
  datatype NewRun = NewRun(suite: int, submission: int, seed: string, at: Time)

  function Inserted(n: NewRun): Run {
    Run(n.suite, n.submission, n.seed, n.at, Pending, 0,
        None, None, None, None, None, None, None, None, None)
  }

  /** The body of POST /internal/runs/{id}/result; None is an absent JSON field. */
  datatype Report = Report(
    status: string,
    score: Option<real>,
    result: Option<string>,
    error: string,
    startedAt: Option<Time>,
    stdout: string,
    stderr: string)
}
