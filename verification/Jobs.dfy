/** Job records, the clock, and the job-level decisions of the queue: what one
    handler outcome or one expired lock does to the fields of a job. */
module Jobs {

  datatype Option<+T> = None | Some(value: T)

  /** Nanoseconds since the epoch, the resolution of the source's clock. */
  type Instant = int

  function Seconds(n: int): Instant { n * 1_000_000_000 }

  /** What survives formatting an instant as RFC 3339: the whole second it lies in. */
  function Stamp(t: Instant): Instant { t - t % 1_000_000_000 }

  lemma StampBounds(t: Instant)
    ensures Stamp(t) <= t < Stamp(t) + 1_000_000_000 && Stamp(t) % 1_000_000_000 == 0 && Seconds(1) == 1_000_000_000
    ensures Stamp(Stamp(t)) == Stamp(t)
  {}

  lemma StampShift(t: Instant, n: int)
    ensures Stamp(t + Seconds(n)) == Stamp(t) + Seconds(n)
  {}

  /** A truncated instant is at least any whole second the instant itself reaches. */
  lemma StampReaches(now: Instant, t: Instant, n: int)
    requires Stamp(t) + Seconds(n) <= now
    ensures Stamp(t) + Seconds(n) <= Stamp(now)
  {}

  function Max(a: int, b: int): int { if a < b then b else a }

  /** A timestamp field of a hash: empty, parseable, or text no parser accepts. */
  datatype Timestamp = Blank | At(t: Instant) | Malformed(text: string)

  datatype Status = Fresh | Pending | Processing | Completed | Failed

  datatype Exception = NoException | HandlerError | HandlerPanic | NoHandlerFound | LockExpired(timeout: int)

  /** How one handler call ends. */
  datatype Outcome = Success | Error | Panic | NoHandler

  predicate Failing(o: Outcome) { o.Error? || o.Panic? }

  predicate AllFailing(s: seq<Outcome>) { forall i | 0 <= i < |s| :: Failing(s[i]) }

  datatype Job = Job(
    id: string,
    name: string,
    inlineHandler: bool,      // Job.Handler is set; lost when the job is written to redis
    payload: seq<bv8>,
    retry: bool,
    retryInSeconds: int,
    retryCounter: int,
    reservedAt: Timestamp,
    retryAfter: Timestamp,
    dispatchAt: Timestamp,
    completedAt: Timestamp,
    failedAt: Timestamp,
    lockedAt: Timestamp,
    lockFor: int,
    queue: string,
    exception: Exception,
    status: Status
  )

  /** What reading a missing hash yields. */
  const EmptyJob: Job := Job("", "", false, [], false, 0, 0, Blank, Blank, Blank, Blank, Blank, Blank, 0, "",
                             NoException, Fresh)

  function OrEmpty(v: Option<Job>): Job { if v.Some? then v.value else EmptyJob }

  datatype Settings = Settings(maxAttempts: int, lockTimeout: int, reaperInterval: int, hasDb: bool)

  // ----- dispatch

  /** The fields Dispatch fills in, whatever the backend. */
  function Prepared(job: Job, now: Instant): Job {
    job.(reservedAt := At(Stamp(now)),
         retryAfter := if job.dispatchAt.Blank? then At(Stamp(now)) else job.dispatchAt,
         status := Pending)
  }

  /** The job DispatchIn hands to Dispatch. */
  function Delayed(job: Job, now: Instant, delay: int): Job {
    if delay > 0 then job.(dispatchAt := At(Stamp(now + delay))) else job
  }

  // ----- worker

  /** The retry gate: strictly after RetryAfter. */
  predicate Open(job: Job, now: Instant) {
    job.retryAfter.At? && now > job.retryAfter.t
  }

  /** A handler error is retried; the reaper uses the same test after counting the attempt. */
  predicate RetriesLeft(cfg: Settings, job: Job) {
    job.retry && job.retryCounter < cfg.maxAttempts
  }

  function Finished(job: Job, now: Instant): Job {
    job.(completedAt := At(Stamp(now)), status := Completed, exception := NoException)
  }

  /** The worker's requeue: the backoff uses the counter before it is bumped. */
  function Retried(job: Job, now: Instant): Job {
    var delay := if job.retryAfter.Blank? then 5 else job.retryCounter * 5;
    job.(retryAfter := At(Stamp(now + Seconds(delay))),
         retryCounter := job.retryCounter + 1,
         completedAt := At(Stamp(now)),
         status := Pending)
  }

  function ExceptionOf(o: Outcome): Exception {
    match o
    case Success => NoException
    case Error => HandlerError
    case Panic => HandlerPanic
    case NoHandler => NoHandlerFound
  }

  function Abandoned(job: Job, o: Outcome, now: Instant): Job {
    job.(failedAt := At(Stamp(now)), exception := ExceptionOf(o), status := Failed)
  }

  // ----- reaper

  function Timeout(cfg: Settings, job: Job): int {
    if job.lockFor > 0 then job.lockFor else cfg.lockTimeout
  }

  /** LockedAt, or ReservedAt for hashes written before LockedAt existed. */
  function LockTime(job: Job): Timestamp {
    if job.lockedAt.At? then job.lockedAt else if job.reservedAt.At? then job.reservedAt else Blank
  }

  predicate Expired(cfg: Settings, job: Job, now: Instant) {
    LockTime(job).At? && now - LockTime(job).t >= Seconds(Timeout(cfg, job))
  }

  /** An expired lock counts as one more attempt. */
  function Charged(cfg: Settings, job: Job): Job {
    job.(retryCounter := job.retryCounter + 1, exception := LockExpired(Timeout(cfg, job)))
  }

  function Requeued(job: Job, now: Instant): Job {
    job.(retryAfter := At(Stamp(now + Seconds(job.retryCounter * 5))), status := Pending, lockedAt := Blank)
  }

  function Condemned(job: Job, now: Instant): Job {
    job.(failedAt := At(Stamp(now)), status := Failed, lockedAt := Blank)
  }

  // ----- budgets

  /** Executions of a job whose every run ends in a handler error. */
  function Budget(cfg: Settings, job: Job): int {
    if job.retry then 1 + Max(0, cfg.maxAttempts - job.retryCounter) else 1
  }

  /** Executions of a job whose every run crashes its worker. */
  function CrashBudget(cfg: Settings, job: Job): int {
    if job.retry then Max(1, cfg.maxAttempts - job.retryCounter) else 1
  }
}
