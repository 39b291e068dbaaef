/** The redis protocol as seen by one job: its four possible keys, the private
    copies live workers hold, and the steps that move it. A run is any sequence
    of events; an event that cannot happen leaves the cell as it is. */
module Protocol {
  import opened Jobs

  datatype KeyState = PendingKey | LockedKey | CompletedKey | FailedKey

  /** The hashes stored for one job, by keyspace. */
  datatype Hashes = Hashes(pending: Option<Job>, locked: Option<Job>, completed: Option<Job>, failed: Option<Job>)

  const Absent: Hashes := Hashes(None, None, None, None)

  type Worker = nat

  /** A worker's private copy of a claimed job and the instant of its claim. */
  datatype Lease = Lease(job: Job, since: Instant)

  /** One execution: when it began, and the counter, handler name and payload it began with. */
  datatype Start = Start(at: Instant, counter: int, name: string, payload: seq<bv8>)

  /** How an execution ended: its worker settled the job, or crashed. */
  datatype Ending = Returned | Died

  datatype Cell = Cell(
    now: Instant,
    h: Hashes,
    live: map<Worker, Lease>,
    origin: Option<Job>,      // the job as dispatched
    starts: seq<Start>,       // every execution begun
    outcomes: seq<Outcome>,   // every execution a worker settled
    crashes: nat,
    endings: seq<Ending>,     // how executions ended, in the order they did
    rows: nat,                // failed_jobs rows
    lastReap: Instant
  )

  function Init(t: Instant): Cell { Cell(t, Absent, map[], None, [], [], 0, [], 0, t) }

  datatype Event =
    | Advance(d: nat)
    | Dispatch(job: Job)
    | Claim(w: Worker)
    | Settle(w: Worker, outcome: Outcome)
    | Crash(w: Worker)
    | Reap

  // ----- what each step does to the hashes

  function Stamped(job: Job, now: Instant): Job { job.(lockedAt := At(Stamp(now))) }

  function Begin(job: Job, now: Instant): Start { Start(now, job.retryCounter, job.name, job.payload) }

  /** RENAME pending to locked, stamp the lock, read it back, and either run the
      job, put it back behind its gate, or give up on an unparseable gate. */
  function ClaimHashes(h: Hashes, now: Instant): Hashes
    requires h.pending.Some?
  {
    var job := Stamped(h.pending.value, now);
    if Open(job, now) then h.(pending := None, locked := Some(job.(status := Processing)))
    else if job.retryAfter.At? then h.(pending := Some(job), locked := None)
    else h.(pending := None, locked := Some(job))
  }

  /** The job a settling worker works on: without a handler it never retries. */
  function Judged(job: Job, o: Outcome): Job { if o.NoHandler? then job.(retry := false) else job }

  function SettleHashes(cfg: Settings, h: Hashes, copy: Job, o: Outcome, now: Instant): Hashes {
    var job := Judged(copy, o);
    if o.Success? then h.(locked := None, completed := Some(Finished(job, now)))
    else if RetriesLeft(cfg, job) then h.(pending := Some(Retried(job, now)))
    else h.(locked := None, failed := Some(Abandoned(job, o, now)))
  }

  /** What the reaper makes of one locked key. */
  datatype Verdict = Untouched | Duplicate | BackToPending | GivenUp

  function ReapVerdict(cfg: Settings, h: Hashes, now: Instant): Verdict {
    if h.locked.None? || !Expired(cfg, h.locked.value, now) then Untouched
    else if h.pending.Some? then Duplicate
    else if RetriesLeft(cfg, Charged(cfg, h.locked.value)) then BackToPending
    else GivenUp
  }

  function ReapHashes(cfg: Settings, h: Hashes, now: Instant): Hashes {
    match ReapVerdict(cfg, h, now)
    case Untouched => h
    case Duplicate => h.(locked := None)
    case BackToPending => h.(locked := None, pending := Some(Requeued(Charged(cfg, h.locked.value), now)))
    case GivenUp => h.(locked := None, failed := Some(Condemned(Charged(cfg, h.locked.value), now)))
  }

  // ----- the machine

  function Row(cfg: Settings): nat { if cfg.hasDb then 1 else 0 }

  function Next(cfg: Settings, c: Cell, e: Event): Cell {
    match e
    case Advance(d) => c.(now := c.now + d)
    case Dispatch(job) =>
      if c.origin.Some? then c else
      var p := Prepared(job, c.now);
      c.(h := c.h.(pending := Some(p)), origin := Some(p))
    case Claim(w) =>
      if c.h.pending.None? || w in c.live then c else
      var job := Stamped(c.h.pending.value, c.now);
      var c' := c.(h := ClaimHashes(c.h, c.now));
      if Open(job, c.now)
      then c'.(live := c.live[w := Lease(job, c.now)], starts := c.starts + [Begin(job, c.now)])
      else c'
    case Settle(w, o) =>
      if w !in c.live then c else
      var copy := c.live[w].job;
      c.(h := SettleHashes(cfg, c.h, copy, o, c.now),
         live := c.live - {w},
         outcomes := c.outcomes + [o],
         endings := c.endings + [Returned],
         rows := c.rows + if !o.Success? && !RetriesLeft(cfg, Judged(copy, o)) then Row(cfg) else 0)
    case Crash(w) =>
      if w !in c.live then c else c.(live := c.live - {w}, crashes := c.crashes + 1, endings := c.endings + [Died])
    case Reap =>
      c.(h := ReapHashes(cfg, c.h, c.now),
         rows := c.rows + if ReapVerdict(cfg, c.h, c.now).GivenUp? then Row(cfg) else 0,
         lastReap := c.now)
  }

  function Run(cfg: Settings, c: Cell, es: seq<Event>): Cell
    decreases |es|
  {
    if es == [] then c else Run(cfg, Next(cfg, c, es[0]), es[1..])
  }

  lemma {:induction false} RunConcat(cfg: Settings, c: Cell, a: seq<Event>, b: seq<Event>)
    ensures Run(cfg, c, a + b) == Run(cfg, Run(cfg, c, a), b)
    decreases |a|
  {
    if a == [] {
      assert a + b == b;
    } else {
      assert (a + b)[1..] == a[1..] + b;
      RunConcat(cfg, Next(cfg, c, a[0]), a[1..], b);
    }
  }

  lemma {:induction false} OriginStays(cfg: Settings, c: Cell, es: seq<Event>)
    requires c.origin.Some?
    ensures Run(cfg, c, es).origin == c.origin
    decreases |es|
  {
    if es != [] { OriginStays(cfg, Next(cfg, c, es[0]), es[1..]); }
  }

  // ----- assumptions on runs

  /** Every live worker is still within one second less than the time a lock of the job
      lasts: the LockFor it was dispatched with, or the configured LockTimeout if that is
      not positive. */
  predicate WithinLease(cfg: Settings, c: Cell) {
    c.origin.Some? ==>
      var n := if c.origin.value.lockFor > 0 then c.origin.value.lockFor else cfg.lockTimeout;
      forall w | w in c.live :: c.now - c.live[w].since <= Seconds(n - 1)
  }

  /** No worker overruns its lease anywhere in the run. */
  predicate Punctual(cfg: Settings, c: Cell, es: seq<Event>)
    decreases |es|
  {
    WithinLease(cfg, c) && (es == [] || Punctual(cfg, Next(cfg, c, es[0]), es[1..]))
  }

  /** The reaper visits the job at least once every ReaperInterval. */
  predicate Prompt(cfg: Settings, c: Cell, es: seq<Event>)
    decreases |es|
  {
    && c.now - c.lastReap <= Seconds(cfg.reaperInterval)
    && (es == [] || Prompt(cfg, Next(cfg, c, es[0]), es[1..]))
  }
}
