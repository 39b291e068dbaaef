/** What the records of a job say, in every run, overruns and crashes included: each
    carries the job that was dispatched, and each worker and reaper step writes exactly
    the fields spelled out here. */
module Records {
  import opened Jobs
  import opened Protocol
  import opened Termination

  /** The fields no step may change once the job is dispatched, Retry apart. */
  predicate Carries(job: Job, o: Job) {
    && job.id == o.id && job.name == o.name && job.payload == o.payload && job.queue == o.queue
    && job.inlineHandler == o.inlineHandler && job.retryInSeconds == o.retryInSeconds
    && job.lockFor == o.lockFor && job.dispatchAt == o.dispatchAt && job.reservedAt == o.reservedAt
  }

  predicate WaitingFor(job: Job, o: Job) { Carries(job, o) && job.retry == o.retry && job.status == Pending }

  predicate LockedFor(job: Job, o: Job) {
    Carries(job, o) && job.retry == o.retry && (job.status == Processing || job.status == Pending)
  }

  predicate CompletedFor(job: Job, o: Job) {
    && Carries(job, o) && job.retry == o.retry
    && job.status == Completed && job.completedAt.At? && job.exception == NoException
  }

  /** Only a missing handler clears Retry. */
  predicate FailedFor(job: Job, o: Job) {
    && Carries(job, o) && job.retry == (o.retry && job.exception != NoHandlerFound)
    && job.status == Failed && job.failedAt.At? && job.exception != NoException
  }

  predicate HashesKept(h: Hashes, o: Job) {
    && (h.pending.Some? ==> WaitingFor(h.pending.value, o))
    && (h.locked.Some? ==> LockedFor(h.locked.value, o))
    && (h.completed.Some? ==> CompletedFor(h.completed.value, o))
    && (h.failed.Some? ==> FailedFor(h.failed.value, o))
  }

  /** Every hash and live copy carries `o`, every hash the status of its keyspace, and
      every execution was given the name and payload of `o`. */
  predicate Kept(c: Cell, o: Job) {
    && HashesKept(c.h, o)
    && (forall w | w in c.live :: WaitingFor(c.live[w].job, o))
    && (forall i | 0 <= i < |c.starts| :: c.starts[i].name == o.name && c.starts[i].payload == o.payload)
  }

  lemma ClaimKeeps(h: Hashes, now: Instant, o: Job)
    requires HashesKept(h, o) && h.pending.Some?
    ensures HashesKept(ClaimHashes(h, now), o) && WaitingFor(Stamped(h.pending.value, now), o)
  {}

  lemma SettleKeeps(cfg: Settings, h: Hashes, copy: Job, out: Outcome, now: Instant, o: Job)
    requires HashesKept(h, o) && WaitingFor(copy, o)
    ensures HashesKept(SettleHashes(cfg, h, copy, out, now), o)
  {
    var job := Judged(copy, out);
    assert Carries(job, o);
    if out.Success? {
      assert CompletedFor(Finished(job, now), o);
    } else if RetriesLeft(cfg, job) {
      assert WaitingFor(Retried(job, now), o);
    } else {
      assert FailedFor(Abandoned(job, out, now), o);
    }
  }

  lemma ReapKeeps(cfg: Settings, h: Hashes, now: Instant, o: Job)
    requires HashesKept(h, o)
    ensures HashesKept(ReapHashes(cfg, h, now), o)
  {}

  lemma KeptStep(cfg: Settings, c: Cell, e: Event, o: Job)
    requires Kept(c, o) && c.origin.Some?
    ensures Kept(Next(cfg, c, e), o)
  {
    match e
    case Claim(w) => if c.h.pending.Some? { ClaimKeeps(c.h, c.now, o); }
    case Settle(w, out) => if w in c.live { SettleKeeps(cfg, c.h, c.live[w].job, out, c.now, o); }
    case Reap => ReapKeeps(cfg, c.h, c.now, o);
    case _ =>
  }

  lemma {:induction false} KeptRun(cfg: Settings, c: Cell, es: seq<Event>, o: Job)
    requires Kept(c, o) && c.origin.Some?
    ensures Kept(Run(cfg, c, es), o) && Run(cfg, c, es).origin == c.origin
    decreases |es|
  {
    if es != [] {
      KeptStep(cfg, c, es[0], o);
      KeptRun(cfg, Next(cfg, c, es[0]), es[1..], o);
    }
  }

  /** Before its dispatch a job has no key, copy or execution. */
  lemma {:induction false} UndispatchedRun(cfg: Settings, c: Cell, es: seq<Event>)
    requires Undispatched(c) && Run(cfg, c, es).origin.None?
    ensures Undispatched(Run(cfg, c, es))
    decreases |es|
  {
    if es != [] {
      var c1 := Next(cfg, c, es[0]);
      if c1.origin.Some? { OriginStays(cfg, c1, es[1..]); }
      UndispatchedRun(cfg, c1, es[1..]);
    }
  }

  /** The stored form of a job dispatched at `now`. */
  lemma DispatchWrites(cfg: Settings, c: Cell, job: Job)
    requires Undispatched(c)
    ensures var c' := Next(cfg, c, Dispatch(job));
            var o := job.(reservedAt := At(Stamp(c.now)), status := Pending,
                          retryAfter := if job.dispatchAt.Blank? then At(Stamp(c.now)) else job.dispatchAt);
            c'.h == Absent.(pending := Some(o)) && c'.origin == Some(o) && Kept(c', o)
  {}

  /** In every run, overruns included, each hash and each live copy of a job carries what
      was requested, its status is that of its keyspace, and every execution is given the
      requested name and payload. */
  lemma RecordsKeepTheJob(cfg: Settings, t: Instant, before: seq<Event>, job: Job, rest: seq<Event>)
    requires Run(cfg, Init(t), before).origin.None?
    ensures var now := Run(cfg, Init(t), before).now;
            Kept(Run(cfg, Init(t), before + [Dispatch(job)] + rest), job.(reservedAt := At(Stamp(now))))
  {
    var c, e := Run(cfg, Init(t), before), Dispatch(job);
    UndispatchedRun(cfg, Init(t), before);
    DispatchWrites(cfg, c, job);
    KeptRun(cfg, Next(cfg, c, e), rest, job.(reservedAt := At(Stamp(c.now))));
    assert before + [e] + rest == before + ([e] + rest) && ([e] + rest)[1..] == rest;
    RunConcat(cfg, Init(t), before, [e] + rest);
  }

  /** The same, measured against the job as stored at its dispatch. */
  lemma {:induction false} KeepsOrigin(cfg: Settings, c: Cell, es: seq<Event>)
    requires if c.origin.Some? then Kept(c, c.origin.value) else Undispatched(c)
    ensures var c' := Run(cfg, c, es); c'.origin.Some? ==> Kept(c', c'.origin.value)
    decreases |es|
  {
    if es != [] {
      if c.origin.Some? {
        KeptStep(cfg, c, es[0], c.origin.value);
      } else if es[0].Dispatch? {
        DispatchWrites(cfg, c, es[0].job);
      }
      KeepsOrigin(cfg, Next(cfg, c, es[0]), es[1..]);
    }
  }

  // ----- what each step writes

  predicate CopiesParsed(c: Cell) { forall w | w in c.live :: c.live[w].job.retryAfter.At? }

  lemma {:induction false} CopiesParsedRun(cfg: Settings, c: Cell, es: seq<Event>)
    requires CopiesParsed(c)
    ensures CopiesParsed(Run(cfg, c, es))
    decreases |es|
  {
    if es != [] { CopiesParsedRun(cfg, Next(cfg, c, es[0]), es[1..]); }
  }

  /** What a worker writes when its handler returns, in every reachable state. A retry goes
      back behind a gate of 5 * counter seconds, with no other delay; the last failure
      leaves a database row. */
  lemma WorkerWrites(cfg: Settings, t: Instant, es: seq<Event>, w: Worker, o: Outcome)
    requires w in Run(cfg, Init(t), es).live
    ensures var c := Run(cfg, Init(t), es); var c' := Next(cfg, c, Settle(w, o));
            var job := c.live[w].job; var k := job.retryCounter; var now := At(Stamp(c.now));
            match o
            case Success =>
              c'.rows == c.rows &&
              c'.h == c.h.(locked := None,
                           completed := Some(job.(completedAt := now, status := Completed, exception := NoException)))
            case NoHandler =>
              c'.rows == c.rows + (if cfg.hasDb then 1 else 0) &&
              c'.h == c.h.(locked := None, failed := Some(job.(retry := false, failedAt := now, status := Failed,
                                                               exception := NoHandlerFound)))
            case _ =>
              if job.retry && k < cfg.maxAttempts then
                c'.rows == c.rows &&
                c'.h == c.h.(pending := Some(job.(retryAfter := At(Stamp(c.now) + Seconds(5 * k)), retryCounter := k + 1,
                                                  completedAt := now, status := Pending)))
              else
                c'.rows == c.rows + (if cfg.hasDb then 1 else 0) &&
                c'.h == c.h.(locked := None,
                             failed := Some(job.(failedAt := now, status := Failed,
                                                 exception := if o.Error? then HandlerError else HandlerPanic)))
  {
    CopiesParsedRun(cfg, Init(t), es);
    var c := Run(cfg, Init(t), es);
    StampShift(c.now, 5 * c.live[w].job.retryCounter);
  }

  /** What the reaper makes of any job: a lock dated LockedAt, or ReservedAt failing that,
      is left alone for LockFor seconds, or LockTimeout if the job sets none; then it counts
      as one more attempt and goes back to pending behind a gate of 5 * (counter + 1)
      seconds, or to failed with a database row. A pending sibling makes it a duplicate. */
  lemma ReaperWrites(cfg: Settings, c: Cell)
    ensures var c' := Next(cfg, c, Reap);
            if c.h.locked.None? then c'.h == c.h && c'.rows == c.rows else
            var job := c.h.locked.value; var k := job.retryCounter;
            var date := if job.lockedAt.At? then job.lockedAt else job.reservedAt;
            var n := if job.lockFor > 0 then job.lockFor else cfg.lockTimeout;
            if !date.At? || c.now < date.t + Seconds(n) then c'.h == c.h && c'.rows == c.rows
            else if c.h.pending.Some? then c'.h == c.h.(locked := None) && c'.rows == c.rows
            else if job.retry && k + 1 < cfg.maxAttempts then
              c'.rows == c.rows &&
              c'.h == c.h.(locked := None,
                           pending := Some(job.(retryCounter := k + 1, exception := LockExpired(n), status := Pending,
                                                retryAfter := At(Stamp(c.now) + Seconds(5 * (k + 1))),
                                                lockedAt := Blank)))
            else
              c'.rows == c.rows + (if cfg.hasDb then 1 else 0) &&
              c'.h == c.h.(locked := None,
                           failed := Some(job.(retryCounter := k + 1, exception := LockExpired(n), status := Failed,
                                               failedAt := At(Stamp(c.now)), lockedAt := Blank)))
  {
    if c.h.locked.Some? { StampShift(c.now, 5 * (c.h.locked.value.retryCounter + 1)); }
  }
}
