/** What holds of time in every run, overruns and crashes included: no execution
    before its schedule, bounded lock lifetimes, and two gaps between the
    documentation and the code. */
module Timing {
  import opened Jobs
  import opened Protocol
  import opened Termination
  import opened Records

  // ----- schedule gate

  predicate Gated(c: Cell) {
    c.origin.Some? && c.origin.value.dispatchAt.At? ==>
      var d := c.origin.value.dispatchAt.t;
      && (forall i | 0 <= i < |c.starts| :: c.starts[i].at > d)
      && (if c.starts == [] then c.live == map[] && c.h == Absent.(pending := c.h.pending)
                                 && c.h.pending.Some? && c.h.pending.value.retryAfter == At(d)
          else c.now > d)
  }

  lemma {:induction false} GatedRun(cfg: Settings, c: Cell, es: seq<Event>)
    requires Gated(c) && (c.origin.None? ==> Undispatched(c))
    ensures Gated(Run(cfg, c, es))
    decreases |es|
  {
    if es != [] { GatedRun(cfg, Next(cfg, c, es[0]), es[1..]); }
  }

  /** No execution starts at or before a parseable DispatchAt, in any run. */
  lemma ScheduleGate(cfg: Settings, t: Instant, es: seq<Event>, i: nat)
    requires var c := Run(cfg, Init(t), es); i < |c.starts| && c.origin.Some? && c.origin.value.dispatchAt.At?
    ensures var c := Run(cfg, Init(t), es); c.starts[i].at > c.origin.value.dispatchAt.t
  {
    GatedRun(cfg, Init(t), es);
  }

  /** A job given to DispatchIn is stored behind a gate at exactly the truncated
      now + delay, and starts no earlier. */
  lemma DispatchInDelays(cfg: Settings, t: Instant, es: seq<Event>, i: nat, job: Job, now: Instant, delay: int)
    requires delay > 0
    requires var c := Run(cfg, Init(t), es);
             i < |c.starts| && c.origin == Some(Prepared(Delayed(job, now, delay), now))
    ensures var c := Run(cfg, Init(t), es);
            && c.starts[i].at > Stamp(now + delay) && c.origin.value.retryAfter == At(Stamp(now + delay))
            && Carries(c.origin.value, job.(dispatchAt := At(Stamp(now + delay)), reservedAt := At(Stamp(now))))
  {
    ScheduleGate(cfg, t, es, i);
  }

  // ----- lock lifetimes

  /** A lock still present was not yet expired at the last reaper visit. */
  predicate Watched(cfg: Settings, c: Cell) {
    && c.lastReap <= c.now
    && (c.h.locked.Some? ==>
          && LockTime(c.h.locked.value).At?
          && c.lastReap < LockTime(c.h.locked.value).t + Seconds(Timeout(cfg, c.h.locked.value)))
  }

  lemma WatchedStep(cfg: Settings, c: Cell, e: Event)
    requires cfg.lockTimeout >= 1 && Watched(cfg, c)
    ensures Watched(cfg, Next(cfg, c, e))
  {
    StampBounds(c.now);
  }

  lemma {:induction false} WatchedRun(cfg: Settings, c: Cell, es: seq<Event>)
    requires cfg.lockTimeout >= 1 && Watched(cfg, c) && Prompt(cfg, c, es)
    ensures var c' := Run(cfg, c, es); Watched(cfg, c') && c'.now - c'.lastReap <= Seconds(cfg.reaperInterval)
    decreases |es|
  {
    if es != [] {
      WatchedStep(cfg, c, es[0]);
      WatchedRun(cfg, Next(cfg, c, es[0]), es[1..]);
    }
  }

  /** In every run the reaper takes a lock dated from `taken` away if and only if the
      truncated `taken` is n seconds past, n being the LockFor the job was dispatched with,
      or the configured LockTimeout if that is not positive. */
  lemma LockLastsExactly(cfg: Settings, t: Instant, es: seq<Event>, taken: Instant)
    requires var c := Run(cfg, Init(t), es);
             c.h.locked.Some? && c.h.locked.value.lockedAt == At(Stamp(taken))
    ensures Run(cfg, Init(t), es).origin.Some?
    ensures var c := Run(cfg, Init(t), es);
            var n := if c.origin.value.lockFor > 0 then c.origin.value.lockFor else cfg.lockTimeout;
            && (Next(cfg, c, Reap).h.locked.None? <==> c.now >= Stamp(taken) + Seconds(n))
            && (Next(cfg, c, Reap).h != c.h <==> c.now >= Stamp(taken) + Seconds(n))
  {
    if Run(cfg, Init(t), es).origin.None? { UndispatchedRun(cfg, Init(t), es); }
    KeepsOrigin(cfg, Init(t), es);
    ReaperWrites(cfg, Run(cfg, Init(t), es));
  }

  /** With a reaper visit every ReaperInterval, a lock taken at `taken` and not replaced
      by a fresh claim is gone before taken + n + ReaperInterval, for the n above. */
  lemma OrphanWindow(cfg: Settings, t: Instant, es: seq<Event>, taken: Instant)
    requires cfg.lockTimeout >= 1 && Prompt(cfg, Init(t), es)
    requires var c := Run(cfg, Init(t), es);
             c.h.locked.Some? && c.h.locked.value.lockedAt == At(Stamp(taken))
    ensures Run(cfg, Init(t), es).origin.Some?
    ensures var c := Run(cfg, Init(t), es);
            var n := if c.origin.value.lockFor > 0 then c.origin.value.lockFor else cfg.lockTimeout;
            && c.now < taken + Seconds(n + cfg.reaperInterval)
            && (Next(cfg, c, Reap).h.locked.None? <==> c.now >= Stamp(taken) + Seconds(n))
  {
    WatchedRun(cfg, Init(t), es);
    StampBounds(taken);
    LockLastsExactly(cfg, t, es, taken);
    KeepsOrigin(cfg, Init(t), es);
  }

  // ----- where the documentation and the code part

  /** The worker's initial 5-second backoff is never taken: a live copy has passed its
      gate, so its RetryAfter is not empty and the delay is always 5 * counter. In
      particular the first retry of a job dispatched with counter 0 has no delay. */
  lemma InitialBackoffIsDead(cfg: Settings, t: Instant, es: seq<Event>, w: Worker)
    requires w in Run(cfg, Init(t), es).live
    ensures var c := Run(cfg, Init(t), es); var job := c.live[w].job; var c' := Next(cfg, c, Settle(w, Error));
            job.retry && job.retryCounter < cfg.maxAttempts ==>
              && c'.h.pending.Some?
              && c'.h.pending.value.retryAfter == At(Stamp(c.now) + Seconds(5 * job.retryCounter))
              && (job.retryCounter == 0 ==> c'.h.pending.value.retryAfter.t <= c.now)
  {
    WorkerWrites(cfg, t, es, w, Error);
    StampBounds(Run(cfg, Init(t), es).now);
  }

  /** A job that waits behind a gate nothing can parse. */
  predicate Stuck(c: Cell, o: Job) {
    && c.live == map[] && c.starts == []
    && (c.h.pending.Some? ==> !c.h.pending.value.retryAfter.At? && c.h.pending.value.retry == o.retry
                              && c.h.pending.value.retryCounter == o.retryCounter)
    && (c.h.locked.Some? ==> c.h.locked.value.retry == o.retry && c.h.locked.value.retryCounter == o.retryCounter)
  }

  lemma {:induction false} StuckRun(cfg: Settings, c: Cell, es: seq<Event>, o: Job)
    requires c.origin == Some(o) && Stuck(c, o) && !RetriesLeft(cfg, Charged(cfg, o))
    ensures Run(cfg, c, es).starts == []
    decreases |es|
  {
    if es != [] { StuckRun(cfg, Next(cfg, c, es[0]), es[1..], o); }
  }

  /** Redis does not reject an unparseable DispatchAt. Such a job can still run if and
      only if one expired lock leaves it a retry: then the reaper replaces its gate. */
  lemma MalformedScheduleRuns(cfg: Settings, t: Instant, job: Job) returns (es: seq<Event>)
    requires job.dispatchAt.Malformed?
    ensures es != [] && es[0] == Dispatch(job)
    ensures job.retry && job.retryCounter + 1 < cfg.maxAttempts ==> Run(cfg, Init(t), es).starts != []
    ensures !(job.retry && job.retryCounter + 1 < cfg.maxAttempts) ==>
              forall rest: seq<Event> :: Run(cfg, Next(cfg, Init(t), Dispatch(job)), rest).starts == []
  {
    var c := Next(cfg, Init(t), Dispatch(job));
    es := [Dispatch(job), Claim(0)];
    if RetriesLeft(cfg, Charged(cfg, job)) {
      Two(cfg, Init(t), Dispatch(job), Claim(0));
      var c1 := Run(cfg, Init(t), es);
      var back := TakeItBack(cfg, c1);
      RunConcat(cfg, Init(t), es, back);
      var go := StartIt(cfg, Run(cfg, c1, back), 0);
      RunConcat(cfg, Init(t), es + back, go);
      es := es + back + go;
    } else {
      forall rest: seq<Event> ensures Run(cfg, c, rest).starts == [] {
        StuckRun(cfg, c, rest, c.origin.value);
      }
    }
  }
}
