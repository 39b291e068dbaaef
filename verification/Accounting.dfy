/** How often a job runs and how far apart its runs are, in every run in which no
    live worker overruns its lease, whatever mix of errors, panics, crashes and
    reaper requeues the job goes through. */
module Accounting {
  import opened Jobs
  import opened Protocol
  import opened LeaseSafety

  function Last(s: seq<Start>): Start requires s != [] { s[|s| - 1] }

  /** Whole seconds between the start of an execution with counter k and the next one:
      the worker's backoff, or, after a crash, the lock timeout n and the reaper's backoff. */
  function Pause(n: int, k: int, e: Ending): int {
    match e case Returned => 5 * k case Died => n + 5 * (k + 1)
  }

  /** The counters of successive executions are consecutive, and each starts at least the
      pause after the one before. */
  predicate Spaced(starts: seq<Start>, endings: seq<Ending>, c0: int, n: int) {
    && |starts| <= |endings| + 1
    && (forall i | 0 <= i < |starts| :: starts[i].counter == c0 + i)
    && (forall i, j | 0 <= i < |starts| - 1 && j == i + 1 ::
          Stamp(starts[j].at) >= Stamp(starts[i].at) + Seconds(Pause(n, starts[i].counter, endings[i])))
  }

  /** What the record of a job that may still run says about its past. */
  predicate Alive(cfg: Settings, outcomes: seq<Outcome>, o: Job, job: Job, begun: int) {
    && job.retryAfter.At?
    && begun == job.retryCounter - o.retryCounter
    && (o.retry || job.retryCounter == o.retryCounter)
    && job.retryCounter <= Max(o.retryCounter, cfg.maxAttempts)
    && (outcomes == [] ==> job.retryCounter <= Max(o.retryCounter, cfg.maxAttempts - 1))
    && AllFailing(outcomes)
  }

  /** How often a failed job ran, by the exception it was failed with. */
  predicate FailedTally(cfg: Settings, c: Cell, o: Job, job: Job) {
    match job.exception
    case HandlerError => |c.starts| == Budget(cfg, o) && c.outcomes != []
    case HandlerPanic => |c.starts| == Budget(cfg, o) && c.outcomes != []
    case LockExpired(_) =>
      && c.crashes > 0
      && (|c.starts| == Budget(cfg, o) || |c.starts| == CrashBudget(cfg, o))
      && (c.outcomes == [] ==> |c.starts| == CrashBudget(cfg, o))
    case NoHandlerFound => 1 <= |c.starts| <= Budget(cfg, o) && NoHandler in c.outcomes
    case NoException => false
  }

  /** The earliest whole second at which a job that has run and waits may run again. */
  function NextStart(starts: seq<Start>, endings: seq<Ending>, n: int): Instant
    requires starts != [] && |endings| == |starts|
  {
    Stamp(Last(starts).at) + Seconds(Pause(n, Last(starts).counter, endings[|endings| - 1]))
  }

  predicate Ledger(cfg: Settings, c: Cell) {
    c.origin.Some? ==>
      var o := c.origin.value;
      && Spaced(c.starts, c.endings, o.retryCounter, Timeout(cfg, o))
      && (c.starts != [] ==> Last(c.starts).at <= c.now)
      && |c.starts| == |c.endings| + |c.live|
      && |c.endings| == |c.outcomes| + c.crashes
      && match ShapeOf(c.h) {
           case Held => Alive(cfg, c.outcomes, o, c.h.locked.value, |c.starts| - 1)
                        && c.starts != [] && c.h.locked.value.lockedAt == At(Stamp(Last(c.starts).at))
                        && (c.live == map[] ==> c.crashes > 0 && c.endings[|c.starts| - 1].Died?)
           case Done => 1 <= |c.starts| <= Budget(cfg, o) && c.outcomes != []
                        && AllFailing(c.outcomes[..|c.outcomes| - 1]) && c.outcomes[|c.outcomes| - 1].Success?
           case Dead => FailedTally(cfg, c, o, c.h.failed.value)
                        && (forall i | 0 <= i < |c.outcomes| :: !c.outcomes[i].Success?)
           case _ => c.h.pending.Some? ==>
             && Alive(cfg, c.outcomes, o, c.h.pending.value, |c.starts|)
             && |c.endings| == |c.starts|
             && (c.starts != [] ==> c.h.pending.value.retryAfter.t >= NextStart(c.starts, c.endings, Timeout(cfg, o)))
         }
  }

  /** The job was dispatched with a RetryAfter a worker can parse. */
  predicate Parseable(c: Cell) { c.origin.Some? ==> c.origin.value.retryAfter.At? }

  lemma SpacedAppend(starts: seq<Start>, endings: seq<Ending>, c0: int, n: int, s: Start)
    requires Spaced(starts, endings, c0, n) && |endings| == |starts| && s.counter == c0 + |starts|
    requires starts != [] ==>
               Stamp(s.at) >= Stamp(Last(starts).at) + Seconds(Pause(n, Last(starts).counter, endings[|starts| - 1]))
    ensures Spaced(starts + [s], endings, c0, n)
  {
    var more := starts + [s];
    forall i, j | 0 <= i < |more| - 1 && j == i + 1
      ensures Stamp(more[j].at) >= Stamp(more[i].at) + Seconds(Pause(n, more[i].counter, endings[i]))
    {
      assert more[i] == starts[i];
      if j < |starts| { assert more[j] == starts[j]; }
    }
  }

  predicate LedgerInv(cfg: Settings, c: Cell) { LeaseInv(cfg, c) && Ledger(cfg, c) && Parseable(c) }

  lemma LiveGrows(live: map<Worker, Lease>, w: Worker, l: Lease)
    requires w !in live
    ensures |live[w := l]| == |live| + 1
  {
    assert live[w := l].Keys == live.Keys + {w};
  }

  lemma LiveShrinks(live: map<Worker, Lease>, w: Worker)
    requires w in live
    ensures |live - {w}| == |live| - 1
  {
    assert (live - {w}).Keys == live.Keys - {w};
  }

  lemma NoneLive(live: map<Worker, Lease>)
    ensures |live| == 0 <==> live == map[]
  {
    if |live| == 0 { assert live.Keys == {}; }
  }

  /** A job whose gate opens starts on time after its last execution. */
  lemma StartIsSpaced(cfg: Settings, c: Cell)
    requires LedgerInv(cfg, c) && c.origin.Some? && c.h.pending.Some? && Open(c.h.pending.value, c.now)
    ensures Spaced(c.starts + [Begin(Stamped(c.h.pending.value, c.now), c.now)], c.endings,
                   c.origin.value.retryCounter, Timeout(cfg, c.origin.value))
  {
    var n := Timeout(cfg, c.origin.value);
    if c.starts != [] {
      var last := Last(c.starts);
      StampReaches(c.now, last.at, Pause(n, last.counter, c.endings[|c.endings| - 1]));
    }
    SpacedAppend(c.starts, c.endings, c.origin.value.retryCounter, n, Begin(Stamped(c.h.pending.value, c.now), c.now));
  }

  /** An execution that ends leaves the spacing of those begun as it was. */
  lemma SpacedEnds(starts: seq<Start>, endings: seq<Ending>, c0: int, n: int, e: Ending)
    requires Spaced(starts, endings, c0, n)
    ensures Spaced(starts, endings + [e], c0, n)
  {}

  lemma LedgerStart(cfg: Settings, c: Cell, w: Worker)
    requires LedgerInv(cfg, c) && c.origin.Some? && w !in c.live
    requires c.h.pending.Some? && Open(c.h.pending.value, c.now)
    ensures Ledger(cfg, Next(cfg, c, Claim(w)))
  {
    LiveGrows(c.live, w, Lease(Stamped(c.h.pending.value, c.now), c.now));
    StartIsSpaced(cfg, c);
  }

  lemma LedgerBlocked(cfg: Settings, c: Cell, w: Worker)
    requires LedgerInv(cfg, c) && w !in c.live && c.h.pending.Some? && !Open(c.h.pending.value, c.now)
    ensures Ledger(cfg, Next(cfg, c, Claim(w)))
  {
    var h := c.h.(pending := Some(Stamped(c.h.pending.value, c.now)), locked := None);
    assert Next(cfg, c, Claim(w)) == c.(h := h) && ShapeOf(h).Waiting?;
  }

  lemma LedgerClaim(cfg: Settings, c: Cell, w: Worker)
    requires LedgerInv(cfg, c)
    ensures Ledger(cfg, Next(cfg, c, Claim(w)))
  {
    if c.h.pending.None? || w in c.live {
      assert Next(cfg, c, Claim(w)) == c;
    } else if Open(c.h.pending.value, c.now) {
      LedgerStart(cfg, c, w);
    } else {
      LedgerBlocked(cfg, c, w);
    }
  }

  lemma RetryGap(job: Job, now: Instant, begun: Instant)
    requires job.retryAfter.At? && begun <= now
    ensures Retried(job, now).retryAfter.t >= Stamp(begun) + Seconds(5 * job.retryCounter)
  {
    StampShift(now, 5 * job.retryCounter);
  }

  lemma LedgerRetry(cfg: Settings, c: Cell, w: Worker, o: Outcome)
    requires LedgerInv(cfg, c) && w in c.live
    requires !o.Success? && RetriesLeft(cfg, Judged(c.live[w].job, o))
    ensures Ledger(cfg, Next(cfg, c, Settle(w, o)))
  {
    LiveShrinks(c.live, w);
    assert Backed(c, c.live[w]);
    RetryGap(c.live[w].job, c.now, Last(c.starts).at);
    SpacedEnds(c.starts, c.endings, c.origin.value.retryCounter, Timeout(cfg, c.origin.value), Returned);
    NoneLive(c.live - {w});
  }

  lemma LedgerSuccess(cfg: Settings, c: Cell, w: Worker)
    requires LedgerInv(cfg, c) && w in c.live
    ensures Ledger(cfg, Next(cfg, c, Settle(w, Success)))
  {
    LiveShrinks(c.live, w);
    assert Backed(c, c.live[w]);
    assert ShapeOf(Next(cfg, c, Settle(w, Success)).h).Done?;
    assert (c.outcomes + [Success])[..|c.outcomes|] == c.outcomes;
    SpacedEnds(c.starts, c.endings, c.origin.value.retryCounter, Timeout(cfg, c.origin.value), Returned);
  }

  /** What a job held by a live worker says about its past, as its copy tells it. */
  lemma HeldCopy(cfg: Settings, c: Cell, w: Worker)
    requires LedgerInv(cfg, c) && w in c.live
    ensures c.origin.Some? && c.starts != [] && Alive(cfg, c.outcomes, c.origin.value, c.live[w].job, |c.starts| - 1)
    ensures c.live[w].job.retry == c.origin.value.retry && c.h.completed.None? && c.h.pending.None?
  {
    assert Backed(c, c.live[w]);
  }

  lemma FailureTally(cfg: Settings, c: Cell, w: Worker, o: Outcome)
    requires LedgerInv(cfg, c) && w in c.live
    requires !o.Success? && !RetriesLeft(cfg, Judged(c.live[w].job, o))
    ensures var c' := Next(cfg, c, Settle(w, o));
            && ShapeOf(c'.h).Dead? && FailedTally(cfg, c', c.origin.value, c'.h.failed.value)
            && forall i | 0 <= i < |c'.outcomes| :: !c'.outcomes[i].Success?
  {
    HeldCopy(cfg, c, w);
    var c' := Next(cfg, c, Settle(w, o));
    assert c'.outcomes == c.outcomes + [o] && c'.starts == c.starts;
  }

  lemma LedgerFailure(cfg: Settings, c: Cell, w: Worker, o: Outcome)
    requires LedgerInv(cfg, c) && w in c.live
    requires !o.Success? && !RetriesLeft(cfg, Judged(c.live[w].job, o))
    ensures Ledger(cfg, Next(cfg, c, Settle(w, o)))
  {
    LiveShrinks(c.live, w);
    FailureTally(cfg, c, w, o);
    SpacedEnds(c.starts, c.endings, c.origin.value.retryCounter, Timeout(cfg, c.origin.value), Returned);
  }

  lemma LedgerSettle(cfg: Settings, c: Cell, w: Worker, o: Outcome)
    requires LedgerInv(cfg, c)
    ensures Ledger(cfg, Next(cfg, c, Settle(w, o)))
  {
    if w in c.live {
      if o.Success? {
        LedgerSuccess(cfg, c, w);
      } else if !RetriesLeft(cfg, Judged(c.live[w].job, o)) {
        LedgerFailure(cfg, c, w, o);
      } else {
        LedgerRetry(cfg, c, w, o);
      }
    }
  }

  lemma LedgerCrash(cfg: Settings, c: Cell, w: Worker)
    requires LedgerInv(cfg, c) && WithinLease(cfg, c)
    ensures Ledger(cfg, Next(cfg, c, Crash(w)))
  {
    if w in c.live {
      LiveShrinks(c.live, w);
      NoneLive(c.live - {w});
      SpacedEnds(c.starts, c.endings, c.origin.value.retryCounter, Timeout(cfg, c.origin.value), Died);
    }
  }

  lemma RequeueGap(job: Job, now: Instant, begun: Instant, n: int)
    requires Stamp(begun) + Seconds(n) <= now
    ensures Requeued(job, now).retryAfter.t >= Stamp(begun) + Seconds(n + 5 * job.retryCounter)
  {
    StampReaches(now, begun, n);
    StampShift(now, 5 * job.retryCounter);
  }

  lemma LedgerReapOrphan(cfg: Settings, c: Cell)
    requires LedgerInv(cfg, c) && c.live == map[] && c.origin.Some?
    requires !ReapVerdict(cfg, c.h, c.now).Untouched? && c.h.pending.None?
    ensures Ledger(cfg, Next(cfg, c, Reap))
  {
    NoneLive(c.live);
    RequeueGap(Charged(cfg, c.h.locked.value), c.now, Last(c.starts).at, Timeout(cfg, c.origin.value));
  }

  lemma LedgerReapDuplicate(cfg: Settings, c: Cell)
    requires LedgerInv(cfg, c) && c.origin.Some? && c.h.pending.Some?
    ensures Ledger(cfg, Next(cfg, c, Reap))
  {}

  lemma LedgerIdleReap(cfg: Settings, c: Cell)
    requires Ledger(cfg, c) && ReapVerdict(cfg, c.h, c.now).Untouched?
    ensures Ledger(cfg, Next(cfg, c, Reap))
  {
    assert Next(cfg, c, Reap) == c.(lastReap := c.now);
  }

  lemma LedgerReap(cfg: Settings, c: Cell)
    requires LedgerInv(cfg, c) && WithinLease(cfg, c)
    ensures Ledger(cfg, Next(cfg, c, Reap))
  {
    if c.live != map[] {
      var w :| w in c.live;
      NotExpired(cfg, c, w);
    }
    if ReapVerdict(cfg, c.h, c.now).Untouched? {
      LedgerIdleReap(cfg, c);
    } else if c.h.pending.None? {
      LedgerReapOrphan(cfg, c);
    } else {
      LedgerReapDuplicate(cfg, c);
    }
  }

  lemma LedgerAdvance(cfg: Settings, c: Cell, d: nat)
    requires LedgerInv(cfg, c)
    ensures Ledger(cfg, Next(cfg, c, Advance(d)))
  {
    assert Next(cfg, c, Advance(d)) == c.(now := c.now + d);
  }

  lemma LedgerDispatch(cfg: Settings, c: Cell, job: Job)
    requires LedgerInv(cfg, c) && Parseable(Next(cfg, c, Dispatch(job)))
    ensures Ledger(cfg, Next(cfg, c, Dispatch(job)))
  {
    if c.origin.None? { assert ShapeOf(Next(cfg, c, Dispatch(job)).h).Waiting?; }
  }

  lemma LedgerStep(cfg: Settings, c: Cell, e: Event)
    requires LedgerInv(cfg, c) && WithinLease(cfg, c) && Parseable(Next(cfg, c, e))
    ensures LedgerInv(cfg, Next(cfg, c, e))
  {
    LeaseStep(cfg, c, e);
    assert Parseable(Next(cfg, c, e));
    match e
    case Claim(w) => LedgerClaim(cfg, c, w);
    case Settle(w, o) => LedgerSettle(cfg, c, w, o);
    case Crash(w) => LedgerCrash(cfg, c, w);
    case Reap => LedgerReap(cfg, c);
    case Advance(d) => LedgerAdvance(cfg, c, d);
    case Dispatch(job) => LedgerDispatch(cfg, c, job);
  }

  lemma {:induction false} LedgerRun(cfg: Settings, c: Cell, es: seq<Event>)
    requires LedgerInv(cfg, c) && Punctual(cfg, c, es) && Parseable(Run(cfg, c, es))
    ensures LedgerInv(cfg, Run(cfg, c, es))
    decreases |es|
  {
    if es != [] {
      var c' := Next(cfg, c, es[0]);
      if c'.origin.Some? { OriginStays(cfg, c', es[1..]); }
      LedgerStep(cfg, c, es[0]);
      LedgerRun(cfg, c', es[1..]);
    }
  }

  // ----- main results

  /** Executions equal counter - c0 while the job waits and counter - c0 + 1 while it
      is locked without a pending sibling, and never exceed the error budget. */
  lemma AttemptAccounting(cfg: Settings, t: Instant, es: seq<Event>)
    requires Punctual(cfg, Init(t), es)
    requires Run(cfg, Init(t), es).origin.Some? && Parseable(Run(cfg, Init(t), es))
    ensures var c := Run(cfg, Init(t), es);
            var o := c.origin.value;
            && (c.h.pending.Some? ==> |c.starts| == c.h.pending.value.retryCounter - o.retryCounter)
            && (ShapeOf(c.h).Held? ==> |c.starts| == c.h.locked.value.retryCounter - o.retryCounter + 1)
            && (ShapeOf(c.h).Dead? ==> FailedTally(cfg, c, o, c.h.failed.value))
            && |c.starts| <= Budget(cfg, o)
  {
    LedgerRun(cfg, Init(t), es);
  }

  /** A job failed after handler errors alone ran 1 + max(0, M - c0) times; one whose
      every worker crashed ran max(1, M - c0) times. Jobs without Retry run once. */
  lemma FailedJobTotals(cfg: Settings, t: Instant, es: seq<Event>)
    requires Punctual(cfg, Init(t), es)
    requires var c := Run(cfg, Init(t), es);
             c.origin.Some? && Parseable(c) && ShapeOf(c.h).Dead? && NoHandler !in c.outcomes
    ensures var c := Run(cfg, Init(t), es);
            && (c.crashes == 0 ==> |c.starts| == Budget(cfg, c.origin.value))
            && (c.outcomes == [] ==> |c.starts| == CrashBudget(cfg, c.origin.value))
  {
    LedgerRun(cfg, Init(t), es);
  }

  /** How many of the first k executions ended in a crash. */
  function Deaths(endings: seq<Ending>, k: nat): nat
    requires k <= |endings|
  {
    if k == 0 then 0 else Deaths(endings, k - 1) + if endings[k - 1].Died? then 1 else 0
  }

  /** The pauses before the k-th retry of a job dispatched with counter c0. */
  function Owed(endings: seq<Ending>, c0: int, n: int, k: nat): int
    requires k <= |endings|
  {
    if k == 0 then 0 else Owed(endings, c0, n, k - 1) + Pause(n, c0 + k - 1, endings[k - 1])
  }

  lemma Triangle(x: int)
    ensures x * (x - 1) == (x - 1) * (x - 2) + 2 * (x - 1)
  {}

  lemma OneMore(m: int, d: int)
    ensures m * (d + 1) == m * d + m
  {}

  /** Twice the least time, in seconds, from the first execution to the one k later, after d
      crashes: 5 * (c0 + ... + (c0 + k - 1)), and n + 5 for every crash. */
  function TwiceOwed(c0: int, n: int, k: int, d: int): int {
    5 * ((c0 + k) * (c0 + k - 1) - c0 * (c0 - 1)) + 2 * ((n + 5) * d)
  }

  lemma {:induction false} OwedClosedForm(endings: seq<Ending>, c0: int, n: int, k: nat)
    requires k <= |endings|
    ensures 2 * Owed(endings, c0, n, k) == TwiceOwed(c0, n, k, Deaths(endings, k))
  {
    if k > 0 {
      OwedClosedForm(endings, c0, n, k - 1);
      Triangle(c0 + k);
      OneMore(n + 5, Deaths(endings, k - 1));
    }
  }

  lemma {:induction false} SpacedSum(starts: seq<Start>, endings: seq<Ending>, c0: int, n: int, k: nat)
    requires Spaced(starts, endings, c0, n) && k < |starts|
    ensures Stamp(starts[k].at) - Stamp(starts[0].at) >= Seconds(Owed(endings, c0, n, k))
  {
    if k > 0 {
      SpacedSum(starts, endings, c0, n, k - 1);
      assert starts[k - 1].counter == c0 + (k - 1);
    }
  }

  lemma SpacedTotal(starts: seq<Start>, endings: seq<Ending>, c0: int, n: int, k: nat)
    requires Spaced(starts, endings, c0, n) && k < |starts|
    ensures 2 * (Stamp(starts[k].at) - Stamp(starts[0].at)) >= Seconds(TwiceOwed(c0, n, k, Deaths(endings, k)))
  {
    SpacedSum(starts, endings, c0, n, k);
    OwedClosedForm(endings, c0, n, k);
  }

  lemma RunIsSpaced(cfg: Settings, t: Instant, es: seq<Event>)
    requires Punctual(cfg, Init(t), es) && Run(cfg, Init(t), es).origin.Some? && Parseable(Run(cfg, Init(t), es))
    ensures var c := Run(cfg, Init(t), es); var o := c.origin.value;
            Spaced(c.starts, c.endings, o.retryCounter, if o.lockFor > 0 then o.lockFor else cfg.lockTimeout)
  {
    LedgerRun(cfg, Init(t), es);
  }

  /** Between one execution and the next lie at least 5 * counter whole seconds if its
      worker settled it, and the lock timeout and 5 * (counter + 1) more if it crashed. */
  lemma RetrySpacing(cfg: Settings, t: Instant, es: seq<Event>, i: nat)
    requires Punctual(cfg, Init(t), es)
    requires var c := Run(cfg, Init(t), es); c.origin.Some? && Parseable(c) && i + 1 < |c.starts|
    ensures var c := Run(cfg, Init(t), es);
            var n := if c.origin.value.lockFor > 0 then c.origin.value.lockFor else cfg.lockTimeout;
            var k := c.starts[i].counter;
            && c.starts[i + 1].counter == k + 1 && i < |c.endings|
            && Stamp(c.starts[i + 1].at)
               >= Stamp(c.starts[i].at) + Seconds(if c.endings[i].Died? then n + 5 * (k + 1) else 5 * k)
  {
    RunIsSpaced(cfg, t, es);
  }

  /** The k-th execution carries counter c0 + k, and starts at least
      5 * (c0 + ... + (c0 + k - 1)) whole seconds after the first, and for every crash
      before it the lock timeout and 5 seconds more. */
  lemma CumulativeBackoff(cfg: Settings, t: Instant, es: seq<Event>, k: nat)
    requires Punctual(cfg, Init(t), es)
    requires var c := Run(cfg, Init(t), es); c.origin.Some? && Parseable(c) && k < |c.starts|
    ensures var c := Run(cfg, Init(t), es);
            var c0 := c.origin.value.retryCounter;
            var n := if c.origin.value.lockFor > 0 then c.origin.value.lockFor else cfg.lockTimeout;
            && c.starts[k].counter == c0 + k && k <= |c.endings|
            && 2 * (Stamp(c.starts[k].at) - Stamp(c.starts[0].at)) >= Seconds(TwiceOwed(c0, n, k, Deaths(c.endings, k)))
  {
    RunIsSpaced(cfg, t, es);
    var c := Run(cfg, Init(t), es);
    var n := if c.origin.value.lockFor > 0 then c.origin.value.lockFor else cfg.lockTimeout;
    SpacedTotal(c.starts, c.endings, c.origin.value.retryCounter, n, k);
  }
}
