/** Safety of the lease protocol. In a run in which no live worker overruns its
    lease: mutual exclusion, key shape and finality. The lease bound is tight. */
module LeaseSafety {
  import opened Jobs
  import opened Protocol
  import opened Termination

  // ----- key shape

  /** The key sets a dispatched job may have. */
  datatype Shape = Nothing | Waiting | WaitingWithLeak | Held | Done | Dead | Mixed

  function ShapeOf(h: Hashes): Shape {
    if h.completed.None? && h.failed.None? then
      if h.pending.Some? then (if h.locked.Some? then WaitingWithLeak else Waiting)
      else if h.locked.Some? then Held else Nothing
    else if h.pending.None? && h.locked.None? then
      if h.failed.None? then Done else if h.completed.None? then Dead else Mixed
    else Mixed
  }

  predicate Terminal(h: Hashes) { ShapeOf(h).Done? || ShapeOf(h).Dead? }

  /** Fields no step changes while the job can still run. */
  predicate SameTerms(job: Job, o: Job) {
    job.retry == o.retry && job.lockFor == o.lockFor && job.dispatchAt == o.dispatchAt
  }

  /** A live worker's copy is the locked hash, stamped at its claim. */
  predicate Backed(c: Cell, lease: Lease) {
    && ShapeOf(c.h).Held?
    && c.h.locked.value == lease.job.(status := Processing)
    && lease.job.lockedAt == At(Stamp(lease.since))
    && lease.since <= c.now
  }

  predicate LeaseInv(cfg: Settings, c: Cell) {
    if c.origin.None? then c == Init(c.now).(lastReap := c.lastReap)
    else
      && !ShapeOf(c.h).Nothing? && !ShapeOf(c.h).Mixed?
      && (c.h.pending.Some? ==> SameTerms(c.h.pending.value, c.origin.value))
      && (c.h.locked.Some? ==> SameTerms(c.h.locked.value, c.origin.value))
      && (forall w | w in c.live :: Backed(c, c.live[w]))
      && (forall v, w | v in c.live && w in c.live :: v == w)
      && c.rows == (if c.h.failed.Some? then Row(cfg) else 0)
  }

  /** A lock a live worker holds within its lease has not expired. */
  lemma NotExpired(cfg: Settings, c: Cell, w: Worker)
    requires w in c.live && Backed(c, c.live[w]) && WithinLease(cfg, c)
    requires c.origin.Some? && c.h.locked.value.lockFor == c.origin.value.lockFor
    ensures !Expired(cfg, c.h.locked.value, c.now)
    ensures ReapHashes(cfg, c.h, c.now) == c.h
  {
    StampBounds(c.live[w].since);
  }

  lemma LeaseClaim(cfg: Settings, c: Cell, w: Worker)
    requires LeaseInv(cfg, c)
    ensures LeaseInv(cfg, Next(cfg, c, Claim(w)))
  {}

  lemma LeaseSettle(cfg: Settings, c: Cell, w: Worker, o: Outcome)
    requires LeaseInv(cfg, c)
    ensures LeaseInv(cfg, Next(cfg, c, Settle(w, o)))
  {}

  lemma LeaseReap(cfg: Settings, c: Cell)
    requires LeaseInv(cfg, c) && WithinLease(cfg, c)
    ensures LeaseInv(cfg, Next(cfg, c, Reap))
  {
    if c.live != map[] {
      var w :| w in c.live;
      NotExpired(cfg, c, w);
    }
  }

  lemma LeaseStep(cfg: Settings, c: Cell, e: Event)
    requires LeaseInv(cfg, c) && WithinLease(cfg, c)
    ensures LeaseInv(cfg, Next(cfg, c, e))
  {
    match e
    case Claim(w) => LeaseClaim(cfg, c, w);
    case Settle(w, o) => LeaseSettle(cfg, c, w, o);
    case Reap => LeaseReap(cfg, c);
    case _ =>
  }

  lemma {:induction false} LeaseRun(cfg: Settings, c: Cell, es: seq<Event>)
    requires LeaseInv(cfg, c) && Punctual(cfg, c, es)
    ensures LeaseInv(cfg, Run(cfg, c, es)) && WithinLease(cfg, Run(cfg, c, es))
    decreases |es|
  {
    if es != [] {
      LeaseStep(cfg, c, es[0]);
      LeaseRun(cfg, Next(cfg, c, es[0]), es[1..]);
    }
  }

  // ----- main results on shape and exclusion

  /** No two live workers hold the job, and the reaper leaves a held job alone. */
  lemma MutualExclusion(cfg: Settings, t: Instant, es: seq<Event>)
    requires Punctual(cfg, Init(t), es)
    ensures var c := Run(cfg, Init(t), es);
            && (forall v, w | v in c.live && w in c.live :: v == w)
            && (c.live != map[] ==> Next(cfg, c, Reap).h == c.h)
  {
    LeaseRun(cfg, Init(t), es);
    var c := Run(cfg, Init(t), es);
    if c.live != map[] {
      var w :| w in c.live;
      NotExpired(cfg, c, w);
    }
  }

  /** A dispatched job always has one of five key sets, and exactly one
      failed_jobs row when it is in failed and a database is configured. */
  lemma KeyShape(cfg: Settings, t: Instant, es: seq<Event>)
    requires Punctual(cfg, Init(t), es)
    ensures var c := Run(cfg, Init(t), es);
            && (c.origin.None? <==> ShapeOf(c.h).Nothing?)
            && !ShapeOf(c.h).Mixed?
            && c.rows == (if c.h.failed.Some? && cfg.hasDb then 1 else 0)
  {
    LeaseRun(cfg, Init(t), es);
  }

  lemma {:induction false} TerminalStays(cfg: Settings, c: Cell, es: seq<Event>)
    requires LeaseInv(cfg, c) && Terminal(c.h)
    ensures var c' := Run(cfg, c, es);
            c'.h == c.h && c'.live == map[] && c'.starts == c.starts && c'.rows == c.rows
    decreases |es|
  {
    if es != [] {
      TerminalStays(cfg, Next(cfg, c, es[0]), es[1..]);
    }
  }

  /** A job that a run without overruns has brought to completed or failed stays there,
      byte for byte, joined by no other key, live worker, execution or database row,
      whatever happens next. */
  lemma Finality(cfg: Settings, t: Instant, es: seq<Event>, more: seq<Event>)
    requires Punctual(cfg, Init(t), es) && Terminal(Run(cfg, Init(t), es).h)
    ensures var c := Run(cfg, Init(t), es); var c' := Run(cfg, Init(t), es + more);
            c'.h == c.h && c'.live == map[] && c'.starts == c.starts && c'.rows == c.rows
  {
    LeaseRun(cfg, Init(t), es);
    TerminalStays(cfg, Run(cfg, Init(t), es), more);
    RunConcat(cfg, Init(t), es, more);
  }

  // ----- the bound is tight

  /** A worker that has just claimed `job` on the last nanosecond of a second and has
      used up its whole lease. */
  function EndOfLease(cfg: Settings, job: Job): Cell {
    var p := Prepared(job, 0);
    var copy := Stamped(p, 999_999_999);
    Cell(999_999_999 + Seconds(Timeout(cfg, job) - 1), Hashes(None, Some(copy.(status := Processing)), None, None),
         map[0 := Lease(copy, 999_999_999)], Some(p), [Begin(p, 999_999_999)], [], 0, [], 0, 0)
  }

  predicate Requeueable(cfg: Settings, job: Job) {
    job.retry && job.dispatchAt.Blank? && 0 <= job.retryCounter < cfg.maxAttempts - 1 && Timeout(cfg, job) >= 1
  }

  lemma ReachEndOfLease(cfg: Settings, job: Job) returns (es: seq<Event>)
    requires Requeueable(cfg, job)
    ensures Punctual(cfg, Init(0), es) && Run(cfg, Init(0), es) == EndOfLease(cfg, job)
  {
    es := [Dispatch(job), Advance(999_999_999), Claim(0), Advance(Seconds(Timeout(cfg, job) - 1))];
    Unroll4(cfg, Init(0), es);
  }

  /** One nanosecond past the lease the reaper takes the job from its live worker, and
      a second worker soon holds it too. */
  lemma OverrunByOneNanosecond(cfg: Settings, job: Job) returns (es: seq<Event>)
    requires Requeueable(cfg, job)
    ensures |es| == 4 && es[..2] == [Advance(1), Reap]
    ensures var c := Run(cfg, EndOfLease(cfg, job), es);
            c.live.Keys == {0, 1} && c.live[1].job.retryAfter.At? && c.h.pending.None?
  {
    var c := EndOfLease(cfg, job);
    var c1 := Next(cfg, c, Advance(1));
    assert ReapVerdict(cfg, c1.h, c1.now).BackToPending?;
    var c2 := Next(cfg, c1, Reap);
    Two(cfg, c, Advance(1), Reap);
    var start := StartIt(cfg, c2, 1);
    RunConcat(cfg, c, [Advance(1), Reap], start);
    es := [Advance(1), Reap] + start;
  }

  /** Handler errors, claims and waiting: no crash, no reaper, no missing handler. */
  predicate ErrorsOnly(es: seq<Event>) {
    forall i | 0 <= i < |es| :: es[i].Advance? || es[i].Claim? || (es[i].Settle? && es[i].outcome.Error?)
  }

  /** A job that is already completed under a second live worker also fails once that
      worker's handler has erred often enough. */
  lemma {:induction false} FailOut(cfg: Settings, c: Cell, w: Worker) returns (es: seq<Event>)
    requires w in c.live && c.live[w].job.retryAfter.At? && c.h.completed.Some?
    ensures ErrorsOnly(es)
    ensures var h := Run(cfg, c, es).h; h.completed.Some? && h.failed.Some?
    decreases Left(cfg, c.live[w].job)
  {
    es := [Settle(w, Error)];
    var c1 := Next(cfg, c, Settle(w, Error));
    assert Run(cfg, c, es) == c1;
    if RetriesLeft(cfg, c.live[w].job) {
      var start := StartIt(cfg, c1, w);
      var again := FailOut(cfg, Run(cfg, c1, start), w);
      RunConcat(cfg, c, es, start);
      RunConcat(cfg, c, es + start, again);
      es := es + start + again;
    }
  }

  /** The lease bound is tight: for every timeout and attempt limit that lets the reaper
      requeue, a run punctual to the last instant of the lease goes on, one nanosecond
      later, to two live workers on one job, and then, with one success and otherwise
      handler errors, to a job both completed and failed. */
  lemma LeaseBoundIsTight(cfg: Settings, job: Job)
    returns (before: seq<Event>, overrun: seq<Event>, split: seq<Event>)
    requires Requeueable(cfg, job)
    ensures Punctual(cfg, Init(0), before)
    ensures |overrun| == 4 && overrun[..2] == [Advance(1), Reap]
    ensures |split| > 0 && split[0] == Settle(0, Success) && ErrorsOnly(split[1..])
    ensures var c := Run(cfg, Run(cfg, Init(0), before), overrun);
            && c.live.Keys == {0, 1}
            && Run(cfg, c, split).h.completed.Some? && Run(cfg, c, split).h.failed.Some?
  {
    before := ReachEndOfLease(cfg, job);
    overrun := OverrunByOneNanosecond(cfg, job);
    var c := Run(cfg, EndOfLease(cfg, job), overrun);
    var errors := FailOut(cfg, Next(cfg, c, Settle(0, Success)), 1);
    split := [Settle(0, Success)] + errors;
    assert split[1..] == errors;
  }

  lemma Unroll4(cfg: Settings, c: Cell, es: seq<Event>)
    requires |es| == 4
    ensures var c1 := Next(cfg, c, es[0]); var c2 := Next(cfg, c1, es[1]); var c3 := Next(cfg, c2, es[2]);
            && Run(cfg, c, es) == Next(cfg, c3, es[3])
            && (Punctual(cfg, c, es) <==>
                  && WithinLease(cfg, c) && WithinLease(cfg, c1) && WithinLease(cfg, c2) && WithinLease(cfg, c3)
                  && WithinLease(cfg, Next(cfg, c3, es[3])))
  {
    var r1, r2, r3 := es[1..], es[1..][1..], es[1..][1..][1..];
    assert r1[0] == es[1] && r2[0] == es[2] && r3[0] == es[3] && r3[1..] == [];
    var c1 := Next(cfg, c, es[0]);
    var c2 := Next(cfg, c1, es[1]);
    var c3 := Next(cfg, c2, es[2]);
    assert Run(cfg, c2, r2) == Run(cfg, c3, r3) == Next(cfg, c3, es[3]);
    assert Punctual(cfg, c3, r3) <==> WithinLease(cfg, c3) && WithinLease(cfg, Next(cfg, c3, es[3]));
    assert Punctual(cfg, c2, r2) <==> WithinLease(cfg, c2) && Punctual(cfg, c3, r3);
    assert Punctual(cfg, c1, r1) <==> WithinLease(cfg, c1) && Punctual(cfg, c2, r2);
  }
}
