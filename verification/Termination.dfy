/** Termination in every run, overruns and crashes included: a potential over the
    pending key, the locked key and the live copies bounds both the steps a job can
    take and its executions, and the bound on executions is attained. */
module Termination {
  import opened Jobs
  import opened Protocol

  /** Retries a record still allows. */
  function Left(cfg: Settings, job: Job): nat {
    if RetriesLeft(cfg, job) then cfg.maxAttempts - job.retryCounter else 0
  }

  // Weights of a record with n retries left; u is the price of a lock or a live copy
  // by itself, and a claim always costs one.

  function PendingWeight(u: nat, n: nat): nat
    decreases n, 1
  {
    1 + LockWeight(u, n) + LiveWeight(u, n)
  }

  function LockWeight(u: nat, n: nat): nat
    decreases n, 0
  {
    u + if n >= 2 then PendingWeight(u, n - 1) else 0
  }

  function LiveWeight(u: nat, n: nat): nat
    decreases n, 0
  {
    u + if n >= 1 then PendingWeight(u, n - 1) else 0
  }

  ghost function LiveSum(u: nat, cfg: Settings, live: map<Worker, Lease>): nat {
    if live == map[] then 0 else
    var w :| w in live;
    LiveWeight(u, Left(cfg, live[w].job)) + LiveSum(u, cfg, live - {w})
  }

  function HashWeight(u: nat, cfg: Settings, h: Hashes): nat {
    (if h.pending.Some? then PendingWeight(u, Left(cfg, h.pending.value)) else 0)
    + (if h.locked.Some? then LockWeight(u, Left(cfg, h.locked.value)) else 0)
  }

  ghost function Potential(u: nat, cfg: Settings, c: Cell): nat {
    HashWeight(u, cfg, c.h) + LiveSum(u, cfg, c.live)
  }

  /** The sum does not depend on the order in which copies are drawn. */
  lemma {:induction false} LiveSumRemove(u: nat, cfg: Settings, live: map<Worker, Lease>, w: Worker)
    requires w in live
    ensures LiveSum(u, cfg, live) == LiveWeight(u, Left(cfg, live[w].job)) + LiveSum(u, cfg, live - {w})
    decreases |live|
  {
    var v :| v in live && LiveSum(u, cfg, live) == LiveWeight(u, Left(cfg, live[v].job)) + LiveSum(u, cfg, live - {v});
    if v != w {
      assert (live - {v}).Keys == live.Keys - {v} && (live - {w}).Keys == live.Keys - {w};
      LiveSumRemove(u, cfg, live - {v}, w);
      LiveSumRemove(u, cfg, live - {w}, v);
      assert live - {v} - {w} == live - {w} - {v};
    }
  }

  lemma LiveSumAdd(u: nat, cfg: Settings, live: map<Worker, Lease>, w: Worker, l: Lease)
    requires w !in live
    ensures LiveSum(u, cfg, live[w := l]) == LiveSum(u, cfg, live) + LiveWeight(u, Left(cfg, l.job))
  {
    LiveSumRemove(u, cfg, live[w := l], w);
    assert live[w := l] - {w} == live;
  }

  /** The claim takes the pending key away: the gate is open, or unparseable. */
  predicate Takes(c: Cell, e: Event) {
    e.Claim? && c.h.pending.Some? && e.w !in c.live
    && (Open(c.h.pending.value, c.now) || !c.h.pending.value.retryAfter.At?)
  }

  /** A settle or crash of a live worker, or a reap of an expired lock. */
  predicate Resolves(cfg: Settings, c: Cell, e: Event) {
    match e
    case Settle(w, _) => w in c.live
    case Crash(w) => w in c.live
    case Reap => !ReapVerdict(cfg, c.h, c.now).Untouched?
    case _ => false
  }

  /** Everything but clock ticks, gate-blocked claims and idle reaps. */
  predicate Moves(cfg: Settings, c: Cell, e: Event) { Takes(c, e) || Resolves(cfg, c, e) }

  function Price(u: nat, cfg: Settings, c: Cell, e: Event): nat {
    if Takes(c, e) then 1 else if Resolves(cfg, c, e) then u else 0
  }

  /** What a claim gives up among the hashes pays for the copy it makes. */
  lemma ClaimPays(u: nat, cfg: Settings, h: Hashes, now: Instant)
    requires h.pending.Some?
    ensures var p := h.pending.value;
            HashWeight(u, cfg, ClaimHashes(h, now))
            + (if Open(p, now) then 1 + LiveWeight(u, Left(cfg, p)) else if p.retryAfter.At? then 0 else 1)
            <= HashWeight(u, cfg, h)
  {
    var p := h.pending.value;
    var job := Stamped(p, now);
    assert Left(cfg, job) == Left(cfg, job.(status := Processing)) == Left(cfg, p);
  }

  lemma ClaimDrops(u: nat, cfg: Settings, c: Cell, w: Worker)
    ensures Potential(u, cfg, Next(cfg, c, Claim(w))) + Price(u, cfg, c, Claim(w)) <= Potential(u, cfg, c)
  {
    if w !in c.live && c.h.pending.Some? {
      var p := c.h.pending.value;
      var job := Stamped(p, c.now);
      ClaimPays(u, cfg, c.h, c.now);
      assert Left(cfg, job) == Left(cfg, p);
      LiveSumAdd(u, cfg, c.live, w, Lease(job, c.now));
    }
  }

  lemma SettleDrops(u: nat, cfg: Settings, c: Cell, w: Worker, o: Outcome)
    ensures Potential(u, cfg, Next(cfg, c, Settle(w, o))) + Price(u, cfg, c, Settle(w, o)) <= Potential(u, cfg, c)
  {
    if w in c.live {
      var job := Judged(c.live[w].job, o);
      LiveSumRemove(u, cfg, c.live, w);
      assert RetriesLeft(cfg, job) ==> Left(cfg, Retried(job, c.now)) == Left(cfg, job) - 1;
    }
  }

  lemma ReapDrops(u: nat, cfg: Settings, c: Cell)
    ensures Potential(u, cfg, Next(cfg, c, Reap)) + Price(u, cfg, c, Reap) <= Potential(u, cfg, c)
  {
    if ReapVerdict(cfg, c.h, c.now).BackToPending? {
      var job := Charged(cfg, c.h.locked.value);
      assert Left(cfg, Requeued(job, c.now)) == Left(cfg, c.h.locked.value) - 1 >= 1;
    }
  }

  lemma PotentialDrops(u: nat, cfg: Settings, c: Cell, e: Event)
    requires c.origin.Some?
    ensures Potential(u, cfg, Next(cfg, c, e)) + Price(u, cfg, c, e) <= Potential(u, cfg, c)
  {
    match e
    case Claim(w) => ClaimDrops(u, cfg, c, w);
    case Settle(w, o) => SettleDrops(u, cfg, c, w, o);
    case Crash(w) => if w in c.live { LiveSumRemove(u, cfg, c.live, w); }
    case Reap => ReapDrops(u, cfg, c);
    case _ =>
  }

  // ----- bounds over whole runs

  function MovesIn(cfg: Settings, c: Cell, es: seq<Event>): nat
    decreases |es|
  {
    if es == [] then 0
    else (if Moves(cfg, c, es[0]) then 1 else 0) + MovesIn(cfg, Next(cfg, c, es[0]), es[1..])
  }

  lemma {:induction false} RunSpends(cfg: Settings, c: Cell, es: seq<Event>)
    requires c.origin.Some?
    ensures var c' := Run(cfg, c, es);
            && c'.origin == c.origin
            && MovesIn(cfg, c, es) + Potential(1, cfg, c') <= Potential(1, cfg, c)
            && |c'.starts| + Potential(0, cfg, c') <= |c.starts| + Potential(0, cfg, c)
    decreases |es|
  {
    if es != [] {
      PotentialDrops(0, cfg, c, es[0]);
      PotentialDrops(1, cfg, c, es[0]);
      RunSpends(cfg, Next(cfg, c, es[0]), es[1..]);
    }
  }

  predicate Undispatched(c: Cell) {
    c.origin.None? && c.h == Absent && c.live == map[] && c.starts == []
  }

  /** In any run a job makes boundedly many moves and at most PendingWeight(0, n)
      executions, n being the retries it was dispatched with. */
  lemma {:induction false} RunsAreBounded(cfg: Settings, c: Cell, es: seq<Event>)
    requires Undispatched(c)
    ensures var c' := Run(cfg, c, es);
            if c'.origin.None? then MovesIn(cfg, c, es) == 0 && c'.starts == []
            else
              && MovesIn(cfg, c, es) <= PendingWeight(1, Left(cfg, c'.origin.value))
              && |c'.starts| <= PendingWeight(0, Left(cfg, c'.origin.value))
    decreases |es|
  {
    if es != [] {
      var c1 := Next(cfg, c, es[0]);
      if es[0].Dispatch? {
        RunSpends(cfg, c1, es[1..]);
      } else {
        RunsAreBounded(cfg, c1, es[1..]);
      }
    }
  }

  function Pow2(n: nat): nat { if n == 0 then 1 else 2 * Pow2(n - 1) }

  lemma {:induction false} WorstClosedForm(n: nat)
    ensures PendingWeight(0, n) == if n == 0 then 1 else 3 * Pow2(n - 1) - 1
    ensures PendingWeight(0, n) <= Pow2(n + 1) - 1
  {
    if n > 0 { WorstClosedForm(n - 1); }
  }

  /** In any run a job with 0 <= c0 <= M executes at most 3 * 2^(M-c0-1) - 1 times
      (once when no retry is left), which is below 2^(M-c0+1). */
  lemma ExecutionsAreBounded(cfg: Settings, t: Instant, es: seq<Event>)
    requires Run(cfg, Init(t), es).origin.Some?
    ensures var c := Run(cfg, Init(t), es);
            var n := Left(cfg, c.origin.value);
            && |c.starts| <= (if n == 0 then 1 else 3 * Pow2(n - 1) - 1)
            && |c.starts| <= Pow2(n + 1) - 1
  {
    RunsAreBounded(cfg, Init(t), es);
    WorstClosedForm(Left(cfg, Run(cfg, Init(t), es).origin.value));
  }

  // ----- the bound is attained

  lemma Two(cfg: Settings, c: Cell, a: Event, b: Event)
    ensures Run(cfg, c, [a, b]) == Next(cfg, Next(cfg, c, a), b)
  {
    assert [a, b][1..] == [b] && [b][1..] == [];
    assert Run(cfg, Next(cfg, c, a), [b]) == Next(cfg, Next(cfg, c, a), b);
  }

  /** Waiting out the gate, a free worker starts a pending job. */
  lemma StartIt(cfg: Settings, c: Cell, w: Worker) returns (es: seq<Event>)
    requires c.h.pending.Some? && c.h.pending.value.retryAfter.At? && w !in c.live
    ensures |es| == 2 && es[0].Advance? && es[1] == Claim(w)
    ensures var c' := Run(cfg, c, es); var p := c.h.pending.value;
            && |c'.starts| == |c.starts| + 1
            && w in c'.live && c'.live == c.live[w := Lease(Stamped(p, c'.now), c'.now)]
            && c'.h == c.h.(pending := None, locked := Some(Stamped(p, c'.now).(status := Processing)))
  {
    var d: nat := Max(0, c.h.pending.value.retryAfter.t + 1 - c.now);
    es := [Advance(d), Claim(w)];
    Two(cfg, c, Advance(d), Claim(w));
  }

  /** Waiting out the timeout, the reaper takes a lock back from its live worker. */
  lemma TakeItBack(cfg: Settings, c: Cell) returns (es: seq<Event>)
    requires c.h.pending.None? && c.h.locked.Some? && c.h.locked.value.lockedAt.At?
    requires Left(cfg, c.h.locked.value) >= 2
    ensures var c' := Run(cfg, c, es);
            && c'.h.pending.Some? && c'.h.pending.value.retryAfter.At?
            && c'.h.pending.value.retry && c'.h.pending.value.retryCounter == c.h.locked.value.retryCounter + 1
            && c'.live == c.live && c'.starts == c.starts
  {
    var job := c.h.locked.value;
    var d: nat := Max(0, job.lockedAt.t + Seconds(Timeout(cfg, job)) - c.now);
    es := [Advance(d), Reap];
    Two(cfg, c, Advance(d), Reap);
  }

  lemma FailIt(cfg: Settings, c: Cell, w: Worker)
    requires w in c.live && c.h.pending.None? && c.live[w].job.retryAfter.At?
    ensures var c' := Run(cfg, c, [Settle(w, Error)]); var job := c.live[w].job;
            && c'.live == c.live - {w} && c'.starts == c.starts
            && (!RetriesLeft(cfg, job) ==> c'.h.pending.None?)
            && (RetriesLeft(cfg, job) ==>
                  && c'.h.pending.Some? && c'.h.pending.value.retryAfter.At?
                  && c'.h.pending.value.retry && c'.h.pending.value.retryCounter == job.retryCounter + 1)
  {
    assert [Settle(w, Error)][1..] == [];
  }

  predicate Ready(c: Cell, w: Worker) {
    && c.h.pending.Some? && c.h.pending.value.retryAfter.At? && c.h.pending.value.retry
    && (forall v | v in c.live :: v < w)
  }

  /** A worker starts and overruns, and the reaper requeues the job under it. */
  lemma Overrun(cfg: Settings, c: Cell, w: Worker) returns (es: seq<Event>)
    requires Ready(c, w) && Left(cfg, c.h.pending.value) >= 2
    ensures var c' := Run(cfg, c, es); var p := c.h.pending.value;
            && |c'.starts| == |c.starts| + 1
            && w in c'.live && c'.live == c.live[w := c'.live[w]] && c'.live[w].job == Stamped(p, c'.live[w].since)
            && Ready(c', w + 1) && c'.h.pending.value.retryCounter == p.retryCounter + 1
  {
    var start := StartIt(cfg, c, w);
    var c1 := Run(cfg, c, start);
    var back := TakeItBack(cfg, c1);
    RunConcat(cfg, c, start, back);
    es := start + back;
  }

  /** A worker starts and overruns; if the reaper may requeue, everything that follows
      from its requeue happens under the still running worker. */
  lemma WorstOverrun(cfg: Settings, c: Cell, w: Worker) returns (es: seq<Event>)
    requires Ready(c, w)
    ensures var c' := Run(cfg, c, es); var p := c.h.pending.value; var n := Left(cfg, p);
            && |c'.starts| == |c.starts| + 1 + (if n >= 2 then PendingWeight(0, n - 1) else 0)
            && w in c'.live && c'.live == c.live[w := c'.live[w]] && c'.h.pending.None?
            && c'.live[w].job.retryAfter.At? && c'.live[w].job.retry
            && c'.live[w].job.retryCounter == p.retryCounter
    decreases Left(cfg, c.h.pending.value), 0
  {
    if Left(cfg, c.h.pending.value) >= 2 {
      es := Overrun(cfg, c, w);
      var again := WorstCase(cfg, Run(cfg, c, es), w + 1);
      RunConcat(cfg, c, es, again);
      es := es + again;
    } else {
      es := StartIt(cfg, c, w);
    }
  }

  /** Some run executes a pending job exactly as often as the bound allows: every
      worker overruns, the reaper requeues under it, and only then does it fail. */
  lemma {:induction false} WorstCase(cfg: Settings, c: Cell, w: Worker) returns (es: seq<Event>)
    requires Ready(c, w)
    ensures var c' := Run(cfg, c, es);
            && |c'.starts| == |c.starts| + PendingWeight(0, Left(cfg, c.h.pending.value))
            && c'.live == c.live && c'.h.pending.None?
    decreases Left(cfg, c.h.pending.value), 1
  {
    es := WorstOverrun(cfg, c, w);
    var c2 := Run(cfg, c, es);
    FailIt(cfg, c2, w);
    RunConcat(cfg, c, es, [Settle(w, Error)]);
    es := es + [Settle(w, Error)];
    var c3 := Run(cfg, c, es);
    assert c3.live == c.live;
    if Left(cfg, c.h.pending.value) >= 1 {
      var again := WorstCase(cfg, c3, w);
      RunConcat(cfg, c, es, again);
      es := es + again;
    }
  }

  /** For every retrying job the execution bound is reached by some run. */
  lemma BoundIsAttained(cfg: Settings, job: Job) returns (es: seq<Event>)
    requires job.retry && !job.dispatchAt.Malformed?
    ensures var c := Run(cfg, Init(0), es);
            c.origin == Some(Prepared(job, 0)) && |c.starts| == PendingWeight(0, Left(cfg, job))
  {
    var c := Next(cfg, Init(0), Dispatch(job));
    var rest := WorstCase(cfg, c, 0);
    RunSpends(cfg, c, rest);
    es := [Dispatch(job)] + rest;
    assert es[1..] == rest;
  }
}
