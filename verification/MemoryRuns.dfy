/** What every run of the memory backend keeps: exact attempts and delays per job,
    the schedule gate, callable handlers, a bounded number of invocations and steps,
    progress, and the closed form of the failure cache. */
module MemoryRuns {
  import opened Jobs
  import opened Sums
  import opened Memory

  // ----- what a token says about its past

  /** Only the counter ever changes. */
  predicate SameJob(tok: Token) { tok.job == tok.origin.(retryCounter := tok.job.retryCounter) }

  /** A job that may still run has only failed so far, once per retry counted. */
  predicate Sound(p: Params, tok: Token) {
    && SameJob(tok)
    && AllFailing(tok.past)
    && tok.job.retryCounter == tok.origin.retryCounter + |tok.past|
    && (tok.past != [] ==> tok.origin.retry && tok.job.retryCounter <= p.cfg.maxAttempts)
  }

  /** A completed job failed some number of times within its budget, then succeeded. */
  predicate Succeeded(p: Params, tok: Token) {
    && tok.past != [] && |tok.past| <= Budget(p.cfg, tok.origin)
    && AllFailing(tok.past[..|tok.past| - 1]) && tok.past[|tok.past| - 1].Success?
  }

  /** A failed job used its whole budget. */
  predicate Exhausted(p: Params, tok: Token) { AllFailing(tok.past) && |tok.past| == Budget(p.cfg, tok.origin) }

  /** The job's schedule, if any, is due at t. */
  predicate Due(tok: Token, t: Instant) { tok.origin.dispatchAt.At? ==> tok.origin.dispatchAt.t <= t }

  predicate Traced(p: Params, s: State) {
    && (forall i | 0 <= i < |s.sleeping| ::
          Sound(p, s.sleeping[i].tok) && (Due(s.sleeping[i].tok, s.sleeping[i].wake) || Due(s.sleeping[i].tok, s.now)))
    && (forall i | 0 <= i < |s.sending| :: Sound(p, s.sending[i]) && Due(s.sending[i], s.now))
    && (forall w | 0 <= w < |s.workers| && s.workers[w].Working? ::
          && Sound(p, s.workers[w].tok) && Due(s.workers[w].tok, s.now)
          && (s.workers[w].admitted ==> Runnable(s, s.workers[w].tok.job)))
    && (forall i | 0 <= i < |s.completed| :: Succeeded(p, s.completed[i]))
    && (forall i | 0 <= i < |s.failed| :: Exhausted(p, s.failed[i]))
    && (forall i | 0 <= i < |s.begun| :: Sound(p, s.begun[i].tok) && Due(s.begun[i].tok, s.begun[i].at))
  }

  lemma RetryIsSound(p: Params, tok: Token, o: Outcome)
    requires Sound(p, tok) && Failing(o) && RetriesLeft(p.cfg, tok.job)
    ensures Sound(p, Again(tok, o))
  {}

  lemma FailureIsExhausted(p: Params, tok: Token, o: Outcome)
    requires Sound(p, tok) && Failing(o) && !RetriesLeft(p.cfg, tok.job)
    ensures Exhausted(p, tok.(past := tok.past + [o]))
  {}

  lemma SuccessIsSucceeded(p: Params, tok: Token)
    requires Sound(p, tok)
    ensures Succeeded(p, tok.(past := tok.past + [Success]))
  {
    assert (tok.past + [Success])[..|tok.past|] == tok.past;
  }

  /** Handing a worker's token on keeps everything else traced. */
  lemma TracedRelease(p: Params, s: State, w: nat)
    requires Traced(p, s) && w < |s.workers|
    ensures Traced(p, s.(workers := s.workers[w := Finishing]))
  {}

  lemma TracedAddFailed(p: Params, s: State, tok: Token, o: Outcome)
    requires Traced(p, s) && Sound(p, tok) && Due(tok, s.now) && Failing(o)
    ensures Traced(p, AddFailed(p, s, tok, o))
  {
    if RetriesLeft(p.cfg, tok.job) {
      RetryIsSound(p, tok, o);
    } else {
      FailureIsExhausted(p, tok, o);
    }
  }

  lemma TracedHanded(p: Params, s: State, tok: Token, admitted: bool, o: Outcome)
    requires Traced(p, s) && Sound(p, tok) && Due(tok, s.now) && (admitted ==> !o.NoHandler?)
    ensures Traced(p, Handed(p, s, tok, admitted, o))
  {
    if admitted {
      if o.Success? { SuccessIsSucceeded(p, tok); } else { TracedAddFailed(p, s, tok, o); }
    }
  }

  lemma TracedFinish(p: Params, s: State, w: nat, o: Outcome)
    requires Traced(p, s)
    ensures Traced(p, Next(p, s, Finish(w, o)))
  {
    if CanFinish(s, w, o) {
      TracedRelease(p, s, w);
      TracedHanded(p, s.(workers := s.workers[w := Finishing]), s.workers[w].tok, s.workers[w].admitted, o);
    }
  }

  lemma FreshIsSound(p: Params, ready: Job)
    ensures Sound(p, FreshToken(ready))
  {}

  lemma TracedDispatch(p: Params, s: State, job: Job, id: string)
    requires Traced(p, s)
    ensures Traced(p, Next(p, s, Dispatch(job, id)))
  {
    FreshIsSound(p, Accepted(p, job, id, s.now));
  }

  lemma TracedWake(p: Params, s: State, i: nat)
    requires Traced(p, s)
    ensures Traced(p, Next(p, s, Wake(i)))
  {}

  lemma TracedReceive(p: Params, s: State, w: nat, i: nat)
    requires Traced(p, s)
    ensures Traced(p, Next(p, s, Receive(w, i)))
  {}

  lemma TracedStep(p: Params, s: State, e: Event)
    requires Traced(p, s)
    ensures Traced(p, Next(p, s, e))
  {
    match e
    case Dispatch(job, id) => TracedDispatch(p, s, job, id);
    case Wake(i) => TracedWake(p, s, i);
    case Receive(w, i) => TracedReceive(p, s, w, i);
    case Finish(w, o) => TracedFinish(p, s, w, o);
    case _ =>
  }

  lemma {:induction false} TracedRun(p: Params, s: State, es: seq<Event>)
    requires Traced(p, s)
    ensures Traced(p, Run(p, s, es))
    decreases |es|
  {
    if es != [] {
      TracedStep(p, s, es[0]);
      TracedRun(p, Next(p, s, es[0]), es[1..]);
    }
  }

  lemma TracedFromInit(p: Params, t: Instant, workers: nat, es: seq<Event>)
    ensures Traced(p, Run(p, Init(t, workers), es))
  {
    TracedRun(p, Init(t, workers), es);
  }

  /** In every interleaving, counting recorded handler invocations: a failed job was
      invoked exactly 1 + max(0, M - c0) times (once without Retry) and failed each time;
      a completed one failed at each invocation but the last, within that budget. */
  lemma MemoryVerdicts(p: Params, t: Instant, workers: nat, es: seq<Event>, completed: bool, i: nat)
    requires i < |Ended(Run(p, Init(t, workers), es), completed)|
    ensures var s := Run(p, Init(t, workers), es); var tok := Ended(s, completed)[i];
            && Invocations(s, tok.job.id) == |tok.past|
            && (completed ==> Succeeded(p, tok))
            && (!completed ==> AllFailing(tok.past) && |tok.past| == Budget(p.cfg, tok.origin))
  {
    var s := Run(p, Init(t, workers), es);
    var id := Ended(s, completed)[i].job.id;
    AlwaysAccounted(p, t, workers, es, id);
    Shares(s, id);
    SumBounds(OfToken(id), Ended(s, completed));
    EndedInvocations(s, completed, i);
    TracedFromInit(p, t, workers, es);
  }

  /** No invocation begins before the job's DispatchAt. */
  lemma MemoryScheduleGate(p: Params, t: Instant, workers: nat, es: seq<Event>, i: nat)
    requires var s := Run(p, Init(t, workers), es); i < |s.begun| && s.begun[i].tok.origin.dispatchAt.At?
    ensures var s := Run(p, Init(t, workers), es); s.begun[i].at >= s.begun[i].tok.origin.dispatchAt.t
  {
    TracedFromInit(p, t, workers, es);
  }

  /** A job given to DispatchIn is not invoked before the truncated now + delay. */
  lemma MemoryDispatchInDelays(p: Params, t: Instant, workers: nat, es: seq<Event>, i: nat,
                               job: Job, id: string, now: Instant, delay: int)
    requires delay > 0
    requires var s := Run(p, Init(t, workers), es);
             i < |s.begun| && s.begun[i].tok.origin == Accepted(p, Delayed(job, now, delay), id, now)
    ensures Run(p, Init(t, workers), es).begun[i].at >= Stamp(now + delay)
  {
    MemoryScheduleGate(p, t, workers, es, i);
  }

  // ----- a job with a handler is never dropped

  /** Every token of the id is the given job's, can be run, and is not dropped. */
  predicate Handled(s: State, id: string, o: Job) {
    && (o.inlineHandler || o.name in s.registered)
    && (forall i | 0 <= i < |s.sleeping| && s.sleeping[i].tok.job.id == id :: Stems(s.sleeping[i].tok, o))
    && (forall i | 0 <= i < |s.sending| && s.sending[i].job.id == id :: Stems(s.sending[i], o))
    && (forall w | 0 <= w < |s.workers| && s.workers[w].Working? && s.workers[w].tok.job.id == id ::
          Stems(s.workers[w].tok, o) && s.workers[w].admitted)
    && (forall i | 0 <= i < |s.completed| && s.completed[i].job.id == id :: Stems(s.completed[i], o))
    && (forall i | 0 <= i < |s.failed| && s.failed[i].job.id == id :: Stems(s.failed[i], o))
    && (forall i | 0 <= i < |s.dropped| :: s.dropped[i].job.id != id)
    && Known(s, id)
  }

  /** The token carries job `o`, but for its counter. */
  predicate Stems(tok: Token, o: Job) { tok.origin == o && tok.job == o.(retryCounter := tok.job.retryCounter) }

  lemma HandledHanded(p: Params, s: State, tok: Token, o: Outcome, id: string, ready: Job)
    requires Handled(s, id, ready) && (tok.job.id == id ==> Stems(tok, ready))
    ensures Handled(Handed(p, s, tok, true, o), id, ready)
  {
    assert Known(Handed(p, s, tok, true, o), id) == Known(s, id);
  }

  lemma HandledFinish(p: Params, s: State, w: nat, o: Outcome, id: string, ready: Job)
    requires Handled(s, id, ready) && CanFinish(s, w, o)
    ensures Handled(Next(p, s, Finish(w, o)), id, ready)
  {
    var s1 := s.(workers := s.workers[w := Finishing]);
    assert Known(s1, id) == Known(s, id);
    assert Handled(s1, id, ready);
    if s.workers[w].admitted {
      HandledHanded(p, s1, s.workers[w].tok, o, id, ready);
    }
  }

  lemma HandledReceive(p: Params, s: State, w: nat, i: nat, id: string, ready: Job)
    requires Handled(s, id, ready)
    ensures Handled(Next(p, s, Receive(w, i)), id, ready)
  {
    assert Known(Next(p, s, Receive(w, i)), id) == Known(s, id);
  }

  lemma HandledStep(p: Params, s: State, e: Event, id: string, ready: Job)
    requires Handled(s, id, ready)
    ensures Handled(Next(p, s, e), id, ready)
  {
    var s' := Next(p, s, e);
    DispatchedStep(p, s, e);
    assert Known(s', id) by {
      var i :| 0 <= i < |s.dispatched| && s.dispatched[i].id == id;
      assert s'.dispatched[i].id == id;
    }
    match e
    case Finish(w, o) => if CanFinish(s, w, o) { HandledFinish(p, s, w, o, id, ready); }
    case Receive(w, i) => HandledReceive(p, s, w, i, id, ready);
    case _ =>
  }

  lemma {:induction false} HandledRun(p: Params, s: State, es: seq<Event>, id: string, ready: Job)
    requires Handled(s, id, ready)
    ensures Handled(Run(p, s, es), id, ready)
    decreases |es|
  {
    if es != [] {
      HandledStep(p, s, es[0], id, ready);
      HandledRun(p, Next(p, s, es[0]), es[1..], id, ready);
    }
  }

  /** A worker about to call a handler always has one to call, however registrations
      interleave with its admission and its lookup. */
  lemma HandlerIsNeverNil(p: Params, t: Instant, workers: nat, es: seq<Event>, w: nat)
    requires var s := Run(p, Init(t, workers), es); w < |s.workers| && s.workers[w].Working? && s.workers[w].admitted
    ensures var s := Run(p, Init(t, workers), es);
            s.workers[w].tok.job.name !in s.registered ==> s.workers[w].tok.job.inlineHandler
  {
    TracedRun(p, Init(t, workers), es);
  }

  // ----- invocations and steps are bounded

  function Allowed(cfg: Settings): Job -> int { (j: Job) => Budget(cfg, j) }

  /** Invocations a token can still cause; `per` and `off` weigh its place. */
  function TokenLoad(cfg: Settings, per: int, off: int): Token -> int {
    (t: Token) => per * Budget(cfg, t.job) - off
  }

  function TimerLoad(cfg: Settings, per: int): Timer -> int { (t: Timer) => per * Budget(cfg, t.tok.job) }

  function RunLoad(cfg: Settings): Phase -> int {
    (w: Phase) => if w.Working? then Budget(cfg, w.tok.job) - (if w.admitted then 1 else 0) else 0
  }

  function MoveLoad(cfg: Settings): Phase -> int {
    (w: Phase) => match w case Idle => 0 case Finishing => 1 case Working(tok, _) => 4 * Budget(cfg, tok.job) - 2
  }

  function RunsLeft(p: Params, s: State): int {
    Sum(TimerLoad(p.cfg, 1), s.sleeping) + Sum(TokenLoad(p.cfg, 1, 0), s.sending) + Sum(RunLoad(p.cfg), s.workers)
  }

  function MovesLeft(p: Params, s: State): int {
    Sum(TimerLoad(p.cfg, 4), s.sleeping) + Sum(TokenLoad(p.cfg, 4, 1), s.sending) + Sum(MoveLoad(p.cfg), s.workers)
  }

  function Allowance(p: Params, s: State): int { Sum(Allowed(p.cfg), s.dispatched) }

  /** Everything but clock ticks, registrations, dispatches and impossible events. */
  predicate Moves(p: Params, s: State, e: Event) {
    match e
    case Wake(i) => i < |s.sleeping| && s.sleeping[i].wake <= s.now
    case Receive(w, i) => w < |s.workers| && s.workers[w].Idle? && i < |s.sending|
    case Finish(w, o) => CanFinish(s, w, o)
    case Decrement(w) => w < |s.workers| && s.workers[w].Finishing?
    case _ => false
  }

  function Cost(p: Params, s: State, e: Event): nat { if Moves(p, s, e) then 1 else 0 }

  /** No event runs or moves a job more than its dispatch allowed. */
  predicate Spends(p: Params, s: State, e: Event) {
    var s' := Next(p, s, e);
    && |s'.begun| + RunsLeft(p, s') - Allowance(p, s') <= |s.begun| + RunsLeft(p, s) - Allowance(p, s)
    && Cost(p, s, e) + MovesLeft(p, s') - 4 * Allowance(p, s') <= MovesLeft(p, s) - 4 * Allowance(p, s)
  }

  lemma SpendsDispatch(p: Params, s: State, job: Job, id: string)
    ensures Spends(p, s, Dispatch(job, id))
  {
    if !Known(s, id) && !job.dispatchAt.Malformed? {
      var ready := Accepted(p, job, id, s.now);
      var tok := FreshToken(ready);
      SumSnoc(Allowed(p.cfg), s.dispatched, ready);
      if job.dispatchAt.At? && job.dispatchAt.t > s.now {
        SumSnoc(TimerLoad(p.cfg, 1), s.sleeping, Timer(tok, job.dispatchAt.t));
        SumSnoc(TimerLoad(p.cfg, 4), s.sleeping, Timer(tok, job.dispatchAt.t));
      } else {
        SumSnoc(TokenLoad(p.cfg, 1, 0), s.sending, tok);
        SumSnoc(TokenLoad(p.cfg, 4, 1), s.sending, tok);
      }
    }
  }

  lemma SpendsWake(p: Params, s: State, i: nat)
    ensures Spends(p, s, Wake(i))
  {
    if i < |s.sleeping| && s.sleeping[i].wake <= s.now {
      SumRemove(TimerLoad(p.cfg, 1), s.sleeping, i);
      SumRemove(TimerLoad(p.cfg, 4), s.sleeping, i);
      SumSnoc(TokenLoad(p.cfg, 1, 0), s.sending, s.sleeping[i].tok);
      SumSnoc(TokenLoad(p.cfg, 4, 1), s.sending, s.sleeping[i].tok);
    }
  }

  lemma SpendsReceive(p: Params, s: State, w: nat, i: nat)
    ensures Spends(p, s, Receive(w, i))
  {
    if w < |s.workers| && s.workers[w].Idle? && i < |s.sending| {
      var busy := Working(s.sending[i], Runnable(s, s.sending[i].job));
      SumRemove(TokenLoad(p.cfg, 1, 0), s.sending, i);
      SumRemove(TokenLoad(p.cfg, 4, 1), s.sending, i);
      SumUpdate(RunLoad(p.cfg), s.workers, w, busy);
      SumUpdate(MoveLoad(p.cfg), s.workers, w, busy);
    }
  }

  lemma HandedLoad(p: Params, s: State, tok: Token, admitted: bool, o: Outcome)
    requires admitted ==> !o.NoHandler?
    ensures var s' := Handed(p, s, tok, admitted, o); var b := if admitted then Budget(p.cfg, tok.job) - 1 else 0;
            && Sum(TimerLoad(p.cfg, 1), s'.sleeping) <= Sum(TimerLoad(p.cfg, 1), s.sleeping) + b
            && Sum(TimerLoad(p.cfg, 4), s'.sleeping) <= Sum(TimerLoad(p.cfg, 4), s.sleeping) + 4 * b
  {
    if admitted && Failing(o) && RetriesLeft(p.cfg, tok.job) {
      var timer := Handed(p, s, tok, admitted, o).sleeping[|s.sleeping|];
      assert Budget(p.cfg, timer.tok.job) == Budget(p.cfg, tok.job) - 1;
      SumSnoc(TimerLoad(p.cfg, 1), s.sleeping, timer);
      SumSnoc(TimerLoad(p.cfg, 4), s.sleeping, timer);
    }
  }

  lemma SpendsFinish(p: Params, s: State, w: nat, o: Outcome)
    ensures Spends(p, s, Finish(w, o))
  {
    if CanFinish(s, w, o) {
      SumUpdate(RunLoad(p.cfg), s.workers, w, Finishing);
      SumUpdate(MoveLoad(p.cfg), s.workers, w, Finishing);
      HandedLoad(p, s.(workers := s.workers[w := Finishing]), s.workers[w].tok, s.workers[w].admitted, o);
    }
  }

  lemma SpendsStep(p: Params, s: State, e: Event)
    ensures Spends(p, s, e)
  {
    match e
    case Dispatch(job, id) => SpendsDispatch(p, s, job, id);
    case Wake(i) => SpendsWake(p, s, i);
    case Receive(w, i) => SpendsReceive(p, s, w, i);
    case Finish(w, o) => SpendsFinish(p, s, w, o);
    case Decrement(w) =>
      if w < |s.workers| && s.workers[w].Finishing? {
        SumUpdate(RunLoad(p.cfg), s.workers, w, Idle);
        SumUpdate(MoveLoad(p.cfg), s.workers, w, Idle);
      }
    case _ =>
  }

  function MovesIn(p: Params, s: State, es: seq<Event>): nat
    decreases |es|
  {
    if es == [] then 0 else Cost(p, s, es[0]) + MovesIn(p, Next(p, s, es[0]), es[1..])
  }

  lemma {:induction false} SpendsRun(p: Params, s: State, es: seq<Event>)
    ensures var s' := Run(p, s, es);
            && |s'.begun| + RunsLeft(p, s') - Allowance(p, s') <= |s.begun| + RunsLeft(p, s) - Allowance(p, s)
            && MovesIn(p, s, es) + MovesLeft(p, s') - 4 * Allowance(p, s') <= MovesLeft(p, s) - 4 * Allowance(p, s)
    decreases |es|
  {
    if es != [] {
      SpendsStep(p, s, es[0]);
      SpendsRun(p, Next(p, s, es[0]), es[1..]);
    }
  }

  /** In every interleaving the invocations of all jobs together are at most the sum of
      their budgets, and the machine makes at most four moves per allowed invocation. */
  lemma InvocationsAreBounded(p: Params, t: Instant, workers: nat, es: seq<Event>)
    ensures var s := Run(p, Init(t, workers), es);
            && |s.begun| <= Sum(Allowed(p.cfg), s.dispatched)
            && MovesIn(p, Init(t, workers), es) <= 4 * Sum(Allowed(p.cfg), s.dispatched)
  {
    var s := Run(p, Init(t, workers), es);
    SpendsRun(p, Init(t, workers), es);
    IdleSum(RunLoad(p.cfg), Init(t, workers).workers);
    IdleSum(MoveLoad(p.cfg), Init(t, workers).workers);
    SumBounds(TimerLoad(p.cfg, 1), s.sleeping);
    SumBounds(TimerLoad(p.cfg, 4), s.sleeping);
    SumBounds(TokenLoad(p.cfg, 1, 0), s.sending);
    SumBounds(TokenLoad(p.cfg, 4, 1), s.sending);
    SumBounds(RunLoad(p.cfg), s.workers);
    SumBounds(MoveLoad(p.cfg), s.workers);
  }

  // ----- progress

  predicate Quiet(s: State) {
    s.sleeping == [] && s.sending == [] && forall w | 0 <= w < |s.workers| :: s.workers[w].Idle?
  }

  /** With at least one worker the machine is never stuck: until every job has ended
      some move is possible, at once or after waiting for a timer. */
  lemma SomeMoveIsPossible(p: Params, s: State) returns (wait: nat, e: Event)
    requires |s.workers| >= 1 && !Quiet(s)
    ensures Moves(p, Next(p, s, Advance(wait)), e)
    ensures wait > 0 ==> s.sending == [] && forall w | 0 <= w < |s.workers| :: s.workers[w].Idle?
  {
    wait := 0;
    if w :| 0 <= w < |s.workers| && s.workers[w].Working? {
      e := Finish(w, Success);
    } else if w :| 0 <= w < |s.workers| && s.workers[w].Finishing? {
      e := Decrement(w);
    } else if s.sending != [] {
      e := Receive(0, 0);
    } else {
      wait := Max(0, s.sleeping[0].wake - s.now);
      e := Wake(0);
    }
  }

  /** When nothing moves any more, Depth is zero and every dispatched job has ended
      exactly once: completed, failed, or dropped for lack of a handler. */
  lemma QuietMeansEnded(p: Params, t: Instant, workers: nat, es: seq<Event>, id: string)
    requires Quiet(Run(p, Init(t, workers), es))
    ensures var s := Run(p, Init(t, workers), es);
            && s.pendingCount == 0
            && Sum(OfToken(id), s.completed) + Sum(OfToken(id), s.failed) + Sum(OfToken(id), s.dropped)
               == if Known(s, id) then 1 else 0
  {
    var s := Run(p, Init(t, workers), es);
    Conservation(p, t, workers, es, id);
    DepthIsExact(p, t, workers, es);
    IdleSum(OnPhase(OfToken(id), Never()), s.workers);
    IdleSum(Busy(), s.workers);
  }

  lemma {:induction false} RunConcat(p: Params, s: State, a: seq<Event>, b: seq<Event>)
    ensures Run(p, s, a + b) == Run(p, Run(p, s, a), b)
    decreases |a|
  {
    if a == [] {
      assert a + b == b;
    } else {
      assert (a + b)[1..] == a[1..] + b;
      RunConcat(p, Next(p, s, a[0]), a[1..], b);
    }
  }

  /** No token anywhere has a share in f. */
  predicate OnNone(f: Token -> int, s: State) {
    && (forall i | 0 <= i < |s.sleeping| :: f(s.sleeping[i].tok) == 0)
    && (forall i | 0 <= i < |s.sending| :: f(s.sending[i]) == 0)
    && (forall w | 0 <= w < |s.workers| && s.workers[w].Working? :: f(s.workers[w].tok) == 0)
    && (forall i | 0 <= i < |s.completed| :: f(s.completed[i]) == 0)
    && (forall i | 0 <= i < |s.failed| :: f(s.failed[i]) == 0)
    && (forall i | 0 <= i < |s.dropped| :: f(s.dropped[i]) == 0)
  }

  /** A non-negative quantity whose total is nothing is nowhere. */
  lemma Nowhere(f: Token -> int, s: State)
    requires Total(f, Never(), s) == 0 && forall tok :: f(tok) >= 0
    ensures OnNone(f, s)
  {
    forall i | 0 <= i < |s.sleeping| ensures OnTimer(f)(s.sleeping[i]) >= 0 {
      assert f(s.sleeping[i].tok) >= 0;
    }
    SumBounds(OnTimer(f), s.sleeping);
    SumBounds(f, s.sending);
    forall w | 0 <= w < |s.workers| ensures OnPhase(f, Never())(s.workers[w]) >= 0 {
      if s.workers[w].Working? { assert f(s.workers[w].tok) >= 0; }
    }
    SumBounds(OnPhase(f, Never()), s.workers);
    SumBounds(f, s.completed);
    SumBounds(f, s.failed);
    SumBounds(f, s.dropped);
    forall i | 0 <= i < |s.sleeping| ensures f(s.sleeping[i].tok) == 0 {
      assert OnTimer(f)(s.sleeping[i]) == f(s.sleeping[i].tok);
    }
    forall w | 0 <= w < |s.workers| && s.workers[w].Working? ensures f(s.workers[w].tok) == 0 {
      assert OnPhase(f, Never())(s.workers[w]) == f(s.workers[w].tok);
    }
  }

  predicate Tokenless(s: State, id: string) { OnNone(OfToken(id), s) }

  /** Before its dispatch a job has no token anywhere. */
  lemma NoTokenYet(s: State, id: string)
    requires Tokens(s, id) == 0
    ensures Tokenless(s, id)
  {
    Nowhere(OfToken(id), s);
  }

  lemma HandledDispatch(p: Params, s: State, job: Job, id: string)
    requires Tokenless(s, id) && Accepts(s, Dispatch(job, id)) && Runnable(s, job)
    ensures Handled(Next(p, s, Dispatch(job, id)), id, Accepted(p, job, id, s.now))
  {
    DispatchedStep(p, s, Dispatch(job, id));
    assert Next(p, s, Dispatch(job, id)).dispatched[|s.dispatched|].id == id;
  }

  lemma HandledAfter(p: Params, t: Instant, workers: nat, before: seq<Event>, job: Job, id: string, rest: seq<Event>)
    requires var s0 := Run(p, Init(t, workers), before); Accepts(s0, Dispatch(job, id)) && Runnable(s0, job)
    ensures Handled(Run(p, Init(t, workers), before + [Dispatch(job, id)] + rest), id,
                    Accepted(p, job, id, Run(p, Init(t, workers), before).now))
  {
    var init := Init(t, workers);
    var s0 := Run(p, init, before);
    var e := Dispatch(job, id);
    Conservation(p, t, workers, before, id);
    NoTokenYet(s0, id);
    HandledDispatch(p, s0, job, id);
    HandledRun(p, Next(p, s0, e), rest, id, Accepted(p, job, id, s0.now));
    assert ([e] + rest)[1..] == rest;
    assert before + [e] + rest == before + ([e] + rest);
    RunConcat(p, init, before, [e] + rest);
  }

  /** A job with one share among the ended ones is found there. */
  lemma FindEnded(s: State, id: string) returns (completed: bool, i: nat)
    requires Sum(OfToken(id), s.completed) + Sum(OfToken(id), s.failed) == 1
    ensures i < |Ended(s, completed)| && Ended(s, completed)[i].job.id == id
  {
    if j :| 0 <= j < |s.completed| && s.completed[j].job.id == id {
      completed, i := true, j;
    } else {
      NoShare(s.completed, id);
      if j :| 0 <= j < |s.failed| && s.failed[j].job.id == id {
        completed, i := false, j;
      } else {
        NoShare(s.failed, id);
        assert false;
      }
    }
  }

  /** A job whose handler exists when it is dispatched, inline or registered, is never
      dropped; once nothing moves it has ended, completed or failed, exactly once. */
  lemma HandledJobsEnd(p: Params, t: Instant, workers: nat, before: seq<Event>, job: Job, id: string, rest: seq<Event>)
    returns (completed: bool, i: nat)
    requires var s0 := Run(p, Init(t, workers), before); Accepts(s0, Dispatch(job, id)) && Runnable(s0, job)
    ensures var s0 := Run(p, Init(t, workers), before);
            var s := Run(p, Init(t, workers), before + [Dispatch(job, id)] + rest);
            && (forall j | 0 <= j < |s.dropped| :: s.dropped[j].job.id != id)
            && (Quiet(s) ==>
                  && i < |Ended(s, completed)| && Ended(s, completed)[i].job.id == id
                  && Ended(s, completed)[i].origin == Accepted(p, job, id, s0.now)
                  && Sum(OfToken(id), s.completed) + Sum(OfToken(id), s.failed) == 1)
  {
    HandledAfter(p, t, workers, before, job, id, rest);
    var es := before + [Dispatch(job, id)] + rest;
    var s := Run(p, Init(t, workers), es);
    completed, i := false, 0;
    if Quiet(s) {
      QuietMeansEnded(p, t, workers, es, id);
      NoShare(s.dropped, id);
      completed, i := FindEnded(s, id);
    }
  }

  lemma {:induction false} NoShare(toks: seq<Token>, id: string)
    requires forall i | 0 <= i < |toks| :: toks[i].job.id != id
    ensures Sum(OfToken(id), toks) == 0
  {
    if toks != [] { NoShare(toks[..|toks| - 1], id); }
  }

  // ----- the failure cache

  /** The last k elements. */
  function LastOf(s: seq<string>, k: nat): seq<string>
    requires k <= |s|
  {
    s[|s| - k..]
  }

  lemma AtLeastOnce(h: nat, d: int)
    requires d >= 1
    ensures h * d >= h
  {}

  lemma SameRemainder(h: nat, q: int, r: nat, q': int, r': nat)
    requires h * q + r == h * q' + r' && r < h && r' < h
    ensures r == r'
  {
    assert h * (q - q') == h * q - h * q' == -(h * (q' - q));
    if q > q' { AtLeastOnce(h, q - q'); }
    if q < q' { AtLeastOnce(h, q' - q); }
  }

  lemma ModNext(n: nat, h: nat)
    requires h >= 1 && n >= 1
    ensures n % h == if (n - 1) % h + 1 == h then 0 else (n - 1) % h + 1
  {
    var q, r := (n - 1) / h, (n - 1) % h;
    assert n == h * q + r + 1;
    assert n == h * (n / h) + n % h;
    if r + 1 == h {
      assert h * q + h == h * (q + 1);
      SameRemainder(h, q + 1, 0, n / h, n % h);
    } else {
      SameRemainder(h, q, r + 1, n / h, n % h);
    }
  }

  predicate CacheShape(h: int, failures: seq<string>, cache: seq<string>)
    requires h >= 1
  {
    var n := |failures|;
    if n == 0 then cache == [] else
    var k := (n - 1) % h + 1;
    k <= n && cache == LastOf(failures, k)
  }

  lemma CacheAppend(p: Params, failures: seq<string>, cache: seq<string>, id: string)
    requires p.highWaterMark >= 1 && CacheShape(p.highWaterMark, failures, cache)
    ensures CacheShape(p.highWaterMark, failures + [id], Cached(p, cache, id))
  {
    var h, n, all := p.highWaterMark, |failures|, failures + [id];
    if n >= 1 {
      ModNext(n, h);
      var k := (n - 1) % h + 1;
      if k == h {
        assert LastOf(all, 1) == [id];
      } else {
        assert LastOf(all, k + 1) == LastOf(failures, k) + [id];
      }
    } else {
      SameRemainder(h, 0, 0, 0 / h, 0 % h);
    }
  }

  lemma CacheStep(p: Params, s: State, e: Event)
    requires p.highWaterMark >= 1 && CacheShape(p.highWaterMark, s.failures, s.cache)
    ensures var s' := Next(p, s, e); CacheShape(p.highWaterMark, s'.failures, s'.cache)
  {
    if e.Finish? && e.w < |s.workers| && s.workers[e.w].Working? {
      CacheAppend(p, s.failures, s.cache, s.workers[e.w].tok.job.id);
    }
  }

  lemma {:induction false} CacheRun(p: Params, s: State, es: seq<Event>)
    requires p.highWaterMark >= 1 && CacheShape(p.highWaterMark, s.failures, s.cache)
    ensures var s' := Run(p, s, es); CacheShape(p.highWaterMark, s'.failures, s'.cache)
    decreases |es|
  {
    if es != [] {
      CacheStep(p, s, es[0]);
      CacheRun(p, Next(p, s, es[0]), es[1..]);
    }
  }

  /** After n >= 1 failing invocations the cache is exactly the last ((n-1) mod H) + 1
      failed ids, in order; it never holds more than H. */
  lemma FailureCache(p: Params, t: Instant, workers: nat, es: seq<Event>)
    requires p.highWaterMark >= 1
    ensures var s := Run(p, Init(t, workers), es); var n := |s.failures|;
            && (n == 0 ==> s.cache == [])
            && (n >= 1 ==>
                  var k := (n - 1) % p.highWaterMark + 1;
                  k <= n && s.cache == LastOf(s.failures, k) && |s.cache| <= p.highWaterMark)
  {
    CacheRun(p, Init(t, workers), es);
  }
}
