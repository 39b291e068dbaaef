/** The memory backend against the clock and against the request, in every interleaving:
    each retry waits out its delay before the handler is invoked again, and each invocation
    is given the job that was dispatched. */
module MemoryTiming {
  import opened Jobs
  import opened Sums
  import opened Memory
  import opened MemoryRuns

  // ----- what was dispatched is what runs

  /** What Dispatch makes of a request. */
  lemma DispatchMakes(p: Params, job: Job, id: string, now: Instant)
    ensures Accepted(p, job, id, now)
            == job.(id := id, queue := if job.queue == "" then p.defaultChannel else job.queue, status := Pending,
                    reservedAt := At(Stamp(now)),
                    retryAfter := if job.dispatchAt.Blank? then At(Stamp(now)) else job.dispatchAt)
  {}

  /** Counts the tokens of a job that do not carry what was dispatched. */
  function Astray(id: string, o: Job): Token -> int {
    (t: Token) => if t.job.id == id && !Stems(t, o) then 1 else 0
  }

  predicate Owned(s: State, id: string, o: Job) {
    && Known(s, id)
    && Total(Astray(id, o), Never(), s) == 0
    && forall i | 0 <= i < |s.begun| && s.begun[i].tok.job.id == id :: Stems(s.begun[i].tok, o)
  }

  lemma AstrayGain(p: Params, s: State, e: Event, id: string, o: Job)
    requires Owned(s, id, o) && OnNone(Astray(id, o), s)
    ensures Gain(p, Astray(id, o), Never(), s, e) == 0
  {
    if Accepts(s, e) {
      assert e.id != id;
    } else if e.Finish? && CanFinish(s, e.w, e.outcome) {
      assert Astray(id, o)(s.workers[e.w].tok) == 0;
    }
  }

  lemma KnownStep(p: Params, s: State, e: Event, id: string)
    requires Known(s, id)
    ensures Known(Next(p, s, e), id)
  {
    DispatchedStep(p, s, e);
    var i :| 0 <= i < |s.dispatched| && s.dispatched[i].id == id;
    assert Next(p, s, e).dispatched[i].id == id;
  }

  lemma BegunOwned(p: Params, s: State, e: Event, id: string, o: Job)
    requires Owned(s, id, o) && OnNone(Astray(id, o), s)
    ensures var s' := Next(p, s, e);
            forall i | 0 <= i < |s'.begun| && s'.begun[i].tok.job.id == id :: Stems(s'.begun[i].tok, o)
  {
    BegunStep(p, s, e);
    if Receives(s, e) { assert Astray(id, o)(s.sending[e.i]) == 0; }
  }

  lemma OwnedStep(p: Params, s: State, e: Event, id: string, o: Job)
    requires Owned(s, id, o)
    ensures Owned(Next(p, s, e), id, o)
  {
    var s' := Next(p, s, e);
    Nowhere(Astray(id, o), s);
    TotalStep(p, Astray(id, o), Never(), s, e);
    AstrayGain(p, s, e, id, o);
    KnownStep(p, s, e, id);
    BegunOwned(p, s, e, id, o);
  }

  lemma {:induction false} OwnedRun(p: Params, s: State, es: seq<Event>, id: string, o: Job)
    requires Owned(s, id, o)
    ensures Owned(Run(p, s, es), id, o)
    decreases |es|
  {
    if es != [] {
      OwnedStep(p, s, es[0], id, o);
      OwnedRun(p, Next(p, s, es[0]), es[1..], id, o);
    }
  }

  // ----- the invocations of one job

  /** The invocations of a job, in order. */
  function Calls(begun: seq<Begun>, id: string): seq<Begun> {
    if begun == [] then []
    else Calls(begun[..|begun| - 1], id)
         + if begun[|begun| - 1].tok.job.id == id then [begun[|begun| - 1]] else []
  }

  lemma CallsSnoc(begun: seq<Begun>, b: Begun, id: string)
    ensures Calls(begun + [b], id) == Calls(begun, id) + if b.tok.job.id == id then [b] else []
  {
    assert (begun + [b])[..|begun|] == begun;
  }

  lemma {:induction false} CallsAre(begun: seq<Begun>, id: string)
    ensures |Calls(begun, id)| == Sum(OfBegun(id), begun)
    ensures forall k | 0 <= k < |Calls(begun, id)| :: Calls(begun, id)[k] in begun && Calls(begun, id)[k].tok.job.id == id
  {
    if begun != [] { CallsAre(begun[..|begun| - 1], id); }
  }

  function LastOf(calls: seq<Begun>): Begun requires calls != [] { calls[|calls| - 1] }

  /** The seconds that pass before a job that fails is offered again. */
  function Wait(job: Job): int { Max(0, RetryDelay(job)) }

  /** Each invocation is the next attempt of the one before and has waited for it. */
  predicate InTurn(calls: seq<Begun>) {
    && (forall k | 0 <= k < |calls| :: |calls[k].tok.past| == k)
    && (forall k, j | 0 <= k < |calls| - 1 && j == k + 1 ::
          && Continues(calls[j].tok, calls[k].tok)
          && calls[j].at >= calls[k].at + Seconds(Wait(calls[k].tok.job)))
  }

  /** The next attempt of the same job. */
  predicate Continues(tok: Token, before: Token) {
    tok.origin == before.origin && tok.job == before.job.(retryCounter := before.job.retryCounter + 1)
  }

  /** A token to be invoked next after `calls`. */
  predicate IsNext(calls: seq<Begun>, tok: Token) {
    |tok.past| == |calls| && (calls != [] ==> Continues(tok, LastOf(calls).tok))
  }

  // What each place says of a token of the job, when `calls` are its invocations so far.

  predicate Asleep(id: string, calls: seq<Begun>, t: Timer) {
    t.tok.job.id == id ==>
      && IsNext(calls, t.tok)
      && (calls != [] ==> t.wake >= LastOf(calls).at + Seconds(RetryDelay(LastOf(calls).tok.job)))
  }

  predicate OnOffer(id: string, calls: seq<Begun>, now: Instant, tok: Token) {
    tok.job.id == id ==>
      && IsNext(calls, tok)
      && (calls != [] ==> now >= LastOf(calls).at + Seconds(Wait(LastOf(calls).tok.job)))
  }

  predicate AtWork(id: string, calls: seq<Begun>, w: Phase) {
    w.Working? && w.admitted && w.tok.job.id == id ==> calls != [] && LastOf(calls).tok == w.tok
  }

  predicate GivenUp(id: string, calls: seq<Begun>, tok: Token) {
    tok.job.id == id ==> calls != [] && LastOf(calls).tok.origin == tok.origin
  }

  predicate Paced(s: State, calls: seq<Begun>, id: string) {
    && InTurn(calls) && (calls != [] ==> LastOf(calls).at <= s.now)
    && (forall i | 0 <= i < |s.sleeping| :: Asleep(id, calls, s.sleeping[i]))
    && (forall i | 0 <= i < |s.sending| :: OnOffer(id, calls, s.now, s.sending[i]))
    && (forall w | 0 <= w < |s.workers| :: AtWork(id, calls, s.workers[w]))
    && (forall i | 0 <= i < |s.failed| :: GivenUp(id, calls, s.failed[i]))
  }

  lemma PacedDispatch(p: Params, s: State, job: Job, id': string, calls: seq<Begun>, id: string)
    requires Paced(s, calls, id) && Accepts(s, Dispatch(job, id')) && (id' == id ==> calls == [])
    ensures Paced(Next(p, s, Dispatch(job, id')), calls, id)
  {}

  lemma PacedWake(p: Params, s: State, i: nat, calls: seq<Begun>, id: string)
    requires Paced(s, calls, id)
    ensures Paced(Next(p, s, Wake(i)), calls, id)
  {
    if i < |s.sleeping| && s.sleeping[i].wake <= s.now {
      assert Asleep(id, calls, s.sleeping[i]);
      assert OnOffer(id, calls, s.now, s.sleeping[i].tok);
    }
  }

  /** A worker takes a token of another job, or one it has no handler for. */
  lemma PacedPass(p: Params, s: State, w: nat, i: nat, calls: seq<Begun>, id: string)
    requires Paced(s, calls, id) && Receives(s, Receive(w, i))
    requires s.sending[i].job.id != id || !Runnable(s, s.sending[i].job)
    ensures Paced(Next(p, s, Receive(w, i)), calls, id)
  {}

  lemma InTurnSnoc(calls: seq<Begun>, tok: Token, now: Instant)
    requires InTurn(calls) && IsNext(calls, tok)
    requires calls != [] ==> now >= LastOf(calls).at + Seconds(Wait(LastOf(calls).tok.job))
    ensures InTurn(calls + [Begun(tok, now)])
  {
    var more := calls + [Begun(tok, now)];
    forall k, j | 0 <= k < |more| - 1 && j == k + 1
      ensures Continues(more[j].tok, more[k].tok) && more[j].at >= more[k].at + Seconds(Wait(more[k].tok.job))
    {
      assert more[k] == calls[k];
      if j < |calls| { assert more[j] == calls[j]; }
    }
  }

  /** The only token of a job leaves the channel for a worker. */
  lemma LoneReceive(s: State, i: nat)
    requires i < |s.sending| && Tokens(s, s.sending[i].job.id) <= 1
    ensures Tokenless(s.(sending := Remove(s.sending, i)), s.sending[i].job.id)
  {
    var id := s.sending[i].job.id;
    var s1 := s.(sending := Remove(s.sending, i));
    SumRemove(OfToken(id), s.sending, i);
    Shares(s1, id);
    assert Tokens(s1, id) == 0;
    NoTokenYet(s1, id);
  }

  /** A worker takes the job's token and invokes its handler. */
  lemma PacedStart(p: Params, s: State, w: nat, i: nat, calls: seq<Begun>)
    requires Receives(s, Receive(w, i)) && Runnable(s, s.sending[i].job)
    requires Paced(s, calls, s.sending[i].job.id) && Tokens(s, s.sending[i].job.id) <= 1
    ensures Paced(Next(p, s, Receive(w, i)), calls + [Begun(s.sending[i], s.now)], s.sending[i].job.id)
  {
    var tok := s.sending[i];
    assert OnOffer(tok.job.id, calls, s.now, tok);
    InTurnSnoc(calls, tok, s.now);
    LoneReceive(s, i);
  }

  lemma PacedFinish(p: Params, s: State, w: nat, o: Outcome, calls: seq<Begun>, id: string)
    requires Paced(s, calls, id) && CanFinish(s, w, o)
    ensures Paced(Next(p, s, Finish(w, o)), calls, id)
  {
    var tok := s.workers[w].tok;
    assert AtWork(id, calls, s.workers[w]);
    if s.workers[w].admitted && tok.job.id == id {
      assert LastOf(calls).tok == tok && |tok.past| == |calls| - 1;
      assert IsNext(calls, Again(tok, o));
      assert Asleep(id, calls, Timer(Again(tok, o), s.now + Seconds(RetryDelay(tok.job))));
    }
  }

  /** A job without a token has not been invoked. */
  lemma NotInvoked(s: State, id: string)
    requires Tokens(s, id) == 0 && Logged(s, id)
    ensures Calls(s.begun, id) == []
  {
    Shares(s, id);
    SumZero(OnTimer(OfToken(id)), OnTimer(RunsOf(id)), s.sleeping);
    SumZero(OfToken(id), RunsOf(id), s.sending);
    SumZero(OnPhase(OfToken(id), Never()), OnPhase(RunsOf(id), OfToken(id)), s.workers);
    SumZero(OfToken(id), RunsOf(id), s.completed);
    SumZero(OfToken(id), RunsOf(id), s.failed);
    SumZero(OfToken(id), RunsOf(id), s.dropped);
    CallsAre(s.begun, id);
  }

  /** The job's invocations after one more event. */
  function CallsAfter(s: State, e: Event, calls: seq<Begun>, id: string): seq<Begun> {
    if Receives(s, e) && Runnable(s, s.sending[e.i].job) && s.sending[e.i].job.id == id
    then calls + [Begun(s.sending[e.i], s.now)] else calls
  }

  lemma CallsStep(p: Params, s: State, e: Event, id: string)
    ensures Calls(Next(p, s, e).begun, id) == CallsAfter(s, e, Calls(s.begun, id), id)
  {
    BegunStep(p, s, e);
    if Receives(s, e) && Runnable(s, s.sending[e.i].job) {
      CallsSnoc(s.begun, Begun(s.sending[e.i], s.now), id);
    } else {
      assert s.begun + [] == s.begun;
    }
  }

  lemma PacedReceive(p: Params, s: State, e: Event, calls: seq<Begun>, id: string)
    requires Paced(s, calls, id) && Tokens(s, id) <= 1 && Receives(s, e)
    ensures Paced(Next(p, s, e), CallsAfter(s, e, calls, id), id)
  {
    if s.sending[e.i].job.id == id && Runnable(s, s.sending[e.i].job) {
      PacedStart(p, s, e.w, e.i, calls);
    } else {
      PacedPass(p, s, e.w, e.i, calls, id);
    }
  }

  lemma PacedOther(p: Params, s: State, e: Event, calls: seq<Begun>, id: string)
    requires Paced(s, calls, id) && (e.Advance? || e.Register? || e.Decrement?)
    ensures Paced(Next(p, s, e), calls, id)
  {}

  lemma PacedStep(p: Params, s: State, e: Event, calls: seq<Begun>, id: string)
    requires Paced(s, calls, id) && Tokens(s, id) <= 1 && (Accepts(s, e) && e.id == id ==> calls == [])
    ensures Paced(Next(p, s, e), CallsAfter(s, e, calls, id), id)
  {
    match e
    case Dispatch(job, id') => if Accepts(s, e) { PacedDispatch(p, s, job, id', calls, id); }
    case Wake(i) => PacedWake(p, s, i, calls, id);
    case Receive(w, i) => if Receives(s, e) { PacedReceive(p, s, e, calls, id); }
    case Finish(w, o) => if CanFinish(s, w, o) { PacedFinish(p, s, w, o, calls, id); }
    case _ => PacedOther(p, s, e, calls, id);
  }

  lemma {:induction false} PacedRun(p: Params, s: State, es: seq<Event>, id: string)
    requires Paced(s, Calls(s.begun, id), id) && Accounted(s, id)
    ensures var s' := Run(p, s, es); Paced(s', Calls(s'.begun, id), id)
    decreases |es|
  {
    if es != [] {
      if Accepts(s, es[0]) && es[0].id == id { NotInvoked(s, id); }
      PacedStep(p, s, es[0], Calls(s.begun, id), id);
      CallsStep(p, s, es[0], id);
      AccountedStep(p, s, es[0], id);
      PacedRun(p, Next(p, s, es[0]), es[1..], id);
    }
  }

  lemma RunIsPaced(p: Params, t: Instant, workers: nat, es: seq<Event>, id: string)
    ensures var s := Run(p, Init(t, workers), es); Paced(s, Calls(s.begun, id), id)
  {
    AlwaysAccounted(p, t, workers, [], id);
    assert Run(p, Init(t, workers), []) == Init(t, workers);
    PacedRun(p, Init(t, workers), es, id);
  }

  // ----- results

  /** What a failing invocation leaves: a timer that wakes exactly the retry delay later,
      R * k seconds for RetryInSeconds R and counter k, R if that is zero, k if R is zero,
      or one more failed job. Either way the failure is recorded. */
  lemma RetryTimer(p: Params, s: State, w: nat, o: Outcome)
    requires CanFinish(s, w, o) && s.workers[w].admitted && Failing(o)
    ensures var s' := Next(p, s, Finish(w, o)); var tok := s.workers[w].tok;
            var r := tok.job.retryInSeconds; var k := tok.job.retryCounter;
            s'.failures == s.failures + [tok.job.id] &&
            if tok.job.retry && k < p.cfg.maxAttempts then
              var d := if r == 0 then k else if r * k == 0 then r else r * k;
              && s'.sleeping == s.sleeping + [Timer(Token(tok.job.(retryCounter := k + 1), tok.origin, tok.past + [o]),
                                                    s.now + Seconds(d))]
              && s'.failed == s.failed
            else
              s'.sleeping == s.sleeping && s'.failed == s.failed + [Token(tok.job, tok.origin, tok.past + [o])]
  {}

  /** A job accepted for a later time sleeps until exactly then; any other is on offer at once. */
  lemma ScheduleTimer(p: Params, s: State, job: Job, id: string)
    requires Accepts(s, Dispatch(job, id))
    ensures var s' := Next(p, s, Dispatch(job, id)); var tok := FreshToken(Accepted(p, job, id, s.now));
            if job.dispatchAt.At? && job.dispatchAt.t > s.now
            then s'.sleeping == s.sleeping + [Timer(tok, job.dispatchAt.t)] && s'.sending == s.sending
            else s'.sleeping == s.sleeping && s'.sending == s.sending + [tok]
  {}

  /** In every interleaving, between an invocation of a job with counter k and the next one,
      which has counter k + 1, the whole retry delay passes: R * k seconds, R if that is
      zero, k if R is zero, nothing if that is negative. */
  lemma MemoryBackoff(p: Params, t: Instant, workers: nat, es: seq<Event>, id: string, i: nat)
    requires i + 1 < |Calls(Run(p, Init(t, workers), es).begun, id)|
    ensures var calls := Calls(Run(p, Init(t, workers), es).begun, id);
            var job := calls[i].tok.job; var r := job.retryInSeconds; var k := job.retryCounter;
            var d := if r == 0 then k else if r * k == 0 then r else r * k;
            && calls[i + 1].tok.job == job.(retryCounter := k + 1)
            && calls[i + 1].at >= calls[i].at + Seconds(if d < 0 then 0 else d)
  {
    RunIsPaced(p, t, workers, es, id);
    var calls := Calls(Run(p, Init(t, workers), es).begun, id);
    assert Continues(calls[i + 1].tok, calls[i].tok);
  }

  /** Seconds to wait before the first n retries of a job. */
  function TotalDelay(o: Job, n: nat): int {
    if n == 0 then 0 else TotalDelay(o, n - 1) + Wait(o.(retryCounter := o.retryCounter + n - 1))
  }

  lemma NextTriangle(r: int, n: int)
    ensures r * (n * (n - 1)) == r * ((n - 1) * (n - 2)) + 2 * (r * (n - 1))
  {
    assert n * (n - 1) == (n - 1) * (n - 2) + 2 * (n - 1);
    var x, y := (n - 1) * (n - 2), n - 1;
    assert r * (x + 2 * y) == r * x + 2 * (r * y);
  }

  lemma DelayOf(o: Job, n: nat)
    requires o.retryCounter == 0 && n >= 1
    ensures var r := o.retryInSeconds;
            TotalDelay(o, n + 1) - TotalDelay(o, n) == if r == 0 then n else if r < 0 then 0 else r * n
  {
    var r := o.retryInSeconds;
    if r < 0 { assert r * n < 0; }
    if r > 0 { assert r * n > 0; }
  }

  /** Twice the total delay of the first n retries counted from zero. */
  lemma {:induction false} DelayClosedForm(o: Job, n: nat)
    requires o.retryCounter == 0 && n >= 1
    ensures var r := o.retryInSeconds;
            2 * TotalDelay(o, n)
            == if r == 0 then n * (n - 1) else if r < 0 then 0 else 2 * r + r * (n * (n - 1))
  {
    if n == 1 {
      assert TotalDelay(o, 1) == TotalDelay(o, 0) + Wait(o.(retryCounter := 0));
    } else {
      DelayClosedForm(o, n - 1);
      DelayOf(o, n - 1);
      NextTriangle(o.retryInSeconds, n);
      NextTriangle(1, n);
    }
  }

  lemma {:induction false} WaitsAddUp(calls: seq<Begun>, k: nat)
    requires InTurn(calls) && k < |calls|
    ensures var o := calls[0].tok.job;
            && calls[k].tok.job == o.(retryCounter := o.retryCounter + k) && calls[k].tok.origin == calls[0].tok.origin
            && calls[k].at - calls[0].at >= Seconds(TotalDelay(o, k))
  {
    if k > 0 {
      WaitsAddUp(calls, k - 1);
      assert Continues(calls[k].tok, calls[k - 1].tok);
    }
  }

  /** The first invocation of a job that failed for good is that of the job as dispatched,
      and there are as many as its budget allows. */
  lemma FailedCalls(p: Params, t: Instant, workers: nat, es: seq<Event>, i: nat)
    requires i < |Run(p, Init(t, workers), es).failed|
    ensures var s := Run(p, Init(t, workers), es); var tok := s.failed[i];
            var calls := Calls(s.begun, tok.job.id);
            InTurn(calls) && |calls| == Budget(p.cfg, tok.origin) && calls != [] && calls[0].tok.job == tok.origin
  {
    var s := Run(p, Init(t, workers), es);
    var tok := s.failed[i];
    var calls := Calls(s.begun, tok.job.id);
    MemoryVerdicts(p, t, workers, es, false, i);
    CallsAre(s.begun, tok.job.id);
    RunIsPaced(p, t, workers, es, tok.job.id);
    assert GivenUp(tok.job.id, calls, tok);
    WaitsAddUp(calls, |calls| - 1);
    TracedFromInit(p, t, workers, es);
    var first :| 0 <= first < |s.begun| && s.begun[first] == calls[0];
    assert Sound(p, s.begun[first].tok);
  }

  /** A retrying job dispatched with counter 0 that never succeeds is invoked M + 1 times, and
      at least R + R * M * (M - 1) / 2 seconds pass from the first to the last invocation,
      M * (M - 1) / 2 when R is 0. */
  lemma TotalSleep(p: Params, t: Instant, workers: nat, es: seq<Event>, i: nat)
    requires p.cfg.maxAttempts >= 1
    requires var s := Run(p, Init(t, workers), es);
             i < |s.failed| && s.failed[i].origin.retry && s.failed[i].origin.retryCounter == 0
    ensures var s := Run(p, Init(t, workers), es); var tok := s.failed[i];
            var calls := Calls(s.begun, tok.job.id);
            var r := tok.origin.retryInSeconds; var m := p.cfg.maxAttempts;
            && |calls| == m + 1
            && 2 * (calls[m].at - calls[0].at)
               >= Seconds(if r == 0 then m * (m - 1) else if r < 0 then 0 else 2 * r + r * (m * (m - 1)))
  {
    var s := Run(p, Init(t, workers), es);
    var tok := s.failed[i];
    FailedCalls(p, t, workers, es, i);
    WaitsAddUp(Calls(s.begun, tok.job.id), p.cfg.maxAttempts);
    DelayClosedForm(tok.origin, p.cfg.maxAttempts);
  }

  /** In every interleaving each token of a job, and each invocation of its handler, carries
      exactly what was requested, but for the id, the default channel, the dispatch's own
      stamps and the counter. */
  lemma MemoryKeepsTheJob(p: Params, t: Instant, workers: nat, before: seq<Event>, job: Job, id: string,
                          rest: seq<Event>)
    requires Accepts(Run(p, Init(t, workers), before), Dispatch(job, id))
    ensures var s0 := Run(p, Init(t, workers), before);
            var s := Run(p, Init(t, workers), before + [Dispatch(job, id)] + rest);
            var o := job.(id := id, queue := if job.queue == "" then p.defaultChannel else job.queue, status := Pending,
                          reservedAt := At(Stamp(s0.now)),
                          retryAfter := if job.dispatchAt.Blank? then At(Stamp(s0.now)) else job.dispatchAt);
            && OnNone(Astray(id, o), s)
            && forall i | 0 <= i < |s.begun| && s.begun[i].tok.job.id == id ::
                 s.begun[i].tok.job == o.(retryCounter := s.begun[i].tok.job.retryCounter)
  {
    var init := Init(t, workers);
    var s0, e := Run(p, init, before), Dispatch(job, id);
    var o := Accepted(p, job, id, s0.now);
    DispatchMakes(p, job, id, s0.now);
    OwnedDispatch(p, t, workers, before, job, id);
    OwnedRun(p, Next(p, s0, e), rest, id, o);
    assert before + [e] + rest == before + ([e] + rest) && ([e] + rest)[1..] == rest;
    RunConcat(p, init, before, [e] + rest);
    Nowhere(Astray(id, o), Run(p, init, before + [e] + rest));
  }

  lemma OwnedDispatch(p: Params, t: Instant, workers: nat, before: seq<Event>, job: Job, id: string)
    requires Accepts(Run(p, Init(t, workers), before), Dispatch(job, id))
    ensures var s0 := Run(p, Init(t, workers), before);
            Owned(Next(p, s0, Dispatch(job, id)), id, Accepted(p, job, id, s0.now))
  {
    var s0, e := Run(p, Init(t, workers), before), Dispatch(job, id);
    var o := Accepted(p, job, id, s0.now);
    AlwaysAccounted(p, t, workers, before, id);
    NoneAstray(s0, id, o);
    NotInvoked(s0, id);
    NotBegun(s0.begun, id);
    OwnedFirst(p, s0, job, id, o);
  }

  lemma OwnedFirst(p: Params, s: State, job: Job, id: string, o: Job)
    requires Accepts(s, Dispatch(job, id)) && o == Accepted(p, job, id, s.now)
    requires Total(Astray(id, o), Never(), s) == 0 && forall i | 0 <= i < |s.begun| :: s.begun[i].tok.job.id != id
    ensures Owned(Next(p, s, Dispatch(job, id)), id, o)
  {
    var e := Dispatch(job, id);
    TotalStep(p, Astray(id, o), Never(), s, e);
    assert Gain(p, Astray(id, o), Never(), s, e) == Astray(id, o)(FreshToken(o)) == 0;
    BegunStep(p, s, e);
    DispatchedStep(p, s, e);
    assert Next(p, s, e).dispatched[|s.dispatched|].id == id;
  }

  /** A job without tokens has none astray. */
  lemma NoneAstray(s: State, id: string, o: Job)
    requires Tokens(s, id) == 0
    ensures Total(Astray(id, o), Never(), s) == 0
  {
    Shares(s, id);
    SumZero(OnTimer(OfToken(id)), OnTimer(Astray(id, o)), s.sleeping);
    SumZero(OfToken(id), Astray(id, o), s.sending);
    SumZero(OnPhase(OfToken(id), Never()), OnPhase(Astray(id, o), Never()), s.workers);
    SumZero(OfToken(id), Astray(id, o), s.completed);
    SumZero(OfToken(id), Astray(id, o), s.failed);
    SumZero(OfToken(id), Astray(id, o), s.dropped);
  }

  lemma {:induction false} NotBegun(begun: seq<Begun>, id: string)
    requires Calls(begun, id) == []
    ensures forall i | 0 <= i < |begun| :: begun[i].tok.job.id != id
  {
    if begun != [] { NotBegun(begun[..|begun| - 1], id); }
  }
}
