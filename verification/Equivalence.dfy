/** The two backends agree: the same job under the same handler behaviour runs equally
    often and ends the same way on both. */
module Equivalence {
  import opened Jobs
  import opened Protocol
  import opened LeaseSafety
  import opened Accounting
  import opened Termination
  import Memory
  import MemoryRuns
  import MemoryTiming

  /** The log of a finished job: failures, then a success within the budget, or failures
      that use the budget up. */
  predicate FinishedLog(cfg: Settings, o: Job, log: seq<Outcome>, ok: bool) {
    && log != [] && |log| <= Budget(cfg, o)
    && AllFailing(log[..|log| - 1])
    && if ok then log[|log| - 1].Success? else Failing(log[|log| - 1]) && |log| == Budget(cfg, o)
  }

  /** The handler's n-th run ends as the script says. */
  ghost predicate Follows(log: seq<Outcome>, script: nat -> Outcome) {
    forall i: nat | i < |log| :: log[i] == script(i)
  }

  lemma FailingBeforeEnd(log: seq<Outcome>)
    requires log != [] && AllFailing(log[..|log| - 1])
    ensures forall i | 0 <= i < |log| - 1 :: Failing(log[i])
  {
    forall i | 0 <= i < |log| - 1 ensures Failing(log[i]) {
      assert log[..|log| - 1][i] == log[i];
    }
  }

  lemma OneFinishedLog(cfg: Settings, o: Job, script: nat -> Outcome,
                       a: seq<Outcome>, okA: bool, b: seq<Outcome>, okB: bool)
    requires FinishedLog(cfg, o, a, okA) && Follows(a, script)
    requires FinishedLog(cfg, o, b, okB) && Follows(b, script)
    ensures a == b && okA == okB
  {
    FailingBeforeEnd(a);
    FailingBeforeEnd(b);
    assert |a| <= |b| ==> a[|a| - 1] == b[|a| - 1];
    assert |b| <= |a| ==> a[|b| - 1] == b[|b| - 1];
  }

  /** A finished redis job that lost no worker to a crash left a finished log, one
      outcome per execution. */
  lemma RedisLog(cfg: Settings, t: Instant, es: seq<Event>)
    requires Punctual(cfg, Init(t), es)
    requires var c := Run(cfg, Init(t), es);
             c.origin.Some? && Parseable(c) && Terminal(c.h) && c.crashes == 0 && NoHandler !in c.outcomes
    ensures var c := Run(cfg, Init(t), es);
            && FinishedLog(cfg, c.origin.value, c.outcomes, ShapeOf(c.h).Done?)
            && |c.starts| == |c.outcomes|
  {
    LedgerRun(cfg, Init(t), es);
    var c := Run(cfg, Init(t), es);
    NoneLive(c.live);
  }

  /** For every job with a handler and every script of outcomes: any finished redis run
      without crashes or overruns and any memory run in which the job has ended ran the
      handler equally often and reached the same verdict. */
  lemma BackendsAgree(cfg: Settings, t: Instant, es: seq<Event>,
                      p: Memory.Params, t': Instant, workers: nat, ms: seq<Memory.Event>,
                      completed: bool, i: nat, script: nat -> Outcome)
    requires Punctual(cfg, Init(t), es) && p.cfg.maxAttempts == cfg.maxAttempts
    requires var c := Run(cfg, Init(t), es);
             && c.origin.Some? && Parseable(c) && Terminal(c.h) && c.crashes == 0 && NoHandler !in c.outcomes
             && Follows(c.outcomes, script)
    requires var m := Memory.Run(p, Memory.Init(t', workers), ms);
             var ended := Memory.Ended(m, completed);
             var o := Run(cfg, Init(t), es).origin.value;
             && i < |ended| && Follows(ended[i].past, script)
             && ended[i].origin.retry == o.retry && ended[i].origin.retryCounter == o.retryCounter
    ensures var c := Run(cfg, Init(t), es);
            var m := Memory.Run(p, Memory.Init(t', workers), ms);
            var tok := Memory.Ended(m, completed)[i];
            && |c.starts| == Memory.Invocations(m, tok.job.id)
            && c.outcomes == tok.past
            && (c.h.completed.Some? <==> completed)
  {
    var c := Run(cfg, Init(t), es);
    var m := Memory.Run(p, Memory.Init(t', workers), ms);
    var tok := Memory.Ended(m, completed)[i];
    RedisLog(cfg, t, es);
    MemoryRuns.MemoryVerdicts(p, t', workers, ms, completed, i);
    assert FinishedLog(cfg, c.origin.value, tok.past, completed);
    OneFinishedLog(cfg, c.origin.value, script, c.outcomes, ShapeOf(c.h).Done?, tok.past, completed);
  }

  // ----- every script can be played to the end on redis

  lemma {:induction false} PunctualConcat(cfg: Settings, c: Cell, a: seq<Event>, b: seq<Event>)
    requires Punctual(cfg, c, a) && Punctual(cfg, Run(cfg, c, a), b)
    ensures Punctual(cfg, c, a + b)
    decreases |a|
  {
    if a == [] {
      assert a + b == b;
    } else {
      assert (a + b)[1..] == a[1..] + b;
      PunctualConcat(cfg, Next(cfg, c, a[0]), a[1..], b);
    }
  }

  /** One claim and its settlement, on time. */
  lemma PlayOne(cfg: Settings, c: Cell, o: Outcome) returns (es: seq<Event>)
    requires c.live == map[] && c.h.pending.Some? && c.h.pending.value.retryAfter.At?
    requires c.origin.Some? && Timeout(cfg, c.origin.value) >= 1
    ensures Punctual(cfg, c, es)
    ensures var c' := Run(cfg, c, es); var p := c.h.pending.value;
            && c'.live == map[] && c'.origin == c.origin && c'.crashes == c.crashes && c'.outcomes == c.outcomes + [o]
            && c'.h == SettleHashes(cfg, c.h.(pending := None, locked := Some(Stamped(p, c'.now).(status := Processing))),
                                    Stamped(p, c'.now), o, c'.now)
  {
    var d: nat := Max(0, c.h.pending.value.retryAfter.t + 1 - c.now);
    es := [Advance(d), Claim(0), Settle(0, o), Advance(0)];
    Unroll4(cfg, c, es);
    var c1 := Next(cfg, c, Advance(d));
    var c2 := Next(cfg, c1, Claim(0));
    assert c2.live == map[0 := Lease(Stamped(c.h.pending.value, c1.now), c1.now)];
    assert c2.live - {0} == map[];
  }

  /** From a waiting job, any script without NoHandler can be followed to completed or
      failed by a run without crashes or overruns. */
  lemma {:induction false} PlayScript(cfg: Settings, c: Cell, script: nat -> Outcome) returns (es: seq<Event>)
    requires c.live == map[] && c.h.completed.None? && c.h.failed.None?
    requires c.h.pending.Some? && c.h.pending.value.retryAfter.At?
    requires c.origin.Some? && Timeout(cfg, c.origin.value) >= 1
    requires Follows(c.outcomes, script) && forall n :: script(n) != NoHandler
    ensures Punctual(cfg, c, es)
    ensures var c' := Run(cfg, c, es);
            Terminal(c'.h) && c'.origin == c.origin && c'.crashes == c.crashes && Follows(c'.outcomes, script)
    decreases Left(cfg, c.h.pending.value)
  {
    es := PlayOne(cfg, c, script(|c.outcomes|));
    var c' := Run(cfg, c, es);
    if c'.h.pending.Some? {
      var rest := PlayScript(cfg, c', script);
      PunctualConcat(cfg, c, es, rest);
      RunConcat(cfg, c, es, rest);
      es := es + rest;
    }
  }

  /** Every job with a parseable schedule and every script have a finished redis run, so
      BackendsAgree is never empty on that side. Under a handler that always fails, a
      retrying job dispatched with counter 0 runs MaxAttempts + 1 times, one more than
      the documentation of MaxAttempts says. */
  lemma EveryScriptFinishes(cfg: Settings, t: Instant, job: Job, script: nat -> Outcome) returns (es: seq<Event>)
    requires !job.dispatchAt.Malformed? && Timeout(cfg, job) >= 1 && forall n :: script(n) != NoHandler
    ensures Punctual(cfg, Init(t), es)
    ensures var c := Run(cfg, Init(t), es);
            && c.origin == Some(Prepared(job, t)) && Terminal(c.h) && c.crashes == 0 && Follows(c.outcomes, script)
            && NoHandler !in c.outcomes
            && (job.retry && job.retryCounter == 0 <= cfg.maxAttempts && (forall n :: script(n) == Error) ==>
                  |c.starts| == cfg.maxAttempts + 1)
  {
    var c1 := Next(cfg, Init(t), Dispatch(job));
    var rest := PlayScript(cfg, c1, script);
    es := [Dispatch(job)] + rest;
    assert es[1..] == rest;
    var c := Run(cfg, Init(t), es);
    assert c == Run(cfg, c1, rest);
    RedisLog(cfg, t, es);
    if ShapeOf(c.h).Done? { assert c.outcomes[|c.outcomes| - 1] == script(|c.outcomes| - 1); }
  }

  // ----- and on the memory backend

  /** One idle worker, nothing asleep, one runnable job on the channel. */
  predicate OnOffer(s: Memory.State, tok: Memory.Token) {
    s.workers == [Memory.Idle] && s.sleeping == [] && s.sending == [tok] && Memory.Runnable(s, tok.job)
  }

  lemma MemoryThree(p: Memory.Params, s: Memory.State, a: Memory.Event, b: Memory.Event, c: Memory.Event)
    ensures Memory.Run(p, s, [a, b, c]) == Memory.Next(p, Memory.Next(p, Memory.Next(p, s, a), b), c)
  {
    var s1 := Memory.Next(p, s, a);
    var s2 := Memory.Next(p, s1, b);
    assert [a, b, c][1..] == [b, c] && [b, c][1..] == [c] && [c][1..] == [];
    assert Memory.Run(p, s1, [b, c]) == Memory.Run(p, s2, [c]) == Memory.Next(p, s2, c);
  }

  lemma MemoryTake(p: Memory.Params, s: Memory.State, tok: Memory.Token)
    requires OnOffer(s, tok)
    ensures Memory.Next(p, s, Memory.Receive(0, 0))
            == s.(sending := [], workers := [Memory.Working(tok, true)], begun := s.begun + [Memory.Begun(tok, s.now)])
  {}

  lemma MemoryHand(p: Memory.Params, s: Memory.State, tok: Memory.Token, o: Outcome)
    requires s.workers == [Memory.Working(tok, true)] && !o.NoHandler?
    ensures var s' := Memory.Next(p, Memory.Next(p, s, Memory.Finish(0, o)), Memory.Decrement(0));
            s' == Memory.Handed(p, s.(workers := [Memory.Idle], pendingCount := s.pendingCount - 1), tok, true, o)
  {
    assert s.workers[0 := Memory.Finishing] == [Memory.Finishing];
  }

  /** Receive, run and decrement. */
  lemma MemoryPlayOne(p: Memory.Params, s: Memory.State, tok: Memory.Token, o: Outcome) returns (es: seq<Memory.Event>)
    requires OnOffer(s, tok) && !o.NoHandler?
    ensures var s' := Memory.Run(p, s, es);
            && s'.workers == [Memory.Idle] && s'.sending == [] && s'.registered == s.registered
            && s'.now == s.now && s'.begun == s.begun + [Memory.Begun(tok, s.now)]
            && (o.Success? ==> s'.sleeping == [] && s'.completed == s.completed + [tok.(past := tok.past + [o])])
            && (!o.Success? && RetriesLeft(p.cfg, tok.job) ==>
                  && s'.failed == s.failed
                  && s'.sleeping == [Memory.Timer(Memory.Again(tok, o), s.now + Seconds(Memory.RetryDelay(tok.job)))])
            && (!o.Success? && !RetriesLeft(p.cfg, tok.job) ==>
                  s'.sleeping == [] && s'.failed == s.failed + [tok.(past := tok.past + [o])])
  {
    var a, b, c := Memory.Receive(0, 0), Memory.Finish(0, o), Memory.Decrement(0);
    es := [a, b, c];
    MemoryThree(p, s, a, b, c);
    MemoryTake(p, s, tok);
    MemoryHand(p, Memory.Next(p, s, a), tok, o);
  }

  /** Waiting out a retry timer puts the job back on the channel. */
  lemma MemoryWakeUp(p: Memory.Params, s: Memory.State) returns (es: seq<Memory.Event>)
    requires s.workers == [Memory.Idle] && s.sending == [] && |s.sleeping| == 1
    ensures var s' := Memory.Run(p, s, es);
            && s'.workers == [Memory.Idle] && s'.sleeping == [] && s'.sending == [s.sleeping[0].tok]
            && s'.registered == s.registered && s'.begun == s.begun && s'.failed == s.failed
            && s'.now == Max(s.now, s.sleeping[0].wake)
  {
    var d: nat := Max(0, s.sleeping[0].wake - s.now);
    es := [Memory.Advance(d), Memory.Wake(0), Memory.Advance(0)];
    MemoryThree(p, s, es[0], es[1], es[2]);
  }

  /** A failing invocation and the wait for the next. */
  lemma MemoryRetry(p: Memory.Params, s: Memory.State, tok: Memory.Token, o: Outcome) returns (es: seq<Memory.Event>)
    requires OnOffer(s, tok) && Failing(o) && RetriesLeft(p.cfg, tok.job)
    ensures var s' := Memory.Run(p, s, es);
            && OnOffer(s', Memory.Again(tok, o)) && s'.failed == s.failed
            && s'.begun == s.begun + [Memory.Begun(tok, s.now)]
            && s'.now == s.now + Seconds(MemoryTiming.Wait(tok.job))
  {
    es := MemoryPlayOne(p, s, tok, o);
    var s1 := Memory.Run(p, s, es);
    var wake := MemoryWakeUp(p, s1);
    MemoryRuns.RunConcat(p, s, es, wake);
    es := es + wake;
  }

  lemma {:induction false} MemoryPlayScript(p: Memory.Params, s: Memory.State, tok: Memory.Token, script: nat -> Outcome)
    returns (es: seq<Memory.Event>, completed: bool)
    requires OnOffer(s, tok) && Follows(tok.past, script) && forall n :: script(n) != NoHandler
    ensures var ended := Memory.Ended(Memory.Run(p, s, es), completed);
            && ended != [] && var last := ended[|ended| - 1];
            last.origin == tok.origin && last.job.id == tok.job.id && Follows(last.past, script)
    decreases Left(p.cfg, tok.job)
  {
    var o := script(|tok.past|);
    completed := o.Success?;
    if !o.Success? && RetriesLeft(p.cfg, tok.job) {
      es := MemoryRetry(p, s, tok, o);
      var rest;
      rest, completed := MemoryPlayScript(p, Memory.Run(p, s, es), Memory.Again(tok, o), script);
      MemoryRuns.RunConcat(p, s, es, rest);
      es := es + rest;
    } else {
      es := MemoryPlayOne(p, s, tok, o);
    }
  }

  /** Making the handler known, if the job does not carry it. */
  function Provide(job: Job): seq<Memory.Event> {
    if job.inlineHandler then [] else [Memory.Register(job.name)]
  }

  lemma Provided(p: Memory.Params, t: Instant, job: Job)
    ensures var s := Memory.Run(p, Memory.Init(t, 1), Provide(job));
            s == Memory.Init(t, 1).(registered := s.registered) && s.workers == [Memory.Idle] && Memory.Runnable(s, job)
  {
    var init := Memory.Init(t, 1);
    assert init.workers == [Memory.Idle];
    if !job.inlineHandler {
      var e := Memory.Register(job.name);
      assert [e][1..] == [];
      assert Memory.Run(p, init, [e]) == Memory.Next(p, init, e);
    }
  }

  /** Dispatched on an idle queue, a job comes on offer, at once or when its time comes. */
  lemma Offered(p: Memory.Params, s: Memory.State, job: Job, id: string) returns (wake: seq<Memory.Event>)
    requires s.workers == [Memory.Idle] && s.sleeping == [] && s.sending == [] && Memory.Runnable(s, job)
    requires Memory.Accepts(s, Memory.Dispatch(job, id))
    ensures OnOffer(Memory.Run(p, Memory.Next(p, s, Memory.Dispatch(job, id)), wake),
                    Memory.FreshToken(Memory.Accepted(p, job, id, s.now)))
    ensures var s' := Memory.Run(p, Memory.Next(p, s, Memory.Dispatch(job, id)), wake);
            s'.begun == s.begun && s'.failed == s.failed
  {
    var s1 := Memory.Next(p, s, Memory.Dispatch(job, id));
    wake := [];
    if job.dispatchAt.At? && job.dispatchAt.t > s.now { wake := MemoryWakeUp(p, s1); }
  }

  /** With one worker, every job with an inline or registered handler and a parseable
      schedule, and every script without NoHandler, have a memory run in which the job is
      dispatched and follows the script to completed or failed. */
  lemma EveryScriptFinishesInMemory(p: Memory.Params, t: Instant, job: Job, id: string, script: nat -> Outcome)
    returns (rest: seq<Memory.Event>, completed: bool, i: nat)
    requires !job.dispatchAt.Malformed? && forall n :: script(n) != NoHandler
    ensures var m := Memory.Run(p, Memory.Init(t, 1), Provide(job) + [Memory.Dispatch(job, id)] + rest);
            && i < |Memory.Ended(m, completed)|
            && var tok := Memory.Ended(m, completed)[i];
            tok.job.id == id && tok.origin == Memory.Accepted(p, job, id, t) && Follows(tok.past, script)
  {
    var init, e := Memory.Init(t, 1), Memory.Dispatch(job, id);
    var s0 := Memory.Run(p, init, Provide(job));
    Provided(p, t, job);
    var wake := Offered(p, s0, job, id);
    var s1 := Memory.Next(p, s0, e);
    var more;
    more, completed :=
      MemoryPlayScript(p, Memory.Run(p, s1, wake), Memory.FreshToken(Memory.Accepted(p, job, id, t)), script);
    rest := wake + more;
    MemoryRuns.RunConcat(p, s1, wake, more);
    MemoryRunInto(p, init, Provide(job), e, rest);
    i := |Memory.Ended(Memory.Run(p, s1, rest), completed)| - 1;
  }

  // ----- the shortest time a failing job takes in memory

  lemma {:induction false} FirstDelay(o: Job, n: nat)
    requires n > 0
    ensures MemoryTiming.TotalDelay(o, n)
            == MemoryTiming.Wait(o) + MemoryTiming.TotalDelay(o.(retryCounter := o.retryCounter + 1), n - 1)
  {
    if n > 1 {
      FirstDelay(o, n - 1);
      assert o.(retryCounter := o.retryCounter + 1).(retryCounter := o.retryCounter + 1 + (n - 2))
             == o.(retryCounter := o.retryCounter + n - 1);
    } else {
      assert o.(retryCounter := o.retryCounter) == o;
    }
  }

  /** From `s` to `s'` the job was invoked n + 1 times, the first time at once and the last
      after all its delays, and then failed. */
  predicate Failed(s: Memory.State, s': Memory.State, tok: Memory.Token, n: nat) {
    && |s'.begun| == |s.begun| + 1 + n && s.begun + [Memory.Begun(tok, s.now)] <= s'.begun
    && (forall i | |s.begun| <= i < |s'.begun| :: s'.begun[i].tok.job.id == tok.job.id)
    && s'.begun[|s'.begun| - 1].at == s.now + Seconds(MemoryTiming.TotalDelay(tok.job, n))
    && |s'.failed| == |s.failed| + 1 && s'.failed[|s.failed|].job.id == tok.job.id
  }

  lemma FailedLater(s: Memory.State, s1: Memory.State, s': Memory.State, tok: Memory.Token, again: Memory.Token, n: nat)
    requires Failed(s1, s', again, n) && again.job == tok.job.(retryCounter := tok.job.retryCounter + 1)
    requires s1.begun == s.begun + [Memory.Begun(tok, s.now)] && s1.failed == s.failed
    requires s1.now == s.now + Seconds(MemoryTiming.Wait(tok.job))
    ensures Failed(s, s', tok, n + 1)
  {
    FirstDelay(tok.job, n + 1);
    assert s1.begun <= s1.begun + [Memory.Begun(again, s1.now)] <= s'.begun;
    assert s'.begun[|s.begun|] == s1.begun[|s.begun|];
  }

  /** A handler that fails at every invocation, on an otherwise idle queue. */
  lemma {:induction false} MemoryPlayErrors(p: Memory.Params, s: Memory.State, tok: Memory.Token)
    returns (es: seq<Memory.Event>)
    requires OnOffer(s, tok)
    ensures Failed(s, Memory.Run(p, s, es), tok, Left(p.cfg, tok.job))
    decreases Left(p.cfg, tok.job)
  {
    if RetriesLeft(p.cfg, tok.job) {
      es := MemoryRetry(p, s, tok, Error);
      var s1, again := Memory.Run(p, s, es), Memory.Again(tok, Error);
      var rest := MemoryPlayErrors(p, s1, again);
      MemoryRuns.RunConcat(p, s, es, rest);
      FailedLater(s, s1, Memory.Run(p, s1, rest), tok, again, Left(p.cfg, again.job));
      es := es + rest;
    } else {
      es := MemoryPlayOne(p, s, tok, Error);
    }
  }

  lemma {:induction false} AllCalls(begun: seq<Memory.Begun>, id: string)
    requires forall i | 0 <= i < |begun| :: begun[i].tok.job.id == id
    ensures MemoryTiming.Calls(begun, id) == begun
  {
    if begun != [] {
      AllCalls(begun[..|begun| - 1], id);
      assert begun == begun[..|begun| - 1] + [begun[|begun| - 1]];
    }
  }

  /** The bound of TotalSleep is attained: for every retrying job from counter 0 some run
      takes exactly that long from the first to the last invocation. */
  lemma SleepIsExact(p: Memory.Params, t: Instant, job: Job, id: string) returns (es: seq<Memory.Event>)
    requires !job.dispatchAt.Malformed? && job.retry && job.retryCounter == 0 && p.cfg.maxAttempts >= 1
    ensures var s := Memory.Run(p, Memory.Init(t, 1), es);
            var calls := MemoryTiming.Calls(s.begun, id);
            var r := job.retryInSeconds; var m := p.cfg.maxAttempts;
            && |s.failed| == 1 && s.failed[0].job.id == id && |calls| == m + 1
            && 2 * (calls[m].at - calls[0].at)
               == Seconds(if r == 0 then m * (m - 1) else if r < 0 then 0 else 2 * r + r * (m * (m - 1)))
  {
    var init, o := Memory.Init(t, 1), Memory.Accepted(p, job, id, t);
    es := MemoryDispatchErrors(p, t, job, id);
    var s := Memory.Run(p, init, es);
    AllCalls(s.begun, id);
    MemoryTiming.DelayClosedForm(o, p.cfg.maxAttempts);
  }

  lemma MemoryDispatchErrors(p: Memory.Params, t: Instant, job: Job, id: string) returns (es: seq<Memory.Event>)
    requires !job.dispatchAt.Malformed?
    ensures var s := Memory.Run(p, Memory.Init(t, 1), es); var o := Memory.Accepted(p, job, id, t);
            && |s.begun| == 1 + Left(p.cfg, o) && |s.failed| == 1 && s.failed[0].job.id == id
            && (forall i | 0 <= i < |s.begun| :: s.begun[i].tok.job.id == id)
            && s.begun[|s.begun| - 1].at == s.begun[0].at + Seconds(MemoryTiming.TotalDelay(o, Left(p.cfg, o)))
  {
    var init, e := Memory.Init(t, 1), Memory.Dispatch(job, id);
    var s0 := Memory.Run(p, init, Provide(job));
    Provided(p, t, job);
    var wake := Offered(p, s0, job, id);
    var s1 := Memory.Next(p, s0, e);
    var s2, tok := Memory.Run(p, s1, wake), Memory.FreshToken(Memory.Accepted(p, job, id, t));
    var rest := MemoryPlayErrors(p, s2, tok);
    MemoryRuns.RunConcat(p, s1, wake, rest);
    es := Provide(job) + [e] + (wake + rest);
    MemoryRunInto(p, init, Provide(job), e, wake + rest);
    assert (s2.begun + [Memory.Begun(tok, s2.now)])[0] == Memory.Begun(tok, s2.now);
  }

  lemma MemoryRunInto(p: Memory.Params, s: Memory.State, a: seq<Memory.Event>, e: Memory.Event, b: seq<Memory.Event>)
    ensures Memory.Run(p, s, a + [e] + b) == Memory.Run(p, Memory.Next(p, Memory.Run(p, s, a), e), b)
  {
    assert a + [e] + b == a + ([e] + b) && ([e] + b)[1..] == b;
    MemoryRuns.RunConcat(p, s, a, [e] + b);
  }

  /** Both sides at once: every job with a handler and every script have a finished run on
      each backend, and the two agree. */
  lemma EveryScriptAgrees(cfg: Settings, p: Memory.Params, t: Instant, job: Job, id: string, script: nat -> Outcome)
    returns (es: seq<Event>, ms: seq<Memory.Event>, completed: bool)
    requires !job.dispatchAt.Malformed? && Timeout(cfg, job) >= 1 && forall n :: script(n) != NoHandler
    requires p.cfg.maxAttempts == cfg.maxAttempts
    ensures var c := Run(cfg, Init(t), es); var m := Memory.Run(p, Memory.Init(t, 1), ms);
            && Punctual(cfg, Init(t), es) && Terminal(c.h) && Follows(c.outcomes, script)
            && |c.starts| == Memory.Invocations(m, id)
            && (c.h.completed.Some? <==> completed)
            && exists i | 0 <= i < |Memory.Ended(m, completed)| ::
                 Memory.Ended(m, completed)[i].job.id == id && Memory.Ended(m, completed)[i].past == c.outcomes
  {
    es := EveryScriptFinishes(cfg, t, job, script);
    var rest, i;
    rest, completed, i := EveryScriptFinishesInMemory(p, t, job, id, script);
    ms := Provide(job) + [Memory.Dispatch(job, id)] + rest;
    BackendsAgree(cfg, t, es, p, t, 1, ms, completed, i, script);
  }
}
