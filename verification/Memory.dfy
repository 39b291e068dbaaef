/** The memory backend before Close, as a machine that passes job tokens between
    timers, blocked senders on the unbuffered channel, workers, and the three ways a
    job can end. Every step is one shared-memory action, so a run is any interleaving. */
module Memory {
  import opened Jobs
  import opened Sums

  datatype Params = Params(cfg: Settings, highWaterMark: int, defaultChannel: string)

  /** A job on its way, with its history: the job as dispatched and the outcomes of its
      runs so far. */
  datatype Token = Token(job: Job, origin: Job, past: seq<Outcome>)

  datatype Timer = Timer(tok: Token, wake: Instant)

  /** What a worker goroutine is doing; Finishing is between its handler and its decrement. */
  datatype Phase = Idle | Working(tok: Token, admitted: bool) | Finishing

  datatype Begun = Begun(tok: Token, at: Instant)

  datatype State = State(
    now: Instant,
    registered: set<string>,
    sleeping: seq<Timer>,      // goroutines before their send
    sending: seq<Token>,       // counted senders blocked on the channel
    workers: seq<Phase>,
    completed: seq<Token>,
    failed: seq<Token>,
    dropped: seq<Token>,       // received, but no handler was found
    dispatched: seq<Job>,
    cache: seq<string>,        // FailedJobs.data
    failures: seq<string>,     // every failing invocation, in order
    begun: seq<Begun>,         // every handler invocation
    pendingCount: int
  )

  datatype Event =
    | Advance(d: nat)
    | Register(name: string)
    | Dispatch(job: Job, id: string)
    | Wake(i: nat)
    | Receive(w: nat, i: nat)
    | Finish(w: nat, outcome: Outcome)
    | Decrement(w: nat)

  function Init(t: Instant, workers: nat): State {
    State(t, {}, [], [], seq(workers, _ => Idle), [], [], [], [], [], [], [], 0)
  }

  /** The retry delay in seconds. */
  function RetryDelay(job: Job): int {
    if job.retryInSeconds != 0 then
      var backoff := job.retryInSeconds * job.retryCounter;
      if backoff == 0 then job.retryInSeconds else backoff
    else job.retryCounter
  }

  /** The failure cache after one more failing invocation. */
  function Cached(p: Params, cache: seq<string>, id: string): seq<string> {
    (if |cache| >= p.highWaterMark then [] else cache) + [id]
  }

  /** The token a retry goroutine carries. */
  function Again(tok: Token, o: Outcome): Token {
    Token(tok.job.(retryCounter := tok.job.retryCounter + 1), tok.origin, tok.past + [o])
  }

  function AddFailed(p: Params, s: State, tok: Token, o: Outcome): State {
    var s' := s.(cache := Cached(p, s.cache, tok.job.id), failures := s.failures + [tok.job.id]);
    if RetriesLeft(p.cfg, tok.job)
    then s'.(sleeping := s.sleeping + [Timer(Again(tok, o), s.now + Seconds(RetryDelay(tok.job)))])
    else s'.(failed := s.failed + [tok.(past := tok.past + [o])])
  }

  /** A handler can be found for the job. */
  predicate Runnable(s: State, job: Job) { job.inlineHandler || job.name in s.registered }

  predicate Known(s: State, id: string) { exists i | 0 <= i < |s.dispatched| :: s.dispatched[i].id == id }

  function FreshToken(ready: Job): Token { Token(ready, ready, []) }

  function Accepted(p: Params, job: Job, id: string, now: Instant): Job {
    Prepared(job.(id := id, queue := if job.queue == "" then p.defaultChannel else job.queue), now)
  }

  /** Worker w is done with its job; a handler that was found does not end in NoHandler. */
  predicate CanFinish(s: State, w: nat, o: Outcome) {
    w < |s.workers| && s.workers[w].Working? && (s.workers[w].admitted ==> !o.NoHandler?)
  }

  /** Where a token goes once its worker is done with it. */
  function Handed(p: Params, s: State, tok: Token, admitted: bool, o: Outcome): State {
    if !admitted then s.(dropped := s.dropped + [tok])
    else if o.Success? then s.(completed := s.completed + [tok.(past := tok.past + [o])])
    else AddFailed(p, s, tok, o)
  }

  function Next(p: Params, s: State, e: Event): State {
    match e
    case Advance(d) => s.(now := s.now + d)
    case Register(name) => s.(registered := s.registered + {name})
    case Dispatch(job, id) =>
      if Known(s, id) || job.dispatchAt.Malformed? then s else
      var ready := Accepted(p, job, id, s.now);
      var tok := FreshToken(ready);
      var s' := s.(dispatched := s.dispatched + [ready]);
      if job.dispatchAt.At? && job.dispatchAt.t > s.now
      then s'.(sleeping := s.sleeping + [Timer(tok, job.dispatchAt.t)])
      else s'.(sending := s.sending + [tok], pendingCount := s.pendingCount + 1)
    case Wake(i) =>
      if i >= |s.sleeping| || s.sleeping[i].wake > s.now then s else
      s.(sleeping := Remove(s.sleeping, i), sending := s.sending + [s.sleeping[i].tok],
         pendingCount := s.pendingCount + 1)
    case Receive(w, i) =>
      if w >= |s.workers| || !s.workers[w].Idle? || i >= |s.sending| then s else
      var tok := s.sending[i];
      var ok := Runnable(s, tok.job);
      s.(sending := Remove(s.sending, i), workers := s.workers[w := Working(tok, ok)],
         begun := s.begun + if ok then [Begun(tok, s.now)] else [])
    case Finish(w, o) =>
      if !CanFinish(s, w, o) then s else
      Handed(p, s.(workers := s.workers[w := Finishing]), s.workers[w].tok, s.workers[w].admitted, o)
    case Decrement(w) =>
      if w >= |s.workers| || !s.workers[w].Finishing? then s else
      s.(workers := s.workers[w := Idle], pendingCount := s.pendingCount - 1)
  }

  function Run(p: Params, s: State, es: seq<Event>): State
    decreases |es|
  {
    if es == [] then s else Run(p, Next(p, s, es[0]), es[1..])
  }

  // ----- conservation and depth

  function OfJob(id: string): Job -> int { (j: Job) => if j.id == id then 1 else 0 }

  function OfToken(id: string): Token -> int { (t: Token) => if t.job.id == id then 1 else 0 }

  function OfBegun(id: string): Begun -> int { (b: Begun) => if b.tok.job.id == id then 1 else 0 }

  /** The runs of a job that have ended, as its token tells. */
  function RunsOf(id: string): Token -> int { (t: Token) => if t.job.id == id then |t.past| else 0 }

  function Never(): Token -> int { (t: Token) => 0 }

  function Busy(): Phase -> int { (w: Phase) => if w.Idle? then 0 else 1 }

  // A quantity spread over the tokens: f for each, and g more for one whose handler runs.

  function OnTimer(f: Token -> int): Timer -> int { (t: Timer) => f(t.tok) }

  function OnPhase(f: Token -> int, g: Token -> int): Phase -> int {
    (w: Phase) => if w.Working? then f(w.tok) + (if w.admitted then g(w.tok) else 0) else 0
  }

  function Total(f: Token -> int, g: Token -> int, s: State): int {
    Sum(OnTimer(f), s.sleeping) + Sum(f, s.sending) + Sum(OnPhase(f, g), s.workers)
    + Sum(f, s.completed) + Sum(f, s.failed) + Sum(f, s.dropped)
  }

  /** How many tokens of a job exist, wherever they are. */
  function Tokens(s: State, id: string): int { Total(OfToken(id), Never(), s) }

  /** How often a job's handler has been invoked. */
  function Invocations(s: State, id: string): int { Sum(OfBegun(id), s.begun) }

  /** Tokens are neither made nor lost after dispatch. */
  predicate Conserved(s: State, id: string) { Tokens(s, id) == Sum(OfJob(id), s.dispatched) }

  /** No id is dispatched twice. */
  predicate Unique(s: State, id: string) { Sum(OfJob(id), s.dispatched) == if Known(s, id) then 1 else 0 }

  /** Every invocation is in its token's log, or still running. */
  predicate Logged(s: State, id: string) { Invocations(s, id) == Total(RunsOf(id), OfToken(id), s) }

  predicate DepthExact(s: State) { s.pendingCount == |s.sending| + Sum(Busy(), s.workers) }

  // ----- how a total changes

  predicate Accepts(s: State, e: Event) { e.Dispatch? && !Known(s, e.id) && !e.job.dispatchAt.Malformed? }

  predicate Receives(s: State, e: Event) {
    e.Receive? && e.w < |s.workers| && s.workers[e.w].Idle? && e.i < |s.sending|
  }

  /** The token after one more run of its job. */
  function After(p: Params, tok: Token, o: Outcome): Token {
    if !o.Success? && RetriesLeft(p.cfg, tok.job) then Again(tok, o) else tok.(past := tok.past + [o])
  }

  /** What an event adds to a total: a new token, a handler that starts, a run that ends. */
  function Gain(p: Params, f: Token -> int, g: Token -> int, s: State, e: Event): int {
    if Accepts(s, e) then f(FreshToken(Accepted(p, e.job, e.id, s.now)))
    else if Receives(s, e) && Runnable(s, s.sending[e.i].job) then g(s.sending[e.i])
    else if e.Finish? && CanFinish(s, e.w, e.outcome) && s.workers[e.w].admitted then
      var tok := s.workers[e.w].tok;
      f(After(p, tok, e.outcome)) - f(tok) - g(tok)
    else 0
  }

  lemma GainDispatch(p: Params, f: Token -> int, g: Token -> int, s: State, e: Event)
    requires Accepts(s, e)
    ensures Total(f, g, Next(p, s, e)) == Total(f, g, s) + Gain(p, f, g, s, e)
  {
    var tok := FreshToken(Accepted(p, e.job, e.id, s.now));
    if e.job.dispatchAt.At? && e.job.dispatchAt.t > s.now {
      SumSnoc(OnTimer(f), s.sleeping, Timer(tok, e.job.dispatchAt.t));
    } else {
      SumSnoc(f, s.sending, tok);
    }
  }

  lemma GainWake(p: Params, f: Token -> int, g: Token -> int, s: State, i: nat)
    requires i < |s.sleeping| && s.sleeping[i].wake <= s.now
    ensures Total(f, g, Next(p, s, Wake(i))) == Total(f, g, s)
  {
    SumRemove(OnTimer(f), s.sleeping, i);
    SumSnoc(f, s.sending, s.sleeping[i].tok);
  }

  lemma GainReceive(p: Params, f: Token -> int, g: Token -> int, s: State, e: Event)
    requires Receives(s, e)
    ensures Total(f, g, Next(p, s, e)) == Total(f, g, s) + Gain(p, f, g, s, e)
  {
    var tok := s.sending[e.i];
    SumRemove(f, s.sending, e.i);
    SumUpdate(OnPhase(f, g), s.workers, e.w, Working(tok, Runnable(s, tok.job)));
  }

  lemma GainHanded(p: Params, f: Token -> int, g: Token -> int, s: State, tok: Token, admitted: bool, o: Outcome)
    ensures Total(f, g, Handed(p, s, tok, admitted, o))
            == Total(f, g, s) + if admitted then f(After(p, tok, o)) else f(tok)
  {
    if !admitted {
      SumSnoc(f, s.dropped, tok);
    } else if o.Success? {
      SumSnoc(f, s.completed, After(p, tok, o));
    } else if RetriesLeft(p.cfg, tok.job) {
      SumSnoc(OnTimer(f), s.sleeping, Timer(Again(tok, o), s.now + Seconds(RetryDelay(tok.job))));
    } else {
      SumSnoc(f, s.failed, After(p, tok, o));
    }
  }

  lemma GainFinish(p: Params, f: Token -> int, g: Token -> int, s: State, w: nat, o: Outcome)
    requires CanFinish(s, w, o)
    ensures Total(f, g, Next(p, s, Finish(w, o))) == Total(f, g, s) + Gain(p, f, g, s, Finish(w, o))
  {
    SumUpdate(OnPhase(f, g), s.workers, w, Finishing);
    GainHanded(p, f, g, s.(workers := s.workers[w := Finishing]), s.workers[w].tok, s.workers[w].admitted, o);
  }

  lemma TotalStep(p: Params, f: Token -> int, g: Token -> int, s: State, e: Event)
    ensures Total(f, g, Next(p, s, e)) == Total(f, g, s) + Gain(p, f, g, s, e)
  {
    if Next(p, s, e) != s {
      match e
      case Dispatch(_, _) => GainDispatch(p, f, g, s, e);
      case Wake(i) => GainWake(p, f, g, s, i);
      case Receive(_, _) => GainReceive(p, f, g, s, e);
      case Finish(w, o) => GainFinish(p, f, g, s, w, o);
      case Decrement(w) => SumUpdate(OnPhase(f, g), s.workers, w, Idle);
      case _ =>
    }
  }

  // ----- what every step keeps

  lemma DispatchedStep(p: Params, s: State, e: Event)
    ensures Next(p, s, e).dispatched
            == s.dispatched + if Accepts(s, e) then [Accepted(p, e.job, e.id, s.now)] else []
  {}

  /** Only a dispatch makes a token, and a run leaves its id alone. */
  lemma TokenGain(p: Params, s: State, e: Event, id: string)
    ensures Gain(p, OfToken(id), Never(), s, e)
            == if Accepts(s, e) then OfJob(id)(Accepted(p, e.job, e.id, s.now)) else 0
  {}

  lemma ConservedStep(p: Params, s: State, e: Event, id: string)
    requires Conserved(s, id)
    ensures Conserved(Next(p, s, e), id)
  {
    TotalStep(p, OfToken(id), Never(), s, e);
    TokenGain(p, s, e, id);
    DispatchedStep(p, s, e);
    if Accepts(s, e) {
      SumSnoc(OfJob(id), s.dispatched, Accepted(p, e.job, e.id, s.now));
    } else {
      assert s.dispatched + [] == s.dispatched;
    }
  }

  lemma UniqueStep(p: Params, s: State, e: Event, id: string)
    requires Unique(s, id)
    ensures Unique(Next(p, s, e), id)
  {
    var s' := Next(p, s, e);
    DispatchedStep(p, s, e);
    if Accepts(s, e) {
      var ready := Accepted(p, e.job, e.id, s.now);
      SumSnoc(OfJob(id), s.dispatched, ready);
      assert s'.dispatched[|s.dispatched|] == ready;
      assert forall i | 0 <= i < |s.dispatched| :: s'.dispatched[i] == s.dispatched[i];
    }
    assert Known(s', id) <==> Known(s, id) || (Accepts(s, e) && e.id == id);
  }

  /** A run in progress is counted when it starts, and moves into the log when it ends. */
  lemma RunGain(p: Params, s: State, e: Event, id: string)
    ensures Gain(p, RunsOf(id), OfToken(id), s, e)
            == if Receives(s, e) && Runnable(s, s.sending[e.i].job) then OfToken(id)(s.sending[e.i]) else 0
  {}

  lemma BegunStep(p: Params, s: State, e: Event)
    ensures Next(p, s, e).begun
            == s.begun + if Receives(s, e) && Runnable(s, s.sending[e.i].job) then [Begun(s.sending[e.i], s.now)] else []
  {}

  lemma LoggedStep(p: Params, s: State, e: Event, id: string)
    requires Logged(s, id)
    ensures Logged(Next(p, s, e), id)
  {
    TotalStep(p, RunsOf(id), OfToken(id), s, e);
    RunGain(p, s, e, id);
    BegunStep(p, s, e);
    if Receives(s, e) && Runnable(s, s.sending[e.i].job) {
      SumSnoc(OfBegun(id), s.begun, Begun(s.sending[e.i], s.now));
    } else {
      assert s.begun + [] == s.begun;
    }
  }

  lemma DepthStep(p: Params, s: State, e: Event)
    requires DepthExact(s)
    ensures DepthExact(Next(p, s, e))
  {
    match e
    case Receive(w, i) =>
      if w < |s.workers| && i < |s.sending| {
        SumUpdate(Busy(), s.workers, w, Working(s.sending[i], Runnable(s, s.sending[i].job)));
      }
    case Finish(w, o) => if w < |s.workers| { SumUpdate(Busy(), s.workers, w, Finishing); }
    case Decrement(w) => if w < |s.workers| { SumUpdate(Busy(), s.workers, w, Idle); }
    case _ =>
  }

  predicate Accounted(s: State, id: string) { Conserved(s, id) && Unique(s, id) && Logged(s, id) && DepthExact(s) }

  lemma AccountedStep(p: Params, s: State, e: Event, id: string)
    requires Accounted(s, id)
    ensures Accounted(Next(p, s, e), id)
  {
    ConservedStep(p, s, e, id);
    UniqueStep(p, s, e, id);
    LoggedStep(p, s, e, id);
    DepthStep(p, s, e);
  }

  lemma {:induction false} AccountedRun(p: Params, s: State, es: seq<Event>, id: string)
    requires Accounted(s, id)
    ensures Accounted(Run(p, s, es), id)
    decreases |es|
  {
    if es != [] {
      AccountedStep(p, s, es[0], id);
      AccountedRun(p, Next(p, s, es[0]), es[1..], id);
    }
  }

  lemma {:induction false} IdleSum(f: Phase -> int, ws: seq<Phase>)
    requires f(Idle) == 0 && forall i | 0 <= i < |ws| :: ws[i] == Idle
    ensures Sum(f, ws) == 0
  {
    if ws != [] { IdleSum(f, ws[..|ws| - 1]); }
  }

  lemma AlwaysAccounted(p: Params, t: Instant, workers: nat, es: seq<Event>, id: string)
    ensures Accounted(Run(p, Init(t, workers), es), id)
  {
    var ws := Init(t, workers).workers;
    IdleSum(OnPhase(OfToken(id), Never()), ws);
    IdleSum(OnPhase(RunsOf(id), OfToken(id)), ws);
    IdleSum(Busy(), ws);
    AccountedRun(p, Init(t, workers), es, id);
  }

  /** In every interleaving each dispatched id has exactly one token, asleep, sending,
      with a worker, completed, failed or dropped, and ids never dispatched have none. */
  lemma Conservation(p: Params, t: Instant, workers: nat, es: seq<Event>, id: string)
    ensures var s := Run(p, Init(t, workers), es); Tokens(s, id) == if Known(s, id) then 1 else 0
  {
    AlwaysAccounted(p, t, workers, es, id);
  }

  /** In every interleaving pendingCount is the number of counted senders not yet
      received plus the workers that have not decremented, so it is never negative. */
  lemma DepthIsExact(p: Params, t: Instant, workers: nat, es: seq<Event>)
    ensures var s := Run(p, Init(t, workers), es);
            s.pendingCount == |s.sending| + Sum(Busy(), s.workers) && s.pendingCount >= |s.sending| >= 0
  {
    AlwaysAccounted(p, t, workers, es, "");
    SumBounds(Busy(), Run(p, Init(t, workers), es).workers);
  }

  /** The six places a token can be, each holding a non-negative share. */
  lemma Shares(s: State, id: string)
    ensures Sum(OnTimer(OfToken(id)), s.sleeping) >= 0 && Sum(OfToken(id), s.sending) >= 0
    ensures Sum(OnPhase(OfToken(id), Never()), s.workers) >= 0 && Sum(OfToken(id), s.completed) >= 0
    ensures Sum(OfToken(id), s.failed) >= 0 && Sum(OfToken(id), s.dropped) >= 0
  {
    SumBounds(OnTimer(OfToken(id)), s.sleeping);
    SumBounds(OfToken(id), s.sending);
    SumBounds(OnPhase(OfToken(id), Never()), s.workers);
    SumBounds(OfToken(id), s.completed);
    SumBounds(OfToken(id), s.failed);
    SumBounds(OfToken(id), s.dropped);
  }

  function Ended(s: State, completed: bool): seq<Token> { if completed then s.completed else s.failed }

  /** Nowhere but in its ended list does a job that has ended have a share. */
  lemma EndedAlone(s: State, completed: bool, i: nat)
    requires i < |Ended(s, completed)| && Tokens(s, Ended(s, completed)[i].job.id) == 1
    ensures var id := Ended(s, completed)[i].job.id;
            && Sum(OnTimer(OfToken(id)), s.sleeping) == 0 && Sum(OfToken(id), s.sending) == 0
            && Sum(OnPhase(OfToken(id), Never()), s.workers) == 0 && Sum(OfToken(id), s.dropped) == 0
            && Sum(OfToken(id), Ended(s, completed)) == 1 && Sum(OfToken(id), Ended(s, !completed)) == 0
  {
    var id := Ended(s, completed)[i].job.id;
    Shares(s, id);
    SumBounds(OfToken(id), Ended(s, completed));
  }

  /** A job that has ended was invoked exactly as often as its log has outcomes. */
  lemma EndedInvocations(s: State, completed: bool, i: nat)
    requires i < |Ended(s, completed)|
    requires var id := Ended(s, completed)[i].job.id; Tokens(s, id) == 1 && Logged(s, id)
    ensures Invocations(s, Ended(s, completed)[i].job.id) == |Ended(s, completed)[i].past|
  {
    var id := Ended(s, completed)[i].job.id;
    EndedAlone(s, completed, i);
    SumZero(OnTimer(OfToken(id)), OnTimer(RunsOf(id)), s.sleeping);
    SumZero(OfToken(id), RunsOf(id), s.sending);
    SumZero(OnPhase(OfToken(id), Never()), OnPhase(RunsOf(id), OfToken(id)), s.workers);
    SumZero(OfToken(id), RunsOf(id), s.dropped);
    SumZero(OfToken(id), RunsOf(id), Ended(s, !completed));
    SumLone(OfToken(id), RunsOf(id), Ended(s, completed), i);
  }
}
