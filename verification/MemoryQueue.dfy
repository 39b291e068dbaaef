/** The memory backend as written: the queue object whose methods its goroutines call,
    each proved to take exactly one step of the token machine. */
module MemoryQueue {
  import opened Jobs
  import opened Sums
  import opened Memory

  class Queue {
    const p: Params
    var now: Instant
    var registered: set<string>
    var sleeping: seq<Timer>
    var sending: seq<Token>
    var workers: seq<Phase>
    var completed: seq<Token>
    var failed: seq<Token>
    var dropped: seq<Token>
    var dispatched: seq<Job>
    var failedData: seq<string>
    var failures: seq<string>
    var begun: seq<Begun>
    var pendingCount: int

    function Snapshot(): State
      reads this
    {
      State(now, registered, sleeping, sending, workers, completed, failed, dropped, dispatched, failedData, failures,
            begun, pendingCount)
    }

    constructor (p: Params, t: Instant, workerCount: nat)
      ensures this.p == p && Snapshot() == Init(t, workerCount)
    {
      this.p := p;
      now, registered, sleeping, sending := t, {}, [], [];
      workers := seq(workerCount, _ => Idle);
      completed, failed, dropped, dispatched, failedData, failures, begun := [], [], [], [], [], [], [];
      pendingCount := 0;
    }

    /** The memory half of Dispatch, up to the blocking send; `id` is the fresh UUID. */
    method Dispatch(requested: Job, id: string) returns (ok: bool)
      requires !Known(Snapshot(), id)
      modifies this
      ensures ok <==> !requested.dispatchAt.Malformed?
      ensures Snapshot() == Next(p, old(Snapshot()), Event.Dispatch(requested, id))
    {
      var job := requested.(id := id, reservedAt := At(Stamp(now)));
      if !job.dispatchAt.Blank? { job := job.(retryAfter := job.dispatchAt); }
      else { job := job.(retryAfter := At(Stamp(now))); }
      job := job.(status := Pending);
      if job.queue == "" { job := job.(queue := p.defaultChannel); }
      var tok := Token(job, job, []);
      if !job.dispatchAt.Blank? {
        if job.dispatchAt.Malformed? { return false; }
        var delay := job.dispatchAt.t - now;
        if delay > 0 {
          dispatched := dispatched + [job];
          sleeping := sleeping + [Timer(tok, now + delay)];
          return true;
        }
      }
      dispatched := dispatched + [job];
      pendingCount := pendingCount + 1;
      sending := sending + [tok];
      return true;
    }

    /** A detached goroutine wakes: count the job, then block on the send. */
    method WakeSender(i: nat)
      requires i < |sleeping| && sleeping[i].wake <= now
      modifies this
      ensures Snapshot() == Next(p, old(Snapshot()), Wake(i))
    {
      var tok := sleeping[i].tok;
      sleeping := sleeping[..i] + sleeping[i + 1..];
      pendingCount := pendingCount + 1;
      sending := sending + [tok];
    }

    /** An idle worker receives from the channel and decides whether a handler exists. */
    method ReceiveJob(w: nat, i: nat)
      requires w < |workers| && workers[w].Idle? && i < |sending|
      modifies this
      ensures Snapshot() == Next(p, old(Snapshot()), Receive(w, i))
    {
      var tok := sending[i];
      var admitted := tok.job.inlineHandler || tok.job.name in registered;
      sending := sending[..i] + sending[i + 1..];
      workers := workers[w := Working(tok, admitted)];
      if admitted { begun := begun + [Begun(tok, now)]; }
    }

    /** addFailedJob: record the id in the bounded cache, then retry or give up. */
    method AddFailedJob(tok: Token, o: Outcome)
      requires Failing(o)
      modifies this
      ensures Snapshot() == AddFailed(p, old(Snapshot()), tok, o)
    {
      if |failedData| >= p.highWaterMark { failedData := []; }
      failedData := failedData + [tok.job.id];
      failures := failures + [tok.job.id];
      var job := tok.job;
      if job.retry && job.retryCounter < p.cfg.maxAttempts {
        var delay;
        if job.retryInSeconds != 0 {
          var backoff := job.retryInSeconds * job.retryCounter;
          if backoff == 0 { backoff := job.retryInSeconds; }
          delay := backoff;
        } else {
          delay := job.retryCounter;
        }
        job := job.(retryCounter := job.retryCounter + 1);
        sleeping := sleeping + [Timer(Token(job, tok.origin, tok.past + [o]), now + Seconds(delay))];
      } else {
        failed := failed + [tok.(past := tok.past + [o])];
      }
    }

    /** runHandler on the job worker w holds, or the skip for lack of a handler. */
    method RunHandler(w: nat, o: Outcome)
      requires w < |workers| && workers[w].Working? && !o.NoHandler?
      modifies this
      ensures Snapshot() == Next(p, old(Snapshot()), Finish(w, o))
    {
      var tok, admitted := workers[w].tok, workers[w].admitted;
      workers := workers[w := Finishing];
      if !admitted {
        dropped := dropped + [tok];
      } else if o.Success? {
        completed := completed + [tok.(past := tok.past + [o])];
      } else {
        AddFailedJob(tok, o);
      }
    }

    /** The worker's decrement after the handler. */
    method DecrementPending(w: nat)
      requires w < |workers| && workers[w].Finishing?
      modifies this
      ensures Snapshot() == Next(p, old(Snapshot()), Decrement(w))
    {
      workers := workers[w := Idle];
      pendingCount := pendingCount - 1;
    }

    method Depth() returns (n: int)
      ensures n == Snapshot().pendingCount
    {
      n := pendingCount;
    }
  }
}
