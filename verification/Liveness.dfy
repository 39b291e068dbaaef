/** A dispatched job can always be brought to an end: from every reachable state, after
    any overruns, crashes and stuck claims, some move is possible until the job is in
    completed or failed, and only boundedly many moves are possible at all. */
module Liveness {
  import opened Jobs
  import opened Protocol
  import opened Termination
  import opened Commands

  /** Nothing is left that could move. */
  predicate Ended(c: Cell) { c.h.pending.None? && c.h.locked.None? && c.live == map[] }

  /** The reaper can tell how old the lock is, and the job has a key. */
  predicate Tractable(c: Cell) {
    && (c.h.locked.Some? ==> LockTime(c.h.locked.value).At?)
    && (c.origin.Some? ==> c.h != Absent)
    && (c.origin.None? ==> Undispatched(c))
  }

  lemma TractableStep(cfg: Settings, c: Cell, e: Event)
    requires Tractable(c)
    ensures Tractable(Next(cfg, c, e))
  {
    if c.h != Absent {
      ScriptsImplementSteps(cfg, c, e);
      NoJobIsLost(c.h, Script(cfg, c, e));
    }
  }

  lemma {:induction false} TractableRun(cfg: Settings, c: Cell, es: seq<Event>)
    requires Tractable(c)
    ensures Tractable(Run(cfg, c, es))
    decreases |es|
  {
    if es != [] {
      TractableStep(cfg, c, es[0]);
      TractableRun(cfg, Next(cfg, c, es[0]), es[1..]);
    }
  }

  lemma SomeMoveIsPossible(cfg: Settings, c: Cell) returns (wait: nat, e: Event)
    requires Tractable(c) && !Ended(c)
    ensures Moves(cfg, Next(cfg, c, Advance(wait)), e)
  {
    wait := 0;
    if c.live != map[] {
      var w :| w in c.live;
      e := Settle(w, Success);
    } else if c.h.pending.Some? {
      if c.h.pending.value.retryAfter.At? { wait := Max(0, c.h.pending.value.retryAfter.t + 1 - c.now); }
      e := Claim(0);
    } else {
      var job := c.h.locked.value;
      wait := Max(0, LockTime(job).t + Seconds(Timeout(cfg, job)) - c.now);
      e := Reap;
    }
  }

  lemma {:induction false} Finishable(cfg: Settings, c: Cell) returns (es: seq<Event>)
    requires Tractable(c) && c.origin.Some?
    ensures Ended(Run(cfg, c, es))
    decreases Potential(1, cfg, c)
  {
    es := [];
    if !Ended(c) {
      var wait, e := SomeMoveIsPossible(cfg, c);
      var c1 := Next(cfg, c, Advance(wait));
      var c2 := Next(cfg, c1, e);
      PotentialDrops(1, cfg, c, Advance(wait));
      PotentialDrops(1, cfg, c1, e);
      TractableStep(cfg, c, Advance(wait));
      TractableStep(cfg, c1, e);
      var rest := Finishable(cfg, c2);
      Two(cfg, c, Advance(wait), e);
      RunConcat(cfg, c, [Advance(wait), e], rest);
      es := [Advance(wait), e] + rest;
    }
  }

  /** After any run a dispatched job can still be driven to completed or failed, with no
      pending key, lock or live copy left. */
  lemma EveryJobCanEnd(cfg: Settings, t: Instant, es: seq<Event>) returns (more: seq<Event>)
    requires Run(cfg, Init(t), es).origin.Some?
    ensures var c := Run(cfg, Init(t), es + more); Ended(c) && (c.h.completed.Some? || c.h.failed.Some?)
  {
    TractableRun(cfg, Init(t), es);
    var c := Run(cfg, Init(t), es);
    more := Finishable(cfg, c);
    TractableRun(cfg, c, more);
    RunSpends(cfg, c, more);
    RunConcat(cfg, Init(t), es, more);
  }
}
