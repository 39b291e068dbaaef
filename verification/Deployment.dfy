/** The queue object at work: any sequence of calls by its workers, reapers and clients
    leaves redis, the live copies and the failed_jobs table as the deployment's runs do,
    so what is proved of those runs holds of the object. */
module Deployment {
  import opened Jobs
  import opened Protocol
  import opened Store
  import opened ReaperSpec
  import opened System
  import opened RedisQueue

  function SiteOf(q: Queue): Site { Site(q.cfg, q.channels, q.defaultChannel) }

  /** Redis, the failed_jobs table, the clock and the workers' copies are those of `s`. */
  ghost predicate Mirrors(q: Queue, now: Instant, live: map<Worker, Holding>, s: State)
    reads q, q.db
  {
    q.db.hashes == s.store && |q.failedJobs| == s.rows && now == s.now && live == s.live
  }

  ghost predicate InUse(s: State, ids: set<string>) { forall id :: id in ids <==> Used(s, id) }

  /** An action on job k uses its id and no other. */
  lemma UsedAfter(s: State, k: Slot, c: Cell, ids: set<string>)
    requires InUse(s, ids)
    ensures InUse(Absorb(s, k, c), ids + {k.id})
  {
    var s' := Absorb(s, k, c);
    assert s'.books.Keys == s.books.Keys + {k};
    forall id ensures id in ids + {k.id} <==> Used(s', id) {
      if Used(s, id) {
        var j :| j in s.books && j.id == id;
        assert j in s'.books;
      }
      if Used(s', id) {
        var j :| j in s'.books && j.id == id;
        assert j == k || j in s.books;
      }
      assert k in s'.books;
    }
  }

  /** The ids in use after an action. */
  function IdsAfter(live: map<Worker, Holding>, ids: set<string>, a: Action): set<string> {
    match a
    case Tick(_) => ids
    case Send(_, id) => ids + {id}
    case Act(k, e) => if Possible(live, e) then ids + {k.id} else ids
  }

  lemma StepUses(site: Site, s: State, ids: set<string>, a: Action)
    requires InUse(s, ids)
    ensures InUse(Step(site, s, a), IdsAfter(s.live, ids, a))
  {
    match a
    case Tick(d) => assert forall id :: Used(Step(site, s, a), id) <==> Used(s, id);
    case Send(job, id) =>
      if Used(s, id) { assert ids + {id} == ids; }
      else {
        var k := Address(site, job, id);
        UsedAfter(s, k, Next(site.cfg, Project(s, k), Dispatch(Addressed(site, job, id))), ids);
      }
    case Act(k, e) => if Possible(s.live, e) { UsedAfter(s, k, Next(site.cfg, Project(s, k), e), ids); }
  }

  /** Worker w tries to claim job k. */
  method TryClaim(q: Queue, k: Slot, w: Worker, now: Instant, live: map<Worker, Holding>, ghost s: State)
    returns (live': map<Worker, Holding>)
    requires Mirrors(q, now, live, s) && w !in live && Has(View(s.store, k).pending, k.id)
    modifies q.db
    ensures Mirrors(q, now, live', Step(SiteOf(q), s, Act(k, Claim(w))))
  {
    ghost var site := SiteOf(q);
    var r := q.ClaimPending(k.queue, k.id, now);
    live' := if r.Started? then live[w := Holding(k, Lease(r.copy, now))] else live;
    if r.NoSuchKey? { IdleLeaves(site, s, k, Claim(w)); } else { ClaimLeaves(site, s, k, w); }
  }

  /** Worker w's handler returns on job k. */
  method Finish(q: Queue, k: Slot, w: Worker, o: Outcome, now: Instant, live: map<Worker, Holding>, ghost s: State)
    returns (live': map<Worker, Holding>)
    requires Mirrors(q, now, live, s)
    modifies q.db, q`failedJobs
    ensures Mirrors(q, now, live', Step(SiteOf(q), s, Act(k, Settle(w, o))))
  {
    ghost var site := SiteOf(q);
    if w in live && live[w].slot == k {
      q.SettleJob(k.queue, k.id, live[w].lease.job, o, now);
      live' := live - {w};
      SettleLeaves(site, s, k, w, o);
    } else {
      live' := live;
      IdleLeaves(site, s, k, Settle(w, o));
    }
  }

  /** One worker or reaper acts on job k; a crash takes the worker's copy and nothing else. */
  method Perform(q: Queue, k: Slot, e: Event, now: Instant, live: map<Worker, Holding>, ghost s: State)
    returns (live': map<Worker, Holding>)
    requires Mirrors(q, now, live, s) && Possible(live, e) && Has(View(s.store, k).pending, k.id)
    modifies q.db, q`failedJobs
    ensures Mirrors(q, now, live', Step(SiteOf(q), s, Act(k, e)))
  {
    ghost var site := SiteOf(q);
    if e.Claim? {
      live' := TryClaim(q, k, e.w, now, live, s);
    } else if e.Settle? {
      live' := Finish(q, k, e.w, e.outcome, now, live, s);
    } else if e.Reap? {
      var v, recent := q.ReapItem(k.queue, k.id, now);
      live' := live;
      ReapLeaves(site, s, k);
    } else if e.w in live && live[e.w].slot == k {
      live' := live - {e.w};
      CrashLeaves(site, s, k, e.w);
    } else {
      live' := live;
      IdleLeaves(site, s, k, e);
    }
  }

  /** A client dispatches a job under an id not in use. */
  method Enqueue(q: Queue, job: Job, id: string, now: Instant, live: map<Worker, Holding>, ghost s: State)
    requires Mirrors(q, now, live, s) && !Used(s, id)
    modifies q.db
    ensures Mirrors(q, now, live, Step(SiteOf(q), s, Send(job, id)))
  {
    var k := q.Dispatch(job, id, now);
    SendLeaves(SiteOf(q), s, job, id);
  }

  /** One action; an id in use is not given to another job. */
  method Serve(q: Queue, a: Action, now: Instant, live: map<Worker, Holding>, ids: set<string>, ghost s: State)
    returns (now': Instant, live': map<Worker, Holding>)
    requires Mirrors(q, now, live, s) && InUse(s, ids) && AllTagged(s)
    modifies q.db, q`failedJobs
    ensures Mirrors(q, now', live', Step(SiteOf(q), s, a))
  {
    now', live' := now, live;
    match a {
      case Tick(d) => now' := now + d;
      case Send(job, id) =>
        if id !in ids { Enqueue(q, job, id, now, live, s); }
      case Act(k, e) =>
        if Possible(live, e) {
          assert Tagged(Project(s, k), k.id);
          live' := Perform(q, k, e, now, live, s);
        }
    }
  }

  /** A whole reaper tick is a run too: one reap for every entry of the listing. */
  method Sweep(q: Queue, pages: seq<seq<Key>>, now: Instant, live: map<Worker, Holding>, ghost s: State)
    requires Mirrors(q, now, live, s)
    modifies q.db, q`failedJobs, q`ticks, q`totals
    ensures Mirrors(q, now, live, Execute(SiteOf(q), s, Reaps(Flatten(pages))))
  {
    var t := q.RunReaperTick(pages, now);
    TickIsReaps(SiteOf(q), s, pages, q.db.hashes, t);
  }

  /** Whatever is asked of a queue with an empty redis, and in whatever order, it ends in
      the keyspace, the live copies and the number of failed_jobs rows of the run. */
  method Drive(q: Queue, start: Instant, acts: seq<Action>) returns (now: Instant, live: map<Worker, Holding>)
    requires q.db.hashes == map[] && q.failedJobs == []
    modifies q.db, q`failedJobs
    ensures Mirrors(q, now, live, Execute(SiteOf(q), Boot(start), acts))
    ensures AllPunctual(SiteOf(q), Boot(start), acts) ==>
              forall v, w | v in live && w in live && live[v].slot == live[w].slot :: v == w
  {
    ghost var site, s := SiteOf(q), Boot(start);
    now, live := start, map[];
    var ids: set<string> := {};
    assert forall k :: Project(s, k) == Init(start);
    var i := 0;
    while i < |acts|
      invariant 0 <= i <= |acts| && Mirrors(q, now, live, s) && InUse(s, ids) && AllTagged(s)
      invariant Execute(site, s, acts[i..]) == Execute(site, Boot(start), acts)
    {
      assert acts[i..][0] == acts[i] && acts[i..][1..] == acts[i + 1..];
      StepUses(site, s, ids, acts[i]);
      StepTagged(site, s, acts[i]);
      var ids' := IdsAfter(live, ids, acts[i]);
      now, live := Serve(q, acts[i], now, live, ids, s);
      ids := ids';
      s := Step(site, s, acts[i]);
      i := i + 1;
    }
    if AllPunctual(site, Boot(start), acts) {
      forall v, w | v in live && w in live && live[v].slot == live[w].slot ensures v == w {
        NoTwoWorkersOneJob(site, start, acts, v, w);
      }
    }
  }
}
