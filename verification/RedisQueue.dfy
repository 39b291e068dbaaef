/** The redis backend as written: each operation is a sequence of redis commands,
    proved to have exactly the effect the protocol machine gives its step. */
module RedisQueue {
  import opened Jobs
  import opened Protocol
  import opened Store
  import opened ReaperSpec
  import Keys

  datatype ClaimResult = NoSuchKey | Unparseable | NotYet | Started(copy: Job)

  /** What one claim attempt reports, by the pending hash it found. */
  function ClaimReport(pending: Option<Job>, now: Instant): ClaimResult {
    match pending
    case None => NoSuchKey
    case Some(job) =>
      if !job.retryAfter.At? then Unparseable else if Open(job, now) then Started(Stamped(job, now)) else NotYet
  }

  /** The Status write of a starting claim goes to the key the hash's own ID names. When that
      is not the claimed key, the write lands on, or creates, another job's lock. */
  predicate Strays(pending: Job, id: string, now: Instant) { Open(pending, now) && pending.id != id }

  function StrayStatus(s: Keyspace, k: Slot, now: Instant): Keyspace
    requires View(s, k).pending.Some?
  {
    var h := View(s, k);
    var job := Stamped(h.pending.value, now);
    var other := Key(k.queue, LockedKey, job.id);
    var s' := Put(s, k, h.(pending := None, locked := Some(job)));
    s'[other := (if other in s' then s'[other] else EmptyJob).(status := Processing)]
  }

  /** A stray write leaves the claimed lock without its new status and another job's lock,
      made up if need be, with it. */
  lemma StrayWrite(s: Keyspace, k: Slot, now: Instant)
    requires View(s, k).pending.Some? && Strays(View(s, k).pending.value, k.id, now)
    ensures var h := View(s, k); var job := h.pending.value.(lockedAt := At(Stamp(now)));
            var other := Slot(k.queue, job.id); var lock := View(StrayStatus(s, k, now), other).locked;
            && View(StrayStatus(s, k, now), k) == h.(pending := None, locked := Some(job))
            && lock == Some(OrEmpty(View(s, other).locked).(status := Processing))
  {
    var h := View(s, k);
    var job := Stamped(h.pending.value, now);
    ViewPut(s, k, h.(pending := None, locked := Some(job)), k);
    ViewPut(s, k, h.(pending := None, locked := Some(job)), Slot(k.queue, job.id));
  }

  /** The locked hash rewritten as `job` and renamed to another keyspace. */
  function Moved(h: Hashes, to: KeyState, job: Job): Hashes {
    var h' := h.(locked := None);
    match to
    case PendingKey => h'.(pending := Some(job))
    case LockedKey => h.(locked := Some(job))
    case CompletedKey => h'.(completed := Some(job))
    case FailedKey => h'.(failed := Some(job))
  }

  class Queue {
    const db: Redis
    const cfg: Settings
    const channels: seq<string>
    const defaultChannel: string
    var failedJobs: seq<Job>    // rows of the failed_jobs table
    var ticks: nat              // cumulative reaper counters
    var totals: Tally

    constructor (db: Redis, cfg: Settings, channels: seq<string>, defaultChannel: string)
      ensures this.db == db && this.cfg == cfg && failedJobs == [] && ticks == 0 && totals == NoTally
      ensures this.channels == Keys.WithDefault(channels, defaultChannel) && this.defaultChannel == defaultChannel
      ensures this.defaultChannel in this.channels
    {
      this.db, this.cfg, this.failedJobs, this.ticks, this.totals := db, cfg, [], 0, NoTally;
      this.defaultChannel := defaultChannel;
      this.channels := if defaultChannel in channels then channels else channels + [defaultChannel];
    }

    function Rows(job: Job): (rows: seq<Job>)
      ensures |rows| == Row(cfg) && forall r | r in rows :: r == job
    {
      if cfg.hasDb then [job] else []
    }

    /** HSET the whole job on the locked key, then setRedisKey to its next keyspace. The
        RENAME cannot fail: the HSET creates the key if it has gone. */
    method MoveLocked(queue: string, id: string, job: Job, to: KeyState)
      requires to != LockedKey
      modifies db
      ensures var k := Slot(queue, id); db.hashes == Put(old(db.hashes), k, Moved(View(old(db.hashes), k), to, job))
    {
      var lockedKey := Key(queue, LockedKey, id);
      ghost var s, k := db.hashes, Slot(queue, id);
      db.HSet(lockedKey, job);
      var ok := db.Rename(lockedKey, Key(queue, to, id));
      PutIs(s, k, Moved(View(s, k), to, job), db.hashes);
    }

    /** HSET the whole job on its pending key, creating it or overwriting what is there. */
    method WritePending(queue: string, id: string, job: Job)
      modifies db
      ensures var k := Slot(queue, id);
              db.hashes == Put(old(db.hashes), k, View(old(db.hashes), k).(pending := Some(job)))
    {
      ghost var s, k := db.hashes, Slot(queue, id);
      db.HSet(Key(queue, PendingKey, id), job);
      PutIs(s, k, View(s, k).(pending := Some(job)), db.hashes);
    }

    /** The body of the scan loop for one listed pending key, up to the handler call. */
    method ClaimPending(queue: string, id: string, now: Instant) returns (r: ClaimResult)
      modifies db
      ensures var k := Slot(queue, id); var h := View(old(db.hashes), k);
              && r == ClaimReport(h.pending, now)
              && (h.pending.None? ==> db.hashes == old(db.hashes))
              && (h.pending.Some? ==> db.hashes == if Strays(h.pending.value, id, now)
                                                   then StrayStatus(old(db.hashes), k, now)
                                                   else Put(old(db.hashes), k, ClaimHashes(h, now)))
    {
      var pendingKey, lockedKey := Key(queue, PendingKey, id), Key(queue, LockedKey, id);
      ghost var s, k := db.hashes, Slot(queue, id);
      var ok := db.Rename(pendingKey, lockedKey);
      if !ok { return NoSuchKey; }
      db.HSetLockedAt(lockedKey, At(Stamp(now)));
      var cached := db.HGetAll(lockedKey);
      assert cached == Stamped(View(s, k).pending.value, now);
      ghost var claimed := db.hashes;
      match cached.retryAfter {
        case At(t) =>
          if !(now > t) {
            ok := db.Rename(lockedKey, pendingKey);
            r := NotYet;
          } else {
            db.HSetStatus(Key(queue, LockedKey, cached.id), Processing);
            r := Started(cached);
          }
        case _ => r := Unparseable;
      }
      if Strays(View(s, k).pending.value, id, now) {
        ghost var h := View(s, k);
        PutIs(s, k, h.(pending := None, locked := Some(cached)), claimed);
      } else {
        PutIs(s, k, ClaimHashes(View(s, k), now), db.hashes);
      }
    }

    /** handleRedisJob after the handler has returned, on the worker's private copy. */
    method SettleJob(queue: string, id: string, copy: Job, o: Outcome, now: Instant)
      modifies db, this`failedJobs
      ensures var k := Slot(queue, id);
              db.hashes == Put(old(db.hashes), k, SettleHashes(cfg, View(old(db.hashes), k), copy, o, now))
      ensures failedJobs == old(failedJobs)
              + if !o.Success? && !RetriesLeft(cfg, Judged(copy, o)) then Rows(Abandoned(Judged(copy, o), o, now)) else []
    {
      var job := copy;
      if o.NoHandler? { job := job.(retry := false); }
      if o.Success? {
        job := job.(completedAt := At(Stamp(now)), status := Completed, exception := NoException);
        assert job == Finished(Judged(copy, o), now);
        MoveLocked(queue, id, job, CompletedKey);
      } else if job.retry && job.retryCounter < cfg.maxAttempts {
        if job.retryAfter.Blank? {
          job := job.(retryAfter := At(Stamp(now + Seconds(5))));
        } else {
          job := job.(retryAfter := At(Stamp(now + Seconds(job.retryCounter * 5))));
        }
        job := job.(retryCounter := job.retryCounter + 1);
        job := job.(completedAt := At(Stamp(now)), status := Pending);
        assert job == Retried(Judged(copy, o), now);
        WritePending(queue, id, job);
      } else {
        job := job.(failedAt := At(Stamp(now)), exception := ExceptionOf(o), status := Failed);
        assert job == Abandoned(Judged(copy, o), o, now);
        MoveLocked(queue, id, job, FailedKey);
        if cfg.hasDb { failedJobs := failedJobs + [job]; }
      }
    }

    /** The redis half of Dispatch; `id` is the fresh UUID. */
    method Dispatch(requested: Job, id: string, now: Instant) returns (k: Slot)
      modifies db
      ensures k == Slot(Keys.SelectChannel(channels, defaultChannel, requested.queue), id)
      ensures var job := Prepared(requested.(id := id, queue := k.queue, inlineHandler := false), now);
              db.hashes == Put(old(db.hashes), k, View(old(db.hashes), k).(pending := Some(job)))
    {
      var job := requested.(id := id, reservedAt := At(Stamp(now)), inlineHandler := false);
      if !job.dispatchAt.Blank? { job := job.(retryAfter := job.dispatchAt); }
      else { job := job.(retryAfter := At(Stamp(now))); }
      job := job.(status := Pending);
      if job.queue == "" {
        job := job.(queue := defaultChannel);
      } else {
        var channel := Keys.Normalise(job.queue);
        job := job.(queue := if channel in channels then channel else defaultChannel);
      }
      k := Slot(job.queue, id);
      WritePending(k.queue, id, job);
    }

    // ----- reaper

    /** requeueExpiredLock: one more attempt, then back to pending or on to failed. */
    method RequeueExpiredLock(queue: string, id: string, expired: Job, timeout: int, now: Instant) returns (v: Verdict)
      requires timeout == if expired.lockFor > 0 then expired.lockFor else cfg.lockTimeout
      modifies db, this`failedJobs
      ensures var k, job := Slot(queue, id), Charged(cfg, expired); var h := View(old(db.hashes), k);
              if RetriesLeft(cfg, job) then
                && v == BackToPending && failedJobs == old(failedJobs)
                && db.hashes == Put(old(db.hashes), k, Moved(h, PendingKey, Requeued(job, now)))
              else
                && v == GivenUp && failedJobs == old(failedJobs) + Rows(Condemned(job, now))
                && db.hashes == Put(old(db.hashes), k, Moved(h, FailedKey, Condemned(job, now)))
    {
      var j := expired.(retryCounter := expired.retryCounter + 1);
      j := j.(exception := LockExpired(timeout));
      if j.retry && j.retryCounter < cfg.maxAttempts {
        j := j.(retryAfter := At(Stamp(now + Seconds(j.retryCounter * 5))), status := Pending, lockedAt := Blank);
        assert j == Requeued(Charged(cfg, expired), now);
        MoveLocked(queue, id, j, PendingKey);
        v := BackToPending;
      } else {
        j := j.(failedAt := At(Stamp(now)), status := Failed, lockedAt := Blank);
        assert j == Condemned(Charged(cfg, expired), now);
        MoveLocked(queue, id, j, FailedKey);
        if cfg.hasDb { failedJobs := failedJobs + [j]; }
        v := GivenUp;
      }
    }

    /** The body of the tick's inner loop for one listed key. */
    method ReapItem(queue: string, id: string, now: Instant) returns (v: Verdict, recent: bool)
      modifies db, this`failedJobs
      ensures var k := Slot(queue, id); var h := View(old(db.hashes), k);
              && v == ReapVerdict(cfg, h, now)
              && db.hashes == Put(old(db.hashes), k, ReapHashes(cfg, h, now))
              && failedJobs == old(failedJobs) + (if v.GivenUp? then Rows(ReapHashes(cfg, h, now).failed.value) else [])
              && (recent <==> Recent(cfg, h, now))
    {
      var lockedKey, pendingKey := Key(queue, LockedKey, id), Key(queue, PendingKey, id);
      ghost var s, k := db.hashes, Slot(queue, id);
      v, recent := Untouched, false;
      var job := db.HGetAll(lockedKey);
      var lockedAt := job.lockedAt;
      if !lockedAt.At? {
        if !job.reservedAt.At? {
          PutIs(s, k, View(s, k), s);
          return;
        }
        lockedAt := job.reservedAt;
      }
      var timeout := cfg.lockTimeout;
      if job.lockFor > 0 { timeout := job.lockFor; }
      if now - lockedAt.t < Seconds(timeout) {
        recent := true;
        PutIs(s, k, View(s, k), s);
        return;
      }
      var waiting := db.Exists(pendingKey);
      if waiting {
        db.Del(lockedKey);
        v := Duplicate;
        PutIs(s, k, View(s, k).(locked := None), db.hashes);
        return;
      }
      v := RequeueExpiredLock(queue, id, job, timeout, now);
    }

    /** Rows the database holds for n permanently failed jobs. */
    function RowsFor(n: nat): nat { if cfg.hasDb then n else 0 }

    /** One entry of the listing, with `seen` already reaped since keyspace `s`. */
    method ReapEntry(key: Key, now: Instant, t0: Tally, ghost s: Keyspace, ghost seen: set<Slot>) returns (t: Tally)
      requires OnCourse(cfg, s, db.hashes, seen, now, t0, failedJobs)
      modifies db, this`failedJobs
      ensures OnCourse(cfg, s, db.hashes, seen + {SlotOf(key)}, now, t, failedJobs)
      ensures |failedJobs| - |old(failedJobs)| == RowsFor(t.failed) - RowsFor(t0.failed) && old(failedJobs) <= failedJobs
      ensures t.scanned == t0.scanned + 1 
      ensures t.recent == t0.recent + if Recent(cfg, View(s, SlotOf(key)), now) then 1 else 0
    {
      ghost var k, cur, rows := SlotOf(key), db.hashes, failedJobs;
      Visit(cfg, s, cur, seen, now, t0, k);
      ReapIdempotent(cfg, View(s, k), now);
      var v, recent := ReapItem(key.queue, key.id, now);
      VisitRecords(cfg, s, cur, seen, now, k, rows, failedJobs);
      t := Bump(t0, v).(scanned := t0.scanned + 1, recent := t0.recent + if recent then 1 else 0);
    }

    /** The tick's inner loop over one page. */
    method ReapPage(page: seq<Key>, now: Instant, t0: Tally, ghost s: Keyspace, ghost seen: set<Slot>)
      returns (t: Tally)
      requires OnCourse(cfg, s, db.hashes, seen, now, t0, failedJobs)
      modifies db, this`failedJobs
      ensures OnCourse(cfg, s, db.hashes, seen + SlotsOf(page), now, t, failedJobs)
      ensures |failedJobs| - |old(failedJobs)| == RowsFor(t.failed) - RowsFor(t0.failed) && old(failedJobs) <= failedJobs
      ensures t.scanned == t0.scanned + |page| && t.recent == t0.recent + RecentOn(cfg, s, page, now)
    {
      t := t0;
      ghost var done := seen;
      var j := 0;
      while j < |page|
        invariant 0 <= j <= |page| && done == seen + SlotsOf(page[..j])
        invariant t.scanned == t0.scanned + j && t.recent == t0.recent + RecentOn(cfg, s, page[..j], now)
        invariant OnCourse(cfg, s, db.hashes, done, now, t, failedJobs)
        invariant |failedJobs| - |old(failedJobs)| == RowsFor(t.failed) - RowsFor(t0.failed)
        invariant old(failedJobs) <= failedJobs
      {
        NextEntry(cfg, s, page, now, seen, j);
        t := ReapEntry(page[j], now, t, s, done);
        done := done + {SlotOf(page[j])};
        j := j + 1;
      }
      assert page[..j] == page;
    }

    /** runReaperTick over the pages a SCAN of the locked keys returned. */
    method RunReaperTick(pages: seq<seq<Key>>, now: Instant) returns (t: Tally)
      modifies db, this`failedJobs, this`ticks, this`totals
      ensures Pointwise(cfg, old(db.hashes), db.hashes, Listed(pages), now)
      ensures Counted(cfg, old(db.hashes), Listed(pages), now, t)
      ensures |failedJobs| == |old(failedJobs)| + (if cfg.hasDb then t.failed else 0) && old(failedJobs) <= failedJobs
      ensures Recorded(cfg, old(db.hashes), Listed(pages), now, failedJobs)
      ensures t.scanned == Visits(pages) && t.recent == RecentVisits(cfg, old(db.hashes), pages, now)
      ensures ticks == old(ticks) + 1
      ensures totals.scanned == old(totals.scanned) + t.scanned && totals.recent == old(totals.recent) + t.recent
      ensures totals.requeued == old(totals.requeued) + t.requeued && totals.failed == old(totals.failed) + t.failed
      ensures totals.dupes == old(totals.dupes) + t.dupes
    {
      ghost var s, done := db.hashes, {};
      t := NoTally;
      NothingReached(cfg, s, now);
      var i := 0;
      while i < |pages|
        invariant 0 <= i <= |pages| && done == Listed(pages[..i])
        invariant t.scanned == Visits(pages[..i]) && t.recent == RecentVisits(cfg, s, pages[..i], now)
        invariant OnCourse(cfg, s, db.hashes, done, now, t, failedJobs)
        invariant |failedJobs| == |old(failedJobs)| + RowsFor(t.failed) && old(failedJobs) <= failedJobs
        invariant ticks == old(ticks) && totals == old(totals)
      {
        assert pages[..i + 1][..i] == pages[..i] && pages[..i + 1][i] == pages[i];
        t := ReapPage(pages[i], now, t, s, done);
        done := done + SlotsOf(pages[i]);
        i := i + 1;
      }
      assert pages[..i] == pages;
      ticks := ticks + 1;
      totals := Plus(totals, t);
    }

    // ----- depth

    /** The redis half of Depth; `scans` are the pages SCAN returned for each channel. */
    method Depth(scans: seq<seq<seq<Key>>>) returns (total: nat)
      requires |scans| == |channels|
      requires forall i | 0 <= i < |channels| :: ExactScan(scans[i], PendingIn(db.hashes, channels[i]))
      ensures total == SumPending(db.hashes, channels)
    {
      total := 0;
      var i := 0;
      while i < |channels|
        invariant 0 <= i <= |channels| && total == SumPending(db.hashes, channels[..i])
      {
        var pages := scans[i];
        ghost var before := total;
        var p := 0;
        while p < |pages|
          invariant 0 <= p <= |pages| && total == before + |Flatten(pages[..p])|
        {
          assert pages[..p + 1][..p] == pages[..p];
          total := total + |pages[p]|;
          p := p + 1;
        }
        assert pages[..p] == pages;
        ScanLength(pages, PendingIn(db.hashes, channels[i]));
        assert channels[..i + 1][..i] == channels[..i];
        i := i + 1;
      }
      assert channels[..i] == channels;
    }
  }
}
