/** What a reaper tick and a depth query mean, independently of the loops that
    compute them. */
module ReaperSpec {
  import opened Jobs
  import opened Protocol
  import opened Store

  /** The counters of one tick. */
  datatype Tally = Tally(scanned: nat, requeued: nat, failed: nat, recent: nat, dupes: nat)

  const NoTally: Tally := Tally(0, 0, 0, 0, 0)

  function Plus(a: Tally, b: Tally): Tally {
    Tally(a.scanned + b.scanned, a.requeued + b.requeued, a.failed + b.failed, a.recent + b.recent, a.dupes + b.dupes)
  }

  function SlotsOf(keys: seq<Key>): set<Slot> { set i | 0 <= i < |keys| :: SlotOf(keys[i]) }

  lemma SlotsOfSnoc(keys: seq<Key>, key: Key)
    ensures SlotsOf(keys + [key]) == SlotsOf(keys) + {SlotOf(key)}
  {
    var all := keys + [key];
    forall k ensures k in SlotsOf(all) <==> k in SlotsOf(keys) + {SlotOf(key)} {
      if k in SlotsOf(keys) {
        var i :| 0 <= i < |keys| && SlotOf(keys[i]) == k;
        assert SlotOf(all[i]) == k;
      }
      assert SlotOf(all[|keys|]) == SlotOf(key);
    }
  }

  /** The jobs a paged listing names, and the number of entries it has. */
  function Listed(pages: seq<seq<Key>>): set<Slot> {
    if pages == [] then {} else Listed(pages[..|pages| - 1]) + SlotsOf(pages[|pages| - 1])
  }

  function Flatten(pages: seq<seq<Key>>): seq<Key> {
    if pages == [] then [] else Flatten(pages[..|pages| - 1]) + pages[|pages| - 1]
  }

  lemma {:induction false} ListedIsFlat(pages: seq<seq<Key>>)
    ensures Listed(pages) == SlotsOf(Flatten(pages))
  {
    if pages != [] {
      var front, last := Flatten(pages[..|pages| - 1]), pages[|pages| - 1];
      ListedIsFlat(pages[..|pages| - 1]);
      forall k ensures k in SlotsOf(front + last) <==> k in SlotsOf(front) + SlotsOf(last) {
        if k in SlotsOf(front) {
          var i :| 0 <= i < |front| && SlotOf(front[i]) == k;
          assert SlotOf((front + last)[i]) == k;
        }
        if k in SlotsOf(last) {
          var i :| 0 <= i < |last| && SlotOf(last[i]) == k;
          assert SlotOf((front + last)[|front| + i]) == k;
        }
      }
    }
  }

  function Visits(pages: seq<seq<Key>>): nat {
    if pages == [] then 0 else Visits(pages[..|pages| - 1]) + |pages[|pages| - 1]|
  }

  lemma {:induction false} VisitsAreEntries(pages: seq<seq<Key>>)
    ensures Visits(pages) == |Flatten(pages)|
  {
    if pages != [] { VisitsAreEntries(pages[..|pages| - 1]); }
  }

  /** A lock the reaper can date and finds still running. */
  predicate Recent(cfg: Settings, h: Hashes, now: Instant) {
    h.locked.Some? && LockTime(h.locked.value).At? && !Expired(cfg, h.locked.value, now)
  }

  /** The same, with the date and the lock time written out. */
  lemma RecentExactly(cfg: Settings, h: Hashes, now: Instant)
    ensures Recent(cfg, h, now) <==>
              h.locked.Some? &&
              var job := h.locked.value;
              var date := if job.lockedAt.At? then job.lockedAt else job.reservedAt;
              date.At? && now < date.t + Seconds(if job.lockFor > 0 then job.lockFor else cfg.lockTimeout)
  {}

  /** The entries of a page, and of a paged listing, whose lock is recent in `s`. */
  function RecentOn(cfg: Settings, s: Keyspace, page: seq<Key>, now: Instant): nat {
    if page == [] then 0
    else RecentOn(cfg, s, page[..|page| - 1], now)
         + if Recent(cfg, View(s, SlotOf(page[|page| - 1])), now) then 1 else 0
  }

  /** One more entry of a page. */
  lemma NextEntry(cfg: Settings, s: Keyspace, page: seq<Key>, now: Instant, seen: set<Slot>, j: nat)
    requires j < |page|
    ensures seen + SlotsOf(page[..j]) + {SlotOf(page[j])} == seen + SlotsOf(page[..j + 1])
    ensures RecentOn(cfg, s, page[..j + 1], now)
            == RecentOn(cfg, s, page[..j], now) + if Recent(cfg, View(s, SlotOf(page[j])), now) then 1 else 0
  {
    assert page[..j + 1] == page[..j] + [page[j]] && page[..j + 1][..j] == page[..j];
    SlotsOfSnoc(page[..j], page[j]);
  }

  function RecentVisits(cfg: Settings, s: Keyspace, pages: seq<seq<Key>>, now: Instant): nat {
    if pages == [] then 0
    else RecentVisits(cfg, s, pages[..|pages| - 1], now) + RecentOn(cfg, s, pages[|pages| - 1], now)
  }

  /** The listed jobs on which the reaper reaches a given verdict. */
  ghost function Reached(cfg: Settings, s: Keyspace, seen: set<Slot>, now: Instant, v: Verdict): set<Slot> {
    set k | k in seen && ReapVerdict(cfg, View(s, k), now) == v
  }

  /** One reap settles a job for the rest of the tick. */
  lemma ReapIdempotent(cfg: Settings, h: Hashes, now: Instant)
    ensures ReapVerdict(cfg, ReapHashes(cfg, h, now), now).Untouched?
    ensures ReapHashes(cfg, ReapHashes(cfg, h, now), now) == ReapHashes(cfg, h, now)
    ensures Recent(cfg, ReapHashes(cfg, h, now), now) == Recent(cfg, h, now)
  {}

  /** Exactly the jobs of `seen` have been reaped, each by itself; the rest are untouched. */
  ghost predicate Pointwise(cfg: Settings, s: Keyspace, s': Keyspace, seen: set<Slot>, now: Instant) {
    forall k: Slot :: View(s', k) == if k in seen then ReapHashes(cfg, View(s, k), now) else View(s, k)
  }

  /** The counters of requeued, failed and duplicate locks count jobs, not visits. */
  ghost predicate Counted(cfg: Settings, s: Keyspace, seen: set<Slot>, now: Instant, t: Tally) {
    && t.dupes == |Reached(cfg, s, seen, now, Duplicate)|
    && t.requeued == |Reached(cfg, s, seen, now, BackToPending)|
    && t.failed == |Reached(cfg, s, seen, now, GivenUp)|
  }

  function Bump(t: Tally, v: Verdict): Tally {
    match v
    case Untouched => t
    case Duplicate => t.(dupes := t.dupes + 1)
    case BackToPending => t.(requeued := t.requeued + 1)
    case GivenUp => t.(failed := t.failed + 1)
  }

  lemma ReachedGrows(cfg: Settings, s: Keyspace, seen: set<Slot>, now: Instant, v: Verdict, k: Slot)
    requires k !in seen
    ensures |Reached(cfg, s, seen + {k}, now, v)|
            == |Reached(cfg, s, seen, now, v)| + if ReapVerdict(cfg, View(s, k), now) == v then 1 else 0
  {
    if ReapVerdict(cfg, View(s, k), now) == v {
      assert Reached(cfg, s, seen + {k}, now, v) == Reached(cfg, s, seen, now, v) + {k};
    } else {
      assert Reached(cfg, s, seen + {k}, now, v) == Reached(cfg, s, seen, now, v);
    }
  }

  /** One more visit, first or repeated, keeps the tick on course. */
  lemma Visit(cfg: Settings, s: Keyspace, cur: Keyspace, seen: set<Slot>, now: Instant, t: Tally, k: Slot)
    requires Pointwise(cfg, s, cur, seen, now) && Counted(cfg, s, seen, now, t)
    ensures Pointwise(cfg, s, Put(cur, k, ReapHashes(cfg, View(cur, k), now)), seen + {k}, now)
    ensures Counted(cfg, s, seen + {k}, now, Bump(t, ReapVerdict(cfg, View(cur, k), now)))
  {
    var next := Put(cur, k, ReapHashes(cfg, View(cur, k), now));
    ReapIdempotent(cfg, View(s, k), now);
    forall j: Slot
      ensures View(next, j) == if j in seen + {k} then ReapHashes(cfg, View(s, j), now) else View(s, j)
    {
      ViewPut(cur, k, ReapHashes(cfg, View(cur, k), now), j);
    }
    if k in seen {
      assert seen + {k} == seen;
    } else {
      ReachedGrows(cfg, s, seen, now, Duplicate, k);
      ReachedGrows(cfg, s, seen, now, BackToPending, k);
      ReachedGrows(cfg, s, seen, now, GivenUp, k);
    }
  }

  lemma NothingReached(cfg: Settings, s: Keyspace, now: Instant)
    ensures Pointwise(cfg, s, s, {}, now) && Counted(cfg, s, {}, now, NoTally)
  {
    assert forall v :: Reached(cfg, s, {}, now, v) == {};
  }

  /** With a database, the failed hash of every job of `seen` given up since `s` has a row. */
  ghost predicate Recorded(cfg: Settings, s: Keyspace, seen: set<Slot>, now: Instant, rows: seq<Job>) {
    cfg.hasDb ==> forall k | k in seen && ReapVerdict(cfg, View(s, k), now).GivenUp? ::
                    ReapHashes(cfg, View(s, k), now).failed.value in rows
  }

  lemma VisitRecords(cfg: Settings, s: Keyspace, cur: Keyspace, seen: set<Slot>, now: Instant, k: Slot,
                     rows: seq<Job>, rows': seq<Job>)
    requires Pointwise(cfg, s, cur, seen, now) && Recorded(cfg, s, seen, now, rows)
    requires rows <= rows'
    requires var h := View(cur, k);
             cfg.hasDb && ReapVerdict(cfg, h, now).GivenUp? ==> ReapHashes(cfg, h, now).failed.value in rows'
    ensures Recorded(cfg, s, seen + {k}, now, rows')
  {
    if cfg.hasDb {
      forall j | j in seen + {k} && ReapVerdict(cfg, View(s, j), now).GivenUp?
        ensures ReapHashes(cfg, View(s, j), now).failed.value in rows'
      {
        if j in seen {
          var i :| 0 <= i < |rows| && rows[i] == ReapHashes(cfg, View(s, j), now).failed.value;
          assert rows'[i] == rows[i];
        } else {
          assert View(cur, j) == View(s, j);
        }
      }
    }
  }

  /** A tick that started from `s` has reaped exactly `seen`, counted and recorded it. */
  ghost predicate OnCourse(cfg: Settings, s: Keyspace, cur: Keyspace, seen: set<Slot>, now: Instant, t: Tally,
                           rows: seq<Job>) {
    Pointwise(cfg, s, cur, seen, now) && Counted(cfg, s, seen, now, t) && Recorded(cfg, s, seen, now, rows)
  }

  /** The jobs whose lock has expired. */
  ghost function ExpiredLocks(cfg: Settings, s: Keyspace, now: Instant): set<Slot> {
    set key | key in s && key.state == LockedKey && Expired(cfg, s[key], now) :: SlotOf(key)
  }

  /** A listing covers the keyspace when every locked key is on it. */
  ghost predicate Covers(s: Keyspace, seen: set<Slot>) {
    forall key | key in s && key.state == LockedKey :: SlotOf(key) in seen
  }

  lemma ExpiredIs(cfg: Settings, s: Keyspace, now: Instant, k: Slot)
    ensures k in ExpiredLocks(cfg, s, now) <==> !ReapVerdict(cfg, View(s, k), now).Untouched?
  {
    var key := KeyOf(k, LockedKey);
    assert SlotOf(key) == k;
    if k in ExpiredLocks(cfg, s, now) {
      var key' :| key' in s && key'.state == LockedKey && Expired(cfg, s[key'], now) && SlotOf(key') == k;
      assert key' == key;
    }
  }

  lemma VerdictsPartition(cfg: Settings, s: Keyspace, seen: set<Slot>, now: Instant)
    requires ExpiredLocks(cfg, s, now) <= seen
    ensures |ExpiredLocks(cfg, s, now)|
            == |Reached(cfg, s, seen, now, Duplicate)| + |Reached(cfg, s, seen, now, BackToPending)|
               + |Reached(cfg, s, seen, now, GivenUp)|
  {
    var d, b, g := Reached(cfg, s, seen, now, Duplicate), Reached(cfg, s, seen, now, BackToPending),
                   Reached(cfg, s, seen, now, GivenUp);
    forall k ensures k in ExpiredLocks(cfg, s, now) <==> k in d + b + g {
      ExpiredIs(cfg, s, now, k);
    }
    assert ExpiredLocks(cfg, s, now) == d + b + g;
  }

  /** With a covering listing, in any order and with any repeats, the tick deletes,
      requeues or fails each expired lock, leaves everything else as it was, and its
      three counters add up to the number of expired locks. */
  lemma CoveringTick(cfg: Settings, s: Keyspace, s': Keyspace, seen: set<Slot>, now: Instant, t: Tally)
    requires Pointwise(cfg, s, s', seen, now) && Counted(cfg, s, seen, now, t) && Covers(s, seen)
    ensures forall k: Slot :: View(s', k) == ReapHashes(cfg, View(s, k), now)
    ensures t.requeued + t.failed + t.dupes == |ExpiredLocks(cfg, s, now)|
  {
    forall k: Slot ensures View(s', k) == ReapHashes(cfg, View(s, k), now) {
      if k !in seen {
        assert KeyOf(k, LockedKey) in s ==> SlotOf(KeyOf(k, LockedKey)) in seen;
      }
    }
    VerdictsPartition(cfg, s, seen, now);
  }

  // ----- depth

  ghost function PendingKeys(s: Keyspace): set<Key> { set key | key in s && key.state == PendingKey }

  ghost function PendingIn(s: Keyspace, channel: string): set<Key> {
    set key | key in s && key.state == PendingKey && key.queue == channel
  }

  ghost function SumPending(s: Keyspace, channels: seq<string>): nat {
    if channels == [] then 0
    else SumPending(s, channels[..|channels| - 1]) + |PendingIn(s, channels[|channels| - 1])|
  }

  ghost function Gathered(s: Keyspace, channels: seq<string>): set<Key> {
    set key | key in s && key.state == PendingKey && key.queue in channels
  }

  /** No channel listed twice holds a pending key. */
  ghost predicate NoDoubleCount(s: Keyspace, channels: seq<string>) {
    forall i, j | 0 <= i < j < |channels| && channels[i] == channels[j] :: PendingIn(s, channels[i]) == {}
  }

  lemma NoDoubleCountSplit(s: Keyspace, front: seq<string>, last: string)
    ensures NoDoubleCount(s, front + [last])
            <==> NoDoubleCount(s, front) && (last in front ==> PendingIn(s, last) == {})
  {
    var all := front + [last];
    if NoDoubleCount(s, all) {
      forall a, b | 0 <= a < b < |front| && front[a] == front[b] ensures PendingIn(s, front[a]) == {} {
        assert all[a] == all[b];
      }
      if last in front {
        var i :| 0 <= i < |front| && front[i] == last;
        assert all[i] == all[|front|];
      }
    } else {
      var a, b :| 0 <= a < b < |all| && all[a] == all[b] && PendingIn(s, all[a]) != {};
      if b < |front| { assert front[a] == front[b]; } else { assert front[a] == last; }
    }
  }

  lemma {:induction false} SumGathers(s: Keyspace, channels: seq<string>)
    ensures SumPending(s, channels) >= |Gathered(s, channels)|
    ensures SumPending(s, channels) == |Gathered(s, channels)| <==> NoDoubleCount(s, channels)
  {
    if channels == [] {
      assert Gathered(s, channels) == {};
    } else {
      var front, last := channels[..|channels| - 1], channels[|channels| - 1];
      SumGathers(s, front);
      NoDoubleCountSplit(s, front, last);
      assert channels == front + [last];
      var some := PendingIn(s, last);
      assert Gathered(s, channels) == Gathered(s, front) + some;
      if last in front {
        assert Gathered(s, channels) == Gathered(s, front);
      } else {
        assert Gathered(s, front) !! some;
      }
    }
  }

  /** The pages list each key of `keys` once and nothing else. */
  ghost predicate ExactScan(pages: seq<seq<Key>>, keys: set<Key>) { multiset(Flatten(pages)) == multiset(keys) }

  lemma ScanLength(pages: seq<seq<Key>>, keys: set<Key>)
    requires ExactScan(pages, keys)
    ensures |Flatten(pages)| == |keys|
  {
    assert |multiset(Flatten(pages))| == |multiset(keys)|;
  }

  /** When every pending key lies in a listed channel, the per-channel sums count the
      pending keys exactly, if and only if no channel listed twice holds one. */
  lemma DepthIsExact(s: Keyspace, channels: seq<string>)
    requires forall key | key in s && key.state == PendingKey :: key.queue in channels
    ensures SumPending(s, channels) == |PendingKeys(s)| <==> NoDoubleCount(s, channels)
  {
    SumGathers(s, channels);
    assert Gathered(s, channels) == PendingKeys(s);
  }
}
