/** The redis keyspace: one hash per (queue, state, id), seen job by job. */
module Store {
  import opened Jobs
  import opened Protocol

  datatype Key = Key(queue: string, state: KeyState, id: string)

  /** A job's place in the keyspace. */
  datatype Slot = Slot(queue: string, id: string)

  type Keyspace = map<Key, Job>

  function KeyOf(k: Slot, st: KeyState): Key { Key(k.queue, st, k.id) }

  function SlotOf(key: Key): Slot { Slot(key.queue, key.id) }

  function Lookup(s: Keyspace, key: Key): Option<Job> { if key in s then Some(s[key]) else None }

  function View(s: Keyspace, k: Slot): Hashes {
    Hashes(Lookup(s, KeyOf(k, PendingKey)), Lookup(s, KeyOf(k, LockedKey)),
           Lookup(s, KeyOf(k, CompletedKey)), Lookup(s, KeyOf(k, FailedKey)))
  }

  function Assign(s: Keyspace, key: Key, v: Option<Job>): Keyspace {
    match v case Some(job) => s[key := job] case None => s - {key}
  }

  /** The keyspace with the hashes of one job replaced. */
  function Put(s: Keyspace, k: Slot, h: Hashes): Keyspace {
    Assign(Assign(Assign(Assign(s, KeyOf(k, PendingKey), h.pending), KeyOf(k, LockedKey), h.locked),
                  KeyOf(k, CompletedKey), h.completed), KeyOf(k, FailedKey), h.failed)
  }

  lemma ViewPut(s: Keyspace, k: Slot, h: Hashes, k': Slot)
    ensures View(Put(s, k, h), k') == if k' == k then h else View(s, k')
  {}

  /** A keyspace that shows h for k and is unchanged elsewhere is Put(s, k, h). */
  lemma PutIs(s: Keyspace, k: Slot, h: Hashes, s': Keyspace)
    requires View(s', k) == h
    requires forall key: Key | SlotOf(key) != k :: Lookup(s', key) == Lookup(s, key)
    ensures s' == Put(s, k, h)
  {
    forall key: Key ensures Lookup(s', key) == Lookup(Put(s, k, h), key) {
      if SlotOf(key) == k {
        assert key == KeyOf(k, key.state);
        ViewPut(s, k, h, k);
        match key.state case PendingKey => case LockedKey => case CompletedKey => case FailedKey =>
      }
    }
    assert forall key: Key :: key in s' <==> Lookup(s', key).Some?;
    assert forall key: Key :: key in Put(s, k, h) <==> Lookup(Put(s, k, h), key).Some?;
    assert s'.Keys == Put(s, k, h).Keys;
    forall key | key in s' ensures s'[key] == Put(s, k, h)[key] {
      assert Lookup(s', key) == Lookup(Put(s, k, h), key);
    }
  }

  /** A keyspace is determined by what it shows for each job. */
  lemma SameViews(s: Keyspace, s': Keyspace)
    requires forall k: Slot :: View(s, k) == View(s', k)
    ensures s == s'
  {
    forall key: Key ensures Lookup(s, key) == Lookup(s', key) {
      assert View(s, SlotOf(key)) == View(s', SlotOf(key)) && key == KeyOf(SlotOf(key), key.state);
      match key.state case PendingKey => case LockedKey => case CompletedKey => case FailedKey =>
    }
    assert forall key: Key :: (key in s <==> Lookup(s, key).Some?) && (key in s' <==> Lookup(s', key).Some?);
    assert s.Keys == s'.Keys;
    assert forall key | key in s :: Lookup(s, key) == Some(s[key]) && Lookup(s', key) == Some(s'[key]);
  }

  /** Every hash carries the id of its key. */
  predicate WellKeyed(s: Keyspace) { forall key | key in s :: s[key].id == key.id }

  /** A redis server reached by one connection: the commands the queue issues. */
  class Redis {
    var hashes: Keyspace

    constructor ()
      ensures hashes == map[]
    {
      hashes := map[];
    }

    /** RENAME: fails on a missing source, overwrites its target. */
    method Rename(a: Key, b: Key) returns (ok: bool)
      modifies this
      ensures ok <==> a in old(hashes)
      ensures hashes == if ok then (old(hashes) - {a})[b := old(hashes)[a]] else old(hashes)
    {
      ok := a in hashes;
      if ok { hashes := (hashes - {a})[b := hashes[a]]; }
    }

    /** HSET of a whole job: creates or overwrites every field. */
    method HSet(key: Key, job: Job)
      modifies this
      ensures hashes == old(hashes)[key := job]
    {
      hashes := hashes[key := job];
    }

    /** HGETALL: a missing key reads as the empty job. */
    method HGetAll(key: Key) returns (job: Job)
      ensures job == if key in hashes then hashes[key] else EmptyJob
    {
      job := if key in hashes then hashes[key] else EmptyJob;
    }

    /** HSET of the LockedAt field alone. */
    method HSetLockedAt(key: Key, t: Timestamp)
      modifies this
      ensures hashes == old(hashes)[key := (if key in old(hashes) then old(hashes)[key] else EmptyJob).(lockedAt := t)]
    {
      var job := HGetAll(key);
      hashes := hashes[key := job.(lockedAt := t)];
    }

    /** HSET of the Status field alone. */
    method HSetStatus(key: Key, st: Status)
      modifies this
      ensures hashes == old(hashes)[key := (if key in old(hashes) then old(hashes)[key] else EmptyJob).(status := st)]
    {
      var job := HGetAll(key);
      hashes := hashes[key := job.(status := st)];
    }

    method Exists(key: Key) returns (b: bool)
      ensures b <==> key in hashes
    {
      b := key in hashes;
    }

    method Del(key: Key)
      modifies this
      ensures hashes == old(hashes) - {key}
    {
      hashes := hashes - {key};
    }
  }
}
