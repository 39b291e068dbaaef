/** The whole redis deployment: one clock, one keyspace, any number of workers each
    holding at most one job, any number of reapers, and jobs dispatched at any time.
    Every job in it behaves as one protocol cell, so the results about cells hold of
    all jobs at once. */
module System {
  import opened Jobs
  import opened Protocol
  import opened Store
  import opened LeaseSafety
  import opened Termination
  import opened ReaperSpec
  import opened Records
  import Keys

  datatype Site = Site(cfg: Settings, channels: seq<string>, default: string)

  /** A running worker: the job it holds and its private copy. */
  datatype Holding = Holding(slot: Slot, lease: Lease)

  /** The history of one job. */
  datatype Book = Book(origin: Option<Job>, starts: seq<Start>, outcomes: seq<Outcome>, crashes: nat,
                       endings: seq<Ending>, rows: nat, lastReap: Instant)

  datatype State = State(
    now: Instant,
    store: Keyspace,
    live: map<Worker, Holding>,
    rows: int,                // failed_jobs rows of all jobs
    books: map<Slot, Book>,
    boot: Instant
  )

  datatype Action =
    | Tick(d: nat)
    | Send(job: Job, id: string)
    | Act(k: Slot, e: Event)

  function Boot(t: Instant): State { State(t, map[], map[], 0, map[], t) }

  function LiveOn(live: map<Worker, Holding>, k: Slot): map<Worker, Lease> {
    map w | w in live && live[w].slot == k :: live[w].lease
  }

  function BookAt(s: State, k: Slot): Book {
    if k in s.books then s.books[k] else Book(None, [], [], 0, [], 0, s.boot)
  }

  /** One job's share of the deployment. */
  function Project(s: State, k: Slot): Cell {
    var b := BookAt(s, k);
    Cell(s.now, View(s.store, k), LiveOn(s.live, k), b.origin, b.starts, b.outcomes, b.crashes, b.endings,
         b.rows, b.lastReap)
  }

  function BookOf(c: Cell): Book { Book(c.origin, c.starts, c.outcomes, c.crashes, c.endings, c.rows, c.lastReap) }

  /** The deployment after job k's share has become c. */
  function Absorb(s: State, k: Slot, c: Cell): State {
    s.(store := Put(s.store, k, c.h),
       live := MergeLive(s.live, k, c.live),
       rows := s.rows + c.rows - BookAt(s, k).rows,
       books := s.books[k := BookOf(c)])
  }

  /** The stored form of a dispatched job and its place in the keyspace. */
  function Addressed(site: Site, job: Job, id: string): Job {
    job.(id := id, queue := Keys.SelectChannel(site.channels, site.default, job.queue), inlineHandler := false)
  }

  function Address(site: Site, job: Job, id: string): Slot {
    Slot(Keys.SelectChannel(site.channels, site.default, job.queue), id)
  }

  predicate Used(s: State, id: string) { exists k | k in s.books :: k.id == id }

  /** Actions of workers and reapers on a job; a busy worker claims nothing. */
  predicate Possible(live: map<Worker, Holding>, e: Event) {
    match e
    case Claim(w) => w !in live
    case Settle(_, _) => true
    case Crash(_) => true
    case Reap => true
    case _ => false
  }

  /** The event an action is for job k, if any. */
  function EventFor(site: Site, s: State, a: Action, k: Slot): Option<Event> {
    match a
    case Tick(d) => Some(Advance(d))
    case Send(job, id) =>
      if !Used(s, id) && Address(site, job, id) == k then Some(Dispatch(Addressed(site, job, id))) else None
    case Act(j, e) => if j == k && Possible(s.live, e) then Some(e) else None
  }

  function Step(site: Site, s: State, a: Action): State {
    match a
    case Tick(d) => s.(now := s.now + d)
    case Send(job, id) =>
      var k := Address(site, job, id);
      if Used(s, id) then s else Absorb(s, k, Next(site.cfg, Project(s, k), Dispatch(Addressed(site, job, id))))
    case Act(k, e) =>
      if !Possible(s.live, e) then s else Absorb(s, k, Next(site.cfg, Project(s, k), e))
  }

  function Execute(site: Site, s: State, acts: seq<Action>): State
    decreases |acts|
  {
    if acts == [] then s else Execute(site, Step(site, s, acts[0]), acts[1..])
  }

  function ListOf(e: Option<Event>): seq<Event> { if e.Some? then [e.value] else [] }

  function EventsFor(site: Site, s: State, acts: seq<Action>, k: Slot): seq<Event>
    decreases |acts|
  {
    if acts == [] then []
    else ListOf(EventFor(site, s, acts[0], k)) + EventsFor(site, Step(site, s, acts[0]), acts[1..], k)
  }

  /** No worker anywhere overruns its lease, as the LockFor of the job it holds sets it. */
  ghost predicate InLease(site: Site, s: State) {
    forall w | w in s.live && BookAt(s, s.live[w].slot).origin.Some? ::
      var lockFor := BookAt(s, s.live[w].slot).origin.value.lockFor;
      s.now - s.live[w].lease.since <= Seconds((if lockFor > 0 then lockFor else site.cfg.lockTimeout) - 1)
  }

  ghost predicate AllPunctual(site: Site, s: State, acts: seq<Action>)
    decreases |acts|
  {
    InLease(site, s) && (acts == [] || AllPunctual(site, Step(site, s, acts[0]), acts[1..]))
  }

  // ----- every job is a cell

  /** Job k's new live copies beside everyone else's. */
  function MergeLive(live: map<Worker, Holding>, k: Slot, mine: map<Worker, Lease>): map<Worker, Holding> {
    (map w | w in live && live[w].slot != k :: live[w]) + (map w | w in mine :: Holding(k, mine[w]))
  }

  lemma MergedLive(live: map<Worker, Holding>, k: Slot, mine: map<Worker, Lease>, j: Slot)
    requires forall w | w in mine && w in live :: live[w].slot == k
    ensures LiveOn(MergeLive(live, k, mine), j) == if j == k then mine else LiveOn(live, j)
  {
    if j == k {
      assert LiveOn(MergeLive(live, k, mine), k) == mine;
    } else {
      assert LiveOn(MergeLive(live, k, mine), j) == LiveOn(live, j);
    }
  }

  lemma AbsorbProjects(s: State, k: Slot, c: Cell, j: Slot)
    requires c.now == s.now
    requires forall w | w in c.live && w in s.live :: s.live[w].slot == k
    ensures Project(Absorb(s, k, c), j) == if j == k then c else Project(s, j)
  {
    ViewPut(s.store, k, c.h, j);
    MergedLive(s.live, k, c.live, j);
  }

  lemma StepProjects(site: Site, s: State, a: Action, k: Slot)
    ensures Project(Step(site, s, a), k)
            == match EventFor(site, s, a, k) case Some(e) => Next(site.cfg, Project(s, k), e) case None => Project(s, k)
  {
    match a
    case Tick(d) =>
    case Send(job, id) =>
      var j := Address(site, job, id);
      if !Used(s, id) {
        AbsorbProjects(s, j, Next(site.cfg, Project(s, j), Dispatch(Addressed(site, job, id))), k);
      }
    case Act(j, e) =>
      if Possible(s.live, e) { AbsorbProjects(s, j, Next(site.cfg, Project(s, j), e), k); }
  }

  /** Seen from any one job, a run of the deployment is a run of its cell, and a
      deployment without overruns gives cells without overruns. */
  lemma {:induction false} JobsAreCells(site: Site, s: State, acts: seq<Action>, k: Slot)
    ensures Project(Execute(site, s, acts), k) == Run(site.cfg, Project(s, k), EventsFor(site, s, acts, k))
    ensures AllPunctual(site, s, acts) ==> Punctual(site.cfg, Project(s, k), EventsFor(site, s, acts, k))
    decreases |acts|
  {
    if acts != [] {
      StepProjects(site, s, acts[0], k);
      var s' := Step(site, s, acts[0]);
      JobsAreCells(site, s', acts[1..], k);
      var rest := EventsFor(site, s', acts[1..], k);
      match EventFor(site, s, acts[0], k)
      case Some(e) => assert ([e] + rest)[1..] == rest;
      case None => assert ListOf(EventFor(site, s, acts[0], k)) + rest == rest;
    }
  }

  // What each action leaves in the keyspace, the live copies and the failed_jobs table.

  lemma MergeUnchanged(live: map<Worker, Holding>, k: Slot)
    ensures MergeLive(live, k, LiveOn(live, k)) == live
  {}

  lemma MergeAdded(live: map<Worker, Holding>, k: Slot, w: Worker, l: Lease)
    requires w !in live
    ensures MergeLive(live, k, LiveOn(live, k)[w := l]) == live[w := Holding(k, l)]
  {}

  lemma MergeRemoved(live: map<Worker, Holding>, k: Slot, w: Worker)
    requires w in live && live[w].slot == k
    ensures MergeLive(live, k, LiveOn(live, k) - {w}) == live - {w}
  {}

  lemma IdleLeaves(site: Site, s: State, k: Slot, e: Event)
    requires Possible(s.live, e) && Next(site.cfg, Project(s, k), e) == Project(s, k)
    ensures var s' := Step(site, s, Act(k, e)); s' == s.(books := s'.books)
  {
    PutIs(s.store, k, View(s.store, k), s.store);
    MergeUnchanged(s.live, k);
  }

  lemma ClaimLeaves(site: Site, s: State, k: Slot, w: Worker)
    requires w !in s.live && View(s.store, k).pending.Some?
    ensures var s' := Step(site, s, Act(k, Claim(w))); var h := View(s.store, k); var p := h.pending.value;
            && s'.store == Put(s.store, k, ClaimHashes(h, s.now))
            && s'.live == (if Open(p, s.now) then s.live[w := Holding(k, Lease(Stamped(p, s.now), s.now))] else s.live)
            && s'.now == s.now && s'.rows == s.rows
  {
    var c := Project(s, k);
    assert w !in c.live;
    assert Next(site.cfg, c, Claim(w)).h == ClaimHashes(c.h, c.now);
    MergeUnchanged(s.live, k);
    MergeAdded(s.live, k, w, Lease(Stamped(c.h.pending.value, s.now), s.now));
  }

  lemma SettleLeaves(site: Site, s: State, k: Slot, w: Worker, o: Outcome)
    requires w in s.live && s.live[w].slot == k
    ensures var s' := Step(site, s, Act(k, Settle(w, o))); var copy := s.live[w].lease.job;
            && s'.store == Put(s.store, k, SettleHashes(site.cfg, View(s.store, k), copy, o, s.now))
            && s'.live == s.live - {w} && s'.now == s.now
            && s'.rows == s.rows + if !o.Success? && !RetriesLeft(site.cfg, Judged(copy, o)) then Row(site.cfg) else 0
  {
    var c := Project(s, k);
    assert w in c.live && c.live[w] == s.live[w].lease;
    assert Next(site.cfg, c, Settle(w, o)).h == SettleHashes(site.cfg, c.h, c.live[w].job, o, c.now);
    MergeRemoved(s.live, k, w);
  }

  lemma CrashLeaves(site: Site, s: State, k: Slot, w: Worker)
    requires w in s.live && s.live[w].slot == k
    ensures var s' := Step(site, s, Act(k, Crash(w))); s' == s.(live := s.live - {w}, books := s'.books)
  {
    var c := Project(s, k);
    assert w in c.live && Next(site.cfg, c, Crash(w)).h == c.h;
    PutIs(s.store, k, c.h, s.store);
    MergeRemoved(s.live, k, w);
  }

  lemma ReapLeaves(site: Site, s: State, k: Slot)
    ensures var s' := Step(site, s, Act(k, Reap)); var h := View(s.store, k);
            && s'.store == Put(s.store, k, ReapHashes(site.cfg, h, s.now))
            && s'.live == s.live && s'.now == s.now
            && s'.rows == s.rows + if ReapVerdict(site.cfg, h, s.now).GivenUp? then Row(site.cfg) else 0
  {
    var c := Project(s, k);
    assert Next(site.cfg, c, Reap).h == ReapHashes(site.cfg, c.h, c.now);
    MergeUnchanged(s.live, k);
  }

  /** One reap for every entry of a listing. */
  function Reaps(keys: seq<Key>): seq<Action> {
    if keys == [] then [] else Reaps(keys[..|keys| - 1]) + [Act(SlotOf(keys[|keys| - 1]), Reap)]
  }

  lemma {:induction false} ExecuteSnoc(site: Site, s: State, acts: seq<Action>, a: Action)
    ensures Execute(site, s, acts + [a]) == Step(site, Execute(site, s, acts), a)
    decreases |acts|
  {
    if acts == [] {
      assert [a][1..] == [] && [] + [a] == [a];
      assert Execute(site, Step(site, s, a), []) == Step(site, s, a);
    } else {
      assert (acts + [a])[1..] == acts[1..] + [a];
      ExecuteSnoc(site, Step(site, s, acts[0]), acts[1..], a);
    }
  }

  /** Reaping a listing entry by entry reaps each job once, as if alone. */
  lemma {:induction false} ReapsAddUp(site: Site, s: State, keys: seq<Key>) returns (t: Tally)
    ensures var s' := Execute(site, s, Reaps(keys));
            && Pointwise(site.cfg, s.store, s'.store, SlotsOf(keys), s.now)
            && Counted(site.cfg, s.store, SlotsOf(keys), s.now, t)
            && s'.now == s.now && s'.live == s.live
            && s'.rows == s.rows + if site.cfg.hasDb then t.failed else 0
    decreases |keys|
  {
    if keys == [] {
      t := NoTally;
      NothingReached(site.cfg, s.store, s.now);
      assert SlotsOf(keys) == {};
    } else {
      var front, k := keys[..|keys| - 1], SlotOf(keys[|keys| - 1]);
      t := ReapsAddUp(site, s, front);
      var s1 := Execute(site, s, Reaps(front));
      ExecuteSnoc(site, s, Reaps(front), Act(k, Reap));
      ReapLeaves(site, s1, k);
      Visit(site.cfg, s.store, s1.store, SlotsOf(front), s.now, t, k);
      SlotsOfSnoc(front, keys[|keys| - 1]);
      assert keys == front + [keys[|keys| - 1]];
      t := Bump(t, ReapVerdict(site.cfg, View(s1.store, k), s.now));
    }
  }

  /** A reaper tick is a run: what a tick over any pages leaves is what one reap per listed
      entry leaves, in the keyspace and in the number of rows. */
  lemma TickIsReaps(site: Site, s: State, pages: seq<seq<Key>>, store: Keyspace, t: Tally)
    requires Pointwise(site.cfg, s.store, store, Listed(pages), s.now)
    requires Counted(site.cfg, s.store, Listed(pages), s.now, t)
    ensures var s' := Execute(site, s, Reaps(Flatten(pages)));
            && s'.store == store && s'.now == s.now && s'.live == s.live
            && s'.rows == s.rows + if site.cfg.hasDb then t.failed else 0
  {
    ListedIsFlat(pages);
    var u := ReapsAddUp(site, s, Flatten(pages));
    SameViews(Execute(site, s, Reaps(Flatten(pages))).store, store);
  }

  lemma SendLeaves(site: Site, s: State, job: Job, id: string)
    requires !Used(s, id)
    ensures var s' := Step(site, s, Send(job, id)); var k := Address(site, job, id);
            && s'.store == Put(s.store, k, View(s.store, k).(pending := Some(Prepared(Addressed(site, job, id), s.now))))
            && s'.live == s.live && s'.now == s.now && s'.rows == s.rows
  {
    var k := Address(site, job, id);
    assert k !in s.books;
    MergeUnchanged(s.live, k);
  }

  // ----- ids

  predicate Has(v: Option<Job>, id: string) { v.Some? ==> v.value.id == id }

  predicate HashesTagged(h: Hashes, id: string) {
    Has(h.pending, id) && Has(h.locked, id) && Has(h.completed, id) && Has(h.failed, id)
  }

  /** Every hash and every live copy of a job carries its id. */
  predicate Tagged(c: Cell, id: string) {
    HashesTagged(c.h, id) && forall w | w in c.live :: c.live[w].job.id == id
  }

  ghost predicate AllTagged(s: State) { forall k: Slot :: Tagged(Project(s, k), k.id) }

  lemma HashesStayTagged(cfg: Settings, h: Hashes, copy: Job, o: Outcome, now: Instant, id: string)
    requires HashesTagged(h, id)
    ensures h.pending.Some? ==> HashesTagged(ClaimHashes(h, now), id)
    ensures copy.id == id ==> HashesTagged(SettleHashes(cfg, h, copy, o, now), id)
    ensures HashesTagged(ReapHashes(cfg, h, now), id)
  {}

  lemma NextTagged(cfg: Settings, c: Cell, e: Event, id: string)
    requires Tagged(c, id) && (e.Dispatch? ==> e.job.id == id)
    ensures Tagged(Next(cfg, c, e), id)
  {
    match e
    case Claim(_) => HashesStayTagged(cfg, c.h, EmptyJob, Success, c.now, id);
    case Settle(w, o) =>
      if w in c.live { HashesStayTagged(cfg, c.h, c.live[w].job, o, c.now, id); }
    case Reap => HashesStayTagged(cfg, c.h, EmptyJob, Success, c.now, id);
    case _ =>
  }

  lemma StepTagged(site: Site, s: State, a: Action)
    requires AllTagged(s)
    ensures AllTagged(Step(site, s, a))
  {
    forall k: Slot ensures Tagged(Project(Step(site, s, a), k), k.id) {
      StepProjects(site, s, a, k);
      match EventFor(site, s, a, k)
      case Some(e) => NextTagged(site.cfg, Project(s, k), e, k.id);
      case None =>
    }
  }

  lemma {:induction false} ExecuteTagged(site: Site, s: State, acts: seq<Action>)
    requires AllTagged(s)
    ensures AllTagged(Execute(site, s, acts))
    decreases |acts|
  {
    if acts != [] {
      StepTagged(site, s, acts[0]);
      ExecuteTagged(site, Step(site, s, acts[0]), acts[1..]);
    }
  }

  /** In every deployment each hash carries the id of its key, so the Status write of a
      starting claim, addressed by the hash's own id, never reaches another job. */
  lemma HashesKeepTheirIds(site: Site, t: Instant, acts: seq<Action>)
    ensures WellKeyed(Execute(site, Boot(t), acts).store)
  {
    assert forall k :: Project(Boot(t), k) == Init(t);
    ExecuteTagged(site, Boot(t), acts);
    var s := Execute(site, Boot(t), acts);
    forall key | key in s.store ensures s.store[key].id == key.id {
      assert Tagged(Project(s, SlotOf(key)), key.id);
      assert key == KeyOf(SlotOf(key), key.state);
      match key.state case PendingKey => case LockedKey => case CompletedKey => case FailedKey =>
    }
  }

  // ----- results for all jobs at once

  /** Without overruns no two workers ever hold the same job, and no reaper changes
      anything about a job some worker holds. */
  lemma NoTwoWorkersOneJob(site: Site, t: Instant, acts: seq<Action>, v: Worker, w: Worker)
    requires AllPunctual(site, Boot(t), acts)
    requires var s := Execute(site, Boot(t), acts); v in s.live && w in s.live
    ensures var s := Execute(site, Boot(t), acts); var k := s.live[w].slot;
            && (s.live[v].slot == k ==> v == w)
            && View(Step(site, s, Act(k, Reap)).store, k) == View(s.store, k)
  {
    var s := Execute(site, Boot(t), acts);
    var k := s.live[w].slot;
    var es := EventsFor(site, Boot(t), acts, k);
    JobsAreCells(site, Boot(t), acts, k);
    assert Project(Boot(t), k) == Init(t);
    MutualExclusion(site.cfg, t, es);
    var c := Project(s, k);
    assert w in c.live && (s.live[v].slot == k ==> v in c.live);
    StepProjects(site, s, Act(k, Reap), k);
  }

  /** Without overruns every job always has one of the five key sets. */
  lemma EveryJobHasAShape(site: Site, t: Instant, acts: seq<Action>, k: Slot)
    requires AllPunctual(site, Boot(t), acts)
    ensures var s := Execute(site, Boot(t), acts);
            && !ShapeOf(View(s.store, k)).Mixed?
            && (ShapeOf(View(s.store, k)).Nothing? <==> BookAt(s, k).origin.None?)
  {
    JobsAreCells(site, Boot(t), acts, k);
    assert Project(Boot(t), k) == Init(t);
    KeyShape(site.cfg, t, EventsFor(site, Boot(t), acts, k));
  }

  /** In every run of the deployment, overruns and crashes included, each dispatched
      job executes boundedly often. */
  lemma EveryJobIsBounded(site: Site, t: Instant, acts: seq<Action>, k: Slot)
    requires BookAt(Execute(site, Boot(t), acts), k).origin.Some?
    ensures var b := BookAt(Execute(site, Boot(t), acts), k);
            |b.starts| <= PendingWeight(0, Left(site.cfg, b.origin.value))
  {
    JobsAreCells(site, Boot(t), acts, k);
    assert Project(Boot(t), k) == Init(t);
    RunsAreBounded(site.cfg, Init(t), EventsFor(site, Boot(t), acts, k));
  }

  // ----- what was sent is what runs, in the channel it was sent to

  lemma {:induction false} ExecuteConcat(site: Site, s: State, a: seq<Action>, b: seq<Action>)
    ensures Execute(site, s, a + b) == Execute(site, Execute(site, s, a), b)
    decreases |a|
  {
    if a == [] {
      assert a + b == b;
    } else {
      assert (a + b)[1..] == a[1..] + b;
      ExecuteConcat(site, Step(site, s, a[0]), a[1..], b);
    }
  }

  /** A place whose id is not in use holds nothing. */
  lemma UnusedIsEmpty(site: Site, t: Instant, acts: seq<Action>, k: Slot)
    requires !Used(Execute(site, Boot(t), acts), k.id)
    ensures Undispatched(Project(Execute(site, Boot(t), acts), k))
  {
    var s := Execute(site, Boot(t), acts);
    assert k !in s.books;
    JobsAreCells(site, Boot(t), acts, k);
    assert Project(Boot(t), k) == Init(t);
    UndispatchedRun(site.cfg, Init(t), EventsFor(site, Boot(t), acts, k));
  }

  /** A place whose id is in use elsewhere stays empty. */
  lemma {:induction false} NowhereElse(site: Site, s: State, acts: seq<Action>, j: Slot)
    requires Used(s, j.id) && Undispatched(Project(s, j))
    ensures Undispatched(Project(Execute(site, s, acts), j))
    decreases |acts|
  {
    if acts != [] {
      var s' := Step(site, s, acts[0]);
      StepProjects(site, s, acts[0], j);
      var k :| k in s.books && k.id == j.id;
      assert k in s'.books;
      NowhereElse(site, s', acts[1..], j);
    }
  }

  /** Whatever a deployment has done before and does after, a job sent to it is found under
      the channel that honours its request and nowhere else, and every hash of it and every
      worker's copy carries the payload and the other fields it was sent with. */
  lemma SentJobsAreKept(site: Site, t: Instant, before: seq<Action>, job: Job, id: string, rest: seq<Action>,
                        channel: string)
    requires !Used(Execute(site, Boot(t), before), id)
    requires Keys.Honours(site.channels, site.default, job.queue, channel)
    ensures var s0 := Execute(site, Boot(t), before);
            var s := Execute(site, Boot(t), before + [Send(job, id)] + rest);
            var o := job.(id := id, queue := channel, inlineHandler := false, reservedAt := At(Stamp(s0.now)));
            && Kept(Project(s, Slot(channel, id)), o) && View(s.store, Slot(channel, id)) != Absent
            && forall other: string :: other != channel ==> View(s.store, Slot(other, id)) == Absent
  {
    var s0, a, k := Execute(site, Boot(t), before), Send(job, id), Slot(channel, id);
    Keys.RequestIsHonoured(site.channels, site.default, job.queue, channel);
    UnusedIsEmpty(site, t, before, k);
    StepProjects(site, s0, a, k);
    var s1, o := Step(site, s0, a), Addressed(site, job, id);
    DispatchWrites(site.cfg, Project(s0, k), o);
    JobsAreCells(site, s1, rest, k);
    var es := EventsFor(site, s1, rest, k);
    KeptRun(site.cfg, Project(s1, k), es, o.(reservedAt := At(Stamp(s0.now))));
    NeverAbsent(site.cfg, Project(s1, k), es);
    assert before + [a] + rest == before + ([a] + rest) && ([a] + rest)[1..] == rest;
    ExecuteConcat(site, Boot(t), before, [a] + rest);
    assert k in s1.books;
    forall other: string | other != channel ensures View(Execute(site, s1, rest).store, Slot(other, id)) == Absent {
      UnusedIsEmpty(site, t, before, Slot(other, id));
      StepProjects(site, s0, a, Slot(other, id));
      NowhereElse(site, s1, rest, Slot(other, id));
    }
  }

  lemma {:induction false} NeverAbsent(cfg: Settings, c: Cell, es: seq<Event>)
    requires c.h != Absent && c.origin.Some?
    ensures Run(cfg, c, es).h != Absent
    decreases |es|
  {
    if es != [] { NeverAbsent(cfg, Next(cfg, c, es[0]), es[1..]); }
  }

  /** A job sent to a deployment adds its own key to the pending keys of the channel that
      honours its request, and leaves every other channel as it was. */
  lemma SendLands(site: Site, t: Instant, acts: seq<Action>, job: Job, id: string, channel: string, other: string)
    requires !Used(Execute(site, Boot(t), acts), id)
    requires Keys.Honours(site.channels, site.default, job.queue, channel)
    ensures var s := Execute(site, Boot(t), acts); var s' := Step(site, s, Send(job, id));
            && PendingIn(s'.store, channel) == PendingIn(s.store, channel) + {Key(channel, PendingKey, id)}
            && |PendingIn(s'.store, channel)| == |PendingIn(s.store, channel)| + 1
            && (other != channel ==> PendingIn(s'.store, other) == PendingIn(s.store, other))
  {
    var s, k, key := Execute(site, Boot(t), acts), Slot(channel, id), Key(channel, PendingKey, id);
    Keys.RequestIsHonoured(site.channels, site.default, job.queue, channel);
    UnusedIsEmpty(site, t, acts, k);
    assert KeyOf(k, PendingKey) == key && Lookup(s.store, key).None?;
    SendLeaves(site, s, job, id);
    var s' := Step(site, s, Send(job, id));
    forall any: Key ensures any.state == PendingKey && any != key ==> (any in s'.store <==> any in s.store) {
      ViewPut(s.store, k, View(s.store, k).(pending := Some(Prepared(Addressed(site, job, id), s.now))), SlotOf(any));
      if any.state == PendingKey { assert any == KeyOf(SlotOf(any), PendingKey); }
    }
    ViewPut(s.store, k, View(s.store, k).(pending := Some(Prepared(Addressed(site, job, id), s.now))), k);
    assert PendingIn(s'.store, channel) == PendingIn(s.store, channel) + {key};
  }

  // ----- depth

  /** Every key and every held job lies in a configured channel. */
  predicate Housed(site: Site, s: State) {
    && (forall key | key in s.store :: key.queue in site.channels)
    && (forall w | w in s.live :: s.live[w].slot.queue in site.channels)
  }

  lemma AbsorbHoused(site: Site, s: State, k: Slot, c: Cell)
    requires Housed(site, s)
    requires k.queue in site.channels || (c.h == Absent && c.live == map[])
    ensures Housed(site, Absorb(s, k, c))
  {
    var s' := Absorb(s, k, c);
    forall key | key in s'.store ensures key.queue in site.channels {
      if SlotOf(key) == k {
        ViewPut(s.store, k, c.h, k);
        assert key == KeyOf(k, key.state);
        match key.state case PendingKey => case LockedKey => case CompletedKey => case FailedKey =>
      } else {
        ViewPut(s.store, k, c.h, SlotOf(key));
        assert key == KeyOf(SlotOf(key), key.state);
        match key.state case PendingKey => case LockedKey => case CompletedKey => case FailedKey =>
      }
    }
  }

  lemma StepHoused(site: Site, s: State, a: Action)
    requires Housed(site, s) && site.default in site.channels
    ensures Housed(site, Step(site, s, a))
  {
    match a
    case Tick(d) =>
    case Send(job, id) =>
      if !Used(s, id) {
        var k := Address(site, job, id);
        AbsorbHoused(site, s, k, Next(site.cfg, Project(s, k), Dispatch(Addressed(site, job, id))));
      }
    case Act(k, e) =>
      if Possible(s.live, e) {
        var c := Project(s, k);
        if k.queue !in site.channels {
          assert c.h == Absent;
          assert c.live == map[];
        }
        AbsorbHoused(site, s, k, Next(site.cfg, c, e));
      }
  }

  lemma {:induction false} ExecuteHoused(site: Site, s: State, acts: seq<Action>)
    requires Housed(site, s) && site.default in site.channels
    ensures Housed(site, Execute(site, s, acts))
    decreases |acts|
  {
    if acts != [] {
      StepHoused(site, s, acts[0]);
      ExecuteHoused(site, Step(site, s, acts[0]), acts[1..]);
    }
  }

  /** In every reachable deployment the per-channel sums Depth adds up equal the number
      of pending keys, if and only if no channel listed twice holds a pending key. */
  lemma DepthCountsPendingKeys(site: Site, t: Instant, acts: seq<Action>)
    requires site.default in site.channels
    ensures var s := Execute(site, Boot(t), acts);
            SumPending(s.store, site.channels) == |PendingKeys(s.store)| <==> NoDoubleCount(s.store, site.channels)
  {
    ExecuteHoused(site, Boot(t), acts);
    DepthIsExact(Execute(site, Boot(t), acts).store, site.channels);
  }
}
