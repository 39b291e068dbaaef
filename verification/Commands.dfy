/** The protocol one redis command at a time. Nothing makes the commands of a claim,
    a settle or a reap one transaction, so commands of different workers and reapers
    interleave freely. No interleaving loses a job, provided the reaper's EXISTS and
    DEL act together; apart, they can lose one. */
module Commands {
  import opened Jobs
  import opened Protocol
  import opened Termination

  datatype Command =
    | Rename(src: KeyState, dst: KeyState)
    | HSet(st: KeyState, job: Job)
    | HSetLockedAt(t: Timestamp)
    | HSetStatus(status: Status)
    | DelIfPending            // the reaper's EXISTS pending and DEL locked, taken together

  function Get(h: Hashes, st: KeyState): Option<Job> {
    match st
    case PendingKey => h.pending
    case LockedKey => h.locked
    case CompletedKey => h.completed
    case FailedKey => h.failed
  }

  function Set(h: Hashes, st: KeyState, v: Option<Job>): Hashes {
    match st
    case PendingKey => h.(pending := v)
    case LockedKey => h.(locked := v)
    case CompletedKey => h.(completed := v)
    case FailedKey => h.(failed := v)
  }

  function Exec(h: Hashes, c: Command): Hashes {
    match c
    case Rename(src, dst) => if Get(h, src).None? then h else Set(Set(h, src, None), dst, Get(h, src))
    case HSet(st, job) => Set(h, st, Some(job))
    case HSetLockedAt(t) => h.(locked := Some(OrEmpty(h.locked).(lockedAt := t)))
    case HSetStatus(st) => h.(locked := Some(OrEmpty(h.locked).(status := st)))
    case DelIfPending => if h.pending.Some? then h.(locked := None) else h
  }

  function ExecAll(h: Hashes, cs: seq<Command>): Hashes
    decreases |cs|
  {
    if cs == [] then h else ExecAll(Exec(h, cs[0]), cs[1..])
  }

  // ----- the commands of each step

  function SettleScript(cfg: Settings, copy: Job, o: Outcome, now: Instant): seq<Command> {
    var job := Judged(copy, o);
    if o.Success? then [HSet(LockedKey, Finished(job, now)), Rename(LockedKey, CompletedKey)]
    else if RetriesLeft(cfg, job) then [HSet(PendingKey, Retried(job, now))]
    else [HSet(LockedKey, Abandoned(job, o, now)), Rename(LockedKey, FailedKey)]
  }

  function ClaimScript(pending: Job, now: Instant): seq<Command> {
    [Rename(PendingKey, LockedKey), HSetLockedAt(At(Stamp(now)))]
    + if Open(pending, now) then [HSetStatus(Processing)]
      else if pending.retryAfter.At? then [Rename(LockedKey, PendingKey)]
      else []
  }

  function ReapScript(cfg: Settings, h: Hashes, now: Instant): seq<Command> {
    match ReapVerdict(cfg, h, now)
    case Untouched => []
    case Duplicate => [DelIfPending]
    case BackToPending =>
      [HSet(LockedKey, Requeued(Charged(cfg, h.locked.value), now)), Rename(LockedKey, PendingKey)]
    case GivenUp =>
      [HSet(LockedKey, Condemned(Charged(cfg, h.locked.value), now)), Rename(LockedKey, FailedKey)]
  }

  function Script(cfg: Settings, c: Cell, e: Event): seq<Command> {
    match e
    case Dispatch(job) => if c.origin.Some? then [] else [HSet(PendingKey, Prepared(job, c.now))]
    case Claim(w) =>
      if w in c.live then []
      else if c.h.pending.None? then [Rename(PendingKey, LockedKey)]
      else ClaimScript(c.h.pending.value, c.now)
    case Settle(w, o) => if w in c.live then SettleScript(cfg, c.live[w].job, o, c.now) else []
    case Reap => ReapScript(cfg, c.h, c.now)
    case _ => []
  }

  lemma {:induction false} ExecUpTo3(h: Hashes, cs: seq<Command>)
    requires |cs| <= 3
    ensures |cs| == 0 ==> ExecAll(h, cs) == h
    ensures |cs| == 1 ==> ExecAll(h, cs) == Exec(h, cs[0])
    ensures |cs| == 2 ==> ExecAll(h, cs) == Exec(Exec(h, cs[0]), cs[1])
    ensures |cs| == 3 ==> ExecAll(h, cs) == Exec(Exec(Exec(h, cs[0]), cs[1]), cs[2])
    decreases |cs|
  {
    if cs != [] { ExecUpTo3(Exec(h, cs[0]), cs[1..]); }
  }

  /** Run without interruption, the commands of a step do exactly what the step does, and
      no step issues any other kind of command. */
  lemma ScriptsImplementSteps(cfg: Settings, c: Cell, e: Event)
    ensures ExecAll(c.h, Script(cfg, c, e)) == Next(cfg, c, e).h
    ensures forall k | 0 <= k < |Script(cfg, c, e)| ::
              Script(cfg, c, e)[k].DelIfPending? || Issued(Do(Script(cfg, c, e)[k]))
  {
    ExecUpTo3(c.h, Script(cfg, c, e));
  }

  // ----- no job is lost

  /** However the commands of any number of workers and reapers interleave, a job that
      has a key keeps having one. */
  lemma {:induction false} NoJobIsLost(h: Hashes, cs: seq<Command>)
    requires h != Absent
    ensures ExecAll(h, cs) != Absent
    decreases |cs|
  {
    if cs != [] { NoJobIsLost(Exec(h, cs[0]), cs[1..]); }
  }

  // ----- EXISTS and DEL apart

  type Reaper = nat

  /** Single commands, with each reaper's EXISTS and its later DEL as two of them. */
  datatype Op = Do(c: Command) | Look(r: Reaper) | Drop(r: Reaper)

  /** `seen` holds the reapers that saw a pending key and have yet to DEL. */
  datatype Split = Split(h: Hashes, seen: set<Reaper>)

  function Apply(s: Split, op: Op): Split {
    match op
    case Do(c) => s.(h := Exec(s.h, c))
    case Look(r) => s.(seen := if s.h.pending.Some? then s.seen + {r} else s.seen - {r})
    case Drop(r) => if r in s.seen then Split(s.h.(locked := None), s.seen - {r}) else s
  }

  /** The state after the first `n` commands. */
  function After(s: Split, ops: seq<Op>, n: nat): Split
    requires n <= |ops|
  {
    if n == 0 then s else Apply(After(s, ops, n - 1), ops[n - 1])
  }

  /** A command loses a job exactly when it is a DEL issued while the job's only key is
      the locked one. */
  lemma LossExactly(s: Split, op: Op)
    requires s.h != Absent
    ensures Apply(s, op).h == Absent <==>
              op.Drop? && op.r in s.seen && s.h == Absent.(locked := s.h.locked)
  {}

  /** The commands that dispatch, claim, settle and reap issue. */
  predicate Issued(op: Op) {
    match op
    case Do(Rename(src, dst)) => if src == PendingKey then dst == LockedKey else src == LockedKey && dst != LockedKey
    case Do(HSet(st, _)) => st == PendingKey || st == LockedKey
    case Do(DelIfPending) => false
    case _ => true
  }

  /** Command `j` is the DEL of a reaper whose last EXISTS, command `e`, found a pending key. */
  ghost predicate Window(s: Split, ops: seq<Op>, e: nat, j: nat)
    requires e < j < |ops|
  {
    && ops[j].Drop? && ops[e] == Look(ops[j].r) && After(s, ops, e).h.pending.Some?
    && forall k | e < k < j :: ops[k] != Look(ops[j].r) && ops[k] != ops[j]
  }

  /** Command `i` is a claim's RENAME that takes the pending key of a job without a completed
      or failed key. */
  ghost predicate ClaimsAt(s: Split, ops: seq<Op>, i: nat)
    requires i < |ops|
  {
    var h := After(s, ops, i).h;
    ops[i] == Do(Rename(PendingKey, LockedKey)) && h.pending.Some? && h.completed.None? && h.failed.None?
  }

  /** A command that writes a pending key or moves the lock on to another keyspace. */
  predicate Rescues(op: Op) {
    op.Do? && ((op.c.HSet? && op.c.st == PendingKey) || (op.c.Rename? && op.c.src == LockedKey))
  }

  /** A claim in the window of an EXISTS and its DEL, with nothing between the claim and the
      DEL that gives the job another key. */
  ghost predicate Race(s: Split, ops: seq<Op>, e: nat, i: nat, j: nat) {
    && e < i < j < |ops|
    && Window(s, ops, e, j)
    && ClaimsAt(s, ops, i)
    && forall k | i < k < j :: !Rescues(ops[k])
  }

  ghost predicate Lost(s: Split, ops: seq<Op>) {
    exists n | 0 <= n <= |ops| :: After(s, ops, n).h == Absent
  }

  /** A reaper between EXISTS and DEL has a last EXISTS that found a pending key. */
  lemma {:induction false} FindLook(s: Split, ops: seq<Op>, r: Reaper, n: nat) returns (e: nat)
    requires s.seen == {} && n <= |ops| && r in After(s, ops, n).seen
    ensures e < n && ops[e] == Look(r) && After(s, ops, e).h.pending.Some?
    ensures forall k | e < k < n :: ops[k] != Look(r) && ops[k] != Drop(r)
  {
    if ops[n - 1] == Look(r) { e := n - 1; } else { e := FindLook(s, ops, r, n - 1); }
  }

  lemma {:induction false} StillSeen(s: Split, ops: seq<Op>, r: Reaper, e: nat, n: nat)
    requires e < n <= |ops| && ops[e] == Look(r) && After(s, ops, e).h.pending.Some?
    requires forall k | e < k < n :: ops[k] != Look(r) && ops[k] != Drop(r)
    ensures r in After(s, ops, n).seen
  {
    if e + 1 < n { StillSeen(s, ops, r, e, n - 1); }
  }

  /** A job with only its locked key that once had a pending one was claimed in between, and
      nothing has rescued it since. */
  lemma {:induction false} FindClaim(s: Split, ops: seq<Op>, e: nat, n: nat) returns (i: nat)
    requires e < n <= |ops| && forall k | 0 <= k < |ops| :: Issued(ops[k])
    requires forall k | 0 <= k <= n :: After(s, ops, k).h != Absent
    requires After(s, ops, e).h.pending.Some? && ops[e].Look?
    requires var h := After(s, ops, n).h; h.pending.None? && h.completed.None? && h.failed.None?
    ensures e < i < n && ClaimsAt(s, ops, i) && forall k | i < k < n :: !Rescues(ops[k])
  {
    var before := After(s, ops, n - 1);
    assert After(s, ops, n) == Apply(before, ops[n - 1]) && Issued(ops[n - 1]);
    if before.h.pending.Some? { i := n - 1; } else { i := FindClaim(s, ops, e, n - 1); }
  }

  /** From the claim on, until something rescues it, the job has no key but its lock. */
  lemma {:induction false} OnlyTheLock(s: Split, ops: seq<Op>, i: nat, n: nat)
    requires i < n <= |ops| && forall k | 0 <= k < |ops| :: Issued(ops[k])
    requires ClaimsAt(s, ops, i) && forall k | i < k < n :: !Rescues(ops[k])
    ensures var h := After(s, ops, n).h; h == Absent.(locked := h.locked)
  {
    if i + 1 < n { OnlyTheLock(s, ops, i, n - 1); }
  }

  lemma {:induction false} FirstLoss(s: Split, ops: seq<Op>, n: nat) returns (j: nat)
    requires s.h != Absent && n <= |ops| && After(s, ops, n).h == Absent
    ensures j < n && After(s, ops, j + 1).h == Absent && forall k | 0 <= k <= j :: After(s, ops, k).h != Absent
  {
    if k :| 0 <= k < n && After(s, ops, k).h == Absent { j := FirstLoss(s, ops, k); } else { j := n - 1; }
  }

  /** With EXISTS and DEL apart, a run of the commands the queue issues loses a job if and
      only if it holds such a race. */
  lemma JobIsLostExactly(h: Hashes, ops: seq<Op>)
    requires h != Absent && forall k | 0 <= k < |ops| :: Issued(ops[k])
    ensures Lost(Split(h, {}), ops) <==> exists e, i, j :: Race(Split(h, {}), ops, e, i, j)
  {
    var s := Split(h, {});
    if n :| 0 <= n <= |ops| && After(s, ops, n).h == Absent {
      var j := FirstLoss(s, ops, n);
      LossExactly(After(s, ops, j), ops[j]);
      var e := FindLook(s, ops, ops[j].r, j);
      var i := FindClaim(s, ops, e, j);
      assert Race(s, ops, e, i, j);
    }
    if e: nat, i: nat, j: nat :| Race(s, ops, e, i, j) {
      StillSeen(s, ops, ops[j].r, e, j);
      OnlyTheLock(s, ops, i, j);
      assert After(s, ops, j + 1).h == Absent;
    }
  }

  /** In particular nothing is lost when no claim takes the pending key inside a window. */
  lemma UndisturbedLosesNothing(h: Hashes, ops: seq<Op>)
    requires h != Absent && forall k | 0 <= k < |ops| :: Issued(ops[k])
    requires forall e, i, j | 0 <= e < i < j < |ops| && Window(Split(h, {}), ops, e, j) :: !ClaimsAt(Split(h, {}), ops, i)
    ensures !Lost(Split(h, {}), ops)
  {
    JobIsLostExactly(h, ops);
  }

  /** One claim in the window is enough: whatever job waits in pending, with or without
      a leaked lock, EXISTS, then a worker's RENAME, then DEL leaves it no key at all, and
      the claim's next HSET recreates a lock that holds nothing of the job but its stamp. */
  lemma ClaimInWindowLosesJob(h: Hashes, r: Reaper, t: Timestamp)
    requires h.pending.Some? && h.completed.None? && h.failed.None?
    ensures var ops := [Look(r), Do(Rename(PendingKey, LockedKey)), Drop(r), Do(HSetLockedAt(t))];
            && After(Split(h, {}), ops, 3).h == Absent
            && After(Split(h, {}), ops, 4).h == Absent.(locked := Some(EmptyJob.(lockedAt := t)))
  {
    var s, ops := Split(h, {}), [Look(r), Do(Rename(PendingKey, LockedKey)), Drop(r), Do(HSetLockedAt(t))];
    assert After(s, ops, 1) == Apply(s, Look(r));
    assert After(s, ops, 2) == Apply(After(s, ops, 1), Do(Rename(PendingKey, LockedKey)));
  }

  /** Every job with a retry left can get there: after one handler error and the lock
      timeout, the reaper finds the leaked lock expired while a worker may claim. */
  lemma WindowIsReachable(cfg: Settings, c: Cell) returns (es: seq<Event>)
    requires c.h.pending.Some? && RetriesLeft(cfg, c.h.pending.value) && c.h.pending.value.retryAfter.At? && 0 !in c.live
    ensures var c' := Run(cfg, c, es);
            && ReapVerdict(cfg, c'.h, c'.now).Duplicate? && Open(c'.h.pending.value, c'.now)
            && c'.h.completed == c.h.completed && c'.h.failed == c.h.failed
  {
    var start := StartIt(cfg, c, 0);
    var c1 := Run(cfg, c, start);
    var c2 := Next(cfg, c1, Settle(0, Error));
    var lock, p := c2.h.locked.value, c2.h.pending.value;
    var d: nat := Max(0, Max(p.retryAfter.t + 1, lock.lockedAt.t + Seconds(Timeout(cfg, lock))) - c2.now);
    Two(cfg, c1, Settle(0, Error), Advance(d));
    RunConcat(cfg, c, start, [Settle(0, Error), Advance(d)]);
    es := start + [Settle(0, Error), Advance(d)];
  }
}
