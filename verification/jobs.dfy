/** The job queue in the database: rows, the four statements that change them, and the runs of many
    workers that claim, finish, crash and are reclaimed from. */
module Jobs {
  import opened Wrappers

  datatype Status = Pending | Running | Succeeded | Failed

  type Worker = string

  /** A row; its id is its position. Times are seconds. */
  datatype Job = Job(dedupe: Option<string>, status: Status, attempts: nat, maxAttempts: int, runAfter: int, createdAt: int,
                     lockedAt: Option<int>, lockedBy: Option<Worker>)

  const LEASE: nat := 900
  const RETRY_BASE := 30
  const RETRY_MAX := 1800

  predicate Terminal(status: Status) {
    status == Succeeded || status == Failed
  }

  // ----- the statements -----

  predicate KeyTaken(rows: seq<Job>, dedupe: Option<string>) {
    dedupe.Some? && exists i | 0 <= i < |rows| :: rows[i].dedupe == dedupe
  }

  /** Inserting a job does nothing when its dedupe key exists. */
  function Enqueued(rows: seq<Job>, dedupe: Option<string>, runAfter: int, maxAttempts: int, now: int): seq<Job> {
    if KeyTaken(rows, dedupe) then rows
    else rows + [Job(dedupe, Pending, 0, maxAttempts, runAfter, now, None, None)]
  }

  /** A row that a claim may take: pending, due, and not locked by another transaction. */
  predicate Claimable(rows: seq<Job>, j: nat, now: int, locked: set<nat>) {
    j < |rows| && rows[j].status == Pending && rows[j].runAfter <= now && j !in locked
  }

  /** `a` does not come after `b` in the order of claiming. */
  predicate NotAfter(a: Job, b: Job) {
    a.runAfter < b.runAfter || (a.runAfter == b.runAfter && a.createdAt <= b.createdAt)
  }

  /** `j` may be claimed and nothing that may be claimed comes before it. */
  predicate Oldest(rows: seq<Job>, j: nat, now: int, locked: set<nat>) {
    Claimable(rows, j, now, locked) && forall i | 0 <= i < |rows| :: Claimable(rows, i, now, locked) ==> NotAfter(rows[j], rows[i])
  }

  function Claimed(job: Job, worker: Worker, now: int): Job {
    job.(status := Running, lockedAt := Some(now), lockedBy := Some(worker), attempts := job.attempts + 1)
  }

  /** Thirty seconds, doubled for every attempt after the first, at most half an hour. */
  function Backoff(attempts: nat): (delay: int)
    requires attempts >= 1
    ensures RETRY_BASE <= delay <= RETRY_MAX
  {
    if attempts == 1 then RETRY_BASE
    else
      var twice := 2 * Backoff(attempts - 1);
      if twice < RETRY_MAX then twice else RETRY_MAX
  }

  function Finished(job: Job, ok: bool, now: int): Job
    requires job.attempts >= 1
  {
    if ok then job.(status := Succeeded)
    else if job.attempts < job.maxAttempts then
      job.(status := Pending, runAfter := now + Backoff(job.attempts), lockedAt := None, lockedBy := None)
    else job.(status := Failed)
  }

  /** The lease of a running row has run out. */
  predicate Stale(job: Job, now: int) {
    job.status == Running && job.lockedAt.Some? && job.lockedAt.value < now - LEASE
  }

  function StaleRows(rows: seq<Job>, now: int): set<nat> {
    set j: nat | j < |rows| && Stale(rows[j], now)
  }

  function Reclaimed(job: Job, now: int): Job {
    if Stale(job, now) then job.(status := Pending, lockedAt := None, lockedBy := None) else job
  }

  function ReclaimAll(rows: seq<Job>, now: int): (rows': seq<Job>)
    ensures |rows'| == |rows|
    ensures forall i :: 0 <= i < |rows| ==> rows'[i] == Reclaimed(rows[i], now)
  {
    seq(|rows|, i requires 0 <= i < |rows| => Reclaimed(rows[i], now))
  }

  function Power2(n: nat): nat {
    if n == 0 then 1 else 2 * Power2(n - 1)
  }

  /** The delay is the closed formula of the code. */
  lemma {:induction false} BackoffFormula(attempts: nat)
    requires attempts >= 1
    ensures Backoff(attempts) == if 30 * Power2(attempts - 1) < 1800 then 30 * Power2(attempts - 1) else 1800
  {
    if attempts > 1 {
      BackoffFormula(attempts - 1);
      assert Power2(attempts - 1) == 2 * Power2(attempts - 2);
    }
  }

  lemma {:induction false} OldestExists(rows: seq<Job>, n: nat, now: int, locked: set<nat>) returns (best: Option<nat>)
    requires n <= |rows|
    ensures best.None? <==> forall i :: 0 <= i < n ==> !Claimable(rows, i, now, locked)
    ensures best.Some? ==> best.value < n && Claimable(rows, best.value, now, locked)
    ensures best.Some? ==> forall i :: 0 <= i < n && Claimable(rows, i, now, locked) ==> NotAfter(rows[best.value], rows[i])
  {
    if n == 0 {
      best := None;
    } else {
      best := OldestExists(rows, n - 1, now, locked);
      if Claimable(rows, n - 1, now, locked) && (best.None? || !NotAfter(rows[best.value], rows[n - 1])) {
        best := Some(n - 1);
      }
    }
  }

  /** A claim takes a pending row that is due and not locked, and no such row was due before it, or was
      due at the same time and created before it. */
  lemma ClaimsInOrder(s: Sys, w: Worker, j: nat, locked: set<nat>)
    requires w !in s.held
    ensures Enabled(s, Claim(w, j, locked), None) <==>
              && j < |s.rows| && j !in locked && s.rows[j].status == Pending && s.rows[j].runAfter <= s.now
              && !exists k :: 0 <= k < |s.rows| && k !in locked && s.rows[k].status == Pending && s.rows[k].runAfter <= s.now
                              && (s.rows[k].runAfter < s.rows[j].runAfter
                                  || (s.rows[k].runAfter == s.rows[j].runAfter && s.rows[k].createdAt < s.rows[j].createdAt))
  {
  }

  // ----- the table -----

  class Queue {
    var rows: seq<Job>

    constructor ()
      ensures rows == []
    {
      rows := [];
    }

    method EnqueueJob(dedupe: Option<string>, runAfter: Option<int>, maxAttempts: int, now: int) returns (id: Option<nat>)
      modifies this
      ensures rows == Enqueued(old(rows), dedupe, if runAfter.Some? then runAfter.value else now, maxAttempts, now)
      ensures id == if KeyTaken(old(rows), dedupe) then None else Some(|old(rows)|)
      ensures id.None? ==> rows == old(rows)
      ensures id.Some? ==> |rows| == |old(rows)| + 1 && rows[..id.value] == old(rows) && rows[id.value].dedupe == dedupe
                           && forall t :: Claimable(rows, id.value, t, {}) <==> t >= if runAfter.Some? then runAfter.value else now
    {
      if KeyTaken(rows, dedupe) {
        return None;
      }
      var due := if runAfter.Some? then runAfter.value else now;
      id := Some(|rows|);
      rows := rows + [Job(dedupe, Pending, 0, maxAttempts, due, now, None, None)];
    }

    /** One statement: the oldest due pending row that no other transaction has locked. */
    method ClaimNextJob(worker: Worker, now: int, locked: set<nat>) returns (id: Option<nat>)
      modifies this
      ensures id.None? <==> forall j :: 0 <= j < |old(rows)| ==> !Claimable(old(rows), j, now, locked)
      ensures id.None? ==> rows == old(rows)
      ensures id.Some? ==> Oldest(old(rows), id.value, now, locked)
                           && rows == old(rows)[id.value := Claimed(old(rows)[id.value], worker, now)]
    {
      if exists j: nat | j < |rows| :: Claimable(rows, j, now, locked) {
        ghost var best := OldestExists(rows, |rows|, now, locked);
        assert Oldest(rows, best.value, now, locked);
        var j: nat :| j < |rows| && Oldest(rows, j, now, locked);
        var job := rows[j];
        rows := rows[j := job.(status := Running, lockedAt := Some(now), lockedBy := Some(worker), attempts := job.attempts + 1)];
        return Some(j);
      }
      return None;
    }

    method FinishJob(id: nat, ok: bool, now: int)
      requires id < |rows| && rows[id].attempts >= 1
      modifies this
      ensures rows == old(rows)[id := Finished(old(rows)[id], ok, now)]
    {
      var job := rows[id];
      if ok {
        job := job.(status := Succeeded);
      } else if job.attempts < job.maxAttempts {
        var delay := if RETRY_BASE * Power2(job.attempts - 1) < RETRY_MAX then RETRY_BASE * Power2(job.attempts - 1) else RETRY_MAX;
        BackoffFormula(job.attempts);
        job := job.(status := Pending, runAfter := now + delay, lockedAt := None, lockedBy := None);
      } else {
        job := job.(status := Failed);
      }
      rows := rows[id := job];
    }

    /** One statement over all rows: every row whose lease has run out is pending again and may be
        claimed when it is due, every other row is as before, and their number is returned. */
    method ReclaimStaleJobs(now: int) returns (count: nat)
      modifies this
      ensures rows == ReclaimAll(old(rows), now)
      ensures StaleRows(rows, now) == {} && count == |StaleRows(old(rows), now)|
      ensures forall j :: j in StaleRows(old(rows), now) && old(rows)[j].runAfter <= now ==> Claimable(rows, j, now, {})
      ensures forall j :: 0 <= j < |rows| && j !in StaleRows(old(rows), now) ==> rows[j] == old(rows)[j]
    {
      var stale := StaleRows(rows, now);
      rows := seq(|rows|, j requires 0 <= j < |rows| reads this =>
                    if j in stale then rows[j].(status := Pending, lockedAt := None, lockedBy := None) else rows[j]);
      count := |stale|;
    }
  }

  // ----- runs of many workers -----

  /** What has happened to a job so far. */
  datatype Tally = Tally(claims: nat, failures: nat, reclaims: nat)

  /** What a live worker is working on, and since when. */
  datatype Work = Work(job: nat, since: int)

  datatype Sys = Sys(rows: seq<Job>, tallies: seq<Tally>, now: int, held: map<Worker, Work>)

  datatype Event =
    | Enqueue(dedupe: Option<string>, runAfter: int, maxAttempts: int)
    | Claim(worker: Worker, job: nat, locked: set<nat>)
    | Finish(worker: Worker, ok: bool)
    | Crash(worker: Worker)
    | Reclaim
    | Tick(seconds: nat)

  const Init := Sys([], [], 0, map[])

  /** `limit` is the longest that a live handler takes, if there is such a bound. */
  predicate Enabled(s: Sys, e: Event, limit: Option<nat>) {
    match e
    case Enqueue(_, _, _) => true
    case Claim(w, j, locked) => w !in s.held && Oldest(s.rows, j, s.now, locked)
    case Finish(w, _) => w in s.held && s.held[w].job < |s.rows| && s.rows[s.held[w].job].attempts >= 1
    case Crash(w) => w in s.held
    case Reclaim => true
    case Tick(d) => limit.Some? ==> forall w | w in s.held :: s.now + d <= s.held[w].since + limit.value
  }

  function Bump(tallies: seq<Tally>, j: nat, t: Tally): seq<Tally>
    requires j < |tallies|
  {
    var was := tallies[j];
    tallies[j := Tally(was.claims + t.claims, was.failures + t.failures, was.reclaims + t.reclaims)]
  }

  function Apply(s: Sys, e: Event): (s': Sys)
    requires |s.tallies| == |s.rows| && Enabled(s, e, None)
    ensures |s'.tallies| == |s'.rows|
  {
    match e
    case Enqueue(dedupe, runAfter, maxAttempts) =>
      var rows := Enqueued(s.rows, dedupe, runAfter, maxAttempts, s.now);
      s.(rows := rows, tallies := if |rows| > |s.rows| then s.tallies + [Tally(0, 0, 0)] else s.tallies)
    case Claim(w, j, _) =>
      s.(rows := s.rows[j := Claimed(s.rows[j], w, s.now)], tallies := Bump(s.tallies, j, Tally(1, 0, 0)),
         held := s.held[w := Work(j, s.now)])
    case Finish(w, ok) =>
      var j := s.held[w].job;
      s.(rows := s.rows[j := Finished(s.rows[j], ok, s.now)],
         tallies := if ok then s.tallies else Bump(s.tallies, j, Tally(0, 1, 0)), held := s.held - {w})
    case Crash(w) => s.(held := s.held - {w})
    case Reclaim =>
      s.(rows := ReclaimAll(s.rows, s.now),
         tallies := seq(|s.tallies|, i requires 0 <= i < |s.tallies| =>
                        if Stale(s.rows[i], s.now) then s.tallies[i].(reclaims := s.tallies[i].reclaims + 1) else s.tallies[i]))
    case Tick(d) => s.(now := s.now + d)
  }

  /** The attempts a job is meant to have; at least one is always made. */
  function Budget(job: Job): int {
    if job.maxAttempts > 1 then job.maxAttempts else 1
  }

  /** The attempt that is under way or has succeeded. */
  function Current(job: Job): nat {
    if job.status == Running || job.status == Succeeded then 1 else 0
  }

  /** The accounts of one row. */
  predicate Accounted(job: Job, t: Tally) {
    && job.attempts == t.claims
    && job.attempts == t.failures + t.reclaims + Current(job)
    && t.failures + Current(job) <= Budget(job)
    && (job.status == Pending ==> t.failures <= job.attempts && t.failures < Budget(job) && job.attempts < Budget(job) + t.reclaims)
    && (job.status == Running ==> t.failures < job.attempts && t.failures < Budget(job) && job.attempts <= Budget(job) + t.reclaims)
  }

  /** A live worker's job is running under its name and time stamp. */
  ghost predicate Owned(s: Sys, w: Worker)
    requires w in s.held
  {
    var work := s.held[w];
    && work.job < |s.rows| && work.since <= s.now <= work.since + LEASE
    && s.rows[work.job].status == Running
    && s.rows[work.job].lockedBy == Some(w) && s.rows[work.job].lockedAt == Some(work.since)
  }

  ghost predicate UniqueKeys(rows: seq<Job>) {
    forall i, j :: 0 <= i < j < |rows| && rows[i].dedupe.Some? ==> rows[i].dedupe != rows[j].dedupe
  }

  ghost predicate Inv(s: Sys) {
    && |s.tallies| == |s.rows|
    && (forall j :: 0 <= j < |s.rows| ==> Accounted(s.rows[j], s.tallies[j]))
    && (forall w :: w in s.held ==> Owned(s, w))
    && UniqueKeys(s.rows)
  }

  lemma StepKeepsInv(s: Sys, e: Event)
    requires Inv(s) && Enabled(s, e, Some(LEASE))
    ensures Inv(Apply(s, e))
  {
    match e
    case Enqueue(_, _, _) =>
    case Claim(w, j, _) => ClaimKeepsInv(s, e);
    case Finish(w, ok) => FinishKeepsInv(s, e);
    case Crash(w) =>
    case Reclaim => ReclaimKeepsInv(s);
    case Tick(d) =>
  }

  lemma ClaimKeepsInv(s: Sys, e: Event)
    requires Inv(s) && Enabled(s, e, Some(LEASE)) && e.Claim?
    ensures Inv(Apply(s, e))
  {
    var s' := Apply(s, e);
    forall w | w in s'.held ensures Owned(s', w) {
      if w != e.worker {
        assert Owned(s, w);
      }
    }
  }

  lemma FinishKeepsInv(s: Sys, e: Event)
    requires Inv(s) && Enabled(s, e, Some(LEASE)) && e.Finish?
    ensures Inv(Apply(s, e))
  {
    assert Owned(s, e.worker);
    var s' := Apply(s, e);
    forall w | w in s'.held ensures Owned(s', w) {
      assert Owned(s, w);
    }
  }

  lemma ReclaimKeepsInv(s: Sys)
    requires Inv(s)
    ensures Inv(Apply(s, Reclaim))
  {
    var s' := Apply(s, Reclaim);
    forall w | w in s'.held ensures Owned(s', w) {
      assert Owned(s, w);
    }
  }

  // ----- runs -----

  /** Every event of the run is enabled when its turn comes. */
  ghost predicate Possible(s: Sys, run: seq<Event>, limit: Option<nat>)
    requires |s.tallies| == |s.rows|
    decreases run
  {
    run == [] || (Enabled(s, run[0], limit) && Possible(Apply(s, run[0]), run[1..], limit))
  }

  ghost function Run(s: Sys, run: seq<Event>, limit: Option<nat>): Sys
    requires |s.tallies| == |s.rows| && Possible(s, run, limit)
    decreases run
  {
    if run == [] then s else Run(Apply(s, run[0]), run[1..], limit)
  }

  lemma {:induction false} RunKeepsInv(s: Sys, run: seq<Event>)
    requires Inv(s) && Possible(s, run, Some(LEASE))
    ensures |Run(s, run, Some(LEASE)).tallies| == |Run(s, run, Some(LEASE)).rows| && Inv(Run(s, run, Some(LEASE)))
    decreases run
  {
    if run != [] {
      StepKeepsInv(s, run[0]);
      hide Inv, Apply, Enabled;
      RunKeepsInv(Apply(s, run[0]), run[1..]);
    }
  }

  // ----- accounts, however long handlers take -----

  /** What the accounts of a row keep even when a handler outlives its lease. */
  predicate Counted(job: Job, t: Tally) {
    && job.attempts == t.claims
    && (job.status == Pending ==> job.attempts <= Budget(job) - 1 + t.reclaims)
    && (job.status == Running ==> job.attempts <= Budget(job) + t.reclaims)
    && (job.status == Failed ==> job.attempts >= job.maxAttempts)
  }

  ghost predicate CountInv(s: Sys) {
    && |s.tallies| == |s.rows|
    && (forall j :: 0 <= j < |s.rows| ==> Counted(s.rows[j], s.tallies[j]))
    && UniqueKeys(s.rows)
  }

  lemma StepKeepsCounts(s: Sys, e: Event)
    requires CountInv(s) && Enabled(s, e, None)
    ensures CountInv(Apply(s, e))
  {
  }

  lemma {:induction false} RunKeepsCounts(s: Sys, run: seq<Event>)
    requires CountInv(s) && Possible(s, run, None)
    ensures CountInv(Run(s, run, None))
    decreases run
  {
    if run != [] {
      StepKeepsCounts(s, run[0]);
      hide CountInv, Apply, Enabled;
      RunKeepsCounts(Apply(s, run[0]), run[1..]);
    }
  }

  /** In every reachable state, late handlers or not, the attempts of a job are its claims, a pending job
      has used less than its attempts and the reclaims together, a failed one has used them all, and a
      dedupe key names one job. */
  lemma AccountsAlwaysHold(run: seq<Event>)
    requires Possible(Init, run, None)
    ensures var s := Run(Init, run, None);
      && |s.tallies| == |s.rows| && UniqueKeys(s.rows)
      && forall j :: 0 <= j < |s.rows| ==>
           && s.rows[j].attempts == s.tallies[j].claims
           && (s.rows[j].status == Pending ==> s.rows[j].attempts <= Budget(s.rows[j]) - 1 + s.tallies[j].reclaims)
           && (s.rows[j].status == Failed ==> s.rows[j].attempts >= s.rows[j].maxAttempts)
  {
    RunKeepsCounts(Init, run);
    hide Possible, Run, Budget;
    var s := Run(Init, run, None);
    assert forall j :: 0 <= j < |s.rows| ==> Counted(s.rows[j], s.tallies[j]);
  }

  /** If live handlers end within the lease, every attempt of a job has failed, was reclaimed, or is the
      one under way or successful. So a job is claimed more often than it is meant to be exactly when it
      was reclaimed more often than it had attempts to spare. */
  lemma AttemptsAreAccounted(run: seq<Event>, j: nat)
    requires Possible(Init, run, Some(LEASE)) && j < |Run(Init, run, Some(LEASE)).rows|
    ensures var s := Run(Init, run, Some(LEASE));
            && |s.tallies| == |s.rows|
            && var job, t := s.rows[j], s.tallies[j];
               var spare := Budget(job) - t.failures - Current(job);
               && job.attempts == t.failures + t.reclaims + Current(job)
               && spare >= 0 && (job.attempts > Budget(job) <==> t.reclaims > spare)
  {
    RunKeepsInv(Init, run);
    hide Possible, Run, Budget;
    assert Accounted(Run(Init, run, Some(LEASE)).rows[j], Run(Init, run, Some(LEASE)).tallies[j]);
  }

  /** If live handlers end within the lease, no job has more failures on record than attempts it is
      meant to have, and no two live workers hold the same job. */
  lemma JobsAreHeldOnce(run: seq<Event>, v: Worker, w: Worker)
    requires Possible(Init, run, Some(LEASE))
    ensures var s := Run(Init, run, Some(LEASE));
      && (forall j :: 0 <= j < |s.rows| && j < |s.tallies| ==> s.tallies[j].failures <= Budget(s.rows[j]))
      && (v in s.held && w in s.held && v != w ==> s.held[v].job != s.held[w].job)
  {
    RunKeepsInv(Init, run);
    hide Possible, Run, Budget;
    var s := Run(Init, run, Some(LEASE));
    assert forall j :: 0 <= j < |s.rows| ==> Accounted(s.rows[j], s.tallies[j]);
    if v in s.held && w in s.held {
      assert Owned(s, v) && Owned(s, w);
    }
  }

  /** A succeeded or failed row never changes again. */
  lemma TerminalIsAbsorbing(s: Sys, e: Event, j: nat)
    requires Inv(s) && Enabled(s, e, Some(LEASE)) && j < |s.rows| && Terminal(s.rows[j].status)
    ensures j < |Apply(s, e).rows| && Apply(s, e).rows[j] == s.rows[j]
  {
    if e.Finish? {
      assert Owned(s, e.worker);
    }
  }

  lemma {:induction false} TerminalForever(s: Sys, run: seq<Event>, j: nat)
    requires Inv(s) && Possible(s, run, Some(LEASE)) && j < |s.rows| && Terminal(s.rows[j].status)
    ensures j < |Run(s, run, Some(LEASE)).rows| && Run(s, run, Some(LEASE)).rows[j] == s.rows[j]
    decreases run
  {
    if run != [] {
      TerminalIsAbsorbing(s, run[0], j);
      StepKeepsInv(s, run[0]);
      hide Inv, Apply, Enabled;
      TerminalForever(Apply(s, run[0]), run[1..], j);
    }
  }

  // ----- retries -----

  /** When a failure after that many attempts is due again: half a minute, doubled for every attempt
      after the first, and at most half an hour. */
  function RetryDelay(attempts: nat): int {
    if attempts == 0 then RETRY_BASE
    else if RETRY_BASE * Power2(attempts - 1) < RETRY_MAX then RETRY_BASE * Power2(attempts - 1)
    else RETRY_MAX
  }

  /** A failing end with attempts left makes the row pending, claimable from its delay on; without, it is
      final. A success is. */
  lemma EndMeaning(job: Job, ok: bool, now: int)
    requires job.attempts >= 1
    ensures var row := Finished(job, ok, now);
            && (row.status == Succeeded <==> ok)
            && (row.status == Failed <==> !ok && job.attempts >= job.maxAttempts)
            && (row.status == Pending <==> !ok && job.attempts < job.maxAttempts)
            && (row.status == Pending ==> row.lockedAt.None? && row.lockedBy.None?
                                          && forall t :: Claimable([row], 0, t, {}) <==> t >= now + RetryDelay(job.attempts))
            && row.attempts == job.attempts && row.maxAttempts == job.maxAttempts && row.dedupe == job.dedupe
  {
    BackoffFormula(job.attempts);
  }

  /** The row has not been claimed since it had `attempts`, and it may not be before `due`. */
  predicate Waits(s: Sys, j: nat, attempts: nat, due: int) {
    && j < |s.rows|
    && ((s.rows[j].attempts == attempts && s.rows[j].status != Running && (s.rows[j].status == Pending ==> s.rows[j].runAfter >= due))
        || s.now >= due)
  }

  lemma StepWaits(s: Sys, e: Event, j: nat, attempts: nat, since: int)
    requires |s.tallies| == |s.rows| && Enabled(s, e, None) && attempts >= 1 && since <= s.now
    requires Waits(s, j, attempts, since + RetryDelay(attempts))
    ensures Waits(Apply(s, e), j, attempts, since + RetryDelay(attempts)) && since <= Apply(s, e).now
  {
    if e.Finish? && s.held[e.worker].job == j {
      EndMeaning(s.rows[j], e.ok, s.now);
      BackoffFormula(s.rows[j].attempts);
    }
  }

  lemma {:induction false} RunWaits(s: Sys, run: seq<Event>, j: nat, attempts: nat, since: int)
    requires |s.tallies| == |s.rows| && Possible(s, run, None) && attempts >= 1 && since <= s.now
    requires Waits(s, j, attempts, since + RetryDelay(attempts))
    ensures Waits(Run(s, run, None), j, attempts, since + RetryDelay(attempts))
    decreases run
  {
    if run != [] {
      StepWaits(s, run[0], j, attempts, since);
      hide Waits, Apply, Enabled;
      RunWaits(Apply(s, run[0]), run[1..], j, attempts, since);
    }
  }

  /** In no run, late handlers or not, is a job claimed again before its delay after a failure is over. */
  lemma RetryWaits(s: Sys, w: Worker, run: seq<Event>)
    requires |s.tallies| == |s.rows| && Enabled(s, Finish(w, false), None)
    requires s.rows[s.held[w].job].attempts < s.rows[s.held[w].job].maxAttempts
    requires Possible(Apply(s, Finish(w, false)), run, None)
    ensures var j := s.held[w].job;
            var t := Apply(s, Finish(w, false));
            var u := Run(t, run, None);
            && t.rows[j].status == Pending && j < |u.rows|
            && (u.rows[j].attempts != s.rows[j].attempts ==> u.now >= s.now + RetryDelay(s.rows[j].attempts))
  {
    var j := s.held[w].job;
    var t := Apply(s, Finish(w, false));
    EndMeaning(s.rows[j], false, s.now);
    BackoffFormula(s.rows[j].attempts);
    assert Waits(t, j, s.rows[j].attempts, s.now + RetryDelay(s.rows[j].attempts));
    RunWaits(t, run, j, s.rows[j].attempts, s.now);
    hide Possible, Run;
  }

  // ----- how long a handler may take -----

  /** A tighter limit allows fewer runs. */
  lemma {:induction false} WithinMore(s: Sys, run: seq<Event>, limit: nat, more: nat)
    requires |s.tallies| == |s.rows| && Possible(s, run, Some(limit)) && limit <= more
    ensures Possible(s, run, Some(more)) && Run(s, run, Some(more)) == Run(s, run, Some(limit))
    decreases run
  {
    if run != [] {
      hide Apply;
      WithinMore(Apply(s, run[0]), run[1..], limit, more);
    }
  }

  lemma {:induction false} RunIsSized(s: Sys, run: seq<Event>, limit: Option<nat>)
    requires |s.tallies| == |s.rows| && Possible(s, run, limit)
    ensures |Run(s, run, limit).tallies| == |Run(s, run, limit).rows|
    decreases run
  {
    if run != [] {
      hide Apply, Enabled;
      RunIsSized(Apply(s, run[0]), run[1..], limit);
    }
  }

  ghost predicate HeldOnce(s: Sys) {
    forall v, w :: v in s.held && w in s.held && v != w ==> s.held[v].job != s.held[w].job
  }

  ghost predicate FailuresWithin(s: Sys) {
    forall j :: 0 <= j < |s.rows| && j < |s.tallies| ==> s.tallies[j].failures <= Budget(s.rows[j])
  }

  /** No event changes a succeeded or failed row. */
  ghost predicate TerminalStays(s: Sys, limit: nat)
    requires |s.tallies| == |s.rows|
  {
    forall e, j :: Enabled(s, e, Some(limit)) && 0 <= j < |s.rows| && Terminal(s.rows[j].status) ==>
      j < |Apply(s, e).rows| && Apply(s, e).rows[j] == s.rows[j]
  }

  /** The run in which a worker outlives the lease, its job is reclaimed, and a second worker claims it. */
  function LateRun(v: Worker, w: Worker): seq<Event> {
    [Enqueue(None, 0, 1), Claim(v, 0, {}), Tick(LEASE + 1), Reclaim, Claim(w, 0, {})]
  }

  /** The only row after that run. */
  function LateRow(w: Worker): Job {
    Job(None, Running, 2, 1, 0, 0, Some(LEASE + 1), Some(w))
  }

  function LateState(v: Worker, w: Worker): Sys {
    Sys([LateRow(w)], [Tally(2, 0, 1)], LEASE + 1, map[v := Work(0, 0), w := Work(0, LEASE + 1)])
  }

  lemma StepThen(s: Sys, e: Event, next: Sys, rest: seq<Event>, limit: Option<nat>)
    requires |s.tallies| == |s.rows| && Enabled(s, e, limit) && next == Apply(s, e) && Possible(next, rest, limit)
    ensures Possible(s, [e] + rest, limit) && Run(s, [e] + rest, limit) == Run(next, rest, limit)
  {
    hide Apply, Enabled;
    assert ([e] + rest)[1..] == rest;
  }

  lemma NoSteps(s: Sys, limit: Option<nat>)
    requires |s.tallies| == |s.rows|
    ensures Possible(s, [], limit) && Run(s, [], limit) == s
  {
  }

  lemma LateRunIsPossible(v: Worker, w: Worker, limit: nat)
    requires v != w && limit > LEASE
    ensures Possible(Init, LateRun(v, w), Some(limit)) && Run(Init, LateRun(v, w), Some(limit)) == LateState(v, w)
  {
    var job := Job(None, Pending, 0, 1, 0, 0, None, None);
    var s1 := Sys([job], [Tally(0, 0, 0)], 0, map[]);
    var s2 := Sys([job.(status := Running, attempts := 1, lockedAt := Some(0), lockedBy := Some(v))], [Tally(1, 0, 0)], 0,
                  map[v := Work(0, 0)]);
    var s3 := s2.(now := LEASE + 1);
    var s4 := s3.(rows := [job.(attempts := 1)], tallies := [Tally(1, 0, 1)]);
    var s5 := LateState(v, w);
    FirstSteps(v, limit, s1, s2, s3);
    LastSteps(v, w, limit, s3, s4);
    hide Enabled, Apply, Possible, Run;
    var some := Some(limit);
    NoSteps(s5, some);
    StepThen(s4, Claim(w, 0, {}), s5, [], some);
    var r4 := [Claim(w, 0, {})] + [];
    StepThen(s3, Reclaim, s4, r4, some);
    var r3 := [Reclaim] + r4;
    StepThen(s2, Tick(LEASE + 1), s3, r3, some);
    var r2 := [Tick(LEASE + 1)] + r3;
    StepThen(s1, Claim(v, 0, {}), s2, r2, some);
    var r1 := [Claim(v, 0, {})] + r2;
    StepThen(Init, Enqueue(None, 0, 1), s1, r1, some);
    assert LateRun(v, w) == [Enqueue(None, 0, 1)] + r1;
  }

  lemma FirstSteps(v: Worker, limit: nat, s1: Sys, s2: Sys, s3: Sys)
    requires limit > LEASE
    requires s1 == Sys([Job(None, Pending, 0, 1, 0, 0, None, None)], [Tally(0, 0, 0)], 0, map[])
    requires s2 == Sys([Job(None, Running, 1, 1, 0, 0, Some(0), Some(v))], [Tally(1, 0, 0)], 0, map[v := Work(0, 0)])
    requires s3 == s2.(now := LEASE + 1)
    ensures Enabled(Init, Enqueue(None, 0, 1), Some(limit)) && Apply(Init, Enqueue(None, 0, 1)) == s1
    ensures Enabled(s1, Claim(v, 0, {}), Some(limit)) && Apply(s1, Claim(v, 0, {})) == s2
    ensures Enabled(s2, Tick(LEASE + 1), Some(limit)) && Apply(s2, Tick(LEASE + 1)) == s3
  {
  }

  lemma LastSteps(v: Worker, w: Worker, limit: nat, s3: Sys, s4: Sys)
    requires v != w && limit > LEASE
    requires s3 == Sys([Job(None, Running, 1, 1, 0, 0, Some(0), Some(v))], [Tally(1, 0, 0)], LEASE + 1, map[v := Work(0, 0)])
    requires s4 == s3.(rows := [Job(None, Pending, 1, 1, 0, 0, None, None)], tallies := [Tally(1, 0, 1)])
    ensures Enabled(s3, Reclaim, Some(limit)) && Apply(s3, Reclaim) == s4
    ensures Enabled(s4, Claim(w, 0, {}), Some(limit)) && Apply(s4, Claim(w, 0, {})) == LateState(v, w)
  {
  }

  /** Then both may end the job: the first end fails it, and the second one succeeds, or fails it once
      more than it is meant to fail. */
  lemma BothEnd(v: Worker, w: Worker, limit: nat)
    requires v != w
    ensures var s := LateState(v, w);
            && Enabled(s, Finish(v, false), Some(limit))
            && var t := Apply(s, Finish(v, false));
               && t.rows == [LateRow(w).(status := Failed)] && t.tallies == [Tally(2, 1, 1)]
               && Enabled(t, Finish(w, true), Some(limit)) && Enabled(t, Finish(w, false), Some(limit))
               && Apply(t, Finish(w, true)).rows[0].status == Succeeded
               && Apply(t, Finish(w, false)).tallies[0].failures == 2
               && Budget(Apply(t, Finish(w, false)).rows[0]) == 1
  {
  }

  lemma {:induction false} OneMore(s: Sys, run: seq<Event>, e: Event, limit: Option<nat>)
    requires |s.tallies| == |s.rows| && Possible(s, run, limit) && |Run(s, run, limit).tallies| == |Run(s, run, limit).rows|
    requires Enabled(Run(s, run, limit), e, limit)
    ensures Possible(s, run + [e], limit) && Run(s, run + [e], limit) == Apply(Run(s, run, limit), e)
    decreases run
  {
    hide Apply;
    if run == [] {
      NoSteps(Apply(s, e), limit);
      StepThen(s, e, Apply(s, e), [], limit);
      assert run + [e] == [e] + [];
    } else {
      assert run + [e] == [run[0]] + (run[1..] + [e]);
      OneMore(Apply(s, run[0]), run[1..], e, limit);
      StepThen(s, run[0], Apply(s, run[0]), run[1..] + [e], limit);
    }
  }

  /** Live workers never share a job, in any run, exactly when no handler takes longer than the lease. */
  lemma HeldOnceIff(limit: nat)
    ensures (forall run :: Possible(Init, run, Some(limit)) ==> HeldOnce(Run(Init, run, Some(limit)))) <==> limit <= LEASE
  {
    hide Enabled, Apply, Possible, Run, Inv;
    if limit <= LEASE {
      forall run | Possible(Init, run, Some(limit)) ensures HeldOnce(Run(Init, run, Some(limit))) {
        WithinMore(Init, run, limit, LEASE);
        forall v, w { JobsAreHeldOnce(run, v, w); }
      }
    } else {
      LateRunIsPossible("a", "b", limit);
      var s := LateState("a", "b");
      assert "a" in s.held && "b" in s.held;
      assert !HeldOnce(Run(Init, LateRun("a", "b"), Some(limit)));
    }
  }

  /** Succeeded and failed rows never change, in any run, exactly under the same limit. */
  lemma TerminalStaysIff(limit: nat)
    ensures (forall run :: Possible(Init, run, Some(limit)) ==>
               |Run(Init, run, Some(limit)).tallies| == |Run(Init, run, Some(limit)).rows|
               && TerminalStays(Run(Init, run, Some(limit)), limit))
            <==> limit <= LEASE
  {
    hide Possible, Run;
    if limit <= LEASE {
      forall run | Possible(Init, run, Some(limit))
        ensures |Run(Init, run, Some(limit)).tallies| == |Run(Init, run, Some(limit)).rows|
        ensures TerminalStays(Run(Init, run, Some(limit)), limit)
      {
        WithinMore(Init, run, limit, LEASE);
        RunKeepsInv(Init, run);
        SoundStays(Run(Init, run, Some(limit)), limit);
      }
    } else {
      var run := LateRun("a", "b") + [Finish("a", false)];
      LateRunIsPossible("a", "b", limit);
      BothEnd("a", "b", limit);
      OneMore(Init, LateRun("a", "b"), Finish("a", false), Some(limit));
      assert Possible(Init, run, Some(limit));
      var s := Run(Init, run, Some(limit));
      hide Apply, Enabled;
      assert Terminal(s.rows[0].status) && Apply(s, Finish("b", true)).rows[0] != s.rows[0];
      assert !TerminalStays(s, limit);
    }
  }

  lemma SoundStays(s: Sys, limit: nat)
    requires Inv(s) && limit <= LEASE
    ensures TerminalStays(s, limit)
  {
    forall e, j | Enabled(s, e, Some(limit)) && 0 <= j < |s.rows| && Terminal(s.rows[j].status)
      ensures j < |Apply(s, e).rows| && Apply(s, e).rows[j] == s.rows[j]
    {
      TerminalIsAbsorbing(s, e, j);
    }
  }

  /** And so is it with the failures on record, which stay within the attempts meant. */
  lemma FailuresWithinIff(limit: nat)
    ensures (forall run :: Possible(Init, run, Some(limit)) ==> FailuresWithin(Run(Init, run, Some(limit)))) <==> limit <= LEASE
  {
    hide Enabled, Apply, Possible, Run, Inv;
    if limit <= LEASE {
      forall run | Possible(Init, run, Some(limit)) ensures FailuresWithin(Run(Init, run, Some(limit))) {
        WithinMore(Init, run, limit, LEASE);
        JobsAreHeldOnce(run, "a", "b");
      }
    } else {
      var first := LateRun("a", "b") + [Finish("a", false)];
      var run := first + [Finish("b", false)];
      LateRunIsPossible("a", "b", limit);
      BothEnd("a", "b", limit);
      OneMore(Init, LateRun("a", "b"), Finish("a", false), Some(limit));
      OneMore(Init, first, Finish("b", false), Some(limit));
      RunIsSized(Init, run, Some(limit));
      assert !FailuresWithin(Run(Init, run, Some(limit)));
    }
  }

  // ----- draining -----

  /** What a row still has to go through: a pending job its remaining claims and endings, a running
      one its ending too. */
  function Remaining(job: Job): nat {
    match job.status
    case Pending => if job.maxAttempts - job.attempts > 1 then 2 * (job.maxAttempts - job.attempts) else 2
    case Running => if job.maxAttempts > job.attempts then 2 * (job.maxAttempts - job.attempts) + 1 else 1
    case _ => 0
  }

  function Measure(rows: seq<Job>): nat {
    if rows == [] then 0 else Measure(rows[..|rows| - 1]) + Remaining(rows[|rows| - 1])
  }

  lemma {:induction false} MeasureUpdate(rows: seq<Job>, j: nat, job: Job)
    requires j < |rows|
    ensures Measure(rows[j := job]) == Measure(rows) - Remaining(rows[j]) + Remaining(job)
  {
    var last := |rows| - 1;
    if j == last {
      assert rows[j := job][..last] == rows[..last];
    } else {
      MeasureUpdate(rows[..last], j, job);
      assert rows[j := job][..last] == rows[..last][j := job];
    }
  }

  /** A live worker's job is running under its name. */
  ghost predicate HoldersRun(s: Sys) {
    && |s.tallies| == |s.rows|
    && forall w :: w in s.held ==>
         && s.held[w].job < |s.rows|
         && var job := s.rows[s.held[w].job];
            job.status == Running && job.lockedBy == Some(w) && job.attempts >= 1
  }

  /** In every run with handlers within the lease it is so. */
  lemma InvHoldersRun(s: Sys)
    requires Inv(s)
    ensures HoldersRun(s)
  {
    forall w | w in s.held
      ensures s.held[w].job < |s.rows|
      ensures var job := s.rows[s.held[w].job]; job.status == Running && job.lockedBy == Some(w) && job.attempts >= 1
    {
      assert Owned(s, w);
      assert Accounted(s.rows[s.held[w].job], s.tallies[s.held[w].job]);
    }
  }

  /** And without new jobs and reclaims it stays so, however long handlers take. */
  lemma StepKeepsHolders(s: Sys, e: Event)
    requires HoldersRun(s) && Enabled(s, e, None) && !e.Enqueue? && !e.Reclaim?
    ensures HoldersRun(Apply(s, e))
  {
  }

  /** Every claim and every ending uses up the measure; crashes and time leave it as it is. */
  lemma StepUsesMeasure(s: Sys, e: Event)
    requires HoldersRun(s) && Enabled(s, e, None) && !e.Enqueue? && !e.Reclaim?
    ensures if e.Claim? || e.Finish? then Measure(Apply(s, e).rows) < Measure(s.rows) else Apply(s, e).rows == s.rows
  {
    match e
    case Claim(w, j, _) => MeasureUpdate(s.rows, j, Claimed(s.rows[j], w, s.now));
    case Finish(w, ok) => MeasureUpdate(s.rows, s.held[w].job, Finished(s.rows[s.held[w].job], ok, s.now));
    case _ =>
  }

  function WorkSteps(run: seq<Event>): nat {
    if run == [] then 0 else (if run[0].Claim? || run[0].Finish? then 1 else 0) + WorkSteps(run[1..])
  }

  /** Without new jobs and reclaims a run has at most as many claims and endings as the measure says,
      however long handlers take. */
  lemma {:induction false} RunsDrain(s: Sys, run: seq<Event>)
    requires HoldersRun(s) && Possible(s, run, None) && forall i :: 0 <= i < |run| ==> !run[i].Enqueue? && !run[i].Reclaim?
    ensures WorkSteps(run) + Measure(Run(s, run, None).rows) <= Measure(s.rows)
    decreases run
  {
    if run != [] {
      StepUsesMeasure(s, run[0]);
      StepKeepsHolders(s, run[0]);
      hide HoldersRun, Apply, Enabled, Measure;
      RunsDrain(Apply(s, run[0]), run[1..]);
    }
  }

  // ----- draining after late handlers -----

  function Spare(job: Job): nat {
    if job.maxAttempts > job.attempts then job.maxAttempts - job.attempts else 0
  }

  /** What a row is good for even if workers that have lost it still end it. */
  function Potential(job: Job): nat {
    2 * Spare(job) + if job.status != Pending then 0 else if Spare(job) > 0 then 1 else 3
  }

  function Potentials(rows: seq<Job>): nat {
    if rows == [] then 0 else Potentials(rows[..|rows| - 1]) + Potential(rows[|rows| - 1])
  }

  lemma {:induction false} PotentialUpdate(rows: seq<Job>, j: nat, job: Job)
    requires j < |rows|
    ensures Potentials(rows[j := job]) == Potentials(rows) - Potential(rows[j]) + Potential(job)
  {
    var last := |rows| - 1;
    if j == last {
      assert rows[j := job][..last] == rows[..last];
    } else {
      PotentialUpdate(rows[..last], j, job);
      assert rows[j := job][..last] == rows[..last][j := job];
    }
  }

  lemma StepUsesPotential(s: Sys, e: Event)
    requires |s.tallies| == |s.rows| && Enabled(s, e, None) && !e.Enqueue? && !e.Reclaim?
    ensures var t := Apply(s, e);
            if e.Claim? || e.Finish? then Potentials(t.rows) + 2 * |t.held| < Potentials(s.rows) + 2 * |s.held|
            else Potentials(t.rows) + 2 * |t.held| <= Potentials(s.rows) + 2 * |s.held|
  {
    match e
    case Claim(w, j, _) =>
      PotentialUpdate(s.rows, j, Claimed(s.rows[j], w, s.now));
      assert |s.held[w := Work(j, s.now)]| == |s.held| + 1;
    case Finish(w, ok) =>
      PotentialUpdate(s.rows, s.held[w].job, Finished(s.rows[s.held[w].job], ok, s.now));
      assert |s.held - {w}| == |s.held| - 1;
    case Crash(w) =>
      assert |s.held - {w}| == |s.held| - 1;
    case _ =>
  }

  /** From any state at all, also one in which workers have lost their jobs to others, a run without new
      jobs and reclaims has a bounded number of claims and endings. */
  lemma {:induction false} RunsDrainAnyway(s: Sys, run: seq<Event>)
    requires |s.tallies| == |s.rows| && Possible(s, run, None)
    requires forall i :: 0 <= i < |run| ==> !run[i].Enqueue? && !run[i].Reclaim?
    ensures WorkSteps(run) <= Potentials(s.rows) + 2 * |s.held|
    decreases run
  {
    if run != [] {
      StepUsesPotential(s, run[0]);
      hide Apply, Enabled, Potentials;
      RunsDrainAnyway(Apply(s, run[0]), run[1..]);
    }
  }

  /** The measure is used up exactly when every row has succeeded or failed. */
  lemma {:induction false} DrainedIff(rows: seq<Job>)
    ensures Measure(rows) == 0 <==> forall j :: 0 <= j < |rows| ==> Terminal(rows[j].status)
  {
    if rows != [] {
      var last := |rows| - 1;
      DrainedIff(rows[..last]);
      assert forall j :: 0 <= j < last ==> rows[..last][j] == rows[j];
    }
  }

  /** A worker that holds a job can end it, and an idle one that sees a due pending row can claim one. */
  lemma WorkGoesOn(s: Sys, w: Worker)
    requires Inv(s)
    ensures w in s.held ==> Enabled(s, Finish(w, true), Some(LEASE)) && Enabled(s, Finish(w, false), Some(LEASE))
    ensures w !in s.held && (exists j :: 0 <= j < |s.rows| && Claimable(s.rows, j, s.now, {})) ==>
              exists j :: Enabled(s, Claim(w, j, {}), Some(LEASE))
  {
    if w in s.held {
      InvHoldersRun(s);
    } else {
      var best := OldestExists(s.rows, |s.rows|, s.now, {});
      if best.Some? {
        assert Oldest(s.rows, best.value, s.now, {});
        assert Enabled(s, Claim(w, best.value, {}), Some(LEASE));
      }
    }
  }

  // ----- the order of claims -----

  /** The pending rows that a claim may prefer to `k`. */
  function AheadOf(rows: seq<Job>, k: nat): set<nat>
    requires k < |rows|
  {
    set j: nat | j < |rows| && j != k && rows[j].status == Pending && NotAfter(rows[j], rows[k])
  }

  /** The row is due, and nobody holds it. */
  predicate IsWaiting(s: Sys, k: nat) {
    && |s.tallies| == |s.rows| && k < |s.rows| && s.rows[k].status == Pending && s.rows[k].runAfter <= s.now
    && forall w | w in s.held :: s.held[w].job != k
  }

  /** The event is not about the row, adds no other and brings no other back. */
  predicate LeavesRow(e: Event, k: nat) {
    !e.Enqueue? && !e.Reclaim? && (e.Claim? ==> e.job != k && k !in e.locked)
  }

  function CountClaims(run: seq<Event>): nat {
    if run == [] then 0 else (if run[0].Claim? then 1 else 0) + CountClaims(run[1..])
  }

  lemma StepOvertakes(s: Sys, e: Event, k: nat)
    requires IsWaiting(s, k) && Enabled(s, e, None) && LeavesRow(e, k)
    ensures IsWaiting(Apply(s, e), k)
    ensures |AheadOf(Apply(s, e).rows, k)| + (if e.Claim? then 1 else 0) <= |AheadOf(s.rows, k)|
  {
    var ahead, after := AheadOf(s.rows, k), AheadOf(Apply(s, e).rows, k);
    if e.Claim? {
      assert Claimable(s.rows, k, s.now, e.locked);
      assert after <= ahead - {e.job};
      SubsetSize(after, ahead - {e.job});
    } else {
      assert after <= ahead;
      SubsetSize(after, ahead);
    }
  }

  /** While a row that is due waits, as many other rows can be claimed as were ahead of it, and no more,
      however often they fail: without new jobs and reclaims no retry overtakes it. */
  lemma {:induction false} NoOvertaking(s: Sys, run: seq<Event>, k: nat)
    requires IsWaiting(s, k) && Possible(s, run, None) && forall i :: 0 <= i < |run| ==> LeavesRow(run[i], k)
    ensures IsWaiting(Run(s, run, None), k) && CountClaims(run) <= |AheadOf(s.rows, k)|
    decreases run
  {
    if run != [] {
      StepOvertakes(s, run[0], k);
      hide IsWaiting, LeavesRow, Apply, Enabled, AheadOf;
      NoOvertaking(Apply(s, run[0]), run[1..], k);
    }
  }

  /** A lost worker's job comes back: once its lease of a quarter of an hour has run out, a reclaim makes it
      pending again. */
  lemma LostJobsComeBack(s: Sys, j: nat)
    requires Inv(s) && j < |s.rows|
    requires s.rows[j].status == Running && s.rows[j].lockedAt.Some? && s.rows[j].lockedAt.value < s.now - 900
    ensures forall w :: w in s.held ==> s.held[w].job != j
    ensures var job := Apply(s, Reclaim).rows[j];
            job.status == Pending && job.attempts == s.rows[j].attempts && job.runAfter == s.rows[j].runAfter
  {
    forall w | w in s.held ensures s.held[w].job != j {
      assert Owned(s, w);
    }
  }
}
