/** Commit-bound wake hints: what a transaction emits, and why the drain loop of a worker never
    sleeps through a hint. */
module Wake {
  import opened Wrappers

  // ----- marks of a session -----

  datatype Service = WorkerService | SchedulerService

  /** What a transaction does that matters here; an insert that hits its dedupe key does not land. */
  datatype Op = InsertJob(landed: bool) | WriteSettings

  datatype Emission = Emission(notified: bool, kicked: set<Service>)

  const Silent := Emission(false, {})

  /** What a committing transaction has to emit, said of its operations. */
  ghost predicate Due(ops: seq<Op>, e: Emission) {
    && (e.notified <==> InsertJob(true) in ops)
    && (WorkerService in e.kicked <==> InsertJob(true) in ops)
    && (SchedulerService in e.kicked <==> WriteSettings in ops)
  }

  class Session {
    var notify: bool
    var kicks: set<Service>

    predicate Clean()
      reads this
    {
      !notify && kicks == {}
    }

    constructor ()
      ensures Clean()
    {
      notify, kicks := false, {};
    }

    method MarkJobEnqueued()
      modifies this
      ensures notify && kicks == old(kicks) + {WorkerService}
    {
      notify := true;
      kicks := kicks + {WorkerService};
    }

    method MarkSettingsChanged()
      modifies this
      ensures notify == old(notify) && kicks == old(kicks) + {SchedulerService}
    {
      kicks := kicks + {SchedulerService};
    }

    method BeforeCommit() returns (notified: bool)
      modifies this
      ensures notified == old(notify) && !notify && kicks == old(kicks)
    {
      notified := notify;
      notify := false;
    }

    method AfterCommit() returns (kicked: set<Service>)
      modifies this
      ensures kicked == old(kicks) && Clean()
    {
      notify := false;
      kicked := kicks;
      kicks := {};
    }

    method AfterRollback()
      modifies this
      ensures Clean()
    {
      notify, kicks := false, {};
    }

    /** One flat transaction. A commit emits exactly what is due, at most one notification however
        many jobs it inserts; a rollback emits nothing; no mark outlives the transaction. */
    method Transact(ops: seq<Op>, commit: bool) returns (e: Emission)
      requires Clean()
      modifies this
      ensures Clean()
      ensures commit ==> Due(ops, e)
      ensures !commit ==> e == Silent
    {
      for i := 0 to |ops|
        invariant notify <==> InsertJob(true) in ops[..i]
        invariant WorkerService in kicks <==> InsertJob(true) in ops[..i]
        invariant SchedulerService in kicks <==> WriteSettings in ops[..i]
      {
        assert ops[..i + 1] == ops[..i] + [ops[i]];
        match ops[i]
        case InsertJob(landed) =>
          if landed {
            MarkJobEnqueued();
          }
        case WriteSettings => MarkSettingsChanged();
      }
      assert ops[..|ops|] == ops;
      if commit {
        var notified := BeforeCommit();
        var kicked := AfterCommit();
        e := Emission(notified, kicked);
      } else {
        AfterRollback();
        e := Silent;
      }
    }
  }

  // ----- the drain loop of one worker among others -----

  /** A committed job as the worker can see it; `untouched` while nobody has ever claimed it. */
  datatype Job = Job(pending: bool, runAfter: int, untouched: bool)

  const SWEEP := 300

  /** How long to sleep when the next pending job is due in `dueIn` seconds. */
  function LaneDelay(dueIn: Option<int>): (delay: int)
    ensures 1 <= delay <= SWEEP
    ensures dueIn.Some? ==> delay <= 1 || delay <= dueIn.value
    ensures delay == SWEEP || (dueIn.Some? && delay >= dueIn.value)
  {
    if dueIn.None? then SWEEP
    else
      var d := if dueIn.value > 1 then dueIn.value else 1;
      if d < SWEEP then d else SWEEP
  }

  /** Where the loop stands. `at` is the time of the claim's transaction, `locked` the rows that
      other transactions had locked at the claim, `due` the answer to the query for the earliest due
      time. `waiting` records the rows that were pending at that query and have stayed so. */
  datatype Pc =
    | Top
    | Cleared
    | Missed(at: int, locked: set<nat>)
    | Decided(at: int, locked: set<nat>, due: Option<int>, waiting: set<nat>)
    | Parked(at: int, locked: set<nat>, due: Option<int>, waiting: set<nat>, since: int, deadline: int)
    | Busy

  /** `delivered` records the jobs whose hint has reached the worker. */
  datatype Sys = Sys(jobs: seq<Job>, now: int, flag: bool, pc: Pc, delivered: set<nat>)

  const Init := Sys([], 0, false, Top, {})

  datatype Event =
    | Commit(runAfter: int)               // a producer's transaction lands
    | Deliver(job: nat)                   // a hint of that job arrives: notification, kick or retried kick
    | OtherClaim(job: nat)
    | OtherReturn(job: nat, runAfter: int)  // a retry or a reclaim makes it pending again, without a hint
    | Tick(seconds: nat)
    | Clear
    | ClaimFound(job: nat)
    | ClaimMiss(locked: set<nat>)
    | QueryDue
    | Park
    | WakeUp
    | Timeout
    | Done

  predicate DueAt(job: Job, time: int) {
    job.pending && job.runAfter <= time
  }

  /** The earliest due time among the pending jobs. */
  function EarliestDue(jobs: seq<Job>): Option<int> {
    if jobs == [] then None
    else
      var before, job := EarliestDue(jobs[..|jobs| - 1]), jobs[|jobs| - 1];
      if !job.pending then before
      else if before.None? || job.runAfter < before.value then Some(job.runAfter)
      else before
  }

  /** A row that another worker claims is no longer waiting. */
  function NotWaiting(pc: Pc, j: nat): Pc {
    match pc
    case Decided(at, locked, due, waiting) => Decided(at, locked, due, waiting - {j})
    case Parked(at, locked, due, waiting, since, deadline) => Parked(at, locked, due, waiting - {j}, since, deadline)
    case _ => pc
  }

  predicate Enabled(s: Sys, e: Event) {
    match e
    case Commit(_) => true
    case Deliver(j) => j < |s.jobs|
    case OtherClaim(j) => j < |s.jobs| && s.jobs[j].pending
    case OtherReturn(j, _) => j < |s.jobs| && !s.jobs[j].pending && !s.jobs[j].untouched
    case Tick(_) => true
    case Clear => s.pc == Top
    case ClaimFound(j) => s.pc == Cleared && j < |s.jobs| && DueAt(s.jobs[j], s.now)
    case ClaimMiss(locked) => s.pc == Cleared && forall j: nat | j < |s.jobs| :: DueAt(s.jobs[j], s.now) ==> j in locked
    case QueryDue => s.pc.Missed?
    case Park => s.pc.Decided?
    case WakeUp => s.pc.Parked? && s.flag
    case Timeout => s.pc.Parked? && s.now >= s.pc.deadline
    case Done => s.pc == Busy
  }

  function Apply(s: Sys, e: Event): Sys
    requires Enabled(s, e)
  {
    match e
    case Commit(runAfter) => s.(jobs := s.jobs + [Job(true, runAfter, true)])
    case Deliver(j) => s.(flag := true, delivered := s.delivered + {j})
    case OtherClaim(j) => s.(jobs := s.jobs[j := Job(false, s.jobs[j].runAfter, false)], pc := NotWaiting(s.pc, j))
    case OtherReturn(j, runAfter) => s.(jobs := s.jobs[j := Job(true, runAfter, false)])
    case Tick(d) => s.(now := s.now + d)
    case Clear => s.(flag := false, pc := Cleared)
    case ClaimFound(j) => s.(jobs := s.jobs[j := Job(false, s.jobs[j].runAfter, false)], pc := Busy)
    case ClaimMiss(locked) => s.(pc := Missed(s.now, locked))
    case QueryDue =>
      var pending := set j: nat | j < |s.jobs| && s.jobs[j].pending;
      s.(pc := Decided(s.pc.at, s.pc.locked, EarliestDue(s.jobs), pending))
    case Park =>
      var dueIn := if s.pc.due.Some? then Some(s.pc.due.value - s.pc.at) else None;
      s.(pc := Parked(s.pc.at, s.pc.locked, s.pc.due, s.pc.waiting, s.now, s.now + LaneDelay(dueIn)))
    case WakeUp => s.(flag := false, pc := Top)
    case Timeout => s.(pc := Top)
    case Done => s.(pc := Top)
  }

  /** A job that still waits for its first claim and whose hint has arrived. */
  predicate Hinted(s: Sys, j: nat) {
    j < |s.jobs| && j in s.delivered && s.jobs[j].pending && s.jobs[j].untouched
  }

  /** The claim at `at` saw the job, and it was not due or another transaction had locked it. */
  predicate SeenAt(job: Job, j: nat, at: int, locked: set<nat>) {
    job.runAfter > at || j in locked
  }

  /** The waiting rows are pending, and none is due before `due`. */
  ghost predicate NotBefore(jobs: seq<Job>, waiting: set<nat>, due: Option<int>) {
    forall j :: j in waiting ==> j < |jobs| && jobs[j].pending && due.Some? && due.value <= jobs[j].runAfter
  }

  ghost predicate Inv(s: Sys) {
    && (forall j :: j in s.delivered ==> j < |s.jobs|)
    && (forall j :: 0 <= j < |s.jobs| && s.jobs[j].untouched ==> s.jobs[j].pending)
    && match s.pc
       case Missed(at, locked) =>
         at <= s.now && (!s.flag ==> forall j: nat :: Hinted(s, j) ==> SeenAt(s.jobs[j], j, at, locked))
       case Decided(at, locked, due, waiting) =>
         at <= s.now && NotBefore(s.jobs, waiting, due)
         && (!s.flag ==> forall j: nat :: Hinted(s, j) ==> SeenAt(s.jobs[j], j, at, locked) && j in waiting)
       case Parked(at, locked, due, waiting, since, deadline) =>
         at <= since <= s.now && NotBefore(s.jobs, waiting, due)
         && deadline == since + LaneDelay(if due.Some? then Some(due.value - at) else None)
         && (!s.flag ==> forall j: nat :: Hinted(s, j) ==> SeenAt(s.jobs[j], j, at, locked) && j in waiting)
       case _ => true
  }

  function Later(a: int, b: int): int {
    if a < b then b else a
  }

  lemma {:induction false} EarliestIsLeast(jobs: seq<Job>, j: nat)
    requires j < |jobs| && jobs[j].pending
    ensures EarliestDue(jobs).Some? && EarliestDue(jobs).value <= jobs[j].runAfter
  {
    if j < |jobs| - 1 {
      EarliestIsLeast(jobs[..|jobs| - 1], j);
    }
  }

  /** The earliest due time is that of a pending job. */
  lemma {:induction false} EarliestIsOne(jobs: seq<Job>) returns (j: nat)
    requires EarliestDue(jobs).Some?
    ensures j < |jobs| && jobs[j].pending && jobs[j].runAfter == EarliestDue(jobs).value
  {
    var last := |jobs| - 1;
    if jobs[last].pending && jobs[last].runAfter == EarliestDue(jobs).value {
      j := last;
    } else {
      j := EarliestIsOne(jobs[..last]);
    }
  }

  /** The events that are not steps of the worker. */
  predicate IsOutside(e: Event) {
    e.Commit? || e.Deliver? || e.OtherClaim? || e.OtherReturn? || e.Tick?
  }

  lemma StepKeepsInv(s: Sys, e: Event)
    requires Inv(s) && Enabled(s, e)
    ensures Inv(Apply(s, e))
  {
    if IsOutside(e) {
      OutsideKeepsInv(s, e);
    } else {
      WorkerKeepsInv(s, e);
    }
  }

  lemma OutsideKeepsInv(s: Sys, e: Event)
    requires Inv(s) && Enabled(s, e) && IsOutside(e)
    ensures Inv(Apply(s, e))
  {
    hide LaneDelay;
    var s' := Apply(s, e);
    assert !s'.flag ==> !s.flag && s'.delivered == s.delivered;
    assert forall j: nat :: Hinted(s', j) && !e.Deliver? ==> Hinted(s, j) && s'.jobs[j] == s.jobs[j];
  }

  lemma WorkerKeepsInv(s: Sys, e: Event)
    requires Inv(s) && Enabled(s, e) && !IsOutside(e)
    ensures Inv(Apply(s, e))
  {
    if e.QueryDue? {
      forall j: nat | j < |s.jobs| && s.jobs[j].pending
        ensures EarliestDue(s.jobs).Some? && EarliestDue(s.jobs).value <= s.jobs[j].runAfter
      {
        EarliestIsLeast(s.jobs, j);
      }
    }
    hide LaneDelay, EarliestDue;
    var s' := Apply(s, e);
    assert forall j: nat :: Hinted(s', j) ==> Hinted(s, j) && s'.jobs[j] == s.jobs[j];
  }

  ghost predicate Possible(s: Sys, run: seq<Event>)
    decreases run
  {
    run == [] || (Enabled(s, run[0]) && Possible(Apply(s, run[0]), run[1..]))
  }

  ghost function Run(s: Sys, run: seq<Event>): Sys
    requires Possible(s, run)
    decreases run
  {
    if run == [] then s else Run(Apply(s, run[0]), run[1..])
  }

  lemma {:induction false} RunKeepsInv(s: Sys, run: seq<Event>)
    requires Inv(s) && Possible(s, run)
    ensures Inv(Run(s, run))
    decreases run
  {
    if run != [] {
      StepKeepsInv(s, run[0]);
      hide Inv, Apply, Enabled;
      RunKeepsInv(Apply(s, run[0]), run[1..]);
    }
  }

  /** No hint is slept through. When the worker is parked and the flag is clear, every job that is
      still unclaimed and whose hint has arrived was seen by the last claim, which found it not due
      yet or locked by another transaction. And the worker sleeps no longer than the sweep interval,
      nor past the later of one second and the time left until the due time of any row, new or
      retried or reclaimed, that has been pending since the query. */
  lemma NoLostWakeup(run: seq<Event>, j: nat)
    requires Possible(Init, run) && Run(Init, run).pc.Parked?
    ensures var s := Run(Init, run);
      && s.pc.since < s.pc.deadline <= s.pc.since + SWEEP
      && (!s.flag && Hinted(s, j) ==> j in s.pc.waiting && (s.jobs[j].runAfter > s.pc.at || j in s.pc.locked))
      && (j in s.pc.waiting ==> j < |s.jobs| && s.jobs[j].pending && !SleptPast(s, j))
  {
    RunKeepsInv(Init, run);
    hide Possible, Run;
  }

  /** Nor does it sleep less: to the end of the sweep, or until the earliest due time of its query, which
      is that of a pending row. */
  lemma SleepsUntilDue(run: seq<Event>)
    requires Possible(Init, run) && Run(Init, run).pc.Parked?
    ensures var pc := Run(Init, run).pc;
            pc.deadline - pc.since == SWEEP || (pc.due.Some? && pc.deadline - pc.since >= pc.due.value - pc.at)
  {
    RunKeepsInv(Init, run);
    hide Possible, Run;
  }

  lemma QueryFindsRow(s: Sys)
    requires s.pc.Missed? && Apply(s, QueryDue).pc.due.Some?
    ensures exists j: nat :: j < |s.jobs| && s.jobs[j].pending && s.jobs[j].runAfter == Apply(s, QueryDue).pc.due.value
  {
    var j := EarliestIsOne(s.jobs);
  }

  /** What the worker does when it wakes up: it clears the flag and claims. */
  function Waking(s: Sys): seq<Event> {
    [if s.flag then WakeUp else Timeout, Clear]
  }

  lemma TwoSteps(s: Sys, e: Event, f: Event)
    requires Enabled(s, e) && Enabled(Apply(s, e), f)
    ensures Possible(s, [e, f]) && Run(s, [e, f]) == Apply(Apply(s, e), f)
  {
    hide Apply, Enabled;
    assert [e, f][1..] == [f] && [f][1..] == [];
    assert Possible(Apply(s, e), [f]);
    assert Run(Apply(Apply(s, e), f), []) == Apply(Apply(s, e), f);
  }

  lemma WakingClears(s: Sys)
    requires s.pc.Parked? && (s.flag || s.now >= s.pc.deadline)
    ensures Possible(s, Waking(s)) && Run(s, Waking(s)) == s.(flag := false, pc := Cleared)
  {
    hide Possible, Run;
    TwoSteps(s, Waking(s)[0], Clear);
  }

  lemma ClaimReturns(t: Sys, j: nat)
    requires Enabled(t, ClaimFound(j))
    ensures Possible(t, [ClaimFound(j), Done])
    ensures Run(t, [ClaimFound(j), Done]) == t.(jobs := t.jobs[j := Job(false, t.jobs[j].runAfter, false)], pc := Top)
  {
    hide Possible, Run;
    TwoSteps(t, ClaimFound(j), Done);
  }

  /** Once it is awake it can claim exactly the pending rows that are due, and is ready for the next claim when
      it has worked on one. */
  lemma WakesAndClaims(s: Sys, j: nat)
    requires s.pc.Parked? && (s.flag || s.now >= s.pc.deadline)
    ensures Possible(s, Waking(s))
    ensures var t, rest := Run(s, Waking(s)), [ClaimFound(j), Done];
            if j < |s.jobs| && s.jobs[j].pending && s.jobs[j].runAfter <= s.now then
              && Possible(t, rest)
              && Run(t, rest) == s.(flag := false, pc := Top, jobs := s.jobs[j := Job(false, s.jobs[j].runAfter, false)])
            else
              !Enabled(t, ClaimFound(j))
  {
    WakingClears(s);
    hide Waking, Possible, Run;
    var t := Run(s, Waking(s));
    if Enabled(t, ClaimFound(j)) {
      ClaimReturns(t, j);
    }
  }

  /** The worker is parked after a look at time `now`, until the earliest pending row is due, for at least a
      second and at most the sweep interval. */
  predicate ParkedFor(s: Sys, jobs: seq<Job>, now: int) {
    && s.pc.Parked? && !s.flag && s.jobs == jobs && s.pc.since == now
    && s.pc.deadline == now + LaneDelay(match EarliestDue(jobs) case None => None case Some(due) => Some(due - now))
  }

  lemma ParksFrom(m: Sys)
    requires m.pc.Missed? && !m.flag && m.pc.at == m.now
    ensures Possible(m, [QueryDue, Park]) && ParkedFor(Run(m, [QueryDue, Park]), m.jobs, m.now)
  {
    hide EarliestDue, LaneDelay, Possible, Run;
    TwoSteps(m, QueryDue, Park);
  }

  /** And when none is due, it parks again for as long. */
  lemma WakesAndParks(s: Sys)
    requires s.pc.Parked? && (s.flag || s.now >= s.pc.deadline)
    requires forall j :: 0 <= j < |s.jobs| && s.jobs[j].pending ==> s.jobs[j].runAfter > s.now
    ensures Possible(s, Waking(s))
    ensures var t := Run(s, Waking(s));
            && Enabled(t, ClaimMiss({}))
            && var m := Apply(t, ClaimMiss({}));
               Possible(m, [QueryDue, Park]) && ParkedFor(Run(m, [QueryDue, Park]), s.jobs, s.now)
  {
    WakingClears(s);
    hide Waking, ParkedFor, Possible, Run;
    ParksFrom(Apply(Run(s, Waking(s)), ClaimMiss({})));
  }

  /** The worker is parked for longer than the row allows. */
  predicate SleptPast(s: Sys, j: nat)
    requires s.pc.Parked? && j < |s.jobs|
  {
    s.pc.deadline - s.pc.since > Later(1, s.jobs[j].runAfter - s.pc.at)
  }

  /** A pending row is slept past only if it became pending after the query, and then, while the flag
      is clear, only if it came back for a retry or no hint of it has arrived. */
  lemma SleptPastOnlyIfLate(run: seq<Event>, j: nat)
    requires Possible(Init, run) && Run(Init, run).pc.Parked?
    requires j < |Run(Init, run).jobs| && Run(Init, run).jobs[j].pending && SleptPast(Run(Init, run), j)
    ensures var s := Run(Init, run);
            j !in s.pc.waiting && (s.flag || !s.jobs[j].untouched || j !in s.delivered)
  {
    NoLostWakeup(run, j);
    hide Possible, Run;
  }

  /** And every such row is, if it is due earlier than the worker is parked for: neither a retry nor a
      commit changes the flag or the deadline. */
  lemma LateRowsAreSleptPast(run: seq<Event>, j: nat, due: int)
    requires Possible(Init, run) && Run(Init, run).pc.Parked? && !Run(Init, run).flag
    requires var pc := Run(Init, run).pc; pc.deadline - pc.since > Later(1, due - pc.at)
    ensures var more := run + [Commit(due)];
            && Possible(Init, more)
            && var t := Run(Init, more);
               var last := |Run(Init, run).jobs|;
               t.pc.Parked? && !t.flag && last < |t.jobs| && t.jobs[last].pending && SleptPast(t, last)
    ensures Enabled(Run(Init, run), OtherReturn(j, due)) ==>
              var more := run + [OtherReturn(j, due)];
              && Possible(Init, more)
              && var t := Run(Init, more); t.pc.Parked? && !t.flag && j < |t.jobs| && t.jobs[j].pending && SleptPast(t, j)
  {
    OneMore(Init, run, Commit(due));
    if Enabled(Run(Init, run), OtherReturn(j, due)) {
      OneMore(Init, run, OtherReturn(j, due));
    }
    hide Possible, Run;
  }

  lemma {:induction false} OneMore(s: Sys, run: seq<Event>, e: Event)
    requires Possible(s, run) && Enabled(Run(s, run), e)
    ensures Possible(s, run + [e]) && Run(s, run + [e]) == Apply(Run(s, run), e)
    decreases run
  {
    hide Enabled, Apply;
    if run == [] {
      assert run + [e] == [e] && [e][1..] == [];
      assert Possible(Apply(s, e), []) && Run(Apply(s, e), []) == Apply(s, e);
    } else {
      assert (run + [e])[1..] == run[1..] + [e];
      OneMore(Apply(s, run[0]), run[1..], e);
    }
  }
}
