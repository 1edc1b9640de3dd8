/** What the verification of the migration rests on: a listing of its own, and files that were looked
    for and not found since the migration began. */
module MediaVerdict {
  import opened Wrappers
  import opened MediaMigration

  /** What a run has seen: how often the migration has changed its phase, the latest listing and the
      number of changes before it, and the keys whose file was missing since the latest start. */
  datatype Log = Log(changes: nat, listing: Option<Listing>, listedAfter: nat, missing: set<Key>)

  const NoLog := Log(0, None, 0, {})

  ghost function Noting(log: Log, s: Sys, e: Event): Log {
    match e
    case Start => log.(changes := log.changes + 1, missing := {})
    case Fail => log.(changes := log.changes + 1)
    case Advance => log.(changes := log.changes + 1)
    case ListKeys => log.(listing := Some(Listing(s.refs, s.stored)), listedAfter := log.changes)
    case CopyMissing(k) => if k in s.local then log else log.(missing := log.missing + {k})
    case _ => log
  }

  ghost function Logged(log: Log, s: Sys, run: seq<Event>): Log
    requires Known(s) && Possible(s, run)
    decreases run
  {
    if run == [] then log else Logged(Noting(log, s, run[0]), Apply(s, run[0]), run[1..])
  }

  ghost predicate LogInv(s: Sys, log: Log) {
    && (s.listed.Some? ==> log.listing == s.listed && log.listedAfter == log.changes)
    && (s.listed.Some? ==> s.phase in {Copying, Verifying})
    && s.excused + s.noted <= log.missing
  }

  lemma StepLogs(s: Sys, log: Log, e: Event)
    requires Known(s) && Enabled(s, e) && LogInv(s, log)
    ensures LogInv(Apply(s, e), Noting(log, s, e))
  {
    hide Known, LogInv;
    if e.Put? || e.SecondS3? || e.SecondLocal? || e.Mark? || e.Erase? || e.Unlink? {
      WritesLog(s, log, e);
    } else {
      CopyLogs(s, log, e);
    }
  }

  lemma WritesLog(s: Sys, log: Log, e: Event)
    requires Known(s) && Enabled(s, e) && LogInv(s, log)
    requires e.Put? || e.SecondS3? || e.SecondLocal? || e.Mark? || e.Erase? || e.Unlink?
    ensures LogInv(Apply(s, e), Noting(log, s, e))
  {
    hide Known;
  }

  lemma CopyLogs(s: Sys, log: Log, e: Event)
    requires Known(s) && Enabled(s, e) && LogInv(s, log)
    requires !(e.Put? || e.SecondS3? || e.SecondLocal? || e.Mark? || e.Erase? || e.Unlink?)
    ensures LogInv(Apply(s, e), Noting(log, s, e))
  {
    hide Known;
  }

  lemma {:induction false} RunLogs(s: Sys, log: Log, run: seq<Event>)
    requires Known(s) && Possible(s, run) && LogInv(s, log)
    ensures LogInv(Run(s, run), Logged(log, s, run))
    decreases run
  {
    RunUncons(s, run);
    if run != [] {
      StepLogs(s, log, run[0]);
      hide LogInv, Apply, Enabled, Noting;
      RunLogs(Apply(s, run[0]), Noting(log, s, run[0]), run[1..]);
    }
  }

  /** When verification passes, in any run, it has listed the keys since the copying ended, and every key
      listed is marked or its file was missing at some time since the migration began. */
  lemma VerdictIsFresh(run: seq<Event>)
    requires Possible(Init, run)
    requires Run(Init, run).phase == Verifying && Enabled(Run(Init, run), Advance)
    ensures var s, log := Run(Init, run), Logged(NoLog, Init, run);
            && log.listing.Some? && log.listedAfter == log.changes
            && Apply(s, Advance).phase == ReadyToFlip && Apply(s, Advance).passed.Some?
            && Apply(s, Advance).passed.value.listing == log.listing.value
            && forall k :: k in log.listing.value.keys ==> k in s.done || k in log.missing
  {
    RunLogs(Init, NoLog, run);
    hide Possible, Run, Logged, Known;
  }

  /** A failed migration can be started over: nothing is excused or listed then, and the marks and the
      objects of both stores are as they were. */
  lemma FailureCanStartOver(run: seq<Event>)
    requires Possible(Init, run) && Run(Init, run).phase in {Validating, Copying, Verifying}
    ensures var s := Run(Init, run);
            && Enabled(s, Fail) && !Dual(Apply(s, Fail))
            && var t := Apply(s, Fail);
               && Enabled(t, Start)
               && var u := Apply(t, Start);
                  && u.phase == Validating && Dual(u) && u.excused + u.noted == {} && u.listed.None? && u.passed.None?
                  && (u.local, u.s3, u.done, u.stored) == (s.local, s.s3, s.done, s.stored)
  {
    BackendFollowsPhase(run);
    hide Possible, Run, Known;
  }
}
