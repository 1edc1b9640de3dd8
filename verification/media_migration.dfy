/** The local-to-S3 media migration as a state machine: writes, deletions, the copy run, flips,
    rollbacks, cleanup and crashes interleave in any order. */
module MediaMigration {
  import opened Wrappers

  type Key = string
  type Data = string

  datatype Backend = Local | S3

  datatype Phase = Idle | Validating | Copying | Verifying | ReadyToFlip | Completed | Cleaning | Done | Failed

  /** A migration is open: every write goes to both stores, as far as the second one works. */
  predicate Open(phase: Phase) {
    phase in {Validating, Copying, Verifying, ReadyToFlip, Completed, Cleaning}
  }

  /** What the run lists before a pass: the keys that database rows refer to; beside them, for the
      record, the keys that were stored at that moment. */
  datatype Listing = Listing(keys: set<Key>, stored: set<Key>)

  /** The listing that verification passed with, and the keys excused as missing on disk. */
  datatype Verdict = Verdict(listing: Listing, excused: set<Key>)

  /** Both stores and everything under way.
      `content` records the bytes of every key ever written, `stored` the keys written and not
      deleted since, `unsent` the keys that went to disk first and whose S3 copy has not succeeded
      yet; none of the three is part of the program's state.
      `toS3`, `toLocal` and `toMark` are the later steps of writes that have passed their first
      step. `refs` are the keys in the database. `listed`, `reading`, `uploaded` and `noted` belong
      to the copy run, whose marks and records of missing files are committed by batch; `sweeping`
      are the keys that the running cleanup unlinks. */
  datatype Sys = Sys(
    local: map<Key, Data>, s3: map<Key, Data>, content: map<Key, Data>, stored: set<Key>, deleted: set<Key>, unsent: set<Key>,
    active: Backend, phase: Phase, done: set<Key>, excused: set<Key>, refs: set<Key>,
    toS3: set<Key>, toLocal: set<Key>, toMark: set<Key>,
    listed: Option<Listing>, reading: set<Key>, uploaded: set<Key>, noted: set<Key>, passed: Option<Verdict>,
    cleaner: bool, sweeping: set<Key>)

  const Init := Sys(map[], map[], map[], {}, {}, {}, Local, Idle, {}, {}, {}, {}, {}, {}, None, {}, {}, {}, None, false, {})

  /** The keys of the passed listing that were not excused. */
  function Verified(s: Sys): set<Key> {
    if s.passed.None? then {} else s.passed.value.listing.keys - s.passed.value.excused
  }

  /** The gate of the verification: every listed key is marked or recorded as missing on disk. */
  predicate Passes(keys: set<Key>, done: set<Key>, excused: set<Key>) {
    forall k :: k in keys ==> k in done || k in excused
  }

  /** The copy run looks at a listed key that is not marked yet. */
  predicate AtKey(s: Sys, k: Key) {
    s.phase in {Copying, Verifying} && s.listed.Some? && k in s.listed.value.keys && k !in s.done
  }

  predicate Dual(s: Sys) {
    Open(s.phase)
  }

  /** Reading a key back: the local file first when it may be there, else the S3 object. */
  function Get(s: Sys, k: Key): Option<Data> {
    if (s.active == Local || Dual(s)) && k in s.local then Some(s.local[k])
    else if (s.active == S3 || Dual(s)) && k in s.s3 then Some(s.s3[k])
    else None
  }

  datatype Event =
    | Put(key: Key, data: Data)             // the first write of a new key, to the active store
    | SecondS3(key: Key, ok: bool)          // its best-effort copy to S3
    | SecondLocal(key: Key, ok: bool)       // its best-effort local copy
    | Mark(key: Key, ok: bool)              // its entry among the migrated keys
    | Delete(key: Key)                      // a deletion is requested
    | Erase(key: Key, from: Backend)        // an object of a deleted key goes, now or later
    | Start
    | Fail
    | Advance                               // validating, copying, verifying, ready
    | Refer(key: Key)                       // a database row with the key comes
    | Unrefer(key: Key)                     // or goes
    | ListKeys
    | CopyRead(key: Key)
    | CopyMissing(key: Key)                 // the local file is missing
    | CopySkip(key: Key)                    // S3 already has an object of the same size
    | CopyUpload(key: Key)
    | CommitBatch
    | DropRecord(key: Key)                  // only the last records are kept
    | CrashRunner
    | Flip
    | Rollback
    | CleanStart
    | CleanList
    | Unlink(key: Key)
    | CleanFinish
    | CrashCleaner

  predicate Enabled(s: Sys, e: Event) {
    match e
    case Put(k, _) => k !in s.content
    case SecondS3(k, _) => k in s.toS3
    case SecondLocal(k, _) => k in s.toLocal
    case Mark(k, _) => k in s.toMark
    case Delete(k) => k in s.stored
    case Erase(k, _) => k in s.deleted
    case Start => !Open(s.phase) && s.active == Local
    case Fail => s.phase in {Validating, Copying, Verifying}
    case Advance =>
      || s.phase == Validating
      || (s.phase == Copying && s.listed.Some?)
      || (s.phase == Verifying && s.listed.Some? && Passes(s.listed.value.keys, s.done, s.excused))
    case Refer(_) => true
    case Unrefer(_) => true
    case ListKeys => s.phase in {Copying, Verifying}
    case CopyRead(k) => AtKey(s, k) && k in s.local
    case CopyMissing(k) => AtKey(s, k) && k !in s.local
    case CopySkip(k) => AtKey(s, k) && k in s.local && k in s.s3 && |s.s3[k]| == |s.local[k]|
    case CopyUpload(k) => k in s.reading
    case CommitBatch => true
    case DropRecord(_) => true
    case CrashRunner => true
    case Flip => s.phase in {ReadyToFlip, Completed}
    case Rollback => s.phase in {ReadyToFlip, Completed}
    case CleanStart => s.phase == Completed && s.active == S3
    case CleanList => s.phase == Cleaning && s.cleaner
    case Unlink(k) => s.cleaner && k in s.sweeping
    case CleanFinish => s.phase == Cleaning && s.cleaner
    case CrashCleaner => s.cleaner
  }

  /** Only keys that were written are on disk, or on their way from one store to the other. */
  ghost predicate Known(s: Sys) {
    forall k :: k in s.local || k in s.reading || k in s.toS3 || k in s.toLocal ==> k in s.content
  }

  function Apply(s: Sys, e: Event): (s': Sys)
    requires Enabled(s, e) && Known(s)
    ensures Known(s')
  {
    match e
    case Put(k, d) =>
      var s' := s.(content := s.content[k := d], stored := s.stored + {k});
      if s.active == Local then
        s'.(local := s.local[k := d], toS3 := if Dual(s) then s.toS3 + {k} else s.toS3, unsent := s.unsent + {k})
      else
        s'.(s3 := s.s3[k := d],
            toLocal := if Dual(s) then s.toLocal + {k} else s.toLocal,
            toMark := s.toMark + {k})
    case SecondS3(k, ok) =>
      var s' := s.(toS3 := s.toS3 - {k});
      if ok then s'.(s3 := s.s3[k := s.content[k]], toMark := s.toMark + {k}, unsent := s.unsent - {k}) else s'
    case SecondLocal(k, ok) =>
      var s' := s.(toLocal := s.toLocal - {k});
      if ok then s'.(local := s.local[k := s.content[k]]) else s'
    case Mark(k, ok) =>
      s.(toMark := s.toMark - {k}, done := if ok && Dual(s) then s.done + {k} else s.done)
    case Delete(k) => s.(stored := s.stored - {k}, deleted := s.deleted + {k})
    case Erase(k, from) => if from == Local then s.(local := s.local - {k}) else s.(s3 := s.s3 - {k})
    case Start => s.(phase := Validating, excused := {}, noted := {}, listed := None, passed := None)
    case Fail => s.(phase := Failed, listed := None)
    case Advance =>
      if s.phase == Validating then s.(phase := Copying)
      else if s.phase == Copying then s.(phase := Verifying, listed := None)
      else s.(phase := ReadyToFlip, listed := None, passed := Some(Verdict(s.listed.value, s.excused)))
    case Refer(k) => s.(refs := s.refs + {k})
    case Unrefer(k) => s.(refs := s.refs - {k})
    case ListKeys => s.(listed := Some(Listing(s.refs, s.stored)))
    case CopyMissing(k) => s.(noted := s.noted + {k})
    case DropRecord(k) => s.(excused := s.excused - {k})
    case CopyRead(k) => s.(reading := s.reading + {k})
    case CopySkip(k) => s.(uploaded := s.uploaded + {k})
    case CopyUpload(k) =>
      s.(reading := s.reading - {k}, s3 := s.s3[k := s.content[k]], uploaded := s.uploaded + {k}, unsent := s.unsent - {k})
    case CommitBatch => s.(done := s.done + s.uploaded, uploaded := {}, excused := s.excused + s.noted, noted := {})
    case CrashRunner => s.(reading := {}, uploaded := {}, noted := {}, listed := None)
    case Flip => s.(active := S3, phase := Completed)
    case Rollback => s.(active := Local, phase := ReadyToFlip)
    case CleanStart => s.(phase := Cleaning, cleaner := true)
    case CleanList => s.(sweeping := s.done)
    case Unlink(k) => s.(local := s.local - {k}, sweeping := s.sweeping - {k})
    case CleanFinish => s.(phase := Done, done := {}, cleaner := false, sweeping := {})
    case CrashCleaner => s.(cleaner := false, sweeping := {})
  }

  // ----- the invariant -----

  /** The objects of a store are the bytes that were written under their keys. */
  ghost predicate Genuine(objects: map<Key, Data>, content: map<Key, Data>) {
    forall k :: k in objects ==> k in content && objects[k] == content[k]
  }

  /** These keys, unless deleted, are on S3. */
  ghost predicate OnS3(s: Sys, keys: set<Key>) {
    forall k :: k in keys && k !in s.deleted ==> k in s.s3
  }

  ghost predicate Inv(s: Sys) {
    Sound(s) && Tracked(s)
  }

  ghost predicate Sound(s: Sys) {
    && Genuine(s.local, s.content) && Genuine(s.s3, s.content)
    && s.stored <= s.content.Keys && s.stored !! s.deleted && s.deleted <= s.content.Keys
    && Known(s)
    // every stored key has a copy, and a local one until the first flip is possible
    && (forall k :: k in s.stored ==> k in s.local || k in s.s3)
    && (s.phase in {Idle, Validating, Copying, Verifying, Failed} ==> s.active == Local && s.stored <= s.local.Keys)
    && (s.active == S3 <==> s.phase in {Completed, Cleaning, Done})
    // done keys, and all keys about to be marked or swept, are on S3
    && OnS3(s, s.done) && OnS3(s, s.uploaded) && OnS3(s, s.toMark) && OnS3(s, s.sweeping)
    && (s.cleaner ==> s.phase == Cleaning) && (!s.cleaner ==> s.sweeping == {})
  }

  /** What verification leaves behind, and which stored keys are not on S3. */
  ghost predicate Tracked(s: Sys) {
    && OnS3(s, Verified(s))
    && (s.phase in {ReadyToFlip, Completed, Cleaning, Done} ==> s.passed.Some?)
    && (forall k :: k in s.stored ==> (k in s.s3 <==> k !in s.unsent))
    && s.unsent <= s.content.Keys
  }

  lemma InitInv()
    ensures Inv(Init)
  {
  }

  /** Every step keeps the invariant. */
  lemma StepKeepsInv(s: Sys, e: Event)
    requires Inv(s) && Enabled(s, e)
    ensures Inv(Apply(s, e))
  {
    TrackedStep(s, e);
    hide Tracked, Apply;
    match e
    case Put(k, d) => PutSound(s, k, d);
    case SecondS3(k, ok) => SecondSound(s, e);
    case SecondLocal(k, ok) => SecondSound(s, e);
    case Mark(k, ok) => MarkSound(s, e);
    case Delete(k) => MarkSound(s, e);
    case Erase(k, from) => EraseSound(s, e);
    case CopyRead(k) => CopySound(s, e);
    case CopySkip(k) => CopySound(s, e);
    case CopyMissing(k) => CopySound(s, e);
    case ListKeys => CopySound(s, e);
    case DropRecord(k) => CopySound(s, e);
    case Refer(k) => CopySound(s, e);
    case Unrefer(k) => CopySound(s, e);
    case CopyUpload(k) => UploadSound(s, k);
    case CommitBatch => CopySound(s, e);
    case CrashRunner => CopySound(s, e);
    case _ => PhaseSound(s, e);
  }

  lemma MarkSound(s: Sys, e: Event)
    requires Sound(s) && Enabled(s, e) && (e.Mark? || e.Delete?)
    ensures Sound(Apply(s, e))
  {
  }

  lemma EraseSound(s: Sys, e: Event)
    requires Sound(s) && Enabled(s, e) && e.Erase?
    ensures Sound(Apply(s, e))
  {
  }

  lemma CopySound(s: Sys, e: Event)
    requires Sound(s) && Enabled(s, e) && (e.CopyRead? || e.CopySkip? || e.CopyMissing? || e.CommitBatch? || e.CrashRunner?
                                          || e.ListKeys? || e.DropRecord? || e.Refer? || e.Unrefer?)
    ensures Sound(Apply(s, e))
  {
  }

  lemma PhaseSound(s: Sys, e: Event)
    requires Sound(s) && Enabled(s, e)
    requires e.Start? || e.Fail? || e.Advance? || e.Flip? || e.Rollback? || e.CleanStart? || e.CleanList? || e.Unlink?
             || e.CleanFinish? || e.CrashCleaner?
    ensures Sound(Apply(s, e))
  {
    assert e.Start? ==> s.phase.Idle? || s.phase.Failed? || s.phase.Done?;
  }

  lemma PutSound(s: Sys, k: Key, d: Data)
    requires Sound(s) && k !in s.content
    ensures Sound(Apply(s, Put(k, d)))
  {
  }

  lemma SecondSound(s: Sys, e: Event)
    requires Sound(s) && Enabled(s, e) && (e.SecondS3? || e.SecondLocal?)
    ensures Sound(Apply(s, e))
  {
    if e.SecondS3? {
      SecondS3Sound(s, e);
    }
  }

  lemma SecondS3Sound(s: Sys, e: Event)
    requires Sound(s) && Enabled(s, e) && e.SecondS3?
    ensures Sound(Apply(s, e))
  {
  }

  lemma UploadSound(s: Sys, k: Key)
    requires Sound(s) && k in s.reading
    ensures Sound(Apply(s, CopyUpload(k)))
  {
  }

  /** What verification left behind, and which stored keys are not on S3, step by step. */
  lemma TrackedStep(s: Sys, e: Event)
    requires Inv(s) && Enabled(s, e)
    ensures Tracked(Apply(s, e))
  {
    match e
    case Put(k, d) => PutTracked(s, k, d);
    case SecondS3(k, ok) => SentTracked(s, e);
    case CopyUpload(k) => SentTracked(s, e);
    case Erase(k, from) => EraseTracked(s, e);
    case Delete(k) => EraseTracked(s, e);
    case Advance => AdvanceTracked(s);
    case _ => OtherTracked(s, e);
  }

  lemma PutTracked(s: Sys, k: Key, d: Data)
    requires Inv(s) && k !in s.content
    ensures Tracked(Apply(s, Put(k, d)))
  {
  }

  lemma SentTracked(s: Sys, e: Event)
    requires Inv(s) && Enabled(s, e) && (e.SecondS3? || e.CopyUpload?)
    ensures Tracked(Apply(s, e))
  {
  }

  lemma EraseTracked(s: Sys, e: Event)
    requires Inv(s) && Enabled(s, e) && (e.Erase? || e.Delete?)
    ensures Tracked(Apply(s, e))
  {
  }

  lemma AdvanceTracked(s: Sys)
    requires Inv(s) && Enabled(s, Advance)
    ensures Tracked(Apply(s, Advance))
  {
  }

  lemma OtherTracked(s: Sys, e: Event)
    requires Inv(s) && Enabled(s, e)
    requires !e.Put? && !e.SecondS3? && !e.CopyUpload? && !e.Erase? && !e.Delete? && !e.Advance?
    ensures Tracked(Apply(s, e))
  {
    assert e.Start? ==> s.phase.Idle? || s.phase.Failed? || s.phase.Done?;
  }

  // ----- runs -----

  /** Every event of the run is enabled when its turn comes. */
  ghost predicate Possible(s: Sys, run: seq<Event>)
    requires Known(s)
    decreases run
  {
    run == [] || (Enabled(s, run[0]) && Possible(Apply(s, run[0]), run[1..]))
  }

  ghost function Run(s: Sys, run: seq<Event>): (s': Sys)
    requires Known(s) && Possible(s, run)
    ensures Known(s')
    decreases run
  {
    if run == [] then s else Run(Apply(s, run[0]), run[1..])
  }

  lemma {:induction false} RunKeepsInv(s: Sys, run: seq<Event>)
    requires Inv(s) && Possible(s, run)
    ensures Inv(Run(s, run))
    decreases run
  {
    RunUncons(s, run);
    if run != [] {
      StepKeepsInv(s, run[0]);
      hide Inv, Apply, Enabled, Possible, Run;
      RunKeepsInv(Apply(s, run[0]), run[1..]);
    }
  }

  /** In every reachable state: a key marked as migrated and not deleted since is on S3 with its
      own bytes; and unless the migration is over, every stored key reads back as written,
      whichever store is active. */
  lemma MigrationIsSafe(run: seq<Event>)
    requires Possible(Init, run)
    ensures var s := Run(Init, run);
      && (forall k :: k in s.done && k !in s.deleted ==> k in s.s3 && k in s.content && s.s3[k] == s.content[k])
      && (s.phase != Done ==> forall k :: k in s.stored ==> k in s.content && Get(s, k) == Some(s.content[k]))
  {
    InitInv();
    RunKeepsInv(Init, run);
    hide Possible, Run;
    var s := Run(Init, run);
    if s.phase != Done {
      assert Open(s.phase) || s.phase.Idle? || s.phase.Failed?;
    }
  }

  /** The cleanup unlinks a local file only when the key is deleted or is on S3. */
  lemma CleanupUnlinksCopies(s: Sys, k: Key)
    requires Inv(s) && Enabled(s, Unlink(k))
    ensures k in s.deleted || (k in s.s3 && k in s.content && s.s3[k] == s.content[k])
  {
  }

  /** A key that verification passed with, unless it was excused or deleted, is on S3 with its bytes
      from then on, and reads back whatever follows: flips, rollbacks, the cleanup and its end. */
  lemma VerifiedKeysSurvive(run: seq<Event>, k: Key)
    requires Possible(Init, run) && k in Verified(Run(Init, run)) && k in Run(Init, run).stored
    ensures var s := Run(Init, run);
            k in s.content && k in s.s3 && s.s3[k] == s.content[k] && Get(s, k) == Some(s.content[k])
  {
    InitInv();
    RunKeepsInv(Init, run);
    MigrationIsSafe(run);
    hide Possible, Run, Verified;
    var s := Run(Init, run);
    assert k in s.s3;
  }

  /** After the migration a stored key is lost exactly when it went to disk first and its S3 copy never
      succeeded; and verification had not listed it, or had excused it as missing. */
  lemma LostIff(run: seq<Event>, k: Key)
    requires Possible(Init, run) && Run(Init, run).phase == Done && k in Run(Init, run).stored
    ensures var s := Run(Init, run);
            && (Get(s, k) == None <==> k in s.unsent)
            && s.passed.Some?
            && (Get(s, k) == None ==> k !in s.passed.value.listing.keys || k in s.passed.value.excused)
  {
    InitInv();
    RunKeepsInv(Init, run);
    hide Possible, Run;
  }

  /** If the listing that verification passed with had every key stored at that moment, and excused none
      of them, the lost keys are exactly those first written after it whose S3 copy never succeeded. */
  lemma LostKeysAreLate(run: seq<Event>, k: Key)
    requires Possible(Init, run) && Run(Init, run).phase == Done && k in Run(Init, run).stored
    requires Run(Init, run).passed.Some? && Run(Init, run).passed.value.listing.stored <= Verified(Run(Init, run))
    ensures var s := Run(Init, run);
            Get(s, k) == None <==> k !in s.passed.value.listing.stored && k in s.unsent
  {
    LostIff(run, k);
    hide Possible, Run, Get;
  }

  /** The end of the cleanup loses nothing exactly when the S3 copy of every stored key that went to disk
      first has succeeded. */
  lemma FinishIsSafeIff(run: seq<Event>)
    requires Possible(Init, run) && Enabled(Run(Init, run), CleanFinish)
    ensures var s := Run(Init, run);
            (forall k :: k in s.stored ==> k in s.content && Get(Apply(s, CleanFinish), k) == Some(s.content[k]))
            <==> s.stored !! s.unsent
  {
    hide Possible, Run, Inv, Apply, Enabled, Get;
    InitInv();
    RunKeepsInv(Init, run);
    var s := Run(Init, run);
    forall k | k in s.stored
      ensures k in s.content && (Get(Apply(s, CleanFinish), k) == Some(s.content[k]) <==> k !in s.unsent)
    {
      ReadAfterFinish(s, k);
    }
  }

  lemma ReadAfterFinish(s: Sys, k: Key)
    requires Inv(s) && Enabled(s, CleanFinish) && k in s.stored
    ensures k in s.content && (Get(Apply(s, CleanFinish), k) == Some(s.content[k]) <==> k !in s.unsent)
  {
  }

  // ----- flips and rollbacks -----

  /** The active store is S3 exactly after a flip that no rollback has taken back. */
  lemma BackendFollowsPhase(run: seq<Event>)
    requires Possible(Init, run)
    ensures var s := Run(Init, run); s.active == S3 <==> s.phase in {Completed, Cleaning, Done}
  {
    InitInv();
    RunKeepsInv(Init, run);
    hide Possible, Run;
  }

  lemma StaysReady(s: Sys, e: Event)
    requires Known(s) && s.phase == ReadyToFlip && Enabled(s, e) && e != Flip
    ensures Apply(s, e).phase == ReadyToFlip
  {
  }

  lemma {:induction false} ReadyUntilFlip(s: Sys, run: seq<Event>)
    requires Inv(s) && Possible(s, run) && s.phase == ReadyToFlip && forall i :: 0 <= i < |run| ==> run[i] != Flip
    ensures Inv(Run(s, run)) && Run(s, run).phase == ReadyToFlip && Run(s, run).active == Local
    decreases run
  {
    RunUncons(s, run);
    if run == [] {
      hide Possible, Run;
    } else {
      StepKeepsInv(s, run[0]);
      StaysReady(s, run[0]);
      hide Apply, Enabled, Possible, Run, Inv;
      ReadyUntilFlip(Apply(s, run[0]), run[1..]);
    }
  }

  /** After a rollback the disk is written first, until the next flip: a key written then is on disk
      whether or not S3 works, and reads back. */
  lemma RollbackWritesDisk(run: seq<Event>, later: seq<Event>, k: Key, d: Data)
    requires Possible(Init, run) && Enabled(Run(Init, run), Rollback)
    requires Possible(Apply(Run(Init, run), Rollback), later) && forall i :: 0 <= i < |later| ==> later[i] != Flip
    requires Enabled(Run(Apply(Run(Init, run), Rollback), later), Put(k, d))
    ensures var t := Apply(Run(Apply(Run(Init, run), Rollback), later), Put(k, d));
            k in t.local && t.local[k] == d && k in t.toS3 && Get(t, k) == Some(d)
  {
    hide Possible, Run, Inv, Apply, Enabled;
    InitInv();
    RunKeepsInv(Init, run);
    var s := Run(Init, run);
    StepKeepsInv(s, Rollback);
    RolledBack(s);
    ReadyUntilFlip(Apply(s, Rollback), later);
    PutOnDisk(Run(Apply(s, Rollback), later), k, d);
  }

  lemma RolledBack(s: Sys)
    requires Known(s) && Enabled(s, Rollback)
    ensures Apply(s, Rollback).phase == ReadyToFlip
  {
  }

  lemma PutOnDisk(s: Sys, k: Key, d: Data)
    requires Known(s) && s.phase == ReadyToFlip && s.active == Local && Enabled(s, Put(k, d))
    ensures var t := Apply(s, Put(k, d)); k in t.local && t.local[k] == d && k in t.toS3 && Get(t, k) == Some(d)
  {
  }

  // ----- two keys that are lost -----

  /** A key written before the migration, copied and verified, survives it; one written after the
      verification, whose S3 copy fails, does not. */
  lemma LateKeyIsLost(early: Key, late: Key, d: Data) returns (run: seq<Event>)
    requires early != late
    ensures Possible(Init, run)
    ensures var s := Run(Init, run);
            && s.phase == Done && s.stored == {early, late} && s.passed == Some(Verdict(Listing({early}, {early}), {}))
            && Get(s, early) == Some(d) && early !in s.local
            && Get(s, late) == None && late in s.local
  {
    hide Apply, Enabled, Possible, Run;
    var first := WrittenAndListed(early, d);
    var s1 := Run(Init, first);
    var second := CopiedAndPassed(s1, early);
    var s2 := Run(s1, second);
    var third := LateWrite(s2, late, d);
    var s3 := Run(s2, third);
    var fourth := Cleaned(s3, early);
    Joined(first, second, third, fourth);
    run := first + (second + (third + fourth));
  }

  lemma Joined(first: seq<Event>, second: seq<Event>, third: seq<Event>, fourth: seq<Event>)
    requires Possible(Init, first)
    requires Possible(Run(Init, first), second)
    requires Possible(Run(Run(Init, first), second), third)
    requires var s := Run(Run(Init, first), second); Possible(Run(s, third), fourth)
    ensures var run := first + (second + (third + fourth));
            Possible(Init, run) && Run(Init, run) == Run(Run(Run(Run(Init, first), second), third), fourth)
  {
    hide Apply, Enabled, Possible, Run;
    var s1 := Run(Init, first);
    var s2 := Run(s1, second);
    RunAppend(s2, third, fourth);
    RunAppend(s1, second, third + fourth);
    RunAppend(Init, first, second + (third + fourth));
  }

  /** A record of a missing file is kept when the file is written after all: a key listed and stored can
      then pass the verification without a mark, and is lost as well if its copies fail. */
  lemma ExcusedKeyIsLost(k: Key, d: Data) returns (run: seq<Event>)
    ensures Possible(Init, run)
    ensures var s := Run(Init, run);
            && s.phase == Done && k in s.stored && Get(s, k) == None
            && s.passed == Some(Verdict(Listing({k}, {k}), {k}))
  {
    var first := RecordedMissing(k);
    var s1 := Run(Init, first);
    var second := WrittenAndExcused(s1, k, d);
    var s2 := Run(s1, second);
    var third := FlippedAndCleaned(s2);
    hide Apply, Enabled, Possible, Run, Get;
    RunAppend(s1, second, third);
    RunAppend(Init, first, second + third);
    run := first + (second + third);
  }

  lemma RecordedMissing(k: Key) returns (run: seq<Event>)
    ensures Possible(Init, run)
    ensures Run(Init, run) == Init.(phase := Copying, refs := {k}, listed := Some(Listing({k}, {})), excused := {k})
  {
    var s1 := Apply(Init, Refer(k));
    var s2 := Apply(s1, Start);
    var s3 := Apply(s2, Advance);
    assert {} + {k} == {k};
    assert s3 == Init.(phase := Copying, refs := {k});
    hide Apply, Enabled, Possible, Run;
    RunNil(s3);
    run := Before(s2, Advance, []);
    run := Before(s1, Start, run);
    run := Before(Init, Refer(k), run);
    var recorded := Recorded(s3, k);
    RunAppend(Init, run, recorded);
    run := run + recorded;
  }

  lemma Recorded(s: Sys, k: Key) returns (run: seq<Event>)
    requires s == Init.(phase := Copying, refs := {k})
    ensures Possible(s, run) && Run(s, run) == s.(listed := Some(Listing({k}, {})), excused := {k})
  {
    var s1 := Apply(s, ListKeys);
    var s2 := Apply(s1, CopyMissing(k));
    var s3 := Apply(s2, CommitBatch);
    assert s3 == s.(listed := Some(Listing({k}, {})), excused := {k});
    hide Apply, Enabled, Possible, Run;
    RunNil(s3);
    run := Before(s2, CommitBatch, []);
    run := Before(s1, CopyMissing(k), run);
    run := Before(s, ListKeys, run);
  }

  lemma WrittenAndExcused(s: Sys, k: Key, d: Data) returns (run: seq<Event>)
    requires s == Init.(phase := Copying, refs := {k}, listed := Some(Listing({k}, {})), excused := {k})
    ensures Possible(s, run)
    ensures var t := Run(s, run);
            && t.phase == ReadyToFlip && t.stored == {k} && t.s3 == map[] && t.done == {}
            && t.passed == Some(Verdict(Listing({k}, {k}), {k}))
  {
    var s1 := Apply(s, Put(k, d));
    var s2 := Apply(s1, SecondS3(k, false));
    var s3 := Apply(s2, Advance);
    var s4 := Apply(s3, ListKeys);
    var s5 := Apply(s4, Advance);
    assert s5.stored == {k};
    hide Apply, Enabled, Possible, Run;
    RunNil(s5);
    run := Before(s4, Advance, []);
    run := Before(s3, ListKeys, run);
    run := Before(s2, Advance, run);
    run := Before(s1, SecondS3(k, false), run);
    run := Before(s, Put(k, d), run);
  }

  lemma FlippedAndCleaned(s: Sys) returns (run: seq<Event>)
    requires Known(s) && s.phase == ReadyToFlip
    ensures Possible(s, run)
    ensures Run(s, run) == s.(active := S3, phase := Done, done := {}, cleaner := false, sweeping := {})
  {
    var s1 := Apply(s, Flip);
    var s2 := Apply(s1, CleanStart);
    var s3 := Apply(s2, CleanList);
    var s4 := Apply(s3, CleanFinish);
    assert s4 == s.(active := S3, phase := Done, done := {}, cleaner := false, sweeping := {});
    hide Apply, Enabled, Possible, Run;
    RunNil(s4);
    run := Before(s3, CleanFinish, []);
    run := Before(s2, CleanList, run);
    run := Before(s1, CleanStart, run);
    run := Before(s, Flip, run);
  }

  /** What a key written before the start leads to when its only copy is on disk. */
  function Listed(k: Key, d: Data): Sys {
    Init.(phase := Verifying, local := map[k := d], content := map[k := d], stored := {k}, unsent := {k}, refs := {k},
          listed := Some(Listing({k}, {k})))
  }

  lemma WrittenAndListed(k: Key, d: Data) returns (run: seq<Event>)
    ensures Possible(Init, run) && Run(Init, run) == Listed(k, d)
  {
    var s1 := Apply(Init, Put(k, d));
    var s2 := Apply(s1, Refer(k));
    var s3 := Apply(s2, Start);
    var s4 := Apply(s3, Advance);
    var s5 := Apply(s4, ListKeys);
    var s6 := Apply(s5, Advance);
    assert {} + {k} == {k} && map[][k := d] == map[k := d];
    assert Apply(s6, ListKeys) == Listed(k, d);
    hide Apply, Enabled, Possible, Run;
    run := [];
    RunNil(Listed(k, d));
    run := Before(s6, ListKeys, run);
    run := Before(s5, Advance, run);
    run := Before(s4, ListKeys, run);
    run := Before(s3, Advance, run);
    run := Before(s2, Start, run);
    run := Before(s1, Refer(k), run);
    run := Before(Init, Put(k, d), run);
  }

  lemma CopiedAndPassed(s: Sys, k: Key) returns (run: seq<Event>)
    requires Known(s) && s.phase == Verifying && s.listed == Some(Listing({k}, {k})) && k in s.local && k !in s.done
    requires s.reading == {} && s.uploaded == {} && s.noted == {}
    ensures Possible(s, run)
    ensures Run(s, run) == s.(s3 := s.s3[k := s.content[k]], unsent := s.unsent - {k}, done := s.done + {k},
                              phase := ReadyToFlip, listed := None, passed := Some(Verdict(Listing({k}, {k}), s.excused)))
  {
    var s1 := Apply(s, CopyRead(k));
    var s2 := Apply(s1, CopyUpload(k));
    var s3 := Apply(s2, CommitBatch);
    var s4 := Apply(s3, Advance);
    assert s.reading + {k} - {k} == s.reading && s.uploaded + {k} == {k} && s.excused + s.noted == s.excused;
    assert s4 == s.(s3 := s.s3[k := s.content[k]], unsent := s.unsent - {k}, done := s.done + {k},
                    phase := ReadyToFlip, listed := None, passed := Some(Verdict(Listing({k}, {k}), s.excused)));
    hide Apply, Enabled, Possible, Run;
    RunNil(s4);
    run := Before(s3, Advance, []);
    run := Before(s2, CommitBatch, run);
    run := Before(s1, CopyUpload(k), run);
    run := Before(s, CopyRead(k), run);
  }

  lemma LateWrite(s: Sys, k: Key, d: Data) returns (run: seq<Event>)
    requires Known(s) && s.phase == ReadyToFlip && s.active == Local && k !in s.content && s.toS3 == {}
    ensures Possible(s, run)
    ensures Run(s, run) == s.(local := s.local[k := d], content := s.content[k := d], stored := s.stored + {k},
                              unsent := s.unsent + {k}, active := S3, phase := Completed)
  {
    var s1 := Apply(s, Put(k, d));
    var s2 := Apply(s1, SecondS3(k, false));
    var s3 := Apply(s2, Flip);
    assert s3 == s.(local := s.local[k := d], content := s.content[k := d], stored := s.stored + {k},
                    unsent := s.unsent + {k}, active := S3, phase := Completed);
    hide Apply, Enabled, Possible, Run;
    RunNil(s3);
    run := Before(s2, Flip, []);
    run := Before(s1, SecondS3(k, false), run);
    run := Before(s, Put(k, d), run);
  }

  lemma Cleaned(s: Sys, k: Key) returns (run: seq<Event>)
    requires Known(s) && s.phase == Completed && s.active == S3 && s.done == {k}
    ensures Possible(s, run)
    ensures Run(s, run) == s.(phase := Done, local := s.local - {k}, done := {}, cleaner := false, sweeping := {})
  {
    var s1 := Apply(s, CleanStart);
    var s2 := Apply(s1, CleanList);
    var s3 := Apply(s2, Unlink(k));
    var s4 := Apply(s3, CleanFinish);
    assert s4 == s.(phase := Done, local := s.local - {k}, done := {}, cleaner := false, sweeping := {});
    hide Apply, Enabled, Possible, Run;
    RunNil(s4);
    run := Before(s3, CleanFinish, []);
    run := Before(s2, Unlink(k), run);
    run := Before(s1, CleanList, run);
    run := Before(s, CleanStart, run);
  }

  /** One event put before a run. */
  lemma Before(s: Sys, e: Event, rest: seq<Event>) returns (run: seq<Event>)
    requires Known(s) && Enabled(s, e) && Possible(Apply(s, e), rest)
    ensures run == [e] + rest && Possible(s, run) && Run(s, run) == Run(Apply(s, e), rest)
  {
    hide Apply, Enabled;
    run := [e] + rest;
    RunCons(s, e, rest);
  }

  lemma RunCons(s: Sys, e: Event, rest: seq<Event>)
    requires Known(s) && Enabled(s, e) && Possible(Apply(s, e), rest)
    ensures Possible(s, [e] + rest) && Run(s, [e] + rest) == Run(Apply(s, e), rest)
  {
    assert ([e] + rest)[1..] == rest;
  }

  lemma {:induction false} RunAppend(s: Sys, a: seq<Event>, b: seq<Event>)
    requires Known(s) && Possible(s, a) && Possible(Run(s, a), b)
    ensures Possible(s, a + b) && Run(s, a + b) == Run(Run(s, a), b)
    decreases a
  {
    if a == [] {
      RunNil(s);
      assert a == [] && a + b == b;
      hide Apply, Enabled, Possible, Run;
    } else {
      RunUncons(s, a);
      var s1 := Apply(s, a[0]);
      hide Apply, Enabled, Possible, Run;
      RunAppend(s1, a[1..], b);
      RunCons(s, a[0], a[1..] + b);
      assert a + b == [a[0]] + (a[1..] + b);
    }
  }

  lemma RunNil(s: Sys)
    requires Known(s)
    ensures Possible(s, []) && Run(s, []) == s
  {
  }

  lemma RunUncons(s: Sys, run: seq<Event>)
    requires Known(s) && Possible(s, run)
    ensures if run == [] then Run(s, run) == s
            else
              && Enabled(s, run[0]) && Possible(Apply(s, run[0]), run[1..])
              && Run(s, run) == Run(Apply(s, run[0]), run[1..])
  {
    hide Apply;
  }

  /** After a crash of the cleanup no step ever leaves the cleaning phase. */
  lemma CrashedCleanupStays(s: Sys, e: Event)
    requires Inv(s) && s.phase == Cleaning && !s.cleaner && Enabled(s, e)
    ensures Apply(s, e).phase == Cleaning && !Apply(s, e).cleaner
  {
  }

  /** So the crash is final: over any run from there the migration stays open in that phase. */
  lemma {:induction false} CrashedCleanupIsFinal(s: Sys, run: seq<Event>)
    requires Inv(s) && s.phase == Cleaning && !s.cleaner && Possible(s, run)
    ensures Run(s, run).phase == Cleaning
    decreases run
  {
    if run != [] {
      StepKeepsInv(s, run[0]);
      CrashedCleanupStays(s, run[0]);
      hide Inv, Apply;
      CrashedCleanupIsFinal(Apply(s, run[0]), run[1..]);
    }
  }

  /** From a cleaning state the migration can still come to its end exactly while its cleaner lives. */
  lemma CleanupCanFinishIff(s: Sys)
    requires Inv(s) && s.phase == Cleaning
    ensures (exists run :: Possible(s, run) && Run(s, run).phase == Done) <==> s.cleaner
  {
    if s.cleaner {
      var t := Apply(s, CleanFinish);
      RunNil(t);
      var run := Before(s, CleanFinish, []);
      assert Possible(s, run) && Run(s, run).phase == Done;
    } else {
      forall run | Possible(s, run) ensures Run(s, run).phase != Done {
        CrashedCleanupIsFinal(s, run);
      }
    }
  }

  /** And a cleaner can die, on an empty store already. */
  lemma CleanerCanDie() returns (run: seq<Event>)
    ensures Possible(Init, run) && Run(Init, run).phase == Cleaning && !Run(Init, run).cleaner
  {
    hide Apply, Enabled, Possible, Run;
    var first := PassedEmpty();
    var second := CleanerDies(Run(Init, first));
    RunAppend(Init, first, second);
    run := first + second;
  }

  lemma CleanerDies(s: Sys) returns (run: seq<Event>)
    requires Known(s) && s.phase == ReadyToFlip
    ensures Possible(s, run) && Run(s, run).phase == Cleaning && !Run(s, run).cleaner
  {
    var s1 := Apply(s, Flip);
    var s2 := Apply(s1, CleanStart);
    var s3 := Apply(s2, CrashCleaner);
    hide Apply, Enabled, Possible, Run;
    RunNil(s3);
    run := Before(s2, CrashCleaner, []);
    run := Before(s1, CleanStart, run);
    run := Before(s, Flip, run);
  }

  lemma PassedEmpty() returns (run: seq<Event>)
    ensures Possible(Init, run)
    ensures Run(Init, run) == Init.(phase := ReadyToFlip, passed := Some(Verdict(Listing({}, {}), {})))
  {
    var s1 := Apply(Init, Start);
    var s2 := Apply(s1, Advance);
    var s3 := Apply(s2, ListKeys);
    var s4 := Apply(s3, Advance);
    var s5 := Apply(s4, ListKeys);
    var s6 := Apply(s5, Advance);
    hide Apply, Enabled, Possible, Run;
    RunNil(s6);
    run := Before(s5, Advance, []);
    run := Before(s4, ListKeys, run);
    run := Before(s3, Advance, run);
    run := Before(s2, ListKeys, run);
    run := Before(s1, Advance, run);
    run := Before(Init, Start, run);
  }
}
