/** The two object stores behind one set of operations. Each operation is proved to take exactly
    the steps that the migration machine gives it. */
module MediaStore {
  import opened Wrappers
  import opened MediaMigration

  /** The outcome of each call that can fail while a key is written. */
  datatype Faults = Faults(s3Ok: bool, localOk: bool, markOk: bool)

  /** The steps of one write, in order. */
  function PutEvents(s: Sys, k: Key, d: Data, f: Faults): seq<Event> {
    if s.active == Local then
      if !Dual(s) then [Put(k, d)]
      else if f.s3Ok then [Put(k, d), SecondS3(k, true), Mark(k, f.markOk)]
      else [Put(k, d), SecondS3(k, false)]
    else if !f.s3Ok then []
    else if Dual(s) then [Put(k, d), SecondLocal(k, f.localOk), Mark(k, f.markOk)]
    else [Put(k, d), Mark(k, f.markOk)]
  }

  function DeleteEvents(s: Sys, k: Key): seq<Event> {
    [Delete(k)]
      + (if s.active == Local || Dual(s) then [Erase(k, Local)] else [])
      + (if s.active == S3 || Dual(s) then [Erase(k, S3)] else [])
  }

  /** The state once a write is over. */
  function AfterPut(s: Sys, k: Key, d: Data, f: Faults): Sys {
    var base := s.(content := s.content[k := d], stored := s.stored + {k});
    if s.active == Local then
      var here := base.(local := s.local[k := d], toS3 := s.toS3 - {k}, unsent := s.unsent + {k});
      if !Dual(s) then here.(toS3 := s.toS3)
      else if !f.s3Ok then here
      else here.(s3 := s.s3[k := d], toMark := s.toMark - {k}, done := if f.markOk then s.done + {k} else s.done,
                 unsent := s.unsent - {k})
    else if !f.s3Ok then s
    else
      var there := base.(s3 := s.s3[k := d], toMark := s.toMark - {k});
      if !Dual(s) then there
      else there.(local := if f.localOk then s.local[k := d] else s.local,
                  toLocal := s.toLocal - {k}, done := if f.markOk then s.done + {k} else s.done)
  }

  function AfterDelete(s: Sys, k: Key): Sys {
    s.(stored := s.stored - {k}, deleted := s.deleted + {k},
       local := if s.active == Local || Dual(s) then s.local - {k} else s.local,
       s3 := if s.active == S3 || Dual(s) then s.s3 - {k} else s.s3)
  }

  /** A run of up to three steps. */
  lemma Steps(s: Sys, run: seq<Event>)
    requires Known(s) && |run| <= 3
    requires run != [] ==> Enabled(s, run[0])
    requires |run| >= 2 ==> Enabled(Apply(s, run[0]), run[1])
    requires |run| == 3 ==> Enabled(Apply(Apply(s, run[0]), run[1]), run[2])
    ensures Possible(s, run)
    ensures Run(s, run) == if run == [] then s
                           else if |run| == 1 then Apply(s, run[0])
                           else if |run| == 2 then Apply(Apply(s, run[0]), run[1])
                           else Apply(Apply(Apply(s, run[0]), run[1]), run[2])
  {
    hide Apply, Enabled;
    if run != [] {
      var s1 := Apply(s, run[0]);
      if |run| >= 2 {
        var s2 := Apply(s1, run[1]);
        if |run| == 3 {
          RunCons(s2, run[2], []);
          RunCons(s1, run[1], [run[2]]);
          RunCons(s, run[0], [run[1], run[2]]);
          assert run == [run[0]] + [run[1], run[2]];
        } else {
          RunCons(s1, run[1], []);
          RunCons(s, run[0], [run[1]]);
          assert run == [run[0]] + [run[1]];
        }
      } else {
        RunCons(s, run[0], []);
        assert run == [run[0]] + [];
      }
    }
  }

  lemma LocalPutIsRun(s: Sys, k: Key, d: Data, f: Faults)
    requires Inv(s) && k !in s.content && s.active == Local
    ensures Possible(s, PutEvents(s, k, d, f)) && Run(s, PutEvents(s, k, d, f)) == AfterPut(s, k, d, f)
  {
    assert Known(s);
    hide Inv, Apply, Enabled, AfterPut;
    var run := PutEvents(s, k, d, f);
    LocalShape(s, k, d, f);
    Steps(s, run);
  }

  lemma LocalShape(s: Sys, k: Key, d: Data, f: Faults)
    requires Known(s) && k !in s.content && s.active == Local
    ensures Enabled(s, Put(k, d))
    ensures var s1 := Apply(s, Put(k, d));
            if !Dual(s) then AfterPut(s, k, d, f) == s1
            else
              && Enabled(s1, SecondS3(k, f.s3Ok))
              && var s2 := Apply(s1, SecondS3(k, f.s3Ok));
                 if f.s3Ok then AfterPut(s, k, d, f) == Apply(s2, Mark(k, f.markOk)) && Enabled(s2, Mark(k, f.markOk))
                 else AfterPut(s, k, d, f) == s2
  {
    var s1 := Apply(s, Put(k, d));
    assert s1.content[k] == d;
  }

  lemma DualS3Shape(s: Sys, k: Key, d: Data, f: Faults)
    requires Known(s) && k !in s.content && s.active == S3 && f.s3Ok && Dual(s)
    ensures var s1 := Apply(s, Put(k, d));
            var s2 := Apply(s1, SecondLocal(k, f.localOk));
            && AfterPut(s, k, d, f) == Apply(s2, Mark(k, f.markOk))
            && Enabled(s, Put(k, d)) && Enabled(s1, SecondLocal(k, f.localOk)) && Enabled(s2, Mark(k, f.markOk))
  {
    var s1 := Apply(s, Put(k, d));
    assert s1.content[k] == d;
  }

  lemma DualS3PutIsRun(s: Sys, k: Key, d: Data, f: Faults)
    requires Inv(s) && k !in s.content && s.active == S3 && f.s3Ok && Dual(s)
    ensures Possible(s, PutEvents(s, k, d, f)) && Run(s, PutEvents(s, k, d, f)) == AfterPut(s, k, d, f)
  {
    assert Known(s);
    hide Inv, Apply, Enabled, AfterPut;
    var run := PutEvents(s, k, d, f);
    DualS3Shape(s, k, d, f);
    Steps(s, run);
  }

  lemma S3PutIsRun(s: Sys, k: Key, d: Data, f: Faults)
    requires Inv(s) && k !in s.content && s.active == S3
    ensures Possible(s, PutEvents(s, k, d, f)) && Run(s, PutEvents(s, k, d, f)) == AfterPut(s, k, d, f)
  {
    var run := PutEvents(s, k, d, f);
    if f.s3Ok {
      if Dual(s) {
        DualS3PutIsRun(s, k, d, f);
        return;
      }
      var s1 := Apply(s, Put(k, d));
      assert AfterPut(s, k, d, f) == Apply(s1, run[1]);
    }
    hide Inv, Apply, Enabled, AfterPut;
    Steps(s, run);
  }

  /** The program's own fields after a write. */
  lemma AfterPutFields(s: Sys, k: Key, d: Data, f: Faults)
    requires s.active == Local || f.s3Ok
    ensures var t := AfterPut(s, k, d, f);
      && t.active == s.active && t.phase == s.phase
      && t.local == (if s.active == Local || (Dual(s) && f.localOk) then s.local[k := d] else s.local)
      && t.s3 == (if s.active == S3 || (Dual(s) && f.s3Ok) then s.s3[k := d] else s.s3)
      && t.done == (if Dual(s) && f.s3Ok && f.markOk then s.done + {k} else s.done)
  {
  }

  /** A write is these steps of the machine, and makes the key readable unless its first step fails. */
  lemma PutIsRun(s: Sys, k: Key, d: Data, f: Faults)
    requires Inv(s) && k !in s.content
    ensures Possible(s, PutEvents(s, k, d, f)) && Run(s, PutEvents(s, k, d, f)) == AfterPut(s, k, d, f)
    ensures Inv(AfterPut(s, k, d, f))
    ensures s.active == Local || f.s3Ok ==> Get(AfterPut(s, k, d, f), k) == Some(d)
  {
    if s.active == Local {
      LocalPutIsRun(s, k, d, f);
    } else {
      S3PutIsRun(s, k, d, f);
    }
    RunKeepsInv(s, PutEvents(s, k, d, f));
    hide Inv, Apply, Enabled, Possible;
  }

  /** A deletion is these steps of the machine. */
  lemma DeleteIsRun(s: Sys, k: Key)
    requires Inv(s) && k in s.stored
    ensures Possible(s, DeleteEvents(s, k)) && Run(s, DeleteEvents(s, k)) == AfterDelete(s, k)
    ensures Inv(AfterDelete(s, k))
  {
    var run := DeleteEvents(s, k);
    var s1 := Apply(s, Delete(k));
    assert Enabled(s1, run[1]);
    var s2 := Apply(s1, run[1]);
    if |run| == 3 {
      assert run[2] == Erase(k, S3) && AfterDelete(s, k) == Apply(s2, run[2]);
    } else {
      assert AfterDelete(s, k) == s2;
    }
    hide Inv, Apply, Enabled, AfterDelete;
    Steps(s, run);
    RunKeepsInv(s, run);
  }

  lemma SamePhase(s: Sys, t: Sys)
    requires s.phase == t.phase
    ensures Dual(s) == Dual(t)
  {
  }

  class Store {
    var local: map<Key, Data>
    var s3: map<Key, Data>
    var done: set<Key>
    var active: Backend
    var dual: bool
    ghost var sys: Sys

    /** The fields are those of the machine's state, which satisfies its invariant. */
    ghost predicate Valid()
      reads this
    {
      && Inv(sys)
      && local == sys.local && s3 == sys.s3 && done == sys.done
      && active == sys.active && dual == Dual(sys)
    }

    constructor ()
      ensures Valid() && sys == Init
    {
      local, s3, done, active, dual := map[], map[], {}, Local, false;
      sys := Init;
      new;
      InitInv();
    }

    /** Writes a new key; only a failing first write is reported. */
    method PutBytes(key: Key, data: Data, f: Faults) returns (ok: bool)
      requires Valid() && key !in sys.content
      modifies this
      ensures Valid() && sys == AfterPut(old(sys), key, data, f)
      ensures ok == (old(active) == Local || f.s3Ok)
      ensures ok ==> Get(sys, key) == Some(data)
    {
      hide Inv, Possible, Run, PutEvents, Get, Dual;
      PutIsRun(sys, key, data, f);
      ghost var after := AfterPut(sys, key, data, f);
      if active == S3 && !f.s3Ok {
        assert after == sys;
        return false;
      }
      AfterPutFields(sys, key, data, f);
      SamePhase(sys, after);
      hide AfterPut;
      if active == Local {
        local := local[key := data];
        if dual && f.s3Ok {
          s3 := s3[key := data];
        }
      } else {
        s3 := s3[key := data];
        if dual && f.localOk {
          local := local[key := data];
        }
      }
      var copied := active == S3 || (dual && f.s3Ok);
      if copied && dual && f.markOk {
        done := done + {key};
      }
      sys := after;
      return true;
    }

    /** Reads a key back; nothing when no store that is consulted has it. */
    method GetBytes(key: Key) returns (r: Option<Data>)
      requires Valid()
      ensures r == Get(sys, key)
      ensures sys.phase != Done && key in sys.stored ==> r == Some(sys.content[key])
    {
      if active == Local || dual {
        if key in local {
          return Some(local[key]);
        }
      }
      if active == S3 || dual {
        if key in s3 {
          return Some(s3[key]);
        }
      }
      return None;
    }

    method DeleteKey(key: Key)
      requires Valid() && key in sys.stored
      modifies this
      ensures Valid() && sys == AfterDelete(old(sys), key)
    {
      hide Inv, Possible, Run;
      DeleteIsRun(sys, key);
      sys := AfterDelete(sys, key);
      var writeLocal := active == Local || dual;
      var writeS3 := active == S3 || dual;
      if writeLocal {
        local := local - {key};
      }
      if writeS3 {
        s3 := s3 - {key};
      }
    }
  }
}
