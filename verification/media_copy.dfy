/** The copy pass of the media migration: which keys it marks as migrated, what it records, and
    what a restart after a crash makes of it. */
module MediaCopy {
  import opened Wrappers
  import opened Ordering
  import opened MediaMigration

  const BATCH_SIZE := 200
  const ERRORS_KEPT := 50

  datatype Reason = LocalFileMissing | CopyFailed

  datatype ErrorRecord = ErrorRecord(key: Key, reason: Reason)

  datatype Stats = Stats(scanned: nat, copied: nat, skipped: nat, bytes: nat)

  /** What the pass works on: the S3 objects, the marked keys, and the migration row. */
  datatype Progress = Progress(s3: map<Key, Data>, done: set<Key>, cursor: Option<Key>, errors: seq<ErrorRecord>, stats: Stats)

  /** The local files, and the keys whose upload raises; `true` when the object is written all the same. */
  datatype World = World(local: map<Key, Data>, faults: map<Key, bool>)

  // ----- one key -----

  function CopyKey(p: Progress, w: World, k: Key): Progress {
    var q := p.(cursor := Some(k));
    if k in p.done then
      q.(stats := p.stats.(skipped := p.stats.skipped + 1))
    else if k !in w.local then
      q.(errors := p.errors + [ErrorRecord(k, LocalFileMissing)])
    else if k in p.s3 && |p.s3[k]| == |w.local[k]| then
      q.(done := p.done + {k}, stats := p.stats.(skipped := p.stats.skipped + 1))
    else if k in w.faults then
      q.(errors := p.errors + [ErrorRecord(k, CopyFailed)], s3 := if w.faults[k] then p.s3[k := w.local[k]] else p.s3)
    else
      q.(s3 := p.s3[k := w.local[k]], done := p.done + {k},
         stats := p.stats.(copied := p.stats.copied + 1, bytes := p.stats.bytes + |w.local[k]|))
  }

  function CopyKeys(p: Progress, w: World, keys: seq<Key>): Progress {
    if keys == [] then p else CopyKey(CopyKeys(p, w, keys[..|keys| - 1]), w, keys[|keys| - 1])
  }

  function LastErrors(errors: seq<ErrorRecord>): (kept: seq<ErrorRecord>)
    ensures |kept| <= ERRORS_KEPT
  {
    if |errors| <= ERRORS_KEPT then errors else errors[|errors| - ERRORS_KEPT..]
  }

  /** The committed state once these keys have been worked through: the row keeps the last errors only. */
  function Committed(p: Progress, w: World, keys: seq<Key>, scanned: nat): Progress {
    if keys == [] then p
    else
      var q := CopyKeys(p.(stats := p.stats.(scanned := scanned)), w, keys);
      q.(errors := LastErrors(q.errors))
  }

  predicate After(k: Key, cursor: Option<Key>) {
    cursor.None? || !StrLeq(k, cursor.value)
  }

  function Pending(keys: seq<Key>, cursor: Option<Key>): seq<Key> {
    if keys == [] then []
    else if After(keys[0], cursor) then [keys[0]] + Pending(keys[1..], cursor)
    else Pending(keys[1..], cursor)
  }

  /** What the pass goes through: all keys when verifying, else those after the cursor. */
  function ToCopy(p: Progress, keys: seq<Key>, verifying: bool): seq<Key> {
    if verifying then keys else Pending(keys, p.cursor)
  }

  // ----- the loops -----

  class CopyRun {
    var s3: map<Key, Data>
    var done: set<Key>
    var cursor: Option<Key>
    var errors: seq<ErrorRecord>
    var stats: Stats

    function State(): Progress
      reads this
    {
      Progress(s3, done, cursor, errors, stats)
    }

    constructor (p: Progress)
      ensures State() == p
    {
      s3, done, cursor, errors, stats := p.s3, p.done, p.cursor, p.errors, p.stats;
    }

    /** Copies one batch; the row is written and committed after it. */
    method CopyBatch(w: World, batch: seq<Key>, p: Progress) returns (q: Progress)
      ensures q == CopyKeys(p, w, batch)
    {
      q := p;
      for i := 0 to |batch|
        invariant q == CopyKeys(p, w, batch[..i])
      {
        var key := batch[i];
        assert batch[..i + 1][..i] == batch[..i];
        if key in q.done {
          q := q.(stats := q.stats.(skipped := q.stats.skipped + 1), cursor := Some(key));
          continue;
        }
        if key !in w.local {
          q := q.(errors := q.errors + [ErrorRecord(key, LocalFileMissing)], cursor := Some(key));
          continue;
        }
        var data := w.local[key];
        if key in q.s3 && |q.s3[key]| == |data| {
          q := q.(done := q.done + {key}, stats := q.stats.(skipped := q.stats.skipped + 1), cursor := Some(key));
          continue;
        }
        if key in w.faults {
          if w.faults[key] {
            q := q.(s3 := q.s3[key := data]);
          }
          q := q.(errors := q.errors + [ErrorRecord(key, CopyFailed)], cursor := Some(key));
          continue;
        }
        q := q.(s3 := q.s3[key := data], done := q.done + {key}, cursor := Some(key),
                stats := q.stats.(copied := q.stats.copied + 1, bytes := q.stats.bytes + |data|));
      }
      assert batch[..|batch|] == batch;
    }

    /** Runs the pass, in batches of 200, for `batches` batches before the process dies, or to the
        end. The committed state is that of working through the keys of these batches. */
    method RunCopyPass(w: World, keys: seq<Key>, verifying: bool, batches: nat)
      modifies this
      ensures var pending := ToCopy(old(State()), keys, verifying);
              var reached := if BATCH_SIZE * batches <= |pending| then BATCH_SIZE * batches else |pending|;
              State() == Committed(old(State()), w, pending[..reached], |keys|)
    {
      hide CopyKeys, Pending, LastErrors;
      ghost var start := State();
      var pending := if verifying then keys else Pending(keys, cursor);
      var p := Progress(s3, done, cursor, errors, stats.(scanned := |keys|));
      ghost var p0 := p;
      var i, n := 0, 0;
      NothingCopied(p0, w);
      assert pending[..0] == [];
      while i < |pending| && n < batches
        invariant i == if BATCH_SIZE * n <= |pending| then BATCH_SIZE * n else |pending|
        invariant n <= batches
        invariant p == CopyKeys(p0, w, pending[..i])
        invariant State() == Committed(start, w, pending[..i], |keys|)
        decreases |pending| - i
      {
        var end := if i + BATCH_SIZE <= |pending| then i + BATCH_SIZE else |pending|;
        p := CopyBatch(w, pending[i..end], p);
        assert pending[..end] == pending[..i] + pending[i..end];
        CopyAppend(p0, w, pending[..i], pending[i..end]);
        s3, done, cursor, stats := p.s3, p.done, p.cursor, p.stats;
        errors := LastErrors(p.errors);
        i, n := end, n + 1;
      }
    }
  }

  lemma NothingCopied(p: Progress, w: World)
    ensures CopyKeys(p, w, []) == p
  {
  }

  // ----- what a pass does -----

  /** Every key is counted once: copied, skipped, or an error. */
  lemma {:induction false} EveryKeyCounts(p: Progress, w: World, keys: seq<Key>)
    ensures var q := CopyKeys(p, w, keys);
            q.stats.copied + q.stats.skipped + |q.errors| == p.stats.copied + p.stats.skipped + |p.errors| + |keys|
  {
    if keys != [] {
      EveryKeyCounts(p, w, keys[..|keys| - 1]);
    }
  }

  /** The keys of a pass that it marks. */
  predicate Marks(p: Progress, w: World, k: Key) {
    k in w.local && (k !in w.faults || (k in p.s3 && |p.s3[k]| == |w.local[k]|))
  }

  /** What a pass from `p` to `q` over `keys` means for the key `k`. */
  ghost predicate PassedOver(p: Progress, q: Progress, w: World, keys: seq<Key>, k: Key) {
    && (k in q.done <==> k in p.done || (k in keys && Marks(p, w, k)))
    && (k in q.done && k !in p.done ==>
          k in w.local && k in q.s3 && |q.s3[k]| == |w.local[k]|
          && ((k in p.s3 && |p.s3[k]| == |w.local[k]|) || q.s3[k] == w.local[k]))
    && (k !in keys ==> (k in q.s3 <==> k in p.s3) && (k in p.s3 ==> q.s3[k] == p.s3[k]))
  }

  lemma PassedOverStep(p: Progress, q: Progress, w: World, before: seq<Key>, key: Key, k: Key)
    requires PassedOver(p, q, w, before, k) && key !in before
    ensures PassedOver(p, CopyKey(q, w, key), w, before + [key], k)
  {
    if key != k {
      assert k in before + [key] <==> k in before;
    }
  }

  /** A pass over distinct keys marks exactly those listed keys that have a local file whose upload does not
      fail, or is not needed. Each of them then has an S3 object of the size of that file, and its very
      bytes unless an object of that size was there before. */
  lemma {:induction false} MarkedIsUploaded(p: Progress, w: World, keys: seq<Key>, k: Key)
    requires StrictlySorted(keys)
    ensures PassedOver(p, CopyKeys(p, w, keys), w, keys, k)
  {
    if keys != [] {
      var last := |keys| - 1;
      MarkedIsUploaded(p, w, keys[..last], k);
      assert keys == keys[..last] + [keys[last]];
      assert keys[last] !in keys[..last];
      hide PassedOver;
      PassedOverStep(p, CopyKeys(p, w, keys[..last]), w, keys[..last], keys[last], k);
    }
  }

  lemma {:induction false} CopyAppend(p: Progress, w: World, a: seq<Key>, b: seq<Key>)
    ensures CopyKeys(p, w, a + b) == CopyKeys(CopyKeys(p, w, a), w, b)
  {
    if b == [] {
      assert a + b == a;
    } else {
      var last := |b| - 1;
      assert (a + b)[..|a + b| - 1] == a + b[..last];
      CopyAppend(p, w, a, b[..last]);
    }
  }

  // ----- restarting -----

  ghost predicate StrictlySorted(keys: seq<Key>) {
    forall i, j :: 0 <= i < j < |keys| ==> StrLeq(keys[i], keys[j]) && keys[i] != keys[j]
  }

  lemma {:induction false} PendingAll(keys: seq<Key>, cursor: Option<Key>)
    requires forall k :: k in keys ==> After(k, cursor)
    ensures Pending(keys, cursor) == keys
  {
    hide After;
    if keys != [] {
      assert keys[0] in keys;
      PendingAll(keys[1..], cursor);
      assert keys == [keys[0]] + keys[1..];
    }
  }

  lemma {:induction false} PendingAfterKey(keys: seq<Key>, m: nat)
    requires StrictlySorted(keys) && 0 < m <= |keys|
    ensures Pending(keys, Some(keys[m - 1])) == keys[m..]
  {
    var cursor := Some(keys[m - 1]);
    StrTotal(keys[0], keys[m - 1]);
    if m == 1 {
      assert !After(keys[0], cursor);
      forall k | k in keys[1..] ensures After(k, cursor) {
        var i :| 0 <= i < |keys[1..]| && keys[1..][i] == k;
        assert k == keys[i + 1];
        StrTotal(k, keys[0]);
      }
      PendingAll(keys[1..], cursor);
    } else {
      assert StrLeq(keys[0], keys[m - 1]);
      var rest := keys[1..];
      assert forall i :: 0 <= i < |rest| ==> rest[i] == keys[i + 1];
      PendingAfterKey(rest, m - 1);
      assert rest[m - 1..] == keys[m..];
    }
  }

  /** What is pending is a tail of the sorted keys. */
  lemma {:induction false} PendingIsTail(keys: seq<Key>, cursor: Option<Key>) returns (j: nat)
    requires StrictlySorted(keys)
    ensures j <= |keys| && Pending(keys, cursor) == keys[j..]
  {
    if keys == [] {
      j := 0;
    } else if After(keys[0], cursor) {
      forall k | k in keys ensures After(k, cursor) {
        var i :| 0 <= i < |keys| && keys[i] == k;
        if i > 0 && cursor.Some? && StrLeq(k, cursor.value) {
          StrTransitive(keys[0], k, cursor.value);
        }
      }
      PendingAll(keys, cursor);
      j := 0;
    } else {
      assert forall i :: 0 <= i < |keys[1..]| ==> keys[1..][i] == keys[i + 1];
      var n := PendingIsTail(keys[1..], cursor);
      j := n + 1;
      assert keys[1..][n..] == keys[j..];
    }
  }

  /** The copying pass goes, in order, through the listed keys after its cursor, the verifying one through all. */
  lemma PassKeys(p: Progress, keys: seq<Key>, verifying: bool, k: Key)
    requires StrictlySorted(keys)
    ensures StrictlySorted(ToCopy(p, keys, verifying))
    ensures k in ToCopy(p, keys, verifying) <==>
            k in keys && (verifying || p.cursor.None? || (StrLeq(p.cursor.value, k) && k != p.cursor.value))
  {
    hide StrLeq;
    var j := PendingIsTail(keys, p.cursor);
    PendingMembers(keys, p.cursor, k);
    assert forall i :: 0 <= i < |keys[j..]| ==> keys[j..][i] == keys[j + i];
  }

  lemma {:induction false} PendingMembers(keys: seq<Key>, cursor: Option<Key>, k: Key)
    ensures k in Pending(keys, cursor) <==> k in keys && (cursor.None? || (StrLeq(cursor.value, k) && k != cursor.value))
  {
    hide StrLeq;
    if keys != [] {
      PendingMembers(keys[1..], cursor, k);
      assert keys == [keys[0]] + keys[1..];
      if cursor.Some? {
        StrTotal(k, cursor.value);
        SameLeq(k);
      }
    }
  }

  lemma SameLeq(k: Key)
    ensures StrLeq(k, k)
  {
    StrTotal(k, k);
  }

  /** After the first `m` pending keys the cursor leaves exactly the others pending. */
  lemma PendingRest(keys: seq<Key>, cursor: Option<Key>, m: nat)
    requires StrictlySorted(keys) && 0 < m <= |Pending(keys, cursor)|
    ensures Pending(keys, Some(Pending(keys, cursor)[m - 1])) == Pending(keys, cursor)[m..]
  {
    var j := PendingIsTail(keys, cursor);
    PendingAfterKey(keys, j + m);
    assert keys[j..][m..] == keys[j + m..];
  }

  lemma CursorAtEnd(p: Progress, w: World, keys: seq<Key>)
    requires keys != []
    ensures CopyKeys(p, w, keys).cursor == Some(keys[|keys| - 1])
  {
  }

  /** Records are only ever appended, and never looked at. */
  lemma {:induction false} ErrorsAppended(p: Progress, e: seq<ErrorRecord>, w: World, keys: seq<Key>)
    ensures var added := CopyKeys(p.(errors := []), w, keys).errors;
            CopyKeys(p.(errors := e), w, keys) == CopyKeys(p.(errors := []), w, keys).(errors := e + added)
  {
    if keys == [] {
      assert e + [] == e;
    } else {
      ErrorsAppended(p, e, w, keys[..|keys| - 1]);
    }
  }

  lemma LastOfLast(a: seq<ErrorRecord>, b: seq<ErrorRecord>)
    ensures LastErrors(LastErrors(a) + b) == LastErrors(a + b)
  {
  }

  /** Truncating the records at a batch boundary does not change what a longer run leaves. */
  lemma CommittedAppend(p: Progress, w: World, a: seq<Key>, b: seq<Key>, scanned: nat)
    ensures Committed(Committed(p, w, a, scanned), w, b, scanned) == Committed(p, w, a + b, scanned)
  {
    if a == [] {
      assert a + b == b;
    } else if b == [] {
      assert a + b == a;
    } else {
      var p0 := p.(stats := p.stats.(scanned := scanned));
      var q := CopyKeys(p0, w, a);
      ScannedKept(p0, w, a);
      CopyAppend(p0, w, a, b);
      var added := CopyKeys(q.(errors := []), w, b).errors;
      ErrorsAppended(q, q.errors, w, b);
      ErrorsAppended(q, LastErrors(q.errors), w, b);
      LastOfLast(q.errors, added);
      hide CopyKeys, LastErrors;
      assert q.(errors := q.errors) == q;
    }
  }

  lemma {:induction false} ScannedKept(p: Progress, w: World, keys: seq<Key>)
    ensures CopyKeys(p, w, keys).stats.scanned == p.stats.scanned
  {
    if keys != [] {
      ScannedKept(p, w, keys[..|keys| - 1]);
    }
  }

  /** Restarting a copy after a crash at any batch boundary leaves the same state, marks, records
      and counts included, as running it through. */
  lemma RestartIsSeamless(p: Progress, w: World, keys: seq<Key>, m: nat)
    requires StrictlySorted(keys) && m <= |Pending(keys, p.cursor)|
    ensures var pending := Pending(keys, p.cursor);
            var stopped := Committed(p, w, pending[..m], |keys|);
            Committed(stopped, w, Pending(keys, stopped.cursor), |keys|) == Committed(p, w, pending, |keys|)
  {
    var pending := Pending(keys, p.cursor);
    assert pending == pending[..m] + pending[m..];
    CommittedAppend(p, w, pending[..m], pending[m..], |keys|);
    if m > 0 {
      var p0 := p.(stats := p.stats.(scanned := |keys|));
      CursorAtEnd(p0, w, pending[..m]);
      PendingRest(keys, p.cursor, m);
    } else {
      assert pending[..0] == [] && pending[0..] == pending;
    }
  }

  // ----- crashes inside a batch -----

  /** `q` is `p` except that S3 may already hold the right object of some keys still to come. */
  ghost predicate Ahead(p: Progress, q: Progress, w: World, todo: set<Key>) {
    && p.done == q.done && p.cursor == q.cursor && p.errors == q.errors
    && forall k ::
         || ((k in p.s3 <==> k in q.s3) && (k in p.s3 ==> p.s3[k] == q.s3[k]))
         || (k in todo && k !in p.done && k in w.local && k in q.s3 && q.s3[k] == w.local[k]
             && !(k in p.s3 && |p.s3[k]| == |w.local[k]|))
  }

  lemma AheadStep(p: Progress, q: Progress, w: World, k: Key, todo: set<Key>)
    requires Ahead(p, q, w, todo + {k}) && w.faults == map[]
    ensures Ahead(CopyKey(p, w, k), CopyKey(q, w, k), w, todo)
  {
  }

  lemma {:induction false} AheadCatchesUp(p: Progress, q: Progress, w: World, keys: seq<Key>, todo: set<Key>)
    requires Ahead(p, q, w, todo) && (forall k :: k in todo ==> k in keys) && w.faults == map[]
    ensures Ahead(CopyKeys(p, w, keys), CopyKeys(q, w, keys), w, {})
    decreases |keys|
  {
    if keys == [] {
      assert todo == {};
    } else {
      var k, rest := keys[0], keys[1..];
      assert keys == [k] + rest;
      CopyAppend(p, w, [k], rest);
      CopyAppend(q, w, [k], rest);
      CopyOne(p, w, k);
      CopyOne(q, w, k);
      assert todo <= (todo - {k}) + {k};
      AheadWider(p, q, w, todo, (todo - {k}) + {k});
      AheadStep(p, q, w, k, todo - {k});
      hide Ahead, CopyKey, CopyKeys;
      AheadCatchesUp(CopyKey(p, w, k), CopyKey(q, w, k), w, rest, todo - {k});
    }
  }

  lemma CopyOne(p: Progress, w: World, k: Key)
    ensures CopyKeys(p, w, [k]) == CopyKey(p, w, k)
  {
    assert [k][..0] == [];
    assert CopyKeys(p, w, []) == p;
  }

  lemma AheadWider(p: Progress, q: Progress, w: World, small: set<Key>, large: set<Key>)
    requires Ahead(p, q, w, small) && small <= large
    ensures Ahead(p, q, w, large)
  {
  }

  /** A stretch of the copy changes S3 only as `Ahead` allows, and marks only its own keys. */
  lemma {:induction false} StretchIsAhead(p: Progress, w: World, keys: seq<Key>, todo: set<Key>)
    requires StrictlySorted(keys) && w.faults == map[] && forall k :: k in keys ==> k in todo
    ensures Ahead(p, p.(s3 := CopyKeys(p, w, keys).s3), w, todo)
    ensures forall k :: k !in keys ==> (k in CopyKeys(p, w, keys).done <==> k in p.done)
    ensures forall k :: k !in keys ==> (k in CopyKeys(p, w, keys).s3 <==> k in p.s3)
    ensures forall k :: k !in keys && k in p.s3 ==> CopyKeys(p, w, keys).s3[k] == p.s3[k]
  {
    if keys != [] {
      var last := |keys| - 1;
      var init, k := keys[..last], keys[last];
      assert keys == init + [k];
      assert k !in init;
      StretchIsAhead(p, w, init, todo);
      var before := CopyKeys(p, w, init);
      assert k in todo;
      hide CopyKeys, StrictlySorted;
    }
  }

  /** Restarting after a crash anywhere in a pass whose uploads succeed: the uploads since the last
      commit are found on S3, and the marks, the objects, the cursor and the records come out as if
      there had been no crash. */
  lemma RestartAfterCrash(p: Progress, w: World, keys: seq<Key>, m: nat, n: nat)
    requires StrictlySorted(keys) && m <= n <= |Pending(keys, p.cursor)| && w.faults == map[]
    ensures var pending := Pending(keys, p.cursor);
            var committed := Committed(p, w, pending[..m], |keys|);
            var crashed := committed.(s3 := CopyKeys(committed, w, pending[m..n]).s3);
            var resumed := Committed(crashed, w, Pending(keys, crashed.cursor), |keys|);
            var through := Committed(p, w, pending, |keys|);
            && resumed.done == through.done && resumed.s3 == through.s3
            && resumed.cursor == through.cursor && resumed.errors == through.errors
  {
    hide Committed, CopyKeys, Pending, StrictlySorted, Ahead;
    var pending := Pending(keys, p.cursor);
    var committed := Committed(p, w, pending[..m], |keys|);
    RestartIsSeamless(p, w, keys, m);
    RestOf(p, w, keys, m);
    var j := PendingIsTail(keys, p.cursor);
    TailSorted(keys, j + m, j + n);
    assert keys[j..][m..n] == keys[j + m..j + n];
    assert forall k :: k in pending[m..n] ==> k in pending[m..];
    CrashedCatchesUp(committed, w, pending[m..n], pending[m..], |keys|);
  }

  lemma TailSorted(keys: seq<Key>, i: nat, j: nat)
    requires StrictlySorted(keys) && i <= j <= |keys|
    ensures StrictlySorted(keys[i..j])
  {
  }

  /** Running on from a crash that lost the marks of `lost` comes to the same as running on from the
      last commit. */
  lemma CrashedCatchesUp(p: Progress, w: World, lost: seq<Key>, rest: seq<Key>, scanned: nat)
    requires StrictlySorted(lost) && w.faults == map[] && forall k :: k in lost ==> k in rest
    ensures var a := Committed(p, w, rest, scanned);
            var b := Committed(p.(s3 := CopyKeys(p, w, lost).s3), w, rest, scanned);
            a.done == b.done && a.s3 == b.s3 && a.cursor == b.cursor && a.errors == b.errors
  {
    var todo := set k | k in rest;
    StretchIsAhead(p, w, lost, todo);
    var q := p.(s3 := CopyKeys(p, w, lost).s3);
    var a := p.(stats := p.stats.(scanned := scanned));
    var b := q.(stats := q.stats.(scanned := scanned));
    AheadOfScan(p, q, w, todo, scanned);
    NoneOfNone(lost, rest);
    if rest == [] {
      assert q == p;
    } else {
      hide CopyKeys, Ahead, StrictlySorted;
      AheadCatchesUp(a, b, w, rest, todo);
      AheadOfNone(CopyKeys(a, w, rest), CopyKeys(b, w, rest), w);
    }
  }

  lemma NoneOfNone(some: seq<Key>, all: seq<Key>)
    requires forall k :: k in some ==> k in all
    ensures all == [] ==> some == []
  {
    assert some == [] || some[0] in all;
  }

  lemma AheadOfScan(p: Progress, q: Progress, w: World, todo: set<Key>, scanned: nat)
    requires Ahead(p, q, w, todo)
    ensures Ahead(p.(stats := p.stats.(scanned := scanned)), q.(stats := q.stats.(scanned := scanned)), w, todo)
  {
  }

  lemma AheadOfNone(p: Progress, q: Progress, w: World)
    requires Ahead(p, q, w, {})
    ensures p.done == q.done && p.cursor == q.cursor && p.errors == q.errors && p.s3 == q.s3
  {
  }

  lemma RestOf(p: Progress, w: World, keys: seq<Key>, m: nat)
    requires StrictlySorted(keys) && m <= |Pending(keys, p.cursor)|
    ensures var pending := Pending(keys, p.cursor);
            Pending(keys, Committed(p, w, pending[..m], |keys|).cursor) == pending[m..]
  {
    var pending := Pending(keys, p.cursor);
    if m > 0 {
      CursorAtEnd(p.(stats := p.stats.(scanned := |keys|)), w, pending[..m]);
      PendingRest(keys, p.cursor, m);
    } else {
      assert pending[..0] == [] && pending[0..] == pending;
    }
  }

  // ----- the verdict of the verifying pass -----

  /** The enumerated keys that are neither marked nor recorded as missing locally. */
  function Still(p: Progress, keys: seq<Key>): seq<Key> {
    if keys == [] then []
    else
      var rest := Still(p, keys[1..]);
      if keys[0] in p.done || ErrorRecord(keys[0], LocalFileMissing) in p.errors then rest else [keys[0]] + rest
  }

  lemma StillStep(p: Progress, keys: seq<Key>, i: nat)
    requires i < |keys|
    ensures Still(p, keys[i..]) ==
            (if keys[i] in p.done || ErrorRecord(keys[i], LocalFileMissing) in p.errors then [] else [keys[i]]) + Still(p, keys[i + 1..])
  {
    assert keys[i..][1..] == keys[i + 1..];
  }

  method Verdict(p: Progress, keys: seq<Key>) returns (ready: bool)
    ensures ready == (Still(p, keys) == [])
  {
    var missing: seq<Key> := [];
    ready := true;
    for i := 0 to |keys|
      invariant missing + Still(p, keys[i..]) == Still(p, keys)
    {
      StillStep(p, keys, i);
      if keys[i] !in p.done {
        var excused := exists j | 0 <= j < |p.errors| :: p.errors[j] == ErrorRecord(keys[i], LocalFileMissing);
        if !excused {
          missing := missing + [keys[i]];
        }
      }
    }
    ready := missing == [];
  }

  /** The keys with a kept record of a missing local file. */
  function Excused(errors: seq<ErrorRecord>): (keys: set<Key>)
    ensures forall k :: k in keys <==> ErrorRecord(k, LocalFileMissing) in errors
    ensures |keys| <= |errors|
  {
    if errors == [] then {}
    else if errors[0].reason == LocalFileMissing then Excused(errors[1..]) + {errors[0].key}
    else Excused(errors[1..])
  }

  /** The verdict is the gate of the migration machine, on the listed keys and the kept records. */
  lemma {:induction false} VerdictIsGate(p: Progress, keys: seq<Key>)
    ensures Still(p, keys) == [] <==> Passes((set k | k in keys), p.done, Excused(p.errors))
  {
    if keys != [] {
      VerdictIsGate(p, keys[1..]);
      assert keys == [keys[0]] + keys[1..];
    }
  }

  // ----- when verification passes -----

  /** The enumerated keys that are not marked and have no local file. */
  function Absent(p: Progress, w: World, keys: seq<Key>): set<Key> {
    set k | k in keys && k !in p.done && k !in w.local
  }

  lemma {:induction false} AbsentStaysUnmarked(p: Progress, w: World, keys: seq<Key>, k: Key)
    requires k !in p.done && k !in w.local
    ensures k !in CopyKeys(p, w, keys).done
  {
    if keys != [] {
      AbsentStaysUnmarked(p, w, keys[..|keys| - 1], k);
    }
  }

  /** With more than 50 enumerated keys unmarked and without a local file, no verifying pass makes the
      migration ready, whatever fails: the kept records cannot excuse them all. */
  lemma ManyMissingNeverReady(p: Progress, w: World, keys: seq<Key>)
    requires |Absent(p, w, keys)| > ERRORS_KEPT
    ensures var q := Committed(p, w, keys, |keys|);
            Still(q, keys) != [] && forall k :: k in Absent(p, w, keys) ==> k !in q.done
  {
    var q := Committed(p, w, keys, |keys|);
    var absent := Absent(p, w, keys);
    forall k | k in absent ensures k !in q.done {
      AbsentStaysUnmarked(p.(stats := p.stats.(scanned := |keys|)), w, keys, k);
    }
    assert keys != [];
    hide Committed;
    VerdictIsGate(q, keys);
    if Still(q, keys) == [] {
      assert forall k :: k in absent ==> k in Excused(q.errors);
      SubsetSize(absent, Excused(q.errors));
    }
  }

  /** What a pass from `p` to `q` over `keys` has added to the errors: one record for each absent key. */
  ghost predicate Recorded(p: Progress, q: Progress, w: World, keys: seq<Key>, added: seq<ErrorRecord>) {
    && q.errors == p.errors + added && |added| == |Absent(p, w, keys)|
    && (forall k :: k in keys ==> k in q.done || ErrorRecord(k, LocalFileMissing) in added)
    && (forall k :: k !in keys ==> (k in q.done <==> k in p.done))
  }

  lemma AbsentPush(p: Progress, w: World, before: seq<Key>, k: Key)
    requires k !in before
    ensures |Absent(p, w, before + [k])| == |Absent(p, w, before)| + if k !in p.done && k !in w.local then 1 else 0
  {
    if k !in p.done && k !in w.local {
      assert Absent(p, w, before + [k]) == Absent(p, w, before) + {k};
    } else {
      assert Absent(p, w, before + [k]) == Absent(p, w, before);
    }
  }

  lemma RecordOne(p: Progress, q: Progress, w: World, before: seq<Key>, k: Key, added: seq<ErrorRecord>)
    requires Recorded(p, q, w, before, added) && k !in before && w.faults == map[]
    ensures Recorded(p, CopyKey(q, w, k), w, before + [k],
                     if k !in p.done && k !in w.local then added + [ErrorRecord(k, LocalFileMissing)] else added)
  {
    AbsentPush(p, w, before, k);
    hide Absent;
  }

  lemma {:induction false} RecordsOfPass(p: Progress, w: World, keys: seq<Key>) returns (added: seq<ErrorRecord>)
    requires StrictlySorted(keys) && w.faults == map[]
    ensures Recorded(p, CopyKeys(p, w, keys), w, keys, added)
  {
    if keys == [] {
      added := [];
    } else {
      var last := |keys| - 1;
      var k, before := keys[last], keys[..last];
      added := RecordsOfPass(p, w, before);
      hide Recorded;
      assert keys == before + [k];
      RecordOne(p, CopyKeys(p, w, before), w, before, k, added);
      added := if k !in p.done && k !in w.local then added + [ErrorRecord(k, LocalFileMissing)] else added;
    }
  }

  /** With copies that succeed, the verifying pass makes the migration ready exactly when at most 50
      enumerated keys are unmarked and without a local file, whatever records the row held before. */
  lemma ReadyIffFewMissing(p: Progress, w: World, keys: seq<Key>)
    requires StrictlySorted(keys) && w.faults == map[]
    ensures Still(Committed(p, w, keys, |keys|), keys) == [] <==> |Absent(p, w, keys)| <= ERRORS_KEPT
  {
    if |Absent(p, w, keys)| > ERRORS_KEPT {
      ManyMissingNeverReady(p, w, keys);
    } else if keys != [] {
      var start := p.(stats := p.stats.(scanned := |keys|));
      assert Absent(start, w, keys) == Absent(p, w, keys);
      var added := RecordsOfPass(start, w, keys);
      var q := Committed(p, w, keys, |keys|);
      LastOfRecords(p.errors, added);
      hide CopyKeys;
      VerdictIsGate(q, keys);
    }
  }

  /** Records that all fit are all kept. */
  lemma LastOfRecords(before: seq<ErrorRecord>, added: seq<ErrorRecord>)
    requires |added| <= ERRORS_KEPT
    ensures forall e :: e in added ==> e in LastErrors(before + added)
  {
    var all, kept := before + added, LastErrors(before + added);
    forall i | 0 <= i < |added| ensures added[i] in kept {
      assert kept[|kept| - |added| + i] == all[|before| + i];
    }
  }
}
