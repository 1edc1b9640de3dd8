/** The two sliding-window limiters, each proved against the history of accepted calls. */
module RateLimit {

  // ----- histories of accepted calls -----

  ghost predicate Sorted(h: seq<real>) {
    forall i, j :: 0 <= i < j < |h| ==> h[i] <= h[j]
  }

  /** The calls at or after `cutoff`. */
  function Since(h: seq<real>, cutoff: real): seq<real> {
    if h == [] then []
    else if h[0] < cutoff then Since(h[1..], cutoff)
    else [h[0]] + Since(h[1..], cutoff)
  }

  /** The simple specification: with the history `h`, a call at `now` is let through. */
  predicate Admits(h: seq<real>, max: int, window: real, now: real) {
    |Since(h, now - window)| < max
  }

  /** Every call of the history was let through by those before it. */
  ghost predicate Admitted(h: seq<real>, max: int, window: real) {
    h == [] || (Admits(h[..|h| - 1], max, window, h[|h| - 1]) && Admitted(h[..|h| - 1], max, window))
  }

  /** How many calls fall in the closed window from `lo` to `hi`. */
  function CountIn(h: seq<real>, lo: real, hi: real): nat {
    if h == [] then 0
    else CountIn(h[..|h| - 1], lo, hi) + if lo <= h[|h| - 1] <= hi then 1 else 0
  }

  lemma {:induction false} SinceAppend(a: seq<real>, b: seq<real>, cutoff: real)
    ensures Since(a + b, cutoff) == Since(a, cutoff) + Since(b, cutoff)
  {
    if a == [] {
      assert a + b == b;
    } else {
      assert (a + b)[1..] == a[1..] + b;
      SinceAppend(a[1..], b, cutoff);
    }
  }

  lemma SincePush(h: seq<real>, x: real, cutoff: real)
    ensures Since(h + [x], cutoff) == Since(h, cutoff) + if x < cutoff then [] else [x]
  {
    SinceAppend(h, [x], cutoff);
    assert [x][1..] == [];
  }

  lemma {:induction false} SinceSince(h: seq<real>, a: real, b: real)
    ensures Since(Since(h, a), b) == Since(h, if a < b then b else a)
  {
    if h != [] {
      SinceSince(h[1..], a, b);
      var s := Since(h[1..], a);
      assert ([h[0]] + s)[1..] == s;
    }
  }

  lemma {:induction false} SinceKeeps(h: seq<real>, cutoff: real)
    requires Sorted(h)
    ensures Sorted(Since(h, cutoff)) && forall x :: x in Since(h, cutoff) ==> x in h && x >= cutoff
    ensures h != [] && h[0] >= cutoff ==> Since(h, cutoff) == h
  {
    if h != [] {
      var rest := Since(h[1..], cutoff);
      SinceKeeps(h[1..], cutoff);
      if h[0] >= cutoff {
        assert h == [h[0]] + h[1..];
        assert |h| > 1 ==> h[1..][0] == h[1];
        assert rest == h[1..];
      }
    }
  }

  lemma {:induction false} CountSince(h: seq<real>, lo: real, hi: real)
    ensures CountIn(h, lo, hi) <= |Since(h, lo)|
  {
    if h != [] {
      var last := |h| - 1;
      CountSince(h[..last], lo, hi);
      SincePush(h[..last], h[last], lo);
      assert h == h[..last] + [h[last]];
    }
  }

  /** An admitted history never has more than `max` calls in any closed window of the length. */
  lemma {:induction false} NoWindowOverflows(h: seq<real>, max: nat, window: real, lo: real)
    requires Admitted(h, max, window)
    ensures CountIn(h, lo, lo + window) <= max
  {
    if h != [] {
      var last := |h| - 1;
      NoWindowOverflows(h[..last], max, window, lo);
      if lo <= h[last] <= lo + window {
        CountSince(h[..last], h[last] - window, lo + window);
        CountMonotone(h[..last], h[last] - window, lo, lo + window);
      }
    }
  }

  lemma {:induction false} CountMonotone(h: seq<real>, lo: real, lo': real, hi: real)
    requires lo <= lo'
    ensures CountIn(h, lo', hi) <= CountIn(h, lo, hi)
  {
    if h != [] {
      CountMonotone(h[..|h| - 1], lo, lo', hi);
    }
  }

  /** Popping old calls off the front of a sorted queue leaves exactly the recent ones. */
  method PopOld(q: seq<real>, cutoff: real) returns (q': seq<real>)
    requires Sorted(q)
    ensures q' == Since(q, cutoff)
  {
    q' := q;
    while q' != [] && q'[0] < cutoff
      invariant Sorted(q') && Since(q', cutoff) == Since(q, cutoff)
      decreases |q'|
    {
      q' := q'[1..];
    }
    SinceKeeps(q', cutoff);
  }

  /** Appending a call keeps a history sorted and its recent part exact. */
  lemma Extend(h: seq<real>, floor: real, now: real, ok: bool)
    requires Sorted(h) && floor <= now && forall x :: x in h ==> x <= now
    ensures var h' := h + if ok then [now] else [];
      && Sorted(h') && (forall x :: x in h' ==> x <= now)
      && Since(h', floor) == Since(h, floor) + if ok then [now] else []
  {
    if ok {
      SincePush(h, now, floor);
      var h' := h + [now];
      forall i, j | 0 <= i < j < |h'| ensures h'[i] <= h'[j] {
        assert h[i] in h;
      }
    } else {
      assert h + [] == h && Since(h, floor) + [] == Since(h, floor);
    }
  }

  lemma NoCalls(cutoff: real, max: int, window: real)
    ensures Sorted([]) && Since([], cutoff) == [] && Admitted([], max, window)
  {
  }

  lemma AdmittedAfter(h: seq<real>, max: int, window: real, now: real, ok: bool)
    requires Admitted(h, max, window) && ok == Admits(h, max, window, now)
    ensures Admitted(h + if ok then [now] else [], max, window)
  {
    if ok {
      assert (h + [now])[..|h|] == h;
    } else {
      assert h + [] == h;
    }
  }

  function Max(a: real, b: real): real {
    if a < b then b else a
  }

  // ----- the limiter of the authentication endpoints -----

  /** All calls accepted for a key, and the highest cutoff applied to its queue so far. */
  datatype Record = Record(accepted: seq<real>, floor: real)

  /** The queue holds exactly the accepted calls since the floor. */
  ghost predicate Tracks(queue: seq<real>, r: Record, clock: real) {
    && Sorted(r.accepted) && r.floor <= clock && (forall x :: x in r.accepted ==> x <= clock)
    && queue == Since(r.accepted, r.floor)
  }

  lemma TrackedRecent(queue: seq<real>, r: Record, clock: real, cutoff: real)
    requires Tracks(queue, r, clock)
    ensures Sorted(queue) && Sorted(r.accepted) && r.floor <= clock && forall x :: x in r.accepted ==> x <= clock
    ensures Since(queue, cutoff) == Since(r.accepted, Max(r.floor, cutoff))
  {
    SinceKeeps(r.accepted, r.floor);
    SinceSince(r.accepted, r.floor, cutoff);
  }

  lemma TrackedAfter(queue: seq<real>, accepted: seq<real>, floor: real, now: real, ok: bool)
    requires Sorted(accepted) && floor <= now && forall x :: x in accepted ==> x <= now
    requires queue == Since(accepted, floor)
    ensures Tracks(if ok then queue + [now] else queue, Record(accepted + if ok then [now] else [], floor), now)
  {
    Extend(accepted, floor, now, ok);
    if !ok {
      assert queue + [] == queue;
    }
  }

  lemma TrackedLater(queue: seq<real>, r: Record, clock: real, now: real)
    requires Tracks(queue, r, clock) && clock <= now
    ensures Tracks(queue, r, now)
  {
  }

  class SlidingWindowLimiter {
    var hits: map<string, seq<real>>
    ghost var records: map<string, Record>
    ghost var clock: real

    ghost predicate Valid()
      reads this
    {
      && records.Keys == hits.Keys
      && forall k :: k in hits ==> Tracks(hits[k], records[k], clock)
    }

    ghost function Accepted(key: string): seq<real>
      reads this
    {
      if key in records then records[key].accepted else []
    }

    /** No queue was ever cut further than a window of this length asks for. */
    ghost predicate CutAtMost(window: real)
      reads this
    {
      forall k :: k in records ==> records[k].floor <= clock - window
    }

    ghost predicate AllAdmitted(max: int, window: real)
      reads this
    {
      forall k :: k in records ==> Admitted(records[k].accepted, max, window)
    }

    constructor ()
      ensures Valid() && records == map[]
    {
      hits, records := map[], map[];
    }

    method Reset()
      modifies this
      ensures Valid() && records == map[] && clock == old(clock)
    {
      hits, records := map[], map[];
    }

    /** A call is accepted exactly when the history has fewer than `maxRequests` accepted calls
        since the cutoff. The history is the true one as long as no earlier call for the key
        used a shorter window, in particular when all calls use the same one. */
    method Allow(key: string, maxRequests: int, window: real, now: real) returns (ok: bool)
      requires Valid() && clock <= now && window >= 0.0
      modifies this
      ensures Valid() && clock == now
      ensures var cutoff := if key in old(records) then Max(old(records)[key].floor, now - window) else now - window;
        && ok == (|Since(old(Accepted(key)), cutoff)| < maxRequests)
        && records == old(records)[key := Record(old(Accepted(key)) + if ok then [now] else [], cutoff)]
      ensures old(CutAtMost(window)) ==> CutAtMost(window) && ok == Admits(old(Accepted(key)), maxRequests, window, now)
      ensures old(CutAtMost(window) && AllAdmitted(maxRequests, window)) ==> AllAdmitted(maxRequests, window)
    {
      hide Since, Sorted, Admitted, Tracks;
      var cutoff := now - window;
      ghost var accepted := Accepted(key);
      ghost var floor := if key in records then Max(records[key].floor, cutoff) else cutoff;
      var q: seq<real> := [];
      NoCalls(cutoff, maxRequests, window);
      if key in hits {
        TrackedRecent(hits[key], records[key], clock, cutoff);
        q := hits[key];
      }
      q := PopOld(q, cutoff);
      ok := |q| < maxRequests;
      TrackedAfter(q, accepted, floor, now, ok);
      if Admitted(accepted, maxRequests, window) && floor == cutoff {
        AdmittedAfter(accepted, maxRequests, window, now, ok);
      }
      forall k | k in hits ensures Tracks(hits[k], records[k], now) {
        TrackedLater(hits[k], records[k], clock, now);
      }
      clock := now;
      if ok {
        q := q + [now];
      }
      hits := hits[key := q];
      records := records[key := Record(accepted + if ok then [now] else [], floor)];
    }
  }

  // ----- the limiter of the mutating tools -----

  const GRANT_MAX := 30
  const GRANT_WINDOW := 60.0

  type GrantId = nat

  class GrantLimiter {
    var windows: map<GrantId, seq<real>>
    ghost var accepted: map<GrantId, seq<real>>
    ghost var clock: real

    ghost function History(grant: GrantId): seq<real>
      reads this
    {
      if grant in accepted then accepted[grant] else []
    }

    /** The queue holds exactly the accepted calls since some floor no later than a window ago. */
    static ghost predicate Holds(queue: seq<real>, history: seq<real>, clock: real) {
      && queue != []
      && Admitted(history, GRANT_MAX, GRANT_WINDOW)
      && exists floor :: floor <= clock - GRANT_WINDOW && Tracks(queue, Record(history, floor), clock)
    }

    ghost predicate Valid()
      reads this
    {
      && accepted.Keys == windows.Keys
      && forall g :: g in windows ==> Holds(windows[g], accepted[g], clock)
    }

    constructor ()
      ensures Valid() && accepted == map[]
    {
      windows, accepted := map[], map[];
    }

    static lemma LaterHolds(queue: seq<real>, history: seq<real>, clock: real, now: real)
      requires Holds(queue, history, clock) && clock <= now
      ensures Holds(queue, history, now)
    {
      var floor :| floor <= clock - GRANT_WINDOW && Tracks(queue, Record(history, floor), clock);
      assert Tracks(queue, Record(history, floor), now);
    }

    /** The recent part of a queue is the recent part of its history. */
    static lemma RecentOfHistory(queue: seq<real>, history: seq<real>, clock: real, cutoff: real)
      requires Holds(queue, history, clock) && clock - GRANT_WINDOW <= cutoff
      ensures Sorted(queue) && Sorted(history) && Since(queue, cutoff) == Since(history, cutoff)
      ensures Admitted(history, GRANT_MAX, GRANT_WINDOW) && forall x :: x in history ==> x <= clock
    {
      var floor :| floor <= clock - GRANT_WINDOW && Tracks(queue, Record(history, floor), clock);
      SinceKeeps(history, floor);
      SinceSince(history, floor, cutoff);
    }

    /** A mutating call is let through exactly when the history admits it, and then joins the
        history. Evicting the empty queue changes nothing of this; the set of queues only grows. */
    method CheckGrantRate(grant: GrantId, mutating: bool, now: real) returns (ok: bool)
      requires Valid() && clock <= now
      modifies this
      ensures Valid() && clock == now
      ensures !mutating ==> ok && accepted == old(accepted) && windows == old(windows)
      ensures mutating ==> ok == Admits(old(History(grant)), GRANT_MAX, GRANT_WINDOW, now)
      ensures mutating ==> accepted == old(accepted)[grant := old(History(grant)) + if ok then [now] else []]
      ensures mutating ==> windows.Keys == old(windows.Keys) + {grant}
    {
      hide Since, Sorted, Admitted, Holds;
      ghost var history := History(grant);
      var cutoff := now - GRANT_WINDOW;
      forall g | g in windows ensures Holds(windows[g], accepted[g], now) {
        LaterHolds(windows[g], accepted[g], clock, now);
      }
      if !mutating {
        clock := now;
        return true;
      }
      var win: seq<real> := [];
      NoCalls(cutoff, GRANT_MAX, GRANT_WINDOW);
      if grant in windows {
        RecentOfHistory(windows[grant], history, clock, cutoff);
        win := PopOld(windows[grant], cutoff);
        if win == [] {
          windows := windows - {grant};
        }
      }
      clock := now;
      ok := |win| < GRANT_MAX;
      QueueAfter(win, history, now, ok);
      if ok {
        win := win + [now];
      }
      windows := windows[grant := win];
      accepted := accepted[grant := history + if ok then [now] else []];
    }

    static lemma QueueAfter(win: seq<real>, history: seq<real>, now: real, ok: bool)
      requires Sorted(history) && (forall x :: x in history ==> x <= now) && Admitted(history, GRANT_MAX, GRANT_WINDOW)
      requires win == Since(history, now - GRANT_WINDOW) && ok == (|win| < GRANT_MAX)
      ensures Holds(if ok then win + [now] else win, history + if ok then [now] else [], now)
    {
      TrackedAfter(win, history, now - GRANT_WINDOW, now, ok);
      AdmittedAfter(history, GRANT_MAX, GRANT_WINDOW, now, ok);
      assert history + [] == history;
    }
  }
}
