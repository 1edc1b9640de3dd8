/** Allocating a SKU that is not taken. */
module Sku {
  import opened Wrappers
  import opened Text

  const MAX_LEN := 200
  const LAST_SUFFIX := 9999

  // ----- decimal suffixes -----

  function Digit(d: nat): char
    requires d < 10
  {
    '0' + d as char
  }

  function Decimal(n: nat): (s: string)
    ensures s != "" && forall i :: 0 <= i < |s| ==> IsDigit(s[i])
  {
    (if n < 10 then "" else Decimal(n / 10)) + [Digit(n % 10)]
  }

  lemma {:induction false} DecimalValue(n: nat)
    ensures Value(Decimal(n)) == n
  {
    var s := Decimal(n);
    if n < 10 {
      assert s == [Digit(n)] && s[..0] == "";
    } else {
      DecimalValue(n / 10);
      assert s[..|s| - 1] == Decimal(n / 10);
    }
  }

  lemma {:induction false} DecimalLength(n: nat, k: nat)
    requires n < Power10(k) && k > 0
    ensures |Decimal(n)| <= k
  {
    if n >= 10 {
      assert k > 1 by {
        assert Power10(1) == 10;
      }
      DecimalLength(n / 10, k - 1);
    }
  }

  function Power10(k: nat): nat {
    if k == 0 then 1 else 10 * Power10(k - 1)
  }

  // ----- candidates -----

  function Truncate(s: string, n: nat): (r: string)
    ensures |r| <= n && r <= s
  {
    if |s| <= n then s else s[..n]
  }

  function Suffix(n: nat): string {
    "-" + Decimal(n)
  }

  function Base(preferred: string): string {
    Truncate(if Strip(preferred) != "" then Strip(preferred) else "SKU", MAX_LEN)
  }

  function WithSuffix(base: string, suffix: string): string {
    Truncate(base, if |suffix| <= MAX_LEN then MAX_LEN - |suffix| else 0) + suffix
  }

  function Numbered(base: string, n: nat): string {
    WithSuffix(base, Suffix(n))
  }

  function Overflow(base: string): string {
    Truncate(base, MAX_LEN - 9) + "-overflow"
  }

  /** The values that count as taken. */
  function Existing(taken: set<string>): set<string> {
    set v | v in taken && Strip(v) != "" :: Strip(v)
  }

  /** The first free candidate, from number `n` on. */
  function FirstFree(base: string, existing: set<string>, n: nat): string
    requires n <= LAST_SUFFIX + 1
    decreases LAST_SUFFIX + 1 - n
  {
    if n > LAST_SUFFIX then Overflow(base)
    else if Numbered(base, n) !in existing then Numbered(base, n)
    else FirstFree(base, existing, n + 1)
  }

  function Allocate(preferred: string, taken: set<string>): string {
    var base := Base(preferred);
    if base !in Existing(taken) then base else FirstFree(base, Existing(taken), 2)
  }

  method AllocateUniqueSku(preferred: string, taken: set<string>) returns (sku: string)
    ensures sku == Allocate(preferred, taken)
  {
    hide Strip, Decimal;
    var existing := set v | v in taken && Strip(v) != "" :: Strip(v);
    var base := Base(preferred);
    if base !in existing {
      return base;
    }
    for n := 2 to LAST_SUFFIX + 1
      invariant FirstFree(base, existing, n) == FirstFree(base, existing, 2)
    {
      var suffix := "-" + Decimal(n);
      sku := WithSuffix(base, suffix);
      if sku !in existing {
        return;
      }
    }
    sku := Overflow(base);
  }

  // ----- length -----

  lemma SuffixLength(n: nat)
    requires n <= LAST_SUFFIX
    ensures |Suffix(n)| <= 5
  {
    assert Power10(4) == 10000;
    DecimalLength(n, 4);
  }

  lemma {:induction false} FirstFreeLength(base: string, existing: set<string>, n: nat)
    requires n <= LAST_SUFFIX + 1
    ensures |FirstFree(base, existing, n)| <= MAX_LEN
    decreases LAST_SUFFIX + 1 - n
  {
    if n <= LAST_SUFFIX {
      SuffixLength(n);
      FirstFreeLength(base, existing, n + 1);
    }
  }

  /** The result always fits the column. */
  lemma AllocateLength(preferred: string, taken: set<string>)
    ensures |Allocate(preferred, taken)| <= 200
  {
    FirstFreeLength(Base(preferred), Existing(taken), 2);
  }

  // ----- which candidate -----

  /** The stripped value as far as the column holds it; a blank value stands for "SKU". */
  ghost predicate IsBase(base: string, preferred: string) {
    if Blank(preferred) then base == "SKU"
    else base <= Strip(preferred) && |base| == if |Strip(preferred)| < 200 then |Strip(preferred)| else 200
  }

  /** A value that is not taken is returned as it is, stripped and cut to the length of the column. */
  lemma PreferredIfFree(preferred: string, taken: set<string>)
    ensures IsBase(Base(preferred), preferred)
    ensures Base(preferred) !in Existing(taken) ==> Allocate(preferred, taken) == Base(preferred)
  {
    BlankStrips(preferred);
    hide Strip, FirstFree, Existing, Blank;
  }

  /** A candidate keeps as much of the base as the column holds beside its number. */
  lemma NumberedKeepsBase(base: string, n: nat)
    requires n <= LAST_SUFFIX
    ensures var sku, tail := Numbered(base, n), "-" + Decimal(n);
            && |sku| == (if |base| + |tail| < 200 then |base| + |tail| else 200)
            && sku == base[..|sku| - |tail|] + tail
  {
    SuffixLength(n);
    hide Decimal;
  }

  lemma {:induction false} FirstFreeIsLeast(base: string, existing: set<string>, n: nat)
    requires n <= LAST_SUFFIX + 1
    ensures || (exists k :: n <= k <= LAST_SUFFIX && FirstFree(base, existing, n) == Numbered(base, k) && Numbered(base, k) !in existing
                            && forall i :: n <= i < k ==> Numbered(base, i) in existing)
            || (FirstFree(base, existing, n) == Overflow(base) && forall i :: n <= i <= LAST_SUFFIX ==> Numbered(base, i) in existing)
    decreases LAST_SUFFIX + 1 - n
  {
    hide Numbered, Overflow;
    if n <= LAST_SUFFIX && Numbered(base, n) in existing {
      FirstFreeIsLeast(base, existing, n + 1);
    }
  }

  /** A taken one gets the least free number from 2 on, or the overflow when all 9998 are taken. */
  lemma LeastFreeNumber(preferred: string, taken: set<string>)
    requires Base(preferred) in Existing(taken)
    ensures var base, existing, sku := Base(preferred), Existing(taken), Allocate(preferred, taken);
            || (exists k :: 2 <= k <= LAST_SUFFIX && sku == Numbered(base, k) && sku !in existing
                            && forall i :: 2 <= i < k ==> Numbered(base, i) in existing)
            || (sku == Overflow(base) && forall i :: 2 <= i <= LAST_SUFFIX ==> Numbered(base, i) in existing)
  {
    hide FirstFree, Numbered, Overflow, Base, Existing;
    FirstFreeIsLeast(Base(preferred), Existing(taken), 2);
  }

  // ----- distinct candidates -----

  /** The part after the last dash. */
  function AfterDash(s: string): string {
    if s == "" || s[|s| - 1] == '-' then "" else AfterDash(s[..|s| - 1]) + [s[|s| - 1]]
  }

  lemma {:induction false} AfterDashOf(head: string, tail: string)
    requires '-' !in tail
    ensures AfterDash(head + "-" + tail) == tail
  {
    var s := head + "-" + tail;
    if tail != "" {
      var last := |tail| - 1;
      assert tail == tail[..last] + [tail[last]];
      assert s[..|s| - 1] == head + "-" + tail[..last];
      AfterDashOf(head, tail[..last]);
    }
  }

  lemma NoDash(n: nat)
    ensures '-' !in Decimal(n)
  {
    hide Decimal;
    var s := Decimal(n);
    assert forall i :: 0 <= i < |s| ==> IsDigit(s[i]);
  }

  lemma AfterDashNumbered(base: string, n: nat)
    ensures AfterDash(Numbered(base, n)) == Decimal(n)
  {
    hide AfterDash, Decimal, Truncate;
    NoDash(n);
    var head := Truncate(base, if |Suffix(n)| <= MAX_LEN then MAX_LEN - |Suffix(n)| else 0);
    Regroup(head, "-", Decimal(n));
    AfterDashOf(head, Decimal(n));
  }

  /** Different numbers give different candidates, however much of the base is cut off. */
  lemma NumberedInjective(base: string, m: nat, n: nat)
    requires Numbered(base, m) == Numbered(base, n)
    ensures m == n
  {
    AfterDashNumbered(base, m);
    AfterDashNumbered(base, n);
    DecimalValue(m);
    DecimalValue(n);
  }

  lemma OverflowIsNoNumber(base: string, n: nat)
    ensures Overflow(base) != Numbered(base, n)
  {
    AfterDashNumbered(base, n);
    AfterDashOf(Truncate(base, MAX_LEN - 9), "overflow");
    assert Overflow(base) == Truncate(base, MAX_LEN - 9) + "-" + "overflow";
    assert "overflow"[0] == 'o';
  }

  /** The numbered candidates from `n` on. */
  function NumberedFrom(base: string, n: nat): set<string>
    requires n <= LAST_SUFFIX + 1
    decreases LAST_SUFFIX + 1 - n
  {
    if n > LAST_SUFFIX then {} else {Numbered(base, n)} + NumberedFrom(base, n + 1)
  }

  lemma {:induction false} NumberedFromMeaning(base: string, n: nat)
    requires n <= LAST_SUFFIX + 1
    ensures forall s :: s in NumberedFrom(base, n) <==> exists k :: n <= k <= LAST_SUFFIX && s == Numbered(base, k)
    decreases LAST_SUFFIX + 1 - n
  {
    hide Numbered;
    if n <= LAST_SUFFIX {
      NumberedFromMeaning(base, n + 1);
      forall s | exists k :: n <= k <= LAST_SUFFIX && s == Numbered(base, k) ensures s in NumberedFrom(base, n) {
        var k :| n <= k <= LAST_SUFFIX && s == Numbered(base, k);
        assert k == n || s in NumberedFrom(base, n + 1);
      }
    }
  }

  lemma {:induction false} NumberedFromSize(base: string, n: nat)
    requires n <= LAST_SUFFIX + 1
    ensures |NumberedFrom(base, n)| == LAST_SUFFIX + 1 - n
    decreases LAST_SUFFIX + 1 - n
  {
    hide Numbered;
    if n <= LAST_SUFFIX {
      NumberedFromSize(base, n + 1);
      NumberedFromMeaning(base, n + 1);
      if Numbered(base, n) in NumberedFrom(base, n + 1) {
        var k :| n + 1 <= k <= LAST_SUFFIX && Numbered(base, n) == Numbered(base, k);
        NumberedInjective(base, k, n);
      }
    }
  }

  /** Everything the search may return. */
  function Candidates(base: string): set<string> {
    {base, Overflow(base)} + NumberedFrom(base, 2)
  }

  lemma CandidateCount(base: string)
    ensures |Candidates(base)| >= LAST_SUFFIX
  {
    hide Overflow, NumberedFrom, Numbered;
    var numbered := NumberedFrom(base, 2);
    NumberedFromMeaning(base, 2);
    NumberedFromSize(base, 2);
    if Overflow(base) in numbered {
      var k :| 2 <= k <= LAST_SUFFIX && Overflow(base) == Numbered(base, k);
      OverflowIsNoNumber(base, k);
    }
    var some := {Overflow(base)} + numbered;
    assert |some| == LAST_SUFFIX;
    SubsetSize(some, Candidates(base));
  }

  lemma {:induction false} FirstFreeTaken(base: string, existing: set<string>, n: nat)
    requires n <= LAST_SUFFIX + 1
    ensures FirstFree(base, existing, n) in existing <==> NumberedFrom(base, n) + {Overflow(base)} <= existing
    decreases LAST_SUFFIX + 1 - n
  {
    hide Numbered, Overflow;
    if n <= LAST_SUFFIX {
      FirstFreeTaken(base, existing, n + 1);
    }
  }

  /** The result is taken exactly when every candidate is. */
  lemma TakenIffAllTaken(preferred: string, taken: set<string>)
    ensures Allocate(preferred, taken) in Existing(taken) <==> Candidates(Base(preferred)) <= Existing(taken)
  {
    hide FirstFree, NumberedFrom, Overflow;
    FirstFreeTaken(Base(preferred), Existing(taken), 2);
  }

  /** With at most 9998 taken values the result is free. */
  lemma FreeWhenRoom(preferred: string, taken: set<string>)
    requires |Existing(taken)| < LAST_SUFFIX
    ensures Allocate(preferred, taken) !in Existing(taken)
  {
    hide Base, Existing, Candidates;
    TakenIffAllTaken(preferred, taken);
    CandidateCount(Base(preferred));
    if Candidates(Base(preferred)) <= Existing(taken) {
      SubsetSize(Candidates(Base(preferred)), Existing(taken));
    }
  }

  /** The bound is tight: a base of full length that ends in `-2` is its own second candidate, so
      9999 taken values can leave nothing free. */
  lemma BoundIsTight(head: string, base: string)
    requires |head| == MAX_LEN - 2 && base == head + "-2"
    ensures |Candidates(base)| == LAST_SUFFIX
  {
    hide Numbered, Overflow, NumberedFrom, Decimal, Suffix;
    SecondIsNumbered(head, base);
    var numbered := NumberedFrom(base, 2);
    NumberedFromSize(base, 2);
    assert Candidates(base) == {Overflow(base)} + numbered;
    CandidateCount(base);
  }

  lemma SecondIsNumbered(head: string, base: string)
    requires |head| == MAX_LEN - 2 && base == head + "-2"
    ensures base in NumberedFrom(base, 2)
  {
    SecondIsBase(head, base);
    hide Numbered, NumberedFrom, Decimal, Suffix;
    NumberedFromMeaning(base, 2);
  }

  lemma SecondIsBase(head: string, base: string)
    requires |head| == MAX_LEN - 2 && base == head + "-2"
    ensures Numbered(base, 2) == base
  {
    assert Decimal(2) == [Digit(2)];
    assert Digit(2) == '2';
    assert |Suffix(2)| == 2 && Suffix(2) == "-2";
    assert base[..|head|] == head;
  }
}
