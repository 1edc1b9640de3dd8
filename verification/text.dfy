/** Strings as the chunker, the parser and the SKU allocator see them: whitespace
    stripping, joining, and the weighted length that every chunk budget is measured in. */
module Text {

  /** The characters that Python's `str.strip` and the pattern `\s` treat as whitespace. */
  predicate IsSpace(c: char) {
    var n := c as int;
    || 0x9 <= n <= 0xD || 0x1C <= n <= 0x20 || n == 0x85 || n == 0xA0 || n == 0x1680
    || 0x2000 <= n <= 0x200A || n == 0x2028 || n == 0x2029 || n == 0x202F || n == 0x205F || n == 0x3000
  }

  predicate Blank(s: string) {
    forall i :: 0 <= i < |s| ==> IsSpace(s[i])
  }

  /** The first position at or after `i` that holds no whitespace. */
  function TextStart(s: string, i: nat): (r: nat)
    requires i <= |s|
    ensures i <= r <= |s|
    ensures forall k :: i <= k < r ==> IsSpace(s[k])
    ensures r < |s| ==> !IsSpace(s[r])
    decreases |s| - i
  {
    if i < |s| && IsSpace(s[i]) then TextStart(s, i + 1) else i
  }

  /** The position just after the last non-whitespace character of `s[..j]`. */
  function TextEnd(s: string, j: nat): (r: nat)
    requires j <= |s|
    ensures r <= j
    ensures forall k :: r <= k < j ==> IsSpace(s[k])
    ensures r > 0 ==> !IsSpace(s[r - 1])
  {
    if j > 0 && IsSpace(s[j - 1]) then TextEnd(s, j - 1) else j
  }

  function LStrip(s: string): (r: string)
    ensures |r| <= |s|
  {
    s[TextStart(s, 0)..]
  }

  function RStrip(s: string): (r: string)
    ensures |r| <= |s|
  {
    s[..TextEnd(s, |s|)]
  }

  function Strip(s: string): string {
    RStrip(LStrip(s))
  }

  /** The non-whitespace characters of `s`, in order. */
  function NonSpace(s: string): string {
    if s == "" then ""
    else if IsSpace(s[0]) then NonSpace(s[1..])
    else [s[0]] + NonSpace(s[1..])
  }

  function Concat(parts: seq<string>): string {
    if parts == [] then "" else parts[0] + Concat(parts[1..])
  }

  function Join(sep: string, parts: seq<string>): string {
    if parts == [] then ""
    else if |parts| == 1 then parts[0]
    else parts[0] + sep + Join(sep, parts[1..])
  }

  lemma {:induction false} NonSpaceAppend(a: string, b: string)
    ensures NonSpace(a + b) == NonSpace(a) + NonSpace(b)
  {
    if a == "" {
      assert a + b == b;
    } else {
      assert (a + b)[1..] == a[1..] + b;
      NonSpaceAppend(a[1..], b);
    }
  }

  lemma {:induction false} BlankIffNoText(s: string)
    ensures Blank(s) <==> NonSpace(s) == ""
  {
    if s != "" {
      BlankIffNoText(s[1..]);
      assert s == [s[0]] + s[1..];
      if IsSpace(s[0]) && Blank(s[1..]) {
        assert forall i :: 0 < i < |s| ==> s[i] == s[1..][i - 1];
      }
    }
  }

  lemma NonSpaceLStrip(s: string)
    ensures NonSpace(LStrip(s)) == NonSpace(s)
  {
    var k := TextStart(s, 0);
    assert s == s[..k] + s[k..];
    NonSpaceAppend(s[..k], s[k..]);
    BlankIffNoText(s[..k]);
  }

  lemma NonSpaceRStrip(s: string)
    ensures NonSpace(RStrip(s)) == NonSpace(s)
  {
    var k := TextEnd(s, |s|);
    assert s == s[..k] + s[k..];
    NonSpaceAppend(s[..k], s[k..]);
    BlankIffNoText(s[k..]);
  }

  /** Stripping only ever removes whitespace. */
  lemma NonSpaceStrip(s: string)
    ensures NonSpace(Strip(s)) == NonSpace(s)
  {
    NonSpaceLStrip(s);
    NonSpaceRStrip(LStrip(s));
  }

  predicate Trimmed(s: string) {
    s == "" || (!IsSpace(s[0]) && !IsSpace(s[|s| - 1]))
  }

  lemma StripTrimmed(s: string)
    ensures Trimmed(Strip(s))
  {
    var l := LStrip(s);
    var e := TextEnd(l, |l|);
    if e > 0 {
      assert Strip(s)[0] == l[0] == s[TextStart(s, 0)];
      assert Strip(s)[|Strip(s)| - 1] == l[e - 1];
    }
  }

  lemma StripOfTrimmed(s: string)
    requires Trimmed(s)
    ensures Strip(s) == s
  {
    if s != "" {
      assert TextStart(s, 0) == 0;
      assert TextEnd(s, |s|) == |s|;
    } else {
      assert TextStart(s, 0) == 0;
    }
  }

  lemma BlankStrips(s: string)
    ensures Blank(s) <==> Strip(s) == ""
  {
    NonSpaceStrip(s);
    StripTrimmed(s);
    BlankIffNoText(s);
    BlankIffNoText(Strip(s));
    hide Strip, NonSpace;
  }

  /** A stripped string is a slice of the original, with blanks around it. */
  lemma StripIsSlice(s: string) returns (before: string, after: string)
    ensures s == before + Strip(s) + after && Blank(before) && Blank(after)
  {
    var l := LStrip(s);
    before, after := s[..TextStart(s, 0)], l[|Strip(s)|..];
    assert l == Strip(s) + after;
  }

  lemma {:induction false} ConcatAppend(a: seq<string>, b: seq<string>)
    ensures Concat(a + b) == Concat(a) + Concat(b)
  {
    if a == [] {
      assert a + b == b;
    } else {
      assert (a + b)[1..] == a[1..] + b;
      ConcatAppend(a[1..], b);
    }
  }

  lemma ConcatOne(x: string)
    ensures Concat([x]) == x
  {
    assert [x][1..] == [];
  }

  lemma ConcatPush(a: seq<string>, x: string)
    ensures Concat(a + [x]) == Concat(a) + x
  {
    ConcatAppend(a, [x]);
    ConcatOne(x);
  }

  lemma Regroup<T>(a: seq<T>, b: seq<T>, c: seq<T>)
    ensures a + (b + c) == a + b + c
  {
  }

  lemma {:induction false} JoinAppend(sep: string, a: seq<string>, b: seq<string>)
    requires a != [] && b != []
    ensures Join(sep, a + b) == Join(sep, a) + sep + Join(sep, b)
  {
    assert (a + b)[1..] == a[1..] + b;
    if |a| > 1 {
      JoinAppend(sep, a[1..], b);
    } else {
      assert a[1..] + b == b;
    }
  }

  // ----- weighted length -----

  const CJK_FLOOR := 0x2E80

  /** Total weight in fifths of a unit: a CJK, fullwidth or emoji character weighs one unit,
      any other character two fifths. */
  function Fifths(s: string): nat {
    if s == "" then 0 else (if s[0] as int >= CJK_FLOOR then 5 else 2) + Fifths(s[1..])
  }

  /** The length in budget units: the total weight, rounded up to a whole unit. */
  function Units(s: string): nat {
    (Fifths(s) + 4) / 5
  }

  lemma {:induction false} FifthsAppend(a: string, b: string)
    ensures Fifths(a + b) == Fifths(a) + Fifths(b)
  {
    if a == "" {
      assert a + b == b;
    } else {
      assert (a + b)[1..] == a[1..] + b;
      FifthsAppend(a[1..], b);
    }
  }

  /** Splitting a text never makes the parts cheaper than the whole, and no part costs more
      than the whole. */
  lemma UnitsAppend(a: string, b: string)
    ensures Units(a + b) <= Units(a) + Units(b)
    ensures Units(a) <= Units(a + b) && Units(b) <= Units(a + b)
  {
    FifthsAppend(a, b);
  }

  lemma UnitsStrip(s: string)
    ensures Units(Strip(s)) <= Units(s)
  {
    var before, after := StripIsSlice(s);
    UnitsAppend(before + Strip(s), after);
    UnitsAppend(before, Strip(s));
  }

  lemma UnitsOfNone()
    ensures Units("") == 0
  {
  }

  /** Every single character fits in one unit. */
  lemma UnitsOfOne(s: string)
    requires |s| == 1
    ensures Units(s) == 1
  {
    assert Fifths(s[1..]) == 0;
  }

  lemma UnitsPrefix(s: string, i: nat, j: nat)
    requires i <= j <= |s|
    ensures Units(s[..i]) <= Units(s[..j])
  {
    assert s[..j] == s[..i] + s[i..j];
    UnitsAppend(s[..i], s[i..j]);
  }

  function TotalUnits(parts: seq<string>): nat {
    if parts == [] then 0 else Units(parts[0]) + TotalUnits(parts[1..])
  }

  lemma {:induction false} UnitsConcat(parts: seq<string>)
    ensures Units(Concat(parts)) <= TotalUnits(parts)
  {
    if parts != [] {
      UnitsConcat(parts[1..]);
      UnitsAppend(parts[0], Concat(parts[1..]));
    }
  }

  // ----- decimal numbers -----

  predicate IsDigit(c: char) {
    '0' <= c <= '9'
  }

  function Value(digits: string): nat
    requires forall i :: 0 <= i < |digits| ==> IsDigit(digits[i])
  {
    if digits == "" then 0
    else
      var last := |digits| - 1;
      assert IsDigit(digits[last]);
      10 * Value(digits[..last]) + (digits[last] as int - '0' as int)
  }
}
