/** Cutting a paragraph into sentence pieces, and cutting a piece that is too long
    for the budget into slices. */
module Sentences {
  import opened Text

  // ----- sentence separators -----

  /** The punctuation and line breaks whose runs end a sentence. */
  predicate IsStop(c: char) {
    || c == '!' || c == '?' || c == ';' || c == '\n'
    || c == '\U{3002}' || c == '\U{FF01}' || c == '\U{FF1F}' || c == '\U{FF1B}'
  }

  predicate IsEmoji(c: char) {
    0x1F300 <= c as int <= 0x1FAFF || 0x2600 <= c as int <= 0x27BF
  }

  /** The end of the longest run, starting at `i`, of characters satisfying `p`. */
  function RunEnd(text: string, i: nat, p: char -> bool): (e: nat)
    requires i <= |text|
    ensures i <= e <= |text|
    ensures forall k :: i <= k < e ==> p(text[k])
    ensures e < |text| ==> !p(text[e])
    decreases |text| - i
  {
    if i < |text| && p(text[i]) then RunEnd(text, i + 1, p) else i
  }

  /** Where the separator that starts at `i` ends; `i` itself when none starts there. */
  function SeparatorEnd(text: string, i: nat): (e: nat)
    requires i <= |text|
    ensures i <= e <= |text|
  {
    if i == |text| then i
    else if IsStop(text[i]) then RunEnd(text, i, IsStop)
    else if text[i] == '.' && i + 1 < |text| && IsSpace(text[i + 1]) then i + 1
    else RunEnd(text, i, IsEmoji)
  }

  /** The fragments of `text[start..]`, each ending with its separator, when the scan for
      the next separator has reached `i`. */
  function RawFrom(text: string, start: nat, i: nat): seq<string>
    requires start <= i <= |text|
    decreases |text| - i
  {
    if i == |text| then [text[start..]]
    else
      var e := SeparatorEnd(text, i);
      if e > i then [text[start..e]] + RawFrom(text, e, e) else RawFrom(text, start, i + 1)
  }

  /** Folds each blank fragment into the next piece; the blank tail is returned beside. */
  function FoldBlank(raw: seq<string>, pending: string): (seq<string>, string) {
    if raw == [] then ([], pending)
    else if Blank(raw[0]) then FoldBlank(raw[1..], pending + raw[0])
    else
      var (pieces, tail) := FoldBlank(raw[1..], "");
      ([pending + raw[0]] + pieces, tail)
  }

  function SentencePieces(text: string): seq<string> {
    var (pieces, tail) := FoldBlank(RawFrom(text, 0, 0), "");
    if pieces != [] then pieces[..|pieces| - 1] + [pieces[|pieces| - 1] + tail] else pieces
  }

  method SplitRaw(text: string) returns (raw: seq<string>)
    ensures raw == RawFrom(text, 0, 0)
  {
    hide SeparatorEnd;
    raw := [];
    var start, i := 0, 0;
    while i < |text|
      invariant start <= i <= |text|
      invariant raw + RawFrom(text, start, i) == RawFrom(text, 0, 0)
    {
      var e := SeparatorEnd(text, i);
      if e > i {
        Regroup(raw, [text[start..e]], RawFrom(text, e, e));
        raw := raw + [text[start..e]];
        start, i := e, e;
      } else {
        i := i + 1;
      }
    }
    raw := raw + [text[start..]];
  }

  method FoldPieces(raw: seq<string>) returns (pieces: seq<string>, pending: string)
    ensures (pieces, pending) == FoldBlank(raw, "")
  {
    hide Blank;
    pieces, pending := [], "";
    var k := 0;
    assert raw[0..] == raw;
    while k < |raw|
      invariant 0 <= k <= |raw|
      invariant pieces + FoldBlank(raw[k..], pending).0 == FoldBlank(raw, "").0
      invariant FoldBlank(raw[k..], pending).1 == FoldBlank(raw, "").1
    {
      FoldStep(raw, k, pending);
      if !Blank(raw[k]) {
        Regroup(pieces, [pending + raw[k]], FoldBlank(raw[k + 1..], "").0);
        pieces := pieces + [pending + raw[k]];
        pending := "";
      } else {
        pending := pending + raw[k];
      }
      k := k + 1;
    }
    assert raw[k..] == [];
    assert pieces + [] == pieces;
  }

  method SplitSentences(text: string) returns (pieces: seq<string>)
    ensures pieces == SentencePieces(text)
  {
    var raw := SplitRaw(text);
    var pending: string;
    pieces, pending := FoldPieces(raw);
    hide FoldBlank;
    if pieces != [] && pending == "" {
      assert pieces[|pieces| - 1] + pending == pieces[|pieces| - 1];
    }
    if pending != "" && pieces != [] {
      pieces := pieces[..|pieces| - 1] + [pieces[|pieces| - 1] + pending];
    }
  }

  lemma FoldStep(raw: seq<string>, k: nat, pending: string)
    requires k < |raw|
    ensures FoldBlank(raw[k..], pending) ==
            if Blank(raw[k]) then FoldBlank(raw[k + 1..], pending + raw[k])
            else ([pending + raw[k]] + FoldBlank(raw[k + 1..], "").0, FoldBlank(raw[k + 1..], "").1)
  {
    assert raw[k..][1..] == raw[k + 1..];
  }

  lemma FoldOne(x: string, rest: seq<string>)
    requires !Blank(x)
    ensures FoldBlank([x] + rest, "") == ([x] + FoldBlank(rest, "").0, FoldBlank(rest, "").1)
  {
    hide Blank;
    assert ([x] + rest)[1..] == rest && "" + x == x;
  }

  lemma {:induction false} RawKeepsText(text: string, start: nat, i: nat)
    requires start <= i <= |text|
    ensures Concat(RawFrom(text, start, i)) == text[start..]
    decreases |text| - i
  {
    if i < |text| {
      var e := SeparatorEnd(text, i);
      if e > i {
        RawKeepsText(text, e, e);
        assert text[start..] == text[start..e] + text[e..];
      } else {
        RawKeepsText(text, start, i + 1);
      }
    } else {
      ConcatOne(text[start..]);
    }
  }

  lemma {:induction false} FoldKeepsText(raw: seq<string>, pending: string)
    ensures var (pieces, tail) := FoldBlank(raw, pending);
            Concat(pieces) + tail == pending + Concat(raw)
    ensures Blank(pending) ==> Blank(FoldBlank(raw, pending).1)
  {
    if raw != [] {
      if Blank(raw[0]) {
        FoldKeepsText(raw[1..], pending + raw[0]);
        assert (pending + raw[0]) + Concat(raw[1..]) == pending + Concat(raw);
        NonSpaceAppend(pending, raw[0]);
        BlankIffNoText(pending);
        BlankIffNoText(raw[0]);
        BlankIffNoText(pending + raw[0]);
      } else {
        var (pieces, tail) := FoldBlank(raw[1..], "");
        FoldKeepsText(raw[1..], "");
        calc {
          Concat([pending + raw[0]] + pieces) + tail;
          pending + raw[0] + Concat(pieces) + tail;
          pending + raw[0] + (Concat(pieces) + tail);
          pending + raw[0] + Concat(raw[1..]);
          pending + Concat(raw);
        }
      }
    }
  }

  /** The pieces put back together are the whole text, except that a blank text has none. */
  lemma SentencePiecesKeepText(text: string)
    ensures Concat(SentencePieces(text)) == text || (SentencePieces(text) == [] && Blank(text))
  {
    var raw := RawFrom(text, 0, 0);
    RawKeepsText(text, 0, 0);
    FoldKeepsText(raw, "");
    var (pieces, tail) := FoldBlank(raw, "");
    if pieces != [] {
      var init, last := pieces[..|pieces| - 1], pieces[|pieces| - 1];
      assert pieces == init + [last];
      ConcatPush(init, last);
      ConcatPush(init, last + tail);
      assert Concat(init) + (last + tail) == Concat(init) + last + tail;
    } else {
      assert tail == Concat(pieces) + tail == "" + Concat(raw) == text;
    }
  }

  // ----- where sentences end -----

  /** A separator is a run of stops, as long as it can be, or of emoji, or a full stop before a blank. */
  lemma SeparatorMeaning(text: string, i: nat)
    requires i < |text|
    ensures var e := SeparatorEnd(text, i);
            if IsStop(text[i]) then
              i < e && (forall k :: i <= k < e ==> IsStop(text[k])) && (e < |text| ==> !IsStop(text[e]))
            else if IsEmoji(text[i]) then
              i < e && (forall k :: i <= k < e ==> IsEmoji(text[k])) && (e < |text| ==> !IsEmoji(text[e]))
            else if text[i] == '.' && i + 1 < |text| && IsSpace(text[i + 1]) then e == i + 1
            else e == i
  {
  }

  /** No separator starts at `start` or later, before `i`. */
  ghost predicate NoSeparator(text: string, start: nat, i: nat)
    requires i <= |text|
  {
    forall k :: start <= k < i ==> SeparatorEnd(text, k) == k
  }

  /** A text is cut after its first separator, and the rest in the same way. */
  lemma {:induction false} RawMeaning(text: string, start: nat, i: nat)
    requires start <= i <= |text| && NoSeparator(text, start, i)
    ensures || (NoSeparator(text, start, |text|) && RawFrom(text, start, i) == [text[start..]])
            || exists k :: start <= k < |text| && NoSeparator(text, start, k) && SeparatorEnd(text, k) > k
                 && RawFrom(text, start, i) == [text[start..SeparatorEnd(text, k)]]
                                               + RawFrom(text, SeparatorEnd(text, k), SeparatorEnd(text, k))
    decreases |text| - i
  {
    hide SeparatorEnd;
    if i < |text| && SeparatorEnd(text, i) == i {
      RawMeaning(text, start, i + 1);
    }
  }

  function CountText(raw: seq<string>): nat {
    if raw == [] then 0 else (if Blank(raw[0]) then 0 else 1) + CountText(raw[1..])
  }

  lemma {:induction false} FoldMeaning(raw: seq<string>, pending: string)
    ensures var pieces := FoldBlank(raw, pending).0;
            |pieces| == CountText(raw) && forall i :: 0 <= i < |pieces| ==> !Blank(pieces[i])
  {
    if raw != [] {
      if Blank(raw[0]) {
        FoldMeaning(raw[1..], pending + raw[0]);
      } else {
        FoldMeaning(raw[1..], "");
        BlankEither(pending, raw[0]);
      }
    }
  }

  lemma BlankEither(a: string, b: string)
    ensures Blank(a + b) ==> Blank(a) && Blank(b)
  {
    if Blank(a + b) {
      assert forall i :: 0 <= i < |a| ==> a[i] == (a + b)[i];
      assert forall i :: 0 <= i < |b| ==> b[i] == (a + b)[|a| + i];
    }
  }

  /** There are as many sentences as fragments with text, and none is blank. */
  lemma SentencesMeaning(text: string)
    ensures |SentencePieces(text)| == CountText(RawFrom(text, 0, 0))
    ensures forall i :: 0 <= i < |SentencePieces(text)| ==> !Blank(SentencePieces(text)[i])
  {
    var raw := RawFrom(text, 0, 0);
    FoldMeaning(raw, "");
    hide FoldBlank, CountText, Blank;
    var (pieces, tail) := FoldBlank(raw, "");
    if pieces != [] {
      BlankEither(pieces[|pieces| - 1], tail);
    }
  }

  // ----- slicing an oversized piece -----

  /** `k` is the longest prefix of `s` that fits the budget. */
  ghost predicate LongestFit(s: string, allowed: nat, k: nat) {
    && k <= |s|
    && Units(s[..k]) <= allowed
    && forall j :: k < j <= |s| ==> Units(s[..j]) > allowed
  }

  function FitFrom(s: string, allowed: nat, k: nat): (cut: nat)
    requires k <= |s| && Units(s[..k]) <= allowed
    ensures k <= cut && LongestFit(s, allowed, cut)
    decreases |s| - k
  {
    if k < |s| && Units(s[..k + 1]) <= allowed then FitFrom(s, allowed, k + 1)
    else
      assert forall j | k < j <= |s| :: Units(s[..j]) > allowed by {
        forall j | k < j <= |s| ensures Units(s[..j]) > allowed {
          UnitsPrefix(s, k + 1, j);
        }
      }
      k
  }

  /** The position of the last space in `s`, or -1. */
  function LastSpace(s: string): (r: int)
    ensures -1 <= r < |s|
    ensures r >= 0 ==> s[r] == ' '
    ensures forall k :: r < k < |s| ==> s[k] != ' '
  {
    if s == "" then -1
    else if s[|s| - 1] == ' ' then |s| - 1
    else LastSpace(s[..|s| - 1])
  }

  /** Where an oversized text is cut: after the longest prefix that fits (at least one
      character), moved back to just after the last space of that window when there is one
      in its second half. */
  function CutPoint(s: string, allowed: nat): (cut: nat)
    requires s != ""
    ensures 1 <= cut <= |s|
  {
    assert s[..0] == "";
    var fit := FitFrom(s, allowed, 0);
    var window := if fit == 0 then 1 else fit;
    var snap := LastSpace(s[..window]);
    if snap >= window / 2 then snap + 1 else window
  }

  /** All slices, including the blank ones that are dropped at the end. */
  function SlicesFrom(rest: string, allowed: nat): seq<string>
    decreases |rest|
  {
    if Units(rest) > allowed then
      var cut := CutPoint(rest, allowed);
      [rest[..cut]] + SlicesFrom(LStrip(rest[cut..]), allowed)
    else if Blank(rest) then []
    else [rest]
  }

  function DropBlank(parts: seq<string>): seq<string> {
    if parts == [] then []
    else if Blank(parts[0]) then DropBlank(parts[1..])
    else [parts[0]] + DropBlank(parts[1..])
  }

  function CharSlices(text: string, allowed: nat): seq<string> {
    DropBlank(SlicesFrom(Strip(text), allowed))
  }

  method Cut(s: string, allowed: nat) returns (cut: nat)
    requires s != ""
    ensures cut == CutPoint(s, allowed)
  {
    cut := 0;
    assert s[..0] == "";
    for i := 0 to |s|
      invariant cut == i && Units(s[..cut]) <= allowed
      invariant FitFrom(s, allowed, cut) == FitFrom(s, allowed, 0)
    {
      if Units(s[..i + 1]) > allowed {
        break;
      }
      cut := i + 1;
    }
    if cut <= 0 {
      cut := 1;
    }
    var snap := LastSpace(s[..cut]);
    if snap >= cut / 2 {
      cut := snap + 1;
    }
  }

  method SliceChars(text: string, allowed: nat) returns (slices: seq<string>)
    ensures slices == CharSlices(text, allowed)
  {
    var all: seq<string> := [];
    var rest := Strip(text);
    ghost var goal := SlicesFrom(rest, allowed);
    while Units(rest) > allowed
      invariant all + SlicesFrom(rest, allowed) == goal
      decreases |rest|
    {
      var cut := Cut(rest, allowed);
      var next := LStrip(rest[cut..]);
      SlicesStep(all, rest, allowed);
      all := all + [rest[..cut]];
      rest := next;
    }
    if !Blank(rest) {
      all := all + [rest];
    }
    assert all == goal;
    slices := KeepNonBlank(all);
  }

  lemma SlicesStep(done: seq<string>, rest: string, allowed: nat)
    requires Units(rest) > allowed
    ensures var cut := CutPoint(rest, allowed);
            done + SlicesFrom(rest, allowed) == done + [rest[..cut]] + SlicesFrom(LStrip(rest[cut..]), allowed)
  {
  }

  method KeepNonBlank(parts: seq<string>) returns (kept: seq<string>)
    ensures kept == DropBlank(parts)
  {
    kept := [];
    for i := 0 to |parts|
      invariant kept + DropBlank(parts[i..]) == DropBlank(parts)
    {
      assert parts[i..][1..] == parts[i + 1..];
      if !Blank(parts[i]) {
        kept := kept + [parts[i]];
      }
    }
  }

  /** A blank in the second half of a window of the text. */
  ghost predicate BlankInHalf(s: string, window: nat)
    requires window <= |s|
  {
    exists k :: window / 2 <= k < window && s[k] == ' '
  }

  /** The window is the longest prefix that fits, or one character. If there is a blank in its second
      half, the cut comes right after the last one; otherwise it takes the window. */
  lemma CutPointMeaning(s: string, allowed: nat, fit: nat)
    requires s != "" && LongestFit(s, allowed, fit)
    ensures var window := if fit == 0 then 1 else fit;
            var cut := CutPoint(s, allowed);
            if BlankInHalf(s, window) then
              window / 2 < cut <= window && s[cut - 1] == ' ' && forall k :: cut <= k < window ==> s[k] != ' '
            else
              cut == window
  {
    assert s[..0] == "";
    var found := FitFrom(s, allowed, 0);
    assert found == fit;
    var window := if fit == 0 then 1 else fit;
    hide FitFrom, LongestFit, Units;
    var snap := LastSpace(s[..window]);
    assert forall k :: 0 <= k < window ==> s[..window][k] == s[k];
  }

  lemma CutFits(s: string, allowed: nat)
    requires Units(s) > allowed >= 1
    ensures Units(s[..CutPoint(s, allowed)]) <= allowed
  {
    assert s[..0] == "";
    var fit := FitFrom(s, allowed, 0);
    UnitsOfOne(s[..1]);
    assert fit >= 1;
    CutPointMeaning(s, allowed, fit);
    UnitsPrefix(s, CutPoint(s, allowed), fit);
  }

  lemma {:induction false} SlicesFit(rest: string, allowed: nat)
    requires allowed >= 1
    ensures forall s :: s in SlicesFrom(rest, allowed) ==> Units(s) <= allowed
    decreases |rest|
  {
    if Units(rest) > allowed {
      CutFits(rest, allowed);
      var cut := CutPoint(rest, allowed);
      SlicesFit(LStrip(rest[cut..]), allowed);
    }
  }

  lemma {:induction false} SlicesKeepText(rest: string, allowed: nat)
    ensures NonSpace(Concat(SlicesFrom(rest, allowed))) == NonSpace(rest)
    decreases |rest|
  {
    if Units(rest) > allowed {
      var cut := CutPoint(rest, allowed);
      SlicesKeepText(LStrip(rest[cut..]), allowed);
      NonSpaceLStrip(rest[cut..]);
      NonSpaceAppend(rest[..cut], rest[cut..]);
      assert rest == rest[..cut] + rest[cut..];
      NonSpaceAppend(rest[..cut], Concat(SlicesFrom(LStrip(rest[cut..]), allowed)));
    } else if Blank(rest) {
      BlankIffNoText(rest);
    } else {
      ConcatOne(rest);
    }
  }

  lemma {:induction false} DropBlankMeaning(parts: seq<string>)
    ensures NonSpace(Concat(DropBlank(parts))) == NonSpace(Concat(parts))
    ensures forall s :: s in DropBlank(parts) <==> s in parts && !Blank(s)
  {
    if parts != [] {
      DropBlankMeaning(parts[1..]);
      NonSpaceAppend(parts[0], Concat(parts[1..]));
      if Blank(parts[0]) {
        BlankIffNoText(parts[0]);
      } else {
        assert DropBlank(parts)[1..] == DropBlank(parts[1..]);
        NonSpaceAppend(parts[0], Concat(DropBlank(parts[1..])));
      }
    }
  }

  /** Slicing loses no text, emits no blank slice, and respects every budget of at least
      one unit. */
  lemma CharSlicesMeaning(text: string, allowed: nat)
    ensures NonSpace(Concat(CharSlices(text, allowed))) == NonSpace(text)
    ensures forall s :: s in CharSlices(text, allowed) ==> !Blank(s)
    ensures allowed >= 1 ==> forall s :: s in CharSlices(text, allowed) ==> Units(s) <= allowed
  {
    var all := SlicesFrom(Strip(text), allowed);
    SlicesKeepText(Strip(text), allowed);
    NonSpaceStrip(text);
    DropBlankMeaning(all);
    if allowed >= 1 {
      SlicesFit(Strip(text), allowed);
    }
  }

  /** A text that fits is one slice. */
  lemma FittingIsOneSlice(text: string, allowed: nat)
    requires Units(Strip(text)) <= allowed
    ensures CharSlices(text, allowed) == if Blank(text) then [] else [Strip(text)]
  {
    hide Units;
    NonSpaceStrip(text);
    BlankIffNoText(text);
    BlankIffNoText(Strip(text));
    hide Strip, Blank;
    assert DropBlank([]) == [];
    if !Blank(text) {
      assert [Strip(text)][1..] == [];
      assert DropBlank([Strip(text)]) == [Strip(text)];
    }
  }

  lemma LStripTail(s: string, i: nat)
    requires Trimmed(s) && i <= |s|
    ensures LStrip(s[i..]) == Strip(s[i..])
  {
    var t := s[i..];
    var l := LStrip(t);
    if l != "" {
      assert l[|l| - 1] == s[|s| - 1];
      assert TextEnd(l, |l|) == |l|;
    }
  }

  /** A longer one gives up its first slice, and the rest is sliced in the same way. */
  lemma LongIsCut(text: string, allowed: nat)
    requires Units(Strip(text)) > allowed
    ensures var t := Strip(text);
            t != "" && var cut := CutPoint(t, allowed); CharSlices(text, allowed) == [t[..cut]] + CharSlices(t[cut..], allowed)
  {
    var t := Strip(text);
    StripTrimmed(text);
    UnitsOfNone();
    assert t != "";
    var cut := CutPoint(t, allowed);
    assert !IsSpace(t[..cut][0]);
    LStripTail(t, cut);
    hide Units, Strip, CutPoint, LStrip;
    var rest := SlicesFrom(LStrip(t[cut..]), allowed);
    assert SlicesFrom(t, allowed) == [t[..cut]] + rest;
    assert ([t[..cut]] + rest)[1..] == rest;
  }
}
