/** How a reply to the angle question is matched to one of the offered angles. */
module Angles {
  import opened Wrappers
  import opened Text

  // ----- normal forms -----

  function LowerChar(c: char): char {
    if 'A' <= c <= 'Z' then (c as int + 32) as char else c
  }

  function Lower(s: string): (r: string)
    ensures |r| == |s| && forall i :: 0 <= i < |s| ==> (IsSpace(r[i]) <==> IsSpace(s[i]))
  {
    seq(|s|, i requires 0 <= i < |s| => LowerChar(s[i]))
  }

  function WordEnd(s: string, i: nat): (r: nat)
    requires i <= |s|
    ensures i <= r <= |s|
    ensures forall k :: i <= k < r ==> !IsSpace(s[k])
    ensures r < |s| ==> IsSpace(s[r])
    decreases |s| - i
  {
    if i < |s| && !IsSpace(s[i]) then WordEnd(s, i + 1) else i
  }

  /** The words of `s`. */
  function Words(s: string): (r: seq<string>)
    ensures forall i :: 0 <= i < |r| ==> r[i] != "" && forall k :: 0 <= k < |r[i]| ==> !IsSpace(r[i][k])
    decreases |s|
  {
    var i := TextStart(s, 0);
    if i == |s| then []
    else
      var j := WordEnd(s, i);
      [s[i..j]] + Words(s[j..])
  }

  function Squeeze(s: string): string {
    Join(" ", Words(s))
  }

  function Plain(s: string): string {
    Lower(Squeeze(s))
  }

  function Face(angle: string): string {
    Lower(Strip(angle))
  }

  function Faces(angles: seq<string>): (r: seq<string>)
    ensures |r| == |angles| && forall i :: 0 <= i < |r| ==> r[i] == Face(angles[i])
  {
    seq(|angles|, i requires 0 <= i < |angles| => Face(angles[i]))
  }

  // ----- the offer -----

  function Offered(angles: seq<string>): (r: seq<string>)
    ensures forall a :: a in r <==> a in angles && !Blank(a)
  {
    if angles == [] then []
    else if Blank(angles[0]) then Offered(angles[1..])
    else [angles[0]] + Offered(angles[1..])
  }

  // ----- the reply -----

  const NUMERALS := "一二三四五"

  predicate IsClassifier(c: char) {
    c == '個' || c == '个' || c == '款' || c == '條'
  }

  function Position(c: char, s: string): (r: Option<nat>)
    ensures r.Some? ==> r.value < |s| && s[r.value] == c
    ensures r.None? ==> c !in s
  {
    if s == "" then None
    else if s[0] == c then Some(0)
    else match Position(c, s[1..])
      case None => None
      case Some(i) => Some(i + 1)
  }

  predicate IsNumber(s: string) {
    s != "" && forall i :: 0 <= i < |s| ==> IsDigit(s[i])
  }

  /** The text without the mark of an ordinal. */
  function Bare(text: string): string {
    if text != "" && text[0] == '第' then text[1..] else text
  }

  /** The position that a reply such as `2`, `#2` or `第二個` names, counted from 0. */
  function AngleIndex(text: string): Option<int> {
    var number := if text != "" && text[0] == '#' then text[1..] else text;
    if IsNumber(number) then Some(Value(number) - 1)
    else
      var ordinal := LStrip(Bare(text));
      if ordinal == "" then None
      else
        var rest := LStrip(ordinal[1..]);
        if rest == "" || (|rest| == 1 && IsClassifier(rest[0])) then
          match Position(ordinal[0], NUMERALS)
          case None => None
          case Some(i) => Some(i)
        else None
  }

  predicate OccursAt(s: string, t: string, i: int) {
    0 <= i <= |t| - |s| && t[i..i + |s|] == s
  }

  predicate Within(s: string, t: string) {
    exists i :: 0 <= i <= |t| && OccursAt(s, t, i)
  }

  predicate Overlap(s: string, t: string) {
    Within(s, t) || Within(t, s)
  }

  /** The first face at or after `i` that is `text`. */
  function FirstEqual(faces: seq<string>, text: string, i: nat): (r: Option<nat>)
    requires i <= |faces|
    ensures r.Some? ==> i <= r.value < |faces| && faces[r.value] == text && forall j :: i <= j < r.value ==> faces[j] != text
    ensures r.None? ==> forall j :: i <= j < |faces| ==> faces[j] != text
    decreases |faces| - i
  {
    if i == |faces| then None
    else if faces[i] == text then Some(i)
    else FirstEqual(faces, text, i + 1)
  }

  /** The first face at or after `i` that contains `text` or lies within it. */
  function FirstOverlap(faces: seq<string>, text: string, i: nat): (r: Option<nat>)
    requires i <= |faces|
    ensures r.Some? ==> i <= r.value < |faces| && Overlap(text, faces[r.value]) && forall j :: i <= j < r.value ==> !Overlap(text, faces[j])
    ensures r.None? ==> forall j :: i <= j < |faces| ==> !Overlap(text, faces[j])
    decreases |faces| - i
  {
    if i == |faces| then None
    else if Overlap(text, faces[i]) then Some(i)
    else FirstOverlap(faces, text, i + 1)
  }

  /** The angle a reply stands for: one with the same face, else the one its number names, else one
      that overlaps it. */
  function Resolve(reply: string, angles: seq<string>): Option<string> {
    var text := Plain(reply);
    var offered := Offered(angles);
    if text == "" || offered == [] then None
    else
      match FirstEqual(Faces(offered), text, 0)
      case Some(k) => Some(offered[k])
      case None =>
        match AngleIndex(text)
        case Some(n) => if 0 <= n < |offered| then Some(offered[n]) else None
        case None =>
          match FirstOverlap(Faces(offered), text, 0)
          case Some(k) => Some(offered[k])
          case None => None
  }

  /** The reply is matched with the offer in three passes. */
  method ResolveAnglePick(reply: string, angles: seq<string>) returns (r: Option<string>)
    ensures r == Resolve(reply, angles)
  {
    hide Plain, Offered, Faces, AngleIndex, Overlap;
    var text := Plain(reply);
    var offered := Offered(angles);
    if text == "" || offered == [] {
      return None;
    }
    var faces := Faces(offered);
    var i := 0;
    while i < |faces|
      invariant 0 <= i <= |faces|
      invariant FirstEqual(faces, text, 0) == FirstEqual(faces, text, i)
    {
      if faces[i] == text { return Some(offered[i]); }
      i := i + 1;
    }
    var n := AngleIndex(text);
    if n.Some? {
      return if 0 <= n.value < |offered| then Some(offered[n.value]) else None;
    }
    i := 0;
    while i < |faces|
      invariant 0 <= i <= |faces|
      invariant FirstOverlap(faces, text, 0) == FirstOverlap(faces, text, i)
    {
      if Overlap(text, faces[i]) { return Some(offered[i]); }
      i := i + 1;
    }
    r := None;
  }

  // ----- what a reply gets -----

  /** Whatever is picked was offered. */
  lemma PickIsOffered(reply: string, angles: seq<string>)
    ensures var r := Resolve(reply, angles); r.Some? ==> r.value in angles && !Blank(r.value)
  {
    hide Plain, AngleIndex, FirstEqual, FirstOverlap;
    var offered := Offered(angles);
    assert forall k :: 0 <= k < |offered| ==> offered[k] in offered;
  }

  lemma {:induction false} NonSpaceLower(s: string)
    ensures NonSpace(Lower(s)) == Lower(NonSpace(s))
  {
    if s != "" {
      NonSpaceLower(s[1..]);
      assert Lower(s)[1..] == Lower(s[1..]);
      if !IsSpace(s[0]) {
        assert Lower([s[0]] + NonSpace(s[1..])) == [LowerChar(s[0])] + Lower(NonSpace(s[1..]));
      }
    }
  }

  lemma {:induction false} NonSpaceJoin(words: seq<string>)
    ensures NonSpace(Join(" ", words)) == NonSpace(Concat(words))
  {
    if |words| == 1 {
      assert words[1..] == [];
      assert words[0] + "" == words[0];
    } else if words != [] {
      NonSpaceJoin(words[1..]);
      var tail := Join(" ", words[1..]);
      NonSpaceAppend(words[0] + " ", tail);
      NonSpaceAppend(words[0], " ");
      NonSpaceAppend(words[0], Concat(words[1..]));
    }
  }

  lemma {:induction false} NonSpaceWords(s: string)
    ensures NonSpace(Concat(Words(s))) == NonSpace(s)
    decreases |s|
  {
    var i := TextStart(s, 0);
    FromFirstWord(s, i);
    hide NonSpace, TextStart, WordEnd;
    if i < |s| {
      var j := WordEnd(s, i);
      NonSpaceWords(s[j..]);
      assert s[i..] == s[i..j] + s[j..];
      NonSpaceAppend(s[i..j], s[j..]);
      ConcatCons(s[i..j], Words(s[j..]));
      NonSpaceAppend(s[i..j], Concat(Words(s[j..])));
    } else {
      assert s[i..] == "";
      assert Concat([]) == "";
    }
  }

  lemma FromFirstWord(s: string, i: nat)
    requires i <= |s| && forall k :: 0 <= k < i ==> IsSpace(s[k])
    ensures NonSpace(s) == NonSpace(s[i..])
  {
    assert s == s[..i] + s[i..];
    NonSpaceAppend(s[..i], s[i..]);
    BlankIffNoText(s[..i]);
  }

  lemma ConcatCons(x: string, rest: seq<string>)
    ensures Concat([x] + rest) == x + Concat(rest)
  {
    assert ([x] + rest)[1..] == rest;
  }

  lemma SameText(s: string)
    ensures NonSpace(Plain(s)) == NonSpace(Face(s))
  {
    hide Squeeze, Strip, Lower, NonSpace;
    NonSpaceLower(Squeeze(s));
    NonSpaceLower(Strip(s));
    NonSpaceStrip(s);
    SqueezeText(s);
  }

  lemma SqueezeText(s: string)
    ensures NonSpace(Squeeze(s)) == NonSpace(s)
  {
    NonSpaceJoin(Words(s));
    NonSpaceWords(s);
  }

  lemma {:induction false} JoinTrimmed(words: seq<string>)
    requires forall i :: 0 <= i < |words| ==> words[i] != "" && forall k :: 0 <= k < |words[i]| ==> !IsSpace(words[i][k])
    ensures Trimmed(Join(" ", words)) && (words != [] ==> Join(" ", words) != "")
  {
    if |words| > 1 {
      JoinTrimmed(words[1..]);
      var tail := Join(" ", words[1..]);
      var all := words[0] + " " + tail;
      assert all[0] == words[0][0] && all[|all| - 1] == tail[|tail| - 1];
    }
  }

  lemma FaceTrimmed(s: string)
    ensures Trimmed(Face(s))
  {
    StripTrimmed(s);
  }

  /** A string with no blanks at its ends contains no other string with the same text. */
  lemma SameTextWithin(s: string, t: string)
    requires Trimmed(t) && NonSpace(s) == NonSpace(t) && Within(s, t)
    ensures s == t
  {
    var i :| 0 <= i <= |t| && OccursAt(s, t, i);
    hide NonSpace;
    var before, after := t[..i], t[i + |s|..];
    assert i > 0 ==> before[0] == t[0];
    assert after != "" ==> after[|after| - 1] == t[|t| - 1];
    assert t == before + (s + after);
    NonSpaceAppend(before, s + after);
    NonSpaceAppend(s, after);
    BlankIffNoText(before);
    BlankIffNoText(after);
  }

  /** A card that is sent back as its own text gets an angle with the same face, when its words are
      single-spaced: the first one offered. */
  lemma CardIsHonoured(angles: seq<string>, k: nat)
    requires k < |Offered(angles)| && Plain(Offered(angles)[k]) == Face(Offered(angles)[k])
    ensures var offered := Offered(angles);
            var r := Resolve(offered[k], angles);
            && r.Some? && Face(r.value) == Face(offered[k])
            && ((forall j :: 0 <= j < k && Face(offered[j]) == Face(offered[k]) ==> offered[j] == offered[k]) ==> r == Some(offered[k]))
  {
    hide Plain, Face, AngleIndex, FirstOverlap, Offered, Strip, Squeeze, Lower, Blank;
    var offered := Offered(angles);
    var a := offered[k];
    assert a in offered;
    PlainIsText(a);
    assert Faces(offered)[k] == Plain(a);
  }

  lemma PlainIsText(s: string)
    requires !Blank(s)
    ensures Plain(s) != ""
  {
    hide Squeeze;
    SqueezeText(s);
    BlankIffNoText(s);
  }

  lemma OverlapIsEqual(a: string)
    ensures Overlap(Plain(a), Face(a)) <==> Plain(a) == Face(a)
  {
    hide Plain, Face;
    SameText(a);
    FaceTrimmed(a);
    PlainTrimmed(a);
    if Within(Plain(a), Face(a)) {
      SameTextWithin(Plain(a), Face(a));
    }
    if Within(Face(a), Plain(a)) {
      SameTextWithin(Face(a), Plain(a));
    }
    if Plain(a) == Face(a) {
      assert OccursAt(Plain(a), Face(a), 0);
    }
  }

  lemma PlainTrimmed(s: string)
    ensures Trimmed(Plain(s))
  {
    JoinTrimmed(Words(s));
  }

  /** The angle that the number `text` names bears the face. */
  predicate NumberNames(text: string, offered: seq<string>, face: string) {
    var n := AngleIndex(text);
    n.Some? && 0 <= n.value < |offered| && Face(offered[n.value]) == face
  }

  /** The outcome of a reply that is no angle's face. */
  lemma WithoutFace(reply: string, angles: seq<string>)
    requires Plain(reply) != "" && Offered(angles) != [] && Plain(reply) !in Faces(Offered(angles))
    ensures var offered, text := Offered(angles), Plain(reply);
            var r := Resolve(reply, angles);
            if AngleIndex(text).Some? then
              var n := AngleIndex(text).value;
              r == if 0 <= n < |offered| then Some(offered[n]) else None
            else
              && (r.Some? ==> exists j :: 0 <= j < |offered| && r == Some(offered[j]) && Overlap(text, Face(offered[j])))
              && (r.None? ==> forall j :: 0 <= j < |offered| ==> !Overlap(text, Face(offered[j])))
  {
    hide Plain, Face, AngleIndex, Overlap, Offered;
  }

  /** And of one that is some angle's. */
  lemma WithFace(reply: string, angles: seq<string>)
    requires Plain(reply) != "" && Plain(reply) in Faces(Offered(angles))
    ensures var r := Resolve(reply, angles); r.Some? && Face(r.value) == Plain(reply)
  {
    hide Plain, Face, AngleIndex, FirstOverlap, Offered;
    var faces := Faces(Offered(angles));
    var j :| 0 <= j < |faces| && faces[j] == Plain(reply);
  }

  /** A card sent back as its own text gets an angle with its face exactly when its words are
      single-spaced, or no angle has the text for its face and it reads as the number of one with its own. */
  lemma CardIsHonouredIff(angles: seq<string>, k: nat)
    requires k < |Offered(angles)|
    ensures var offered := Offered(angles);
            var a := offered[k];
            var r := Resolve(a, angles);
            r.Some? && Face(r.value) == Face(a) <==>
              Plain(a) == Face(a) || (Plain(a) !in Faces(offered) && NumberNames(Plain(a), offered, Face(a)))
  {
    hide Plain, Face, AngleIndex, Overlap, Resolve, Blank, Offered;
    var offered := Offered(angles);
    var a := offered[k];
    assert a in offered;
    PlainIsText(a);
    assert Faces(offered)[k] == Face(a);
    if Plain(a) in Faces(offered) {
      WithFace(a, angles);
    } else {
      WithoutFace(a, angles);
      OverlapIsEqual(a);
    }
  }

  /** Otherwise it locks another angle exactly when one has the text for its face, or its number names
      one, or, without a number, some face overlaps the text; else the choice turns into feedback. */
  lemma CardLocksAnotherIff(angles: seq<string>, k: nat)
    requires k < |Offered(angles)| && Plain(Offered(angles)[k]) != Face(Offered(angles)[k])
    ensures var offered := Offered(angles);
            var a, text := offered[k], Plain(offered[k]);
            var n := AngleIndex(text);
            var r := Resolve(a, angles);
            r.Some? && Face(r.value) != Face(a) <==>
              || text in Faces(offered)
              || (n.Some? && 0 <= n.value < |offered| && Face(offered[n.value]) != Face(a))
              || (n.None? && exists j :: 0 <= j < |offered| && Overlap(text, Face(offered[j])))
  {
    hide Plain, Face, AngleIndex, Overlap, Resolve, Blank, Offered;
    var offered := Offered(angles);
    var a := offered[k];
    assert a in offered;
    PlainIsText(a);
    OverlapIsEqual(a);
    if Plain(a) in Faces(offered) {
      WithFace(a, angles);
    } else {
      WithoutFace(a, angles);
    }
  }

  // ----- replies by number -----

  /** One word without capitals. */
  predicate IsSolid(s: string) {
    s != "" && forall i :: 0 <= i < |s| ==> !IsSpace(s[i]) && !('A' <= s[i] <= 'Z')
  }

  lemma PlainOfSolid(s: string)
    requires IsSolid(s)
    ensures Plain(s) == s && LStrip(s) == s
  {
    assert TextStart(s, 0) == 0;
    WordEndOf(s, 0, |s|);
    assert s[0..|s|] == s && s[|s|..] == "";
    assert Words("") == [];
    assert Words(s) == [s];
    hide Words;
    assert Join(" ", [s]) == s;
    assert Lower(s) == s;
  }

  /** The reply names the `n`-th angle, unless it is the very text of one. */
  ghost predicate Names(reply: string, angles: seq<string>, n: nat) {
    var offered := Offered(angles);
    reply !in Faces(offered) && offered != [] ==>
      Resolve(reply, angles) == if 1 <= n <= |offered| then Some(offered[n - 1]) else None
  }

  lemma IndexNames(reply: string, angles: seq<string>, n: nat)
    requires IsSolid(reply) && AngleIndex(reply) == Some(n as int - 1)
    ensures Names(reply, angles, n)
  {
    PlainOfSolid(reply);
    hide Plain, AngleIndex, Offered, Faces, Resolve;
    if reply !in Faces(Offered(angles)) && Offered(angles) != [] {
      WithoutFace(reply, angles);
    }
  }

  /** Digits, with or without a hash before them, count the angles from one. */
  lemma NumberPicks(digits: string, angles: seq<string>)
    requires IsNumber(digits)
    ensures Names(digits, angles, Value(digits)) && Names("#" + digits, angles, Value(digits))
  {
    hide Names;
    assert IsDigit(digits[0]);
    assert forall i :: 0 <= i < |digits| ==> IsDigit(digits[i]);
    assert IsSolid(digits);
    IndexNames(digits, angles, Value(digits));
    var hashed := "#" + digits;
    assert hashed[1..] == digits && forall i :: 0 < i < |hashed| ==> hashed[i] == digits[i - 1];
    assert IsSolid(hashed);
    IndexNames(hashed, angles, Value(digits));
  }

  /** A numeral, with or without the mark of an ordinal before it and a classifier after it. */
  predicate IsOrdinal(reply: string, numeral: char) {
    var bare := if reply != "" && reply[0] == '第' then reply[1..] else reply;
    bare != "" && bare[0] == numeral && (|bare| == 1 || (|bare| == 2 && bare[1] in "個个款條"))
  }

  lemma NumeralPosition(i: nat)
    requires i < |NUMERALS|
    ensures Position(NUMERALS[i], NUMERALS) == Some(i)
  {
    var r := Position(NUMERALS[i], NUMERALS);
    assert NUMERALS[i] in NUMERALS;
    assert r.Some? && NUMERALS[r.value] == NUMERALS[i];
    assert forall a, b :: 0 <= a < b < |NUMERALS| ==> NUMERALS[a] != NUMERALS[b];
  }

  /** These characters are neither blanks nor capitals. */
  predicate IsHan(c: char) {
    c as int >= 0x4E00
  }

  lemma HanIsSolid(c: char)
    requires IsHan(c)
    ensures !IsSpace(c) && !('A' <= c <= 'Z') && !IsDigit(c) && c != '#'
  {
  }

  lemma NumeralIsHan(i: nat)
    requires i < |NUMERALS|
    ensures IsHan(NUMERALS[i]) && NUMERALS[i] != '第'
  {
  }

  lemma NothingToStrip(s: string)
    requires s == "" || !IsSpace(s[0])
    ensures LStrip(s) == s
  {
    assert TextStart(s, 0) == 0;
  }

  lemma OrdinalIsHan(reply: string, c: char)
    requires IsOrdinal(reply, c) && IsHan(c)
    ensures reply != "" && forall k :: 0 <= k < |reply| ==> IsHan(reply[k])
  {
  }

  lemma HanStrips(s: string)
    requires forall k :: 0 <= k < |s| ==> IsHan(s[k])
    ensures LStrip(s) == s
  {
    if s != "" {
      HanIsSolid(s[0]);
    }
    NothingToStrip(s);
  }

  lemma HanIsOneWord(s: string)
    requires s != "" && forall k :: 0 <= k < |s| ==> IsHan(s[k])
    ensures IsSolid(s) && !IsNumber(s) && s[0] != '#'
  {
    hide IsHan, IsSpace, IsDigit;
    HanIsSolid(s[0]);
    forall k | 0 <= k < |s| ensures !IsSpace(s[k]) && !('A' <= s[k] <= 'Z') {
      HanIsSolid(s[k]);
    }
  }

  lemma IndexOfBare(text: string, i: nat)
    requires Bare(text) != "" && Position(Bare(text)[0], NUMERALS) == Some(i)
    requires |Bare(text)| == 1 || (|Bare(text)| == 2 && IsClassifier(Bare(text)[1]))
    requires text != "" && !IsNumber(text) && text[0] != '#'
    requires LStrip(Bare(text)) == Bare(text) && LStrip(Bare(text)[1..]) == Bare(text)[1..]
    ensures AngleIndex(text) == Some(i)
  {
    hide Position, LStrip, IsNumber, IsClassifier, Bare;
    assert |Bare(text)| == 2 ==> Bare(text)[1..] == [Bare(text)[1]];
  }

  lemma OrdinalForm(reply: string, numeral: char)
    requires IsOrdinal(reply, numeral)
    ensures Bare(reply) != "" && Bare(reply)[0] == numeral
    ensures |Bare(reply)| == 1 || (|Bare(reply)| == 2 && IsClassifier(Bare(reply)[1]))
  {
  }

  lemma OrdinalIndex(reply: string, i: nat)
    requires i < |NUMERALS| && IsOrdinal(reply, NUMERALS[i])
    ensures IsSolid(reply) && AngleIndex(reply) == Some(i)
  {
    NumeralIsHan(i);
    NumeralPosition(i);
    OrdinalIsHan(reply, NUMERALS[i]);
    OrdinalForm(reply, NUMERALS[i]);
    hide AngleIndex, IsSolid, IsNumber, LStrip, IsHan, IsClassifier, IsOrdinal, Position;
    HanIsOneWord(reply);
    HanStrips(Bare(reply));
    HanStrips(Bare(reply)[1..]);
    IndexOfBare(reply, i);
  }

  lemma OrdinalPicks(reply: string, i: nat, angles: seq<string>)
    requires i < |NUMERALS| && IsOrdinal(reply, NUMERALS[i])
    ensures Names(reply, angles, i + 1)
  {
    OrdinalIndex(reply, i);
    IndexNames(reply, angles, i + 1);
  }

  // ----- replies by part -----

  ghost predicate IsPart(x: string, y: string) {
    exists before, after :: y == before + x + after
  }

  /** One of the two texts is a part of the other. */
  ghost predicate Shares(x: string, y: string) {
    IsPart(x, y) || IsPart(y, x)
  }

  lemma PartIsWithin(x: string, y: string)
    ensures Within(x, y) <==> IsPart(x, y)
  {
    if i :| 0 <= i <= |y| && OccursAt(x, y, i) {
      assert y == y[..i] + x + y[i + |x|..];
    }
    if before, after :| y == before + x + after {
      assert OccursAt(x, y, |before|);
    }
  }

  lemma SharesIsOverlap(x: string, y: string)
    ensures Overlap(x, y) <==> Shares(x, y)
  {
    PartIsWithin(x, y);
    PartIsWithin(y, x);
  }

  /** A reply that is no angle's face and no number picks the first angle whose face it shares text with. */
  lemma PartPicks(reply: string, angles: seq<string>, k: nat)
    requires var text, offered := Plain(reply), Offered(angles);
             && text != "" && text !in Faces(offered) && AngleIndex(text) == None
             && k < |offered| && Shares(text, Face(offered[k])) && forall j :: 0 <= j < k ==> !Shares(text, Face(offered[j]))
    ensures Resolve(reply, angles) == Some(Offered(angles)[k])
  {
    hide Plain, Face, AngleIndex, Overlap, Offered, Shares;
    var text, offered := Plain(reply), Offered(angles);
    var faces := Faces(offered);
    forall j | 0 <= j < |offered| ensures Overlap(text, faces[j]) <==> Shares(text, Face(offered[j])) {
      SharesIsOverlap(text, Face(offered[j]));
    }
    var found := FirstOverlap(faces, text, 0);
    assert found.Some? && found.value == k;
  }

  // ----- capitals -----

  /** The same letter, capital or not. */
  predicate SameLetter(a: char, b: char) {
    a == b || ('A' <= a <= 'Z' && b as int == a as int + 32) || ('A' <= b <= 'Z' && a as int == b as int + 32)
  }

  predicate SameLetters(a: string, b: string) {
    |a| == |b| && forall i :: 0 <= i < |a| ==> SameLetter(a[i], b[i])
  }

  lemma SameLower(a: string, b: string)
    requires SameLetters(a, b)
    ensures Lower(a) == Lower(b) && forall i :: 0 <= i < |a| ==> (IsSpace(a[i]) <==> IsSpace(b[i]))
  {
    forall i | 0 <= i < |a| ensures LowerChar(a[i]) == LowerChar(b[i]) && (IsSpace(a[i]) <==> IsSpace(b[i])) {
      assert SameLetter(a[i], b[i]);
    }
  }

  lemma {:induction false} SameStart(a: string, b: string, i: nat)
    requires |a| == |b| && i <= |a| && forall k :: 0 <= k < |a| ==> (IsSpace(a[k]) <==> IsSpace(b[k]))
    ensures TextStart(a, i) == TextStart(b, i) && WordEnd(a, i) == WordEnd(b, i)
    decreases |a| - i
  {
    hide IsSpace;
    if i < |a| {
      SameStart(a, b, i + 1);
    }
  }

  lemma SameSlices(a: string, b: string, i: nat, j: nat)
    requires SameLetters(a, b) && i <= j <= |a|
    ensures SameLetters(a[i..j], b[i..j]) && SameLetters(a[j..], b[j..])
  {
    hide SameLetter;
  }

  /** The words of a text that opens with one. */
  lemma WordsOf(s: string, i: nat, j: nat)
    requires i == TextStart(s, 0) < |s| && j == WordEnd(s, i)
    ensures j > i && Words(s) == [s[i..j]] + Words(s[j..])
  {
  }

  lemma {:induction false} SameSqueeze(a: string, b: string)
    requires SameLetters(a, b)
    ensures |Words(a)| == |Words(b)| && forall i :: 0 <= i < |Words(a)| ==> SameLetters(Words(a)[i], Words(b)[i])
    decreases |a|
  {
    SameLower(a, b);
    SameStart(a, b, 0);
    var i := TextStart(a, 0);
    if i < |a| {
      SameStart(a, b, i);
      var j := WordEnd(a, i);
      hide SameLetters, TextStart, WordEnd, Words;
      WordsOf(a, i, j);
      WordsOf(b, i, j);
      SameSlices(a, b, i, j);
      SameSqueeze(a[j..], b[j..]);
    }
  }

  lemma {:induction false} SameJoin(sep: string, a: seq<string>, b: seq<string>)
    requires |a| == |b| && forall i :: 0 <= i < |a| ==> SameLetters(a[i], b[i])
    ensures SameLetters(Join(sep, a), Join(sep, b))
  {
    hide SameLetter;
    assert forall c :: SameLetter(c, c) by {
      EachIsSame();
    }
    if |a| > 1 {
      SameJoin(sep, a[1..], b[1..]);
    }
  }

  lemma EachIsSame()
    ensures forall c :: SameLetter(c, c)
  {
  }

  /** Replies that differ in capitals only pick the same angle. */
  lemma CapitalsDoNotMatter(a: string, b: string, angles: seq<string>)
    requires SameLetters(a, b)
    ensures Plain(a) == Plain(b) && Resolve(a, angles) == Resolve(b, angles)
  {
    SameSqueeze(a, b);
    SameJoin(" ", Words(a), Words(b));
    SameLower(Squeeze(a), Squeeze(b));
    hide Words, SameLetters, Lower, Offered, Faces, AngleIndex;
  }

  // ----- another angle is locked -----

  predicate IsWord(s: string) {
    s != "" && forall i :: 0 <= i < |s| ==> 'a' <= s[i] <= 'z'
  }

  lemma {:induction false} WordEndOf(s: string, i: nat, e: nat)
    requires i <= e <= |s| && (forall k :: i <= k < e ==> !IsSpace(s[k])) && (e < |s| ==> IsSpace(s[e]))
    ensures WordEnd(s, i) == e
    decreases e - i
  {
    if i < e {
      WordEndOf(s, i + 1, e);
    }
  }

  lemma WordsOfGap(gap: string, y: string)
    requires gap == "  " && IsWord(y)
    ensures Words(gap + y) == [y]
  {
    var s := gap + y;
    assert s[2] == y[0] && forall i :: 0 <= i < |y| ==> s[i + 2] == y[i];
    assert TextStart(s, 0) == 2;
    WordEndOf(s, 2, |s|);
    assert s[2..|s|] == y && s[|s|..] == "";
    assert Words("") == [];
  }

  lemma WordsOfTwo(x: string, y: string)
    requires IsWord(x) && IsWord(y)
    ensures Words(x + "  " + y) == [x, y]
  {
    var s := x + "  " + y;
    assert forall i :: 0 <= i < |x| ==> s[i] == x[i];
    assert s[|x|] == ' ';
    WordEndOf(s, 0, |x|);
    assert s[0..|x|] == x && s[|x|..] == "  " + y;
    WordsOfGap("  ", y);
  }

  lemma {:induction false} LowerOfWord(s: string)
    requires forall i :: 0 <= i < |s| ==> 'a' <= s[i] <= 'z' || s[i] == ' '
    ensures Lower(s) == s
  {
  }

  lemma FaceOfWord(x: string)
    requires IsWord(x)
    ensures Face(x) == x && !Blank(x)
  {
    assert !IsSpace(x[0]) && !IsSpace(x[|x| - 1]);
    StripOfTrimmed(x);
    LowerOfWord(x);
  }

  lemma FaceOfCard(x: string, y: string)
    requires IsWord(x) && IsWord(y)
    ensures var card := x + "  " + y; Face(card) == card && !Blank(card)
  {
    var card := x + "  " + y;
    assert card[0] == x[0] && card[|card| - 1] == y[|y| - 1];
    assert !IsSpace(card[0]) && !IsSpace(card[|card| - 1]);
    StripOfTrimmed(card);
    hide Strip;
    LowerOfWord(card);
  }

  lemma PlainOfCard(x: string, y: string)
    requires IsWord(x) && IsWord(y)
    ensures Plain(x + "  " + y) == x + " " + y
  {
    WordsOfTwo(x, y);
    hide Words;
    assert [x, y][1..] == [y] && Join(" ", [y]) == y;
    assert Join(" ", [x, y]) == x + " " + y;
    LowerOfWord(x + " " + y);
  }

  lemma LetterFirstIsNoNumber(s: string)
    requires s != "" && 'a' <= s[0] <= 'z'
    ensures AngleIndex(s) == None
  {
    hide Position, IsSpace, Value, LStrip;
    NoBlankFirst(s);
    NoNumeral(s[0]);
    assert !IsDigit(s[0]);
    assert !IsNumber(s);
  }

  lemma NoBlankFirst(s: string)
    requires s != "" && 'a' <= s[0] <= 'z'
    ensures LStrip(s) == s
  {
    assert TextStart(s, 0) == 0;
  }

  lemma NoNumeral(c: char)
    requires 'a' <= c <= 'z'
    ensures Position(c, NUMERALS) == None
  {
    assert c !in NUMERALS;
  }

  lemma FirstOverlapWins(reply: string, angles: seq<string>)
    requires Plain(reply) != "" && Offered(angles) != [] && Plain(reply) !in Faces(Offered(angles))
    requires AngleIndex(Plain(reply)) == None && Overlap(Plain(reply), Face(Offered(angles)[0]))
    ensures Resolve(reply, angles) == Some(Offered(angles)[0])
  {
    hide Plain, Face, AngleIndex, Overlap, Offered;
    var faces := Faces(Offered(angles));
    assert faces[0] == Face(Offered(angles)[0]);
  }

  /** A card of two words with a doubled blank locks the card of its first word. */
  lemma DoubledBlankLocksFirst(x: string, y: string)
    requires IsWord(x) && IsWord(y)
    ensures var card := x + "  " + y; Resolve(card, [x, card]) == Some(x)
  {
    hide Plain, Face, AngleIndex, Offered, Resolve;
    var card, text := x + "  " + y, x + " " + y;
    FaceOfWord(x);
    FaceOfCard(x, y);
    PlainOfCard(x, y);
    assert text[0] == x[0];
    LetterFirstIsNoNumber(text);
    TwoOffered(x, card);
    assert |text| == |card| - 1 && |x| < |text|;
    assert text !in Faces([x, card]);
    assert OccursAt(x, text, 0);
    FirstOverlapWins(card, [x, card]);
  }

  lemma TwoOffered(x: string, card: string)
    requires !Blank(x) && !Blank(card)
    ensures Offered([x, card]) == [x, card]
  {
    hide Blank;
    assert [x, card][1..] == [card] && [card][1..] == [];
    assert Offered([]) == [];
    assert Offered([card]) == [card];
  }
}
