/** Which overlaps between chunks are made of whole sentences. */
module Overlap {
  import opened Wrappers
  import opened Text
  import opened Sentences
  import opened Paragraphs

  /** The text is a stretch of whole sentences. */
  ghost predicate IsWhole(text: string, sentences: seq<string>) {
    exists i, j :: 0 <= i <= j <= |sentences| && text == Concat(sentences[i..j])
  }

  /** Every chunk of the paragraph opens with whole sentences, or with nothing carried over. */
  ghost predicate CarriesWhole(text: string, allowed: nat, overlap: nat) {
    forall p :: p in ParagraphPacks(text, allowed, overlap) ==> IsWhole(p.carry, SentencePieces(text))
  }

  lemma NothingIsWhole(sentences: seq<string>)
    ensures IsWhole("", sentences)
  {
    assert sentences[0..0] == [];
    assert Concat(sentences[0..0]) == "";
  }

  lemma OneIsWhole(text: string, sentences: seq<string>)
    requires text in sentences
    ensures IsWhole(text, sentences)
  {
    var i :| 0 <= i < |sentences| && sentences[i] == text;
    assert sentences[i..i + 1] == [text];
    ConcatOne(text);
  }

  lemma SmallOverlapIsWhole(text: string, allowed: nat, overlap: nat)
    requires overlap <= 1
    ensures CarriesWhole(text, allowed, overlap)
  {
    var packs := ParagraphPacks(text, allowed, overlap);
    NothingIsWhole(SentencePieces(text));
    ParagraphConserved(text, allowed, overlap);
    OverlapIsOneSentence(text, allowed);
    hide ParagraphPacks, SentencePieces, IsWhole, NonSpace, Concat, Strip, Units;
    forall p | p in packs ensures IsWhole(p.carry, SentencePieces(text)) {
      var k :| 0 <= k < |packs| && packs[k] == p;
      if p.carry != "" {
        assert k > 0 && Follows(packs[k - 1], packs[k], allowed, overlap);
        assert overlap == 1;
        OneIsWhole(p.carry, SentencePieces(text));
      }
    }
  }

  // ----- where a chunk ends whole -----

  /** The text of the parts, without blanks. */
  function TextOf(parts: seq<string>): string {
    NonSpace(Concat(parts))
  }

  lemma TextOfAppend(a: seq<string>, b: seq<string>)
    ensures TextOf(a + b) == TextOf(a) + TextOf(b)
  {
    ConcatAppend(a, b);
    NonSpaceAppend(Concat(a), Concat(b));
  }

  lemma TextOfOne(s: string)
    ensures TextOf([s]) == NonSpace(s)
  {
    ConcatOne(s);
  }

  predicate FitsWhole(sentence: string, allowed: nat) {
    Units(Strip(sentence)) <= allowed
  }

  function BlockOf(sentence: string, allowed: nat): seq<Piece> {
    if FitsWhole(sentence, allowed) then [Piece(sentence, true)] else Slices(CharSlices(sentence, allowed))
  }

  lemma PiecesOfBlock(sentences: seq<string>, allowed: nat)
    requires sentences != []
    ensures Pieces(sentences, allowed) == BlockOf(sentences[0], allowed) + Pieces(sentences[1..], allowed)
  {
  }

  /** A block has the text of its sentence; its pieces are not blank, and whole exactly if it fits. */
  lemma BlockMeaning(sentence: string, allowed: nat)
    requires !Blank(sentence)
    ensures var block := BlockOf(sentence, allowed);
            && block != [] && TextOf(Texts(block)) == NonSpace(sentence)
            && (FitsWhole(sentence, allowed) ==> block == [Piece(sentence, true)])
            && forall p :: p in block ==> !Blank(p.text) && (p.complete <==> FitsWhole(sentence, allowed))
  {
    hide Units, Strip, Blank, NonSpace, CharSlices;
    TextsOne(Piece(sentence, true));
    TextOfOne(sentence);
    CharSlicesMeaning(sentence, allowed);
    SlicesMeaning(CharSlices(sentence, allowed));
    BlankIffNoText(sentence);
    assert TextOf([]) == "" by { NothingTold(); }
    assert Slices([]) == [] && Texts([]) == [];
  }

  lemma NothingTold()
    ensures TextOf([]) == ""
  {
  }

  /** The first `e` pieces end with the `m`-th sentence, and it fits. */
  ghost predicate EndsWith(sentences: seq<string>, allowed: nat, e: nat, m: nat)
    requires e <= |Pieces(sentences, allowed)|
  {
    && 1 <= m <= |sentences| && FitsWhole(sentences[m - 1], allowed)
    && TextOf(Texts(Pieces(sentences, allowed)[..e])) == TextOf(sentences[..m])
  }

  lemma TextGrows(sentences: seq<string>, m: nat)
    requires 1 <= m <= |sentences|
    ensures TextOf(sentences[..m]) == NonSpace(sentences[0]) + TextOf(sentences[1..][..m - 1])
  {
    hide TextOf;
    assert sentences[..m] == [sentences[0]] + sentences[1..][..m - 1];
    TextOfAppend([sentences[0]], sentences[1..][..m - 1]);
    TextOfOne(sentences[0]);
  }

  lemma TextOfSome(parts: seq<string>)
    requires parts != [] && !Blank(parts[0])
    ensures TextOf(parts) != ""
  {
    TextGrows(parts, |parts|);
    assert parts[..|parts|] == parts;
    BlankIffNoText(parts[0]);
  }

  lemma {:induction false} PiecesNotBlank(sentences: seq<string>, allowed: nat)
    requires forall i :: 0 <= i < |sentences| ==> !Blank(sentences[i])
    ensures forall p :: p in Pieces(sentences, allowed) ==> !Blank(p.text)
  {
    hide Blank;
    if sentences != [] {
      BlockMeaning(sentences[0], allowed);
      PiecesOfBlock(sentences, allowed);
      PiecesNotBlank(sentences[1..], allowed);
      hide Pieces, BlockOf;
    }
  }

  lemma TextsPrefix(a: seq<Piece>, b: seq<Piece>, e: nat)
    requires |a| <= e <= |a| + |b|
    ensures Texts((a + b)[..e]) == Texts(a) + Texts(b[..e - |a|])
  {
    assert (a + b)[..e] == a + b[..e - |a|];
    TextsAppend(a, b[..e - |a|]);
  }

  /** Inside the block of a sentence that is cut no whole sentence ends. */
  lemma CutBlockEndsNothing(sentences: seq<string>, allowed: nat, e: nat, m: nat)
    requires forall i :: 0 <= i < |sentences| ==> !Blank(sentences[i])
    requires sentences != [] && !FitsWhole(sentences[0], allowed) && e <= |BlockOf(sentences[0], allowed)|
    requires |BlockOf(sentences[0], allowed)| <= |Pieces(sentences, allowed)|
    ensures !EndsWith(sentences, allowed, e, m)
  {
    hide Blank, NonSpace, FitsWhole, TextOf, BlockOf, Pieces;
    var block, rest := BlockOf(sentences[0], allowed), Pieces(sentences[1..], allowed);
    PiecesOfBlock(sentences, allowed);
    BlockMeaning(sentences[0], allowed);
    assert (block + rest)[..e] == block[..e];
    assert block == block[..e] + block[e..];
    TextsAppend(block[..e], block[e..]);
    TextOfAppend(Texts(block[..e]), Texts(block[e..]));
    if 2 <= m <= |sentences| {
      TextGrows(sentences, m);
      TextOfSome(sentences[1..][..m - 1]);
    }
  }

  lemma FirstText(pieces: seq<Piece>)
    requires pieces != []
    ensures Texts(pieces) != [] && Texts(pieces)[0] == pieces[0].text
  {
  }

  lemma LaterPiece(sentences: seq<string>, allowed: nat, e: nat)
    requires sentences != [] && |BlockOf(sentences[0], allowed)| < e <= |Pieces(sentences, allowed)|
    ensures var block, rest := BlockOf(sentences[0], allowed), Pieces(sentences[1..], allowed);
            var f := e - |block|;
            && Pieces(sentences, allowed) == block + rest && f <= |rest| && Pieces(sentences, allowed)[e - 1] == rest[f - 1]
            && Texts(Pieces(sentences, allowed)[..e]) == Texts(block) + Texts(rest[..f])
            && Texts(rest[..f]) != [] && Texts(rest[..f])[0] == rest[0].text
  {
    hide FitsWhole, BlockOf, Pieces, Texts;
    PiecesOfBlock(sentences, allowed);
    FirstText(Pieces(sentences[1..], allowed)[..e - |BlockOf(sentences[0], allowed)|]);
    var block, rest := BlockOf(sentences[0], allowed), Pieces(sentences[1..], allowed);
    assert Pieces(sentences, allowed) == block + rest;
    TextsPrefix(block, rest, e);
    assert (block + rest)[e - 1] == rest[e - |block| - 1];
    assert rest[..e - |block|][0] == rest[0];
  }

  /** What stands before a piece of a later sentence. */
  lemma LaterText(sentences: seq<string>, allowed: nat, e: nat)
    requires forall i :: 0 <= i < |sentences| ==> !Blank(sentences[i])
    requires sentences != [] && |BlockOf(sentences[0], allowed)| < e <= |Pieces(sentences, allowed)|
    ensures var f := e - |BlockOf(sentences[0], allowed)|;
            var rest := Pieces(sentences[1..], allowed);
            && f <= |rest| && Pieces(sentences, allowed)[e - 1] == rest[f - 1]
            && TextOf(Texts(Pieces(sentences, allowed)[..e])) == NonSpace(sentences[0]) + TextOf(Texts(rest[..f]))
            && TextOf(Texts(rest[..f])) != ""
  {
    hide Blank, NonSpace, FitsWhole, TextOf, BlockOf, Pieces, Texts;
    var block, rest := BlockOf(sentences[0], allowed), Pieces(sentences[1..], allowed);
    var f := e - |block|;
    LaterPiece(sentences, allowed, e);
    BlockMeaning(sentences[0], allowed);
    PiecesNotBlank(sentences[1..], allowed);
    TextOfAppend(Texts(block), Texts(rest[..f]));
    TextOfSome(Texts(rest[..f]));
  }

  /** A shift by one sentence. */
  lemma ShiftEnds(sentences: seq<string>, allowed: nat, told: string, rest: string, m: nat)
    requires sentences != [] && told == NonSpace(sentences[0]) + rest && rest != ""
    ensures 1 <= m <= |sentences| && told == TextOf(sentences[..m]) <==>
            2 <= m <= |sentences| && rest == TextOf(sentences[1..][..m - 1])
  {
    hide NonSpace, TextOf;
    if 1 <= m <= |sentences| {
      TextGrows(sentences, m);
      Cancel(NonSpace(sentences[0]), rest, TextOf(sentences[1..][..m - 1]));
      assert sentences[1..][..0] == [];
      NothingTold();
    }
  }

  lemma Cancel(a: string, x: string, y: string)
    ensures a + x == a + y <==> x == y
  {
    assert (a + x)[|a|..] == x && (a + y)[|a|..] == y;
  }

  lemma LaterEnds(sentences: seq<string>, allowed: nat, e: nat, m: nat)
    requires forall i :: 0 <= i < |sentences| ==> !Blank(sentences[i])
    requires sentences != [] && |BlockOf(sentences[0], allowed)| < e <= |Pieces(sentences, allowed)|
    requires e - |BlockOf(sentences[0], allowed)| <= |Pieces(sentences[1..], allowed)|
    ensures EndsWith(sentences, allowed, e, m) <==>
            m >= 1 && EndsWith(sentences[1..], allowed, e - |BlockOf(sentences[0], allowed)|, m - 1)
  {
    hide Blank, NonSpace, FitsWhole, TextOf, BlockOf, Pieces, Texts;
    LaterText(sentences, allowed, e);
    var f := e - |BlockOf(sentences[0], allowed)|;
    ShiftEnds(sentences, allowed, TextOf(Texts(Pieces(sentences, allowed)[..e])), TextOf(Texts(Pieces(sentences[1..], allowed)[..f])), m);
    assert 2 <= m <= |sentences| ==> sentences[1..][m - 2] == sentences[m - 1];
  }

  ghost predicate SomeEnds(sentences: seq<string>, allowed: nat, e: nat)
    requires e <= |Pieces(sentences, allowed)|
  {
    exists m: nat :: EndsWith(sentences, allowed, e, m)
  }

  lemma LaterEndsIff(sentences: seq<string>, allowed: nat, e: nat)
    requires forall i :: 0 <= i < |sentences| ==> !Blank(sentences[i])
    requires sentences != [] && |BlockOf(sentences[0], allowed)| < e <= |Pieces(sentences, allowed)|
    requires e - |BlockOf(sentences[0], allowed)| <= |Pieces(sentences[1..], allowed)|
    ensures SomeEnds(sentences, allowed, e) <==> SomeEnds(sentences[1..], allowed, e - |BlockOf(sentences[0], allowed)|)
  {
    hide EndsWith, Blank, BlockOf, Pieces;
    var f := e - |BlockOf(sentences[0], allowed)|;
    forall m: nat ensures EndsWith(sentences, allowed, e, m) <==> m >= 1 && EndsWith(sentences[1..], allowed, f, m - 1) {
      LaterEnds(sentences, allowed, e, m);
    }
    if SomeEnds(sentences[1..], allowed, f) {
      var m: nat :| EndsWith(sentences[1..], allowed, f, m);
      assert EndsWith(sentences, allowed, e, m + 1);
    }
  }

  lemma FirstEnds(sentences: seq<string>, allowed: nat)
    requires sentences != [] && !Blank(sentences[0]) && FitsWhole(sentences[0], allowed) && 1 <= |Pieces(sentences, allowed)|
    ensures Pieces(sentences, allowed)[0].complete && SomeEnds(sentences, allowed, 1)
  {
    hide Blank, NonSpace, FitsWhole, TextOf, BlockOf;
    PiecesOfBlock(sentences, allowed);
    BlockMeaning(sentences[0], allowed);
    hide Pieces;
    var block, rest := BlockOf(sentences[0], allowed), Pieces(sentences[1..], allowed);
    assert (block + rest)[..1] == block && sentences[..1] == [sentences[0]];
    TextOfOne(sentences[0]);
    assert EndsWith(sentences, allowed, 1, 1);
  }

  lemma CutBlockEndsNone(sentences: seq<string>, allowed: nat, e: nat)
    requires forall i :: 0 <= i < |sentences| ==> !Blank(sentences[i])
    requires sentences != [] && !FitsWhole(sentences[0], allowed) && e <= |BlockOf(sentences[0], allowed)|
    requires |BlockOf(sentences[0], allowed)| <= |Pieces(sentences, allowed)|
    ensures !SomeEnds(sentences, allowed, e)
  {
    hide Blank, FitsWhole, BlockOf, Pieces, EndsWith;
    forall m: nat ensures !EndsWith(sentences, allowed, e, m) {
      CutBlockEndsNothing(sentences, allowed, e, m);
    }
  }

  /** A piece is whole exactly when a sentence that fits ends with it. */
  /** The case of a piece of the first sentence. */
  lemma FirstCompleteIff(sentences: seq<string>, allowed: nat, e: nat)
    requires forall i :: 0 <= i < |sentences| ==> !Blank(sentences[i])
    requires sentences != [] && 1 <= e <= |BlockOf(sentences[0], allowed)| <= |Pieces(sentences, allowed)|
    ensures Pieces(sentences, allowed)[e - 1].complete <==> SomeEnds(sentences, allowed, e)
  {
    hide Blank, NonSpace, FitsWhole, BlockOf, Pieces, SomeEnds, Texts, TextOf;
    PiecesOfBlock(sentences, allowed);
    BlockMeaning(sentences[0], allowed);
    var block := BlockOf(sentences[0], allowed);
    if FitsWhole(sentences[0], allowed) {
      FirstEnds(sentences, allowed);
    } else {
      assert Pieces(sentences, allowed)[e - 1] == block[e - 1];
      CutBlockEndsNone(sentences, allowed, e);
    }
  }

  /** A piece of a later sentence is one of the remaining ones. */
  lemma LaterIs(sentences: seq<string>, allowed: nat, e: nat) returns (f: nat)
    requires sentences != [] && |BlockOf(sentences[0], allowed)| < e <= |Pieces(sentences, allowed)|
    ensures f == e - |BlockOf(sentences[0], allowed)| && 1 <= f <= |Pieces(sentences[1..], allowed)|
    ensures Pieces(sentences, allowed)[e - 1] == Pieces(sentences[1..], allowed)[f - 1]
  {
    hide BlockOf, Pieces, Texts;
    LaterPiece(sentences, allowed, e);
    f := e - |BlockOf(sentences[0], allowed)|;
  }

  lemma {:induction false} CompleteIff(sentences: seq<string>, allowed: nat, e: nat)
    requires forall i :: 0 <= i < |sentences| ==> !Blank(sentences[i])
    requires sentences != [] && 1 <= e <= |Pieces(sentences, allowed)|
    ensures Pieces(sentences, allowed)[e - 1].complete <==> SomeEnds(sentences, allowed, e)
  {
    hide Blank, BlockOf, Pieces, SomeEnds;
    if e > |BlockOf(sentences[0], allowed)| {
      var f := LaterIs(sentences, allowed, e);
      LaterEndsIff(sentences, allowed, e);
      NoPieces(sentences[1..], allowed);
      CompleteIff(sentences[1..], allowed, f);
    } else {
      PiecesOfBlock(sentences, allowed);
      FirstCompleteIff(sentences, allowed, e);
    }
  }

  lemma NoPieces(sentences: seq<string>, allowed: nat)
    ensures Pieces(sentences, allowed) != [] ==> sentences != []
  {
  }

  lemma PackCons(pieces: seq<Piece>, index: nat, carry: Option<string>, allowed: nat, overlap: nat)
    requires index <= |pieces| && Pack(pieces, index, carry, allowed, overlap) != []
    ensures index < |pieces|
    ensures var (packed, next) := NextPacked(pieces, index, carry, allowed);
            && packed.added == Texts(pieces[index..next]) && packed.endsWhole == pieces[next - 1].complete
            && Pack(pieces, index, carry, allowed, overlap)
               == [packed] + Pack(pieces, next, NextCarry(packed, next < |pieces|, overlap), allowed, overlap)
  {
  }

  lemma AddedCons(packed: Packed, rest: seq<Packed>, k: nat)
    requires k <= |rest|
    ensures AllAdded(([packed] + rest)[..k + 1]) == packed.added + AllAdded(rest[..k])
    ensures k == 0 ==> AllAdded(([packed] + rest)[..k + 1]) == packed.added
  {
    assert ([packed] + rest)[..k + 1] == [packed] + rest[..k];
    assert ([packed] + rest[..k])[1..] == rest[..k];
    if k == 0 {
      assert rest[..0] == [] && packed.added + [] == packed.added;
    }
  }

  /** The `k`-th chunk ends with the piece before `end`. */
  ghost predicate EndsAt(packs: seq<Packed>, pieces: seq<Piece>, index: nat, end: nat, k: nat) {
    && k < |packs| && index < end <= |pieces| && packs[k].endsWhole == pieces[end - 1].complete
    && AllAdded(packs[..k + 1]) == Texts(pieces[index..end])
  }

  lemma FirstEndsAt(packed: Packed, rest: seq<Packed>, pieces: seq<Piece>, index: nat, next: nat)
    requires index < next <= |pieces| && packed.added == Texts(pieces[index..next]) && packed.endsWhole == pieces[next - 1].complete
    ensures EndsAt([packed] + rest, pieces, index, next, 0)
  {
    AddedCons(packed, rest, 0);
    hide AllAdded, Texts;
  }

  lemma LaterEndsAt(packed: Packed, rest: seq<Packed>, pieces: seq<Piece>, index: nat, next: nat, end: nat, k: nat)
    requires index < next <= |pieces| && packed.added == Texts(pieces[index..next]) && EndsAt(rest, pieces, next, end, k)
    ensures EndsAt([packed] + rest, pieces, index, end, k + 1)
  {
    AddedCons(packed, rest, k + 1);
    assert pieces[index..end] == pieces[index..next] + pieces[next..end];
    TextsAppend(pieces[index..next], pieces[next..end]);
    hide AllAdded, Texts;
  }

  lemma {:induction false} PackEndsAt(pieces: seq<Piece>, index: nat, carry: Option<string>, allowed: nat, overlap: nat, k: nat)
    returns (end: nat)
    requires index <= |pieces| && k < |Pack(pieces, index, carry, allowed, overlap)|
    ensures EndsAt(Pack(pieces, index, carry, allowed, overlap), pieces, index, end, k)
    decreases |pieces| - index
  {
    PackCons(pieces, index, carry, allowed, overlap);
    hide NextPacked, NextCarry, Pack, EndsAt, Texts;
    var (packed, next) := NextPacked(pieces, index, carry, allowed);
    var more := NextCarry(packed, next < |pieces|, overlap);
    var rest := Pack(pieces, next, more, allowed, overlap);
    if k == 0 {
      end := next;
      FirstEndsAt(packed, rest, pieces, index, next);
    } else {
      end := PackEndsAt(pieces, next, more, allowed, overlap, k - 1);
      LaterEndsAt(packed, rest, pieces, index, next, end, k - 1);
    }
  }

  /** A chunk may hand on an overlap exactly when its last new piece ends a sentence that fits the budget:
      when the new pieces of all chunks so far are the text of some first sentences, the last of which fits. */
  lemma EndsWholeIff(text: string, allowed: nat, overlap: nat, k: nat)
    requires k < |ParagraphPacks(text, allowed, overlap)|
    ensures var packs, sentences := ParagraphPacks(text, allowed, overlap), SentencePieces(text);
            packs[k].endsWhole <==>
              exists m :: 1 <= m <= |sentences| && FitsWhole(sentences[m - 1], allowed)
                          && TextOf(AllAdded(packs[..k + 1])) == TextOf(sentences[..m])
  {
    var sentences := SentencePieces(text);
    var pieces := Pieces(sentences, allowed);
    SentencesMeaning(text);
    var end := PackEndsAt(pieces, 0, None, allowed, overlap, k);
    CompleteIff(sentences, allowed, end);
    hide Blank, FitsWhole, TextOf, Pieces, Pack, Texts, AllAdded, SentencePieces;
    assert pieces[0..end] == pieces[..end];
    var packs := ParagraphPacks(text, allowed, overlap);
    if packs[k].endsWhole {
      var m: nat :| EndsWith(sentences, allowed, end, m);
      assert FitsWhole(sentences[m - 1], allowed);
    }
    forall m | 1 <= m <= |sentences| && FitsWhole(sentences[m - 1], allowed)
               && TextOf(AllAdded(packs[..k + 1])) == TextOf(sentences[..m])
      ensures packs[k].endsWhole
    {
      assert EndsWith(sentences, allowed, end, m);
    }
  }

  // ----- a carried slice -----

  const SAMPLE := "aaaaaa!b!c"

  predicate IsLetter(c: char) {
    'a' <= c <= 'z'
  }

  /** Letters and exclamation marks weigh two fifths each. */
  predicate IsLatin(s: string) {
    forall i :: 0 <= i < |s| ==> IsLetter(s[i]) || s[i] == '!'
  }

  lemma {:induction false} LatinFifths(s: string)
    requires IsLatin(s)
    ensures Fifths(s) == 2 * |s|
  {
    if s != "" {
      LatinFifths(s[1..]);
    }
  }

  lemma LatinUnits(s: string)
    requires IsLatin(s)
    ensures Units(s) == (2 * |s| + 4) / 5
  {
    LatinFifths(s);
  }

  lemma LatinTrimmed(s: string)
    requires IsLatin(s)
    ensures Trimmed(s) && Strip(s) == s && LStrip(s) == s && (s != "" ==> !Blank(s))
  {
    assert s != "" ==> IsLetter(s[0]) || s[0] == '!';
    assert s != "" ==> IsLetter(s[|s| - 1]) || s[|s| - 1] == '!';
    StripOfTrimmed(s);
  }

  lemma LatinStripUnits(s: string)
    requires IsLatin(s)
    ensures Units(Strip(s)) == (2 * |s| + 4) / 5
  {
    hide Units, Strip;
    LatinTrimmed(s);
    LatinUnits(s);
  }

  lemma {:induction false} SkipLetters(text: string, start: nat, i: nat, k: nat)
    requires start <= i <= k <= |text| && forall j :: i <= j < k ==> IsLetter(text[j])
    ensures RawFrom(text, start, i) == RawFrom(text, start, k)
    decreases k - i
  {
    if i < k {
      assert IsLetter(text[i]);
      SkipLetters(text, start, i + 1, k);
    }
  }

  lemma OneStop(text: string, start: nat, i: nat)
    requires start <= i < |text| && text[i] == '!' && (i + 1 == |text| || IsLetter(text[i + 1]))
    ensures RawFrom(text, start, i) == [text[start..i + 1]] + RawFrom(text, i + 1, i + 1)
  {
    assert RunEnd(text, i, IsStop) == i + 1;
  }

  lemma SampleRaw()
    ensures RawFrom(SAMPLE, 0, 0) == ["aaaaaa!", "b!", "c"]
  {
    hide RawFrom;
    SkipLetters(SAMPLE, 0, 0, 6);
    OneStop(SAMPLE, 0, 6);
    SkipLetters(SAMPLE, 7, 7, 8);
    OneStop(SAMPLE, 7, 8);
    SkipLetters(SAMPLE, 9, 9, 10);
    RawEnd(SAMPLE, 9);
    assert SAMPLE[0..7] == "aaaaaa!" && SAMPLE[7..9] == "b!" && SAMPLE[9..] == "c";
  }

  lemma RawEnd(text: string, start: nat)
    requires start <= |text|
    ensures RawFrom(text, start, |text|) == [text[start..]]
  {
  }

  lemma FoldThree(a: string, b: string, c: string)
    requires !Blank(a) && !Blank(b) && !Blank(c)
    ensures FoldBlank([a, b, c], "") == ([a, b, c], "")
  {
    assert FoldBlank([], "") == ([], "");
    FoldOne(c, []);
    FoldOne(b, [c]);
    FoldOne(a, [b, c]);
    hide FoldBlank, Blank;
    assert [c] + [] == [c] && [b] + [c] == [b, c] && [a] + [b, c] == [a, b, c];
  }

  lemma PiecesOfFold(text: string, pieces: seq<string>)
    requires FoldBlank(RawFrom(text, 0, 0), "") == (pieces, "") && pieces != []
    ensures SentencePieces(text) == pieces
  {
    var last := |pieces| - 1;
    assert pieces[last] + "" == pieces[last];
  }

  lemma SampleSentences()
    ensures SentencePieces(SAMPLE) == ["aaaaaa!", "b!", "c"]
  {
    hide RawFrom, Blank, FoldBlank, SentencePieces;
    SampleRaw();
    LatinTrimmed("aaaaaa!");
    LatinTrimmed("b!");
    LatinTrimmed("c");
    FoldThree("aaaaaa!", "b!", "c");
    PiecesOfFold(SAMPLE, ["aaaaaa!", "b!", "c"]);
  }

  /** A text that is cut once. */
  lemma TwoSlices(s: string, x: string, y: string, allowed: nat)
    requires s == x + y && s != "" && Strip(s) == s && LStrip(y) == y
    requires Units(s) > allowed && CutPoint(s, allowed) == |x| && Units(y) <= allowed && !Blank(x) && !Blank(y)
    ensures CharSlices(s, allowed) == [x, y]
  {
    hide Units, Blank, CutPoint, Strip, LStrip;
    assert s[..|x|] == x && s[|x|..] == y;
    assert SlicesFrom(y, allowed) == [y];
    assert SlicesFrom(s, allowed) == [x, y];
    assert [x, y][1..] == [y] && [y][1..] == [];
    assert DropBlank([]) == [] && DropBlank([y]) == [y];
  }

  lemma SampleSlices()
    ensures CharSlices("aaaaaa!", 2) == ["aaaaa", "a!"]
  {
    hide Units, Blank, CutPoint, Strip, LStrip, CharSlices;
    LatinTrimmed("aaaaaa!");
    LatinUnits("aaaaaa!");
    LatinTrimmed("a!");
    LatinUnits("a!");
    LatinTrimmed("aaaaa");
    SampleCut();
    TwoSlices("aaaaaa!", "aaaaa", "a!", 2);
  }

  lemma SampleCut()
    ensures CutPoint("aaaaaa!", 2) == 5
  {
    var s := "aaaaaa!";
    LatinUnits(s[..5]);
    LatinUnits(s[..6]);
    assert s[..0] == "";
    var fit := FitFrom(s, 2, 0);
    hide FitFrom, Units;
    if fit > 5 {
      UnitsPrefix(s, 6, fit);
    }
    assert fit == 5;
    assert forall k :: 0 <= k < 5 ==> s[..5][k] == 'a';
  }

  /** A long sentence in two slices, then two that stay whole. */
  function FourPieces(x: string, y: string, b: string, c: string): seq<Piece> {
    [Piece(x, false), Piece(y, false), Piece(b, true), Piece(c, true)]
  }

  lemma PiecesOfThree(a: string, b: string, c: string, x: string, y: string, allowed: nat)
    requires Units(Strip(a)) > allowed && CharSlices(a, allowed) == [x, y]
    requires Units(Strip(b)) <= allowed && Units(Strip(c)) <= allowed
    ensures Pieces([a, b, c], allowed) == FourPieces(x, y, b, c)
  {
    hide Units, Strip, CharSlices;
    assert [c][1..] == [] && [b, c][1..] == [c] && [a, b, c][1..] == [b, c];
    assert Pieces([], allowed) == [];
    assert Pieces([c], allowed) == [Piece(c, true)];
    assert Pieces([b, c], allowed) == [Piece(b, true), Piece(c, true)];
    assert [x, y][1..] == [y] && [y][1..] == [];
    assert Slices([]) == [] && Slices([y]) == [Piece(y, false)];
    assert Slices([x, y]) == [Piece(x, false), Piece(y, false)];
  }

  lemma SamplePieces()
    ensures Pieces(SentencePieces(SAMPLE), 2) == FourPieces("aaaaa", "a!", "b!", "c")
  {
    hide Units, Strip, CharSlices, Pieces, SentencePieces;
    SampleSentences();
    SampleSlices();
    LatinStripUnits("aaaaaa!");
    LatinStripUnits("b!");
    LatinStripUnits("c");
    PiecesOfThree("aaaaaa!", "b!", "c", "aaaaa", "a!", 2);
  }

  // ----- how the four pieces are packed -----

  lemma FillOne(pieces: seq<Piece>, index: nat, used: nat, allowed: nat)
    requires index < |pieces|
    ensures FillEnd(pieces, index, used, allowed)
         == if used + Units(pieces[index].text) <= allowed then FillEnd(pieces, index + 1, used + Units(pieces[index].text), allowed)
            else index
  {
  }

  /** A slice that fills a chunk, a slice and a sentence that fill the next, and a last sentence for
      which these two leave room when their lengths are rounded once. */
  ghost predicate RoundsUp(x: string, y: string, b: string, c: string, allowed: nat) {
    && Units(x) <= allowed < Units(x) + Units(y)
    && Units(y) + Units(b) <= allowed < Units(y) + Units(b) + Units(c)
    && Units(y + b + c) <= allowed
  }

  lemma FirstPack(x: string, y: string, b: string, c: string, allowed: nat)
    requires RoundsUp(x, y, b, c, allowed)
    ensures NextPacked(FourPieces(x, y, b, c), 0, None, allowed) == (Packed("", [x], false), 1)
  {
    var pieces := FourPieces(x, y, b, c);
    UnitsOfNone();
    FillOne(pieces, 0, 0, allowed);
    FillOne(pieces, 1, Units(x), allowed);
    hide Units, FillEnd;
    assert pieces[0..1] == [pieces[0]];
    TextsOne(pieces[0]);
  }

  lemma SecondPack(x: string, y: string, b: string, c: string, allowed: nat)
    requires RoundsUp(x, y, b, c, allowed)
    ensures NextPacked(FourPieces(x, y, b, c), 1, None, allowed) == (Packed("", [y, b], true), 3)
  {
    var pieces := FourPieces(x, y, b, c);
    UnitsOfNone();
    FillOne(pieces, 1, 0, allowed);
    FillOne(pieces, 2, Units(y), allowed);
    FillOne(pieces, 3, Units(y) + Units(b), allowed);
    hide Units, FillEnd, Texts;
    assert FillEnd(pieces, 1, 0, allowed) == 3;
    assert Texts(pieces[1..3]) == [y, b] by {
      TextsPush(pieces, 1, 2);
      assert pieces[1..2] == [pieces[1]];
      TextsOne(pieces[1]);
      assert [y] + [b] == [y, b];
    }
    assert Units("") == 0;
  }

  lemma ThirdPack(x: string, y: string, b: string, c: string, allowed: nat)
    requires RoundsUp(x, y, b, c, allowed)
    ensures var (packed, end) := NextPacked(FourPieces(x, y, b, c), 3, Some(y + b), allowed); packed.carry == y + b
  {
    hide Units, FillEnd, Texts;
  }

  lemma LastTwo(y: string, b: string, overlap: nat)
    requires overlap >= 2
    ensures Concat(LastN([y, b], overlap)) == y + b
  {
    assert LastN([y, b], overlap) == [y, b];
    assert [y, b][1..] == [b];
    ConcatOne(b);
  }

  lemma ThirdCarries(x: string, y: string, b: string, c: string, allowed: nat, overlap: nat)
    requires RoundsUp(x, y, b, c, allowed) && overlap >= 2
    ensures exists p :: p in Pack(FourPieces(x, y, b, c), 0, None, allowed, overlap) && p.carry == y + b
  {
    var pieces := FourPieces(x, y, b, c);
    FirstPack(x, y, b, c, allowed);
    SecondPack(x, y, b, c, allowed);
    ThirdPack(x, y, b, c, allowed);
    LastTwo(y, b, overlap);
    hide NextPacked, RoundsUp, Concat, LastN;
    var third := Pack(pieces, 3, Some(y + b), allowed, overlap);
    assert third[0].carry == y + b;
    var second := Pack(pieces, 1, None, allowed, overlap);
    assert second == [Packed("", [y, b], true)] + third;
    var all := Pack(pieces, 0, None, allowed, overlap);
    assert all == [Packed("", [x], false)] + second;
    assert all[2] == third[0];
  }

  lemma SampleRounds()
    ensures RoundsUp("aaaaa", "a!", "b!", "c", 2)
  {
    LatinUnits("aaaaa");
    LatinUnits("a!");
    LatinUnits("b!");
    LatinUnits("c");
    LatinUnits("a!" + "b!");
    LatinUnits("a!" + "b!" + "c");
    hide Units;
  }

  /** The stretches of three sentences of seven, two and one characters are never four characters long. */
  lemma NoStretch(a: string, b: string, c: string, text: string)
    requires |a| == 7 && |b| == 2 && |c| == 1 && |text| == 4
    ensures !IsWhole(text, [a, b, c])
  {
    var s := [a, b, c];
    forall i, j | 0 <= i <= j <= 3 ensures |Concat(s[i..j])| != 4 {
      StretchLength(s, i, j);
    }
  }

  lemma StretchLength(s: seq<string>, i: nat, j: nat)
    requires i <= j <= |s| == 3
    ensures |Concat(s[i..j])| == (if i <= 0 < j then |s[0]| else 0) + (if i <= 1 < j then |s[1]| else 0)
                                 + (if i <= 2 < j then |s[2]| else 0)
  {
    if i < j {
      assert s[i..j] == s[i..j - 1] + [s[j - 1]];
      ConcatPush(s[i..j - 1], s[j - 1]);
      StretchLength(s, i, j - 1);
    } else {
      assert s[i..j] == [];
    }
  }

  /** With any larger overlap, only the last carried piece is checked: under a budget of two units the
      sample's last chunk opens with a slice of the first sentence. */
  lemma LargerOverlapCarriesSlice(overlap: nat)
    requires overlap >= 2
    ensures exists p :: p in ParagraphPacks(SAMPLE, 2, overlap) && p.carry == "a!b!"
    ensures !CarriesWhole(SAMPLE, 2, overlap)
  {
    SampleSentences();
    SamplePieces();
    SampleRounds();
    hide SentencePieces, Pieces, Pack, IsWhole, RoundsUp;
    ThirdCarries("aaaaa", "a!", "b!", "c", 2, overlap);
    assert "a!" + "b!" == "a!b!";
    NoStretch("aaaaaa!", "b!", "c", "a!b!");
  }

  /** So openings are made of whole sentences, for every text and budget, exactly with an overlap of at
      most one. */
  lemma OverlapIsWholeIff(overlap: nat)
    ensures (forall text: string, allowed: nat :: CarriesWhole(text, allowed, overlap)) <==> overlap <= 1
  {
    hide CarriesWhole;
    if overlap <= 1 {
      forall text: string, allowed: nat ensures CarriesWhole(text, allowed, overlap) {
        SmallOverlapIsWhole(text, allowed, overlap);
      }
    } else {
      LargerOverlapCarriesSlice(overlap);
    }
  }
}
