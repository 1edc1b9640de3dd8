/** Packing the sentence pieces of a paragraph greedily into chunks, each of which may
    open with the last sentences of the chunk before it. */
module Paragraphs {
  import opened Wrappers
  import opened Text
  import opened Sentences

  /** A piece to pack; `complete` tells a whole sentence from a slice of an oversized one. */
  datatype Piece = Piece(text: string, complete: bool)

  /** What one chunk is made of: the text carried over from the chunk before, then the new
      pieces; `endsWhole` says that the last of them is a whole sentence. */
  datatype Packed = Packed(carry: string, added: seq<string>, endsWhole: bool) {
    function Whole(): string {
      carry + Concat(added)
    }
  }

  function Slices(parts: seq<string>): seq<Piece> {
    if parts == [] then [] else [Piece(parts[0], false)] + Slices(parts[1..])
  }

  /** Sentences that fit stay whole, the others are sliced. */
  function Pieces(sentences: seq<string>, allowed: nat): seq<Piece> {
    if sentences == [] then []
    else if Units(Strip(sentences[0])) <= allowed then
      [Piece(sentences[0], true)] + Pieces(sentences[1..], allowed)
    else
      Slices(CharSlices(sentences[0], allowed)) + Pieces(sentences[1..], allowed)
  }

  function Texts(pieces: seq<Piece>): seq<string> {
    if pieces == [] then [] else [pieces[0].text] + Texts(pieces[1..])
  }

  /** The last `n` elements, or all of them when there are fewer. */
  function LastN<T>(s: seq<T>, n: nat): seq<T> {
    if n <= |s| then s[|s| - n..] else s
  }

  /** How far greedy filling gets from `index` when `used` units are taken. */
  function FillEnd(pieces: seq<Piece>, index: nat, used: nat, allowed: nat): (e: nat)
    requires index <= |pieces|
    ensures index <= e <= |pieces|
    decreases |pieces| - index
  {
    if index < |pieces| && used + Units(pieces[index].text) <= allowed
    then FillEnd(pieces, index + 1, used + Units(pieces[index].text), allowed)
    else index
  }

  predicate CarryFits(carry: Option<string>, piece: Piece, allowed: nat) {
    carry.Some? && Units(carry.value + piece.text) <= allowed
  }

  /** One chunk from `index` on: what it holds, and where the next one starts. */
  function NextPacked(pieces: seq<Piece>, index: nat, carry: Option<string>, allowed: nat): (r: (Packed, nat))
    requires index < |pieces|
    ensures index < r.1 <= |pieces|
  {
    var opening := if CarryFits(carry, pieces[index], allowed) then carry.value else "";
    var filled := FillEnd(pieces, index, Units(opening), allowed);
    var end := if filled == index then index + 1 else filled;
    (Packed(opening, Texts(pieces[index..end]), pieces[end - 1].complete), end)
  }

  /** What the next chunk may open with: the last `overlap` new pieces, unless the last of
      them is a slice. */
  function NextCarry(packed: Packed, more: bool, overlap: nat): Option<string> {
    if overlap > 0 && more && packed.endsWhole then Some(Concat(LastN(packed.added, overlap))) else None
  }

  function Pack(pieces: seq<Piece>, index: nat, carry: Option<string>, allowed: nat, overlap: nat): seq<Packed>
    requires index <= |pieces|
    decreases |pieces| - index
  {
    if index == |pieces| then []
    else
      var (packed, end) := NextPacked(pieces, index, carry, allowed);
      [packed] + Pack(pieces, end, NextCarry(packed, end < |pieces|, overlap), allowed, overlap)
  }

  function ParagraphPacks(text: string, allowed: nat, overlap: nat): seq<Packed> {
    Pack(Pieces(SentencePieces(text), allowed), 0, None, allowed, overlap)
  }

  /** The chunk texts: each pack stripped, blank ones dropped. */
  function Emitted(packs: seq<Packed>): seq<string> {
    if packs == [] then []
    else if Strip(packs[0].Whole()) == "" then Emitted(packs[1..])
    else [Strip(packs[0].Whole())] + Emitted(packs[1..])
  }

  function ParagraphChunks(text: string, allowed: nat, overlap: nat): seq<string> {
    Emitted(ParagraphPacks(text, allowed, overlap))
  }

  // ----- the loops -----

  method CollectPieces(sentences: seq<string>, allowed: nat) returns (pieces: seq<Piece>)
    ensures pieces == Pieces(sentences, allowed)
  {
    hide Units, Strip, CharSlices;
    pieces := [];
    ghost var goal := Pieces(sentences, allowed);
    for i := 0 to |sentences|
      invariant pieces + Pieces(sentences[i..], allowed) == goal
    {
      assert sentences[i..][1..] == sentences[i + 1..];
      ghost var rest := Pieces(sentences[i + 1..], allowed);
      if Units(Strip(sentences[i])) <= allowed {
        Regroup(pieces, [Piece(sentences[i], true)], rest);
        pieces := pieces + [Piece(sentences[i], true)];
      } else {
        var slices := SliceChars(sentences[i], allowed);
        Regroup(pieces, Slices(slices), rest);
        pieces := AddSlices(pieces, slices);
      }
    }
  }

  method AddSlices(pieces: seq<Piece>, slices: seq<string>) returns (all: seq<Piece>)
    ensures all == pieces + Slices(slices)
  {
    all := pieces;
    for j := 0 to |slices|
      invariant all + Slices(slices[j..]) == pieces + Slices(slices)
    {
      assert slices[j..][1..] == slices[j + 1..];
      Regroup(all, [Piece(slices[j], false)], Slices(slices[j + 1..]));
      all := all + [Piece(slices[j], false)];
    }
  }

  lemma NothingYet()
    ensures Concat([]) == "" && Texts([]) == []
  {
  }

  method FillChunk(pieces: seq<Piece>, start: nat, carry: Option<string>, allowed: nat)
    returns (parts: seq<string>, added: seq<string>, index: nat)
    requires start < |pieces|
    ensures var (packed, end) := NextPacked(pieces, start, carry, allowed);
            && Concat(parts) == packed.Whole() && added == packed.added && index == end
            && packed.endsWhole == pieces[index - 1].complete
  {
    hide Units, Concat, Texts;
    UnitsOfNone();
    NothingYet();
    parts, added, index := [], [], start;
    assert pieces[start..start] == [];
    var used: nat := 0;
    if carry.Some? && Units(carry.value + pieces[index].text) <= allowed {
      parts := [carry.value];
      used := Units(carry.value);
      ConcatOne(carry.value);
    }
    ghost var opening := parts;
    ghost var reach := FillEnd(pieces, start, used, allowed);
    while index < |pieces| && used + Units(pieces[index].text) <= allowed
      invariant start <= index <= |pieces|
      invariant parts == opening + added && added == Texts(pieces[start..index])
      invariant FillEnd(pieces, index, used, allowed) == reach
    {
      TextsPush(pieces, start, index);
      parts, added := parts + [pieces[index].text], added + [pieces[index].text];
      used := used + Units(pieces[index].text);
      index := index + 1;
    }
    if index == start {
      TextsPush(pieces, start, index);
      parts, added := parts + [pieces[index].text], added + [pieces[index].text];
      index := index + 1;
    }
    assert parts == opening + added;
    ConcatAppend(opening, added);
    assert NextPacked(pieces, start, carry, allowed).0.carry == Concat(opening);
    assert NextPacked(pieces, start, carry, allowed).0.added == added;
    assert NextPacked(pieces, start, carry, allowed).1 == index;
  }

  method PackPieces(pieces: seq<Piece>, allowed: nat, overlap: nat) returns (chunks: seq<string>)
    ensures chunks == Emitted(Pack(pieces, 0, None, allowed, overlap))
  {
    hide Strip, Concat, NextPacked;
    chunks := [];
    var carry, index := None, 0;
    ghost var goal := Emitted(Pack(pieces, 0, None, allowed, overlap));
    while index < |pieces|
      invariant index <= |pieces|
      invariant chunks + Emitted(Pack(pieces, index, carry, allowed, overlap)) == goal
      decreases |pieces| - index
    {
      var parts, added, end := FillChunk(pieces, index, carry, allowed);
      PackStep(chunks, pieces, index, carry, allowed, overlap);
      carry := if overlap > 0 && end < |pieces| && pieces[end - 1].complete
               then Some(Concat(LastN(added, overlap))) else None;
      index := end;
      var out := Strip(Concat(parts));
      if out != "" {
        chunks := chunks + [out];
      }
    }
  }

  method PackParagraph(text: string, allowed: nat, overlap: nat) returns (chunks: seq<string>)
    ensures chunks == ParagraphChunks(text, allowed, overlap)
  {
    var sentences := SplitSentences(text);
    var pieces := CollectPieces(sentences, allowed);
    chunks := PackPieces(pieces, allowed, overlap);
  }

  lemma PackStep(done: seq<string>, pieces: seq<Piece>, index: nat, carry: Option<string>, allowed: nat, overlap: nat)
    requires index < |pieces|
    ensures var (packed, end) := NextPacked(pieces, index, carry, allowed);
            var rest := Emitted(Pack(pieces, end, NextCarry(packed, end < |pieces|, overlap), allowed, overlap));
            var out := Strip(packed.Whole());
            done + Emitted(Pack(pieces, index, carry, allowed, overlap)) == (if out != "" then done + [out] else done) + rest
  {
    var (packed, end) := NextPacked(pieces, index, carry, allowed);
    EmittedStep(done, packed, Pack(pieces, end, NextCarry(packed, end < |pieces|, overlap), allowed, overlap));
  }

  lemma EmittedStep(done: seq<string>, packed: Packed, rest: seq<Packed>)
    ensures var out := Strip(packed.Whole());
            done + Emitted([packed] + rest) == (if out != "" then done + [out] else done) + Emitted(rest)
  {
    assert ([packed] + rest)[1..] == rest;
  }

  lemma {:induction false} TextsAppend(a: seq<Piece>, b: seq<Piece>)
    ensures Texts(a + b) == Texts(a) + Texts(b)
  {
    if a == [] {
      assert a + b == b;
    } else {
      assert (a + b)[1..] == a[1..] + b;
      TextsAppend(a[1..], b);
    }
  }

  lemma TextsOne(piece: Piece)
    ensures Texts([piece]) == [piece.text]
  {
    assert [piece][1..] == [];
  }

  lemma TextsPush(pieces: seq<Piece>, start: nat, index: nat)
    requires start <= index < |pieces|
    ensures Texts(pieces[start..index + 1]) == Texts(pieces[start..index]) + [pieces[index].text]
  {
    assert pieces[start..index + 1] == pieces[start..index] + [pieces[index]];
    TextsAppend(pieces[start..index], [pieces[index]]);
    TextsOne(pieces[index]);
  }

  // ----- budget -----

  /** A piece that can stand alone in a chunk. */
  predicate Fits(piece: Piece, allowed: nat) {
    Units(Strip(piece.text)) <= allowed
  }

  lemma {:induction false} FilledFits(pieces: seq<Piece>, index: nat, used: nat, allowed: nat)
    requires index <= |pieces| && used <= allowed
    ensures var end := FillEnd(pieces, index, used, allowed);
            var total := used + TotalUnits(Texts(pieces[index..end]));
            total <= allowed && (end < |pieces| ==> total + Units(pieces[end].text) > allowed)
    decreases |pieces| - index
  {
    if index < |pieces| && used + Units(pieces[index].text) <= allowed {
      var next := used + Units(pieces[index].text);
      FilledFits(pieces, index + 1, next, allowed);
      var end := FillEnd(pieces, index + 1, next, allowed);
      assert pieces[index..end][1..] == pieces[index + 1..end];
      assert Texts(pieces[index..end])[1..] == Texts(pieces[index + 1..end]);
    } else {
      assert pieces[index..index] == [];
    }
  }

  lemma NextPackedFits(pieces: seq<Piece>, index: nat, carry: Option<string>, allowed: nat)
    requires index < |pieces| && Fits(pieces[index], allowed)
    ensures Units(Strip(NextPacked(pieces, index, carry, allowed).0.Whole())) <= allowed
  {
    var (packed, end) := NextPacked(pieces, index, carry, allowed);
    var opening := packed.carry;
    UnitsStrip(packed.Whole());
    var filled := FillEnd(pieces, index, Units(opening), allowed);
    if filled == index {
      assert pieces[index..end] == [pieces[index]];
      TextsOne(pieces[index]);
      ConcatOne(pieces[index].text);
      assert packed.Whole() == opening + pieces[index].text;
      if opening == "" {
        assert packed.Whole() == pieces[index].text;
      }
    } else {
      assert Units(opening) <= allowed by {
        if CarryFits(carry, pieces[index], allowed) {
          UnitsAppend(opening, pieces[index].text);
        }
      }
      FilledFits(pieces, index, Units(opening), allowed);
      UnitsConcat(packed.added);
      UnitsAppend(opening, Concat(packed.added));
    }
  }

  ghost predicate AllFit(packs: seq<Packed>, allowed: nat) {
    forall p :: p in packs ==> Units(Strip(p.Whole())) <= allowed
  }

  lemma {:induction false} PackFits(pieces: seq<Piece>, index: nat, carry: Option<string>, allowed: nat, overlap: nat)
    requires index <= |pieces|
    requires forall p :: p in pieces ==> Fits(p, allowed)
    ensures AllFit(Pack(pieces, index, carry, allowed, overlap), allowed)
    decreases |pieces| - index
  {
    if index < |pieces| {
      var (packed, end) := NextPacked(pieces, index, carry, allowed);
      NextPackedFits(pieces, index, carry, allowed);
      PackFits(pieces, end, NextCarry(packed, end < |pieces|, overlap), allowed, overlap);
    }
  }

  lemma {:induction false} SlicesMeaning(parts: seq<string>)
    ensures Texts(Slices(parts)) == parts
    ensures forall p :: p in Slices(parts) ==> p.text in parts && !p.complete
  {
    if parts != [] {
      SlicesMeaning(parts[1..]);
      assert Slices(parts)[1..] == Slices(parts[1..]);
    }
  }

  lemma {:induction false} PiecesMeaning(sentences: seq<string>, allowed: nat)
    ensures NonSpace(Concat(Texts(Pieces(sentences, allowed)))) == NonSpace(Concat(sentences))
    ensures allowed >= 1 ==> forall p :: p in Pieces(sentences, allowed) ==> Fits(p, allowed)
  {
    if sentences != [] {
      var first, rest := sentences[0], Pieces(sentences[1..], allowed);
      PiecesMeaning(sentences[1..], allowed);
      NonSpaceAppend(first, Concat(sentences[1..]));
      if Units(Strip(first)) <= allowed {
        assert Pieces(sentences, allowed)[1..] == rest;
        NonSpaceAppend(first, Concat(Texts(rest)));
      } else {
        var slices := CharSlices(first, allowed);
        SlicesMeaning(slices);
        CharSlicesMeaning(first, allowed);
        TextsAppend(Slices(slices), rest);
        ConcatAppend(slices, Texts(rest));
        NonSpaceAppend(Concat(slices), Concat(Texts(rest)));
        forall p | p in Slices(slices) && allowed >= 1 ensures Fits(p, allowed) {
          UnitsStrip(p.text);
        }
      }
    }
  }

  lemma {:induction false} EmittedMeaning(packs: seq<Packed>)
    ensures forall c :: c in Emitted(packs) ==>
              c != "" && exists p :: p in packs && c == Strip(p.Whole())
  {
    if packs != [] {
      EmittedMeaning(packs[1..]);
    }
  }

  /** Every chunk of a paragraph fits any budget of at least one unit. */
  lemma ParagraphFits(text: string, allowed: nat, overlap: nat)
    requires allowed >= 1
    ensures forall c :: c in ParagraphChunks(text, allowed, overlap) ==> c != "" && Units(c) <= allowed
  {
    var pieces := Pieces(SentencePieces(text), allowed);
    PiecesMeaning(SentencePieces(text), allowed);
    PackFits(pieces, 0, None, allowed, overlap);
    EmittedMeaning(ParagraphPacks(text, allowed, overlap));
  }

  // ----- conservation -----

  /** All new pieces of all chunks, in order. */
  function AllAdded(packs: seq<Packed>): seq<string> {
    if packs == [] then [] else packs[0].added + AllAdded(packs[1..])
  }

  lemma {:induction false} PackCoversPieces(pieces: seq<Piece>, index: nat, carry: Option<string>, allowed: nat, overlap: nat)
    requires index <= |pieces|
    ensures AllAdded(Pack(pieces, index, carry, allowed, overlap)) == Texts(pieces[index..])
    decreases |pieces| - index
  {
    if index < |pieces| {
      var (packed, end) := NextPacked(pieces, index, carry, allowed);
      assert packed.added == Texts(pieces[index..end]);
      hide NextPacked, NextCarry;
      PackCoversPieces(pieces, end, NextCarry(packed, end < |pieces|, overlap), allowed, overlap);
      assert pieces[index..] == pieces[index..end] + pieces[end..];
      TextsAppend(pieces[index..end], pieces[end..]);
    }
  }

  /** How a chunk follows the one before it. The earlier chunk had no room for the next piece,
      and the later one opens with the last `overlap` new pieces of the earlier one exactly
      when these end in a whole sentence and leave room for the first new piece. */
  ghost predicate Follows(before: Packed, after: Packed, allowed: nat, overlap: nat) {
    && before.added != [] && after.added != []
    && Units(before.carry) + TotalUnits(before.added) + Units(after.added[0]) > allowed
    && var tail := Concat(LastN(before.added, overlap));
       after.carry == if overlap > 0 && before.endsWhole && Units(tail + after.added[0]) <= allowed then tail else ""
  }

  ghost predicate Chained(packs: seq<Packed>, allowed: nat, overlap: nat) {
    forall k :: 0 < k < |packs| ==> Follows(packs[k - 1], packs[k], allowed, overlap)
  }

  lemma NextPackedRoom(pieces: seq<Piece>, index: nat, carry: Option<string>, allowed: nat)
    requires index < |pieces|
    ensures var (packed, end) := NextPacked(pieces, index, carry, allowed);
      && packed.added != [] && packed.added[0] == pieces[index].text
      && (end < |pieces| ==> Units(packed.carry) + TotalUnits(packed.added) + Units(pieces[end].text) > allowed)
  {
    var (packed, end) := NextPacked(pieces, index, carry, allowed);
    var opening := packed.carry;
    if FillEnd(pieces, index, Units(opening), allowed) == index {
      assert pieces[index..end] == [pieces[index]];
      TextsOne(pieces[index]);
      assert [pieces[index].text][1..] == [];
    } else {
      assert Units(opening) <= allowed by {
        if CarryFits(carry, pieces[index], allowed) {
          UnitsAppend(opening, pieces[index].text);
        }
      }
      FilledFits(pieces, index, Units(opening), allowed);
    }
  }

  lemma {:induction false} PackChained(pieces: seq<Piece>, index: nat, carry: Option<string>, allowed: nat, overlap: nat)
    requires index <= |pieces|
    ensures Chained(Pack(pieces, index, carry, allowed, overlap), allowed, overlap)
    decreases |pieces| - index
  {
    if index < |pieces| {
      var (packed, end) := NextPacked(pieces, index, carry, allowed);
      var next := NextCarry(packed, end < |pieces|, overlap);
      PackChained(pieces, end, next, allowed, overlap);
      NextPackedRoom(pieces, index, carry, allowed);
      if end < |pieces| {
        NextPackedRoom(pieces, end, next, allowed);
        assert Follows(packed, NextPacked(pieces, end, next, allowed).0, allowed, overlap);
      }
      var rest := Pack(pieces, end, next, allowed, overlap);
      var packs := [packed] + rest;
      forall k | 0 < k < |packs| ensures Follows(packs[k - 1], packs[k], allowed, overlap) {
        assert packs[k] == rest[k - 1] && (k > 1 ==> packs[k - 1] == rest[k - 2]);
      }
    }
  }

  /** No text of a paragraph is lost, repeated or reordered except for the openings: the new
      pieces of the chunks spell the paragraph, the first chunk opens with nothing, and each
      chunk follows the one before it as `Follows` says. */
  lemma ParagraphConserved(text: string, allowed: nat, overlap: nat)
    ensures var packs := ParagraphPacks(text, allowed, overlap);
      && NonSpace(Concat(AllAdded(packs))) == NonSpace(text)
      && (packs != [] ==> packs[0].carry == "")
      && Chained(packs, allowed, overlap)
  {
    var sentences := SentencePieces(text);
    var pieces := Pieces(sentences, allowed);
    SentencePiecesKeepText(text);
    if sentences == [] && Blank(text) {
      BlankIffNoText(text);
    }
    PiecesMeaning(sentences, allowed);
    PackCoversPieces(pieces, 0, None, allowed, overlap);
    PackChained(pieces, 0, None, allowed, overlap);
    assert pieces[0..] == pieces;
  }

  // ----- whole sentences in the overlap -----

  lemma {:induction false} WholePieces(sentences: seq<string>, allowed: nat)
    ensures forall p :: p in Pieces(sentences, allowed) && p.complete ==>
              p.text in sentences && Units(Strip(p.text)) <= allowed
  {
    if sentences != [] {
      WholePieces(sentences[1..], allowed);
      SlicesMeaning(CharSlices(sentences[0], allowed));
    }
  }

  lemma {:induction false} PackEnds(pieces: seq<Piece>, index: nat, carry: Option<string>, allowed: nat, overlap: nat)
    requires index <= |pieces|
    ensures forall p :: p in Pack(pieces, index, carry, allowed, overlap) ==>
              p.added != [] && Piece(p.added[|p.added| - 1], p.endsWhole) in pieces
    decreases |pieces| - index
  {
    if index < |pieces| {
      var (packed, end) := NextPacked(pieces, index, carry, allowed);
      PackEnds(pieces, end, NextCarry(packed, end < |pieces|, overlap), allowed, overlap);
      TextsPush(pieces, index, end - 1);
      assert packed.added[|packed.added| - 1] == pieces[end - 1].text;
      assert Piece(packed.added[|packed.added| - 1], packed.endsWhole) == pieces[end - 1];
    }
  }

  /** With the default overlap of one, a chunk opens with nothing or with one whole sentence
      of the paragraph, never with a slice. */
  lemma OverlapIsOneSentence(text: string, allowed: nat)
    ensures forall p :: p in ParagraphPacks(text, allowed, 1) ==>
              p.carry == "" || (p.carry in SentencePieces(text) && Units(Strip(p.carry)) <= allowed)
  {
    var pieces := Pieces(SentencePieces(text), allowed);
    var packs := ParagraphPacks(text, allowed, 1);
    ParagraphConserved(text, allowed, 1);
    PackEnds(pieces, 0, None, allowed, 1);
    WholePieces(SentencePieces(text), allowed);
    forall p | p in packs && p.carry != ""
      ensures p.carry in SentencePieces(text) && Units(Strip(p.carry)) <= allowed
    {
      hide ParagraphPacks, Follows, Pieces, SentencePieces, Strip, Units;
      var k :| 0 <= k < |packs| && packs[k] == p;
      var before := packs[k - 1];
      OneCarried(before, p, allowed);
      assert before in packs;
      assert Piece(p.carry, true) in pieces;
    }
  }

  lemma OneCarried(before: Packed, after: Packed, allowed: nat)
    requires Follows(before, after, allowed, 1) && after.carry != ""
    ensures before.endsWhole && after.carry == before.added[|before.added| - 1]
  {
    var last := before.added[|before.added| - 1];
    assert LastN(before.added, 1) == [last];
    ConcatOne(last);
  }
}
