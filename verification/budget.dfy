/** Exactly when every paragraph, and every table under a given header, is chunked within the budget. */
module Budget {
  import opened Wrappers
  import opened Text
  import opened Sentences
  import opened Paragraphs
  import opened Tables
  import opened Blocks

  /** One character of the weight of a whole unit. */
  const WIDE := "\U{4E00}"

  // ----- paragraphs -----

  /** Every chunk of every paragraph under the path is within the budget with its path. */
  ghost predicate ParagraphsFit(path: string, config: Config) {
    forall block: Block, c: Content | block.kind == Paragraph && c in Contents(BlockTexts(block, path, config), block, path) ::
      Units(EmbedText(c)) <= config.budget
  }

  lemma WideSentence()
    ensures SentencePieces(WIDE) == [WIDE]
  {
    assert SeparatorEnd(WIDE, 0) == 0;
    assert RawFrom(WIDE, 0, 1) == [WIDE[0..]] && WIDE[0..] == WIDE;
    assert RawFrom(WIDE, 0, 0) == [WIDE];
    assert !IsSpace(WIDE[0]);
    assert WIDE + "" == WIDE && [WIDE] + [] == [WIDE];
    assert FoldBlank([], "") == ([], "");
    FoldOne(WIDE, []);
  }

  lemma WideUnits()
    ensures Fifths(WIDE) == 5 && Units(WIDE) == 1 && Strip(WIDE) == WIDE
  {
    assert WIDE[1..] == "";
    assert !IsSpace(WIDE[0]);
    StripOfTrimmed(WIDE);
  }

  lemma WideChunk(allowed: nat, overlap: nat)
    requires allowed >= 1
    ensures ParagraphChunks(WIDE, allowed, overlap) == [WIDE]
  {
    WideSentence();
    WideUnits();
    UnitsOfNone();
    hide Units, Strip, SentencePieces;
    assert [WIDE][1..] == [];
    assert Pieces([], allowed) == [];
    var pieces := [Piece(WIDE, true)];
    assert Pieces([WIDE], allowed) == pieces;
    TextsOne(pieces[0]);
    ConcatOne(WIDE);
    assert pieces[0..1] == pieces;
    assert FillEnd(pieces, 0, 0, allowed) == 1;
    assert NextPacked(pieces, 0, None, allowed) == (Packed("", [WIDE], true), 1);
    hide NextPacked, FillEnd, Texts;
    var packed := Packed("", [WIDE], true);
    assert Pack(pieces, 1, NextCarry(packed, false, overlap), allowed, overlap) == [];
    assert Pack(pieces, 0, None, allowed, overlap) == [packed];
    assert "" + WIDE == WIDE && packed.Whole() == WIDE;
    assert Emitted([]) == [] && [packed][1..] == [];
    assert Emitted([packed]) == [WIDE];
  }

  /** All paragraphs under a path fit exactly when the path alone is below the budget. */
  lemma ParagraphsFitIff(path: string, config: Config)
    ensures ParagraphsFit(path, config) <==> Units(Prefix(path)) < config.budget
  {
    if Units(Prefix(path)) < config.budget {
      forall block: Block, c: Content | block.kind == Paragraph && c in Contents(BlockTexts(block, path, config), block, path)
        ensures Units(EmbedText(c)) <= config.budget
      {
        ContentsMeaning(BlockTexts(block, path, config), block, path);
        ParagraphFits(block.text, Allowed(path, config.budget), config.overlap);
        hide ParagraphChunks, Units, Prefix;
        EmbedUnits(c);
      }
    } else {
      WideIsTooMuch(path, config);
    }
  }

  lemma WideIsTooMuch(path: string, config: Config)
    requires Units(Prefix(path)) >= config.budget
    ensures !ParagraphsFit(path, config)
  {
    var block := Block(Paragraph, WIDE, None, None, []);
    var c := Content(WIDE, false, path, None);
    WideChunk(Allowed(path, config.budget), config.overlap);
    WideUnits();
    FifthsAppend(Prefix(path), WIDE);
    assert EmbedText(c) == Prefix(path) + WIDE;
    assert Units(EmbedText(c)) > config.budget;
    hide ParagraphChunks, Units, Fifths, Prefix;
    assert Contents([WIDE], block, path) == [c] + Contents([], block, path);
    assert c in Contents(BlockTexts(block, path, config), block, path);
  }

  // ----- tables -----

  /** Every chunk of every table under the header is within the allowed units. */
  ghost predicate TablesFit(head: Row, allowed: nat) {
    forall text: string, body: seq<Row>, c: string | c in TableChunks(text, [head] + body, allowed) :: Units(c) <= allowed
  }

  /** All tables under a header fit exactly when it leaves room for a line break and one wide character. */
  lemma TablesFitIff(head: Row, allowed: nat)
    requires allowed >= 1
    ensures TablesFit(head, allowed) <==> HeaderLeavesRoom(RenderRow(head), allowed)
  {
    if HeaderLeavesRoom(RenderRow(head), allowed) {
      forall text: string, body: seq<Row>, c: string | c in TableChunks(text, [head] + body, allowed) ensures Units(c) <= allowed {
        TableFits(text, [head] + body, allowed);
      }
    } else {
      WideRowIsTooMuch(head, allowed);
    }
  }

  lemma {:induction false} InSomePart(c: char, parts: seq<string>) returns (part: string)
    requires c in Concat(parts)
    ensures part in parts && c in part
  {
    if c in parts[0] {
      part := parts[0];
    } else {
      part := InSomePart(c, parts[1..]);
    }
  }

  lemma {:induction false} WideWeighs(s: string)
    requires WIDE[0] in s
    ensures Fifths(s) >= 5
  {
    if s[0] != WIDE[0] {
      WideWeighs(s[1..]);
    }
  }

  lemma {:induction false} TextChars(s: string, c: char)
    requires !IsSpace(c)
    ensures c in NonSpace(s) <==> c in s
  {
    if s != "" {
      TextChars(s[1..], c);
      assert s == [s[0]] + s[1..];
    }
  }

  /** A row with one wide character; one of its slices holds that character. */
  lemma WideSlice(line: string, limit: nat) returns (slice: string)
    requires WIDE[0] in line
    ensures slice in CharSlices(line, limit) && Fifths(slice) >= 5
  {
    var slices := CharSlices(line, limit);
    CharSlicesMeaning(line, limit);
    TextChars(line, WIDE[0]);
    TextChars(Concat(slices), WIDE[0]);
    hide CharSlices, NonSpace;
    slice := InSomePart(WIDE[0], slices);
    WideWeighs(slice);
  }

  lemma {:induction false} SliceIsPart(line: string, slices: seq<string>, slice: string)
    requires slice in slices
    ensures RowSlice(line, slice) in SliceParts(line, slices)
  {
    if slices[0] != slice {
      SliceIsPart(line, slices[1..], slice);
    }
  }

  lemma {:induction false} PartIsShown(header: string, parts: seq<Part>, p: Part)
    requires p in parts
    ensures p.Shown(header) in ShownAll(header, parts)
  {
    if parts[0] != p {
      PartIsShown(header, parts[1..], p);
    }
  }

  lemma OneOversizedRow(header: string, line: string, allowed: nat)
    requires Oversized(header, line, allowed)
    ensures SplitTable([header, line], allowed)
         == SliceParts(line, CharSlices(line, SliceLimit(Units(header), allowed))) + [RowGroup([])]
  {
    hide Units, CharSlices, SliceParts;
    assert [header, line][1..] == [line] && [line][1..] == [];
    assert Split(header, [], [], Units(header), allowed) == [RowGroup([])];
    assert Place(header, [line], [], Units(header), allowed)
        == SliceParts(line, CharSlices(line, SliceLimit(Units(header), allowed))) + [RowGroup([])];
  }

  lemma WideRow()
    ensures RenderRow([WIDE]) == "| " + WIDE + " |" && WIDE[0] in RenderRow([WIDE]) && Fifths(RenderRow([WIDE])) >= 5
  {
    assert Join(" | ", [WIDE]) == WIDE;
    assert RenderRow([WIDE])[2] == WIDE[0];
    WideWeighs(RenderRow([WIDE]));
  }

  lemma WideRowIsTooMuch(head: Row, allowed: nat)
    requires !HeaderLeavesRoom(RenderRow(head), allowed)
    ensures !TablesFit(head, allowed)
  {
    var header, line := RenderRow(head), RenderRow([WIDE]);
    var rows := [head] + [[WIDE]];
    WideRow();
    var slice := WideSlice(line, SliceLimit(Units(header), allowed));
    var c := header + "\n" + slice;
    SliceTooLarge(header, slice, allowed);
    assert Units(header) + 2 > allowed;
    OneOversizedRow(header, line, allowed);
    SliceIsPart(line, CharSlices(line, SliceLimit(Units(header), allowed)), slice);
    hide HeaderLeavesRoom, RenderRow, CharSlices, SliceLimit, SplitTable;
    var parts := SplitTable([header, line], allowed);
    PartIsShown(header, parts, RowSlice(line, slice));
    assert RenderLines(rows) == [header, line];
    LongTable(header, line, allowed);
    hide Units;
    TableChunksMeaning("", rows, allowed);
    assert c in TableChunks("", [head] + [[WIDE]], allowed);
  }

  lemma SliceTooLarge(header: string, slice: string, allowed: nat)
    requires !HeaderLeavesRoom(header, allowed) && Fifths(slice) >= 5
    ensures Units(header + "\n" + slice) > allowed && Units(header) + 2 > allowed
  {
    FifthsAppend(header, "\n");
    FifthsAppend(header + "\n", slice);
    assert Fifths("\n") == 2;
  }

  lemma LongTable(header: string, line: string, allowed: nat)
    requires !HeaderLeavesRoom(header, allowed) && Fifths(line) >= 5
    ensures Units(Join("\n", [header, line])) > allowed
  {
    assert [header, line][1..] == [line];
    SliceTooLarge(header, line, allowed);
  }
}
