/** Whole Markdown documents: which blocks the parser can find in a text, and the round trip
    between those blocks and their document. */
module MarkdownDocument {
  import opened Wrappers
  import opened Text
  import opened Tables
  import opened Blocks
  import opened Markdown

  // ----- the document of some blocks -----

  function Marks(n: nat): (marks: string)
    ensures |marks| == n && forall i :: 0 <= i < n ==> marks[i] == '#'
  {
    seq(n, _ => '#')
  }

  function BlockText(b: Block): string {
    if b.kind == Heading then Marks(b.Level()) + " " + b.text else b.text
  }

  /** The blocks as Markdown, each followed by an empty line. */
  function Document(blocks: seq<Block>): string {
    if blocks == [] then "" else BlockText(blocks[0]) + "\n" + ("\n" + Document(blocks[1..]))
  }

  ghost predicate ParagraphLine(line: string) {
    var stripped := Strip(line);
    stripped != "" && !IsHeading(stripped) && stripped[0] != '|'
  }

  ghost predicate ParagraphLines(lines: seq<string>) {
    forall line :: line in lines ==> ParagraphLine(line) && '\n' !in line
  }

  predicate CleanHeading(b: Block) {
    && b == Block(Heading, b.text, b.level, None, [])
    && b.level.Some? && 1 <= b.level.value <= 6
    && Trimmed(b.text) && '\n' !in b.text
  }

  ghost predicate CleanParagraph(b: Block) {
    && b == Block(Paragraph, b.text, None, None, [])
    && b.text != "" && Trimmed(b.text) && ParagraphLines(SplitOn(b.text, '\n'))
  }

  ghost predicate CleanTable(b: Block) {
    b == TableBlock(b.rows) && b.rows != [] && ParsedRows(b.rows)
  }

  ghost predicate CleanBlock(b: Block) {
    match b.kind
    case Heading => CleanHeading(b)
    case Paragraph => CleanParagraph(b)
    case Table => CleanTable(b)
  }

  /** The table that a run of separator lines alone leaves. */
  function EmptyTable(): Block {
    TableBlock([])
  }

  ghost predicate Parsed(blocks: seq<Block>) {
    forall b :: b in blocks ==> CleanBlock(b) || b == EmptyTable()
  }

  // ----- stripping -----

  lemma {:induction false} StartOf(s: string, i: nat, e: nat)
    requires i <= e <= |s| && (forall k :: i <= k < e ==> IsSpace(s[k])) && (e < |s| ==> !IsSpace(s[e]))
    ensures TextStart(s, i) == e
    decreases e - i
  {
    if i < e {
      StartOf(s, i + 1, e);
    }
  }

  lemma {:induction false} EndOf(s: string, j: nat, e: nat)
    requires e <= j <= |s| && (forall k :: e <= k < j ==> IsSpace(s[k])) && (e > 0 ==> !IsSpace(s[e - 1]))
    ensures TextEnd(s, j) == e
  {
    if e < j {
      EndOf(s, j - 1, e);
    }
  }

  /** Blanks around a trimmed text are stripped. */
  lemma StripAround(before: string, text: string, after: string)
    requires Blank(before) && Blank(after) && Trimmed(text) && text != ""
    ensures Strip(before + text + after) == text
  {
    var s := before + text + after;
    assert s[|before|] == text[0];
    StartOf(s, 0, |before|);
    var l := LStrip(s);
    assert l == text + after;
    assert forall k :: |text| <= k < |l| ==> l[k] == after[k - |text|];
    EndOf(l, |l|, |text|);
  }

  // ----- paragraphs -----

  lemma {:induction false} JoinSplit(s: string, c: char)
    ensures Join([c], SplitOn(s, c)) == s
  {
    if s != "" {
      var rest := SplitOn(s[1..], c);
      JoinSplit(s[1..], c);
      if s[0] == c {
        assert ([""] + rest)[1..] == rest;
      } else {
        assert ([[s[0]] + rest[0]] + rest[1..])[1..] == rest[1..];
      }
    }
  }

  lemma JoinPrefix(sep: string, before: string, lines: seq<string>)
    requires lines != []
    ensures Join(sep, [before + lines[0]] + lines[1..]) == before + Join(sep, lines)
  {
    var longer := [before + lines[0]] + lines[1..];
    assert longer[1..] == lines[1..];
  }

  lemma JoinSuffix(sep: string, lines: seq<string>, last: string, after: string)
    ensures Join(sep, lines + [last + after]) == Join(sep, lines + [last]) + after
  {
    if lines != [] {
      JoinAppend(sep, lines, [last + after]);
      JoinAppend(sep, lines, [last]);
    }
  }

  lemma KeepsLine(line: string, before: string, after: string)
    requires ParagraphLine(line) && Blank(before) && Blank(after)
    ensures ParagraphLine(before + Strip(line) + after)
  {
    StripTrimmed(line);
    hide IsHeading;
    StripAround(before, Strip(line), after);
  }

  lemma LineText(line: string)
    requires ParagraphLine(line)
    ensures Strip(line) != "" && Trimmed(Strip(line)) && Blank("")
  {
    StripTrimmed(line);
  }

  /** A line of a paragraph: its text, with blanks before and after. */
  lemma LineParts(line: string) returns (before: string, text: string, after: string)
    requires ParagraphLine(line)
    ensures line == before + text + after && Blank(before) && Blank(after) && text != "" && Trimmed(text)
    ensures ParagraphLine(text) && ParagraphLine(before + text) && ParagraphLine(text + after)
  {
    hide Strip, ParagraphLine, Trimmed, Blank;
    before, after := StripIsSlice(line);
    text := Strip(line);
    LineText(line);
    KeepsLine(line, "", "");
    KeepsLine(line, before, "");
    KeepsLine(line, "", after);
    assert "" + text + "" == text && before + text + "" == before + text && "" + text + after == text + after;
  }

  lemma JoinEnds(sep: string, first: string, lines: seq<string>, last: string)
    requires first != "" && last != ""
    ensures var all := Join(sep, [first] + lines + [last]);
            all != "" && all[0] == first[0] && all[|all| - 1] == last[|last| - 1]
  {
    JoinAppend(sep, [first] + lines, [last]);
    assert ([first] + lines)[1..] == lines;
  }

  lemma JoinOne(sep: string, lines: seq<string>)
    requires |lines| == 1
    ensures Join(sep, lines) == lines[0]
  {
  }

  lemma InnerLines(lines: seq<string>, first: string, last: string)
    requires |lines| > 1 && ParagraphLines(lines) && ParagraphLines([first]) && ParagraphLines([last])
    ensures ParagraphLines([first] + lines[1..|lines| - 1] + [last])
  {
    hide ParagraphLine;
    assert first in [first] && last in [last];
  }

  /** The text of a paragraph's lines: the lines without the blanks before the first and after the last. */
  lemma ParagraphText(lines: seq<string>) returns (trimmed: seq<string>)
    requires lines != [] && ParagraphLines(lines)
    ensures trimmed != [] && ParagraphLines(trimmed)
    ensures var text := Strip(Join("\n", lines)); text == Join("\n", trimmed) && text != "" && Trimmed(text)
  {
    hide Strip, ParagraphLine, Join, Blank;
    assert lines[0] in lines && lines[|lines| - 1] in lines;
    var before, text, after := LineParts(lines[0]);
    if |lines| == 1 {
      trimmed := [text];
      StripAround(before, text, after);
      JoinOne("\n", lines);
      JoinOne("\n", trimmed);
    } else {
      var before', text', after' := LineParts(lines[|lines| - 1]);
      var mid := lines[1..|lines| - 1];
      Regroup(before, text, after);
      trimmed := LongText(before, text + after, mid, before' + text', after');
      assert lines == [lines[0]] + mid + [lines[|lines| - 1]];
      InnerLines(lines, text + after, before' + text');
    }
  }

  lemma LongText(before: string, first: string, mid: seq<string>, last: string, after: string) returns (trimmed: seq<string>)
    requires Blank(before) && Blank(after) && first != "" && last != "" && !IsSpace(first[0]) && !IsSpace(last[|last| - 1])
    ensures trimmed == [first] + mid + [last]
    ensures var text := Strip(Join("\n", [before + first] + mid + [last + after]));
            text == Join("\n", trimmed) && text != "" && Trimmed(text)
  {
    trimmed := [first] + mid + [last];
    JoinEnds("\n", first, mid, last);
    JoinSuffix("\n", [first] + mid, last, after);
    var open := [first] + mid + [last + after];
    assert [before + open[0]] + open[1..] == [before + first] + mid + [last + after];
    JoinPrefix("\n", before, open);
    hide Strip, Join;
    Regroup(before, Join("\n", trimmed), after);
    StripAround(before, Join("\n", trimmed), after);
  }

  // ----- what the parser finds -----

  lemma ParagraphIsClean(lines: seq<string>)
    requires ParagraphLines(lines)
    ensures Parsed(ParagraphBlocks(lines))
  {
    hide ParagraphLines, Strip, Trimmed;
    if lines != [] {
      var trimmed := ParagraphText(lines);
      NoNewlines(trimmed);
      SplitJoin(trimmed, '\n');
    } else {
      StripOfTrimmed("");
    }
  }

  lemma NoNewlines(lines: seq<string>)
    requires ParagraphLines(lines)
    ensures forall line :: line in lines ==> '\n' !in line
  {
  }

  lemma HeadingIsClean(line: string)
    requires IsHeading(Strip(line)) && '\n' !in line
    ensures Parsed([HeadingBlock(Strip(line))])
  {
    var stripped := Strip(line);
    var before, after := StripIsSlice(line);
    var title := stripped[Hashes(stripped)..];
    var before', after' := StripIsSlice(title);
    StripTrimmed(title);
    hide Strip;
    assert '\n' !in stripped && '\n' !in title && '\n' !in Strip(title);
    assert CleanHeading(HeadingBlock(stripped));
  }

  lemma TableIsClean(lines: seq<string>)
    requires forall line :: line in lines ==> '\n' !in line
    ensures Parsed(TableBlocks(lines))
  {
    if lines != [] {
      RowsOfAreParsed(lines);
    }
  }

  lemma ParsedBoth(a: seq<Block>, b: seq<Block>)
    requires Parsed(a) && Parsed(b)
    ensures Parsed(a + b)
  {
    hide CleanBlock, TableBlock;
  }

  lemma {:induction false} ParsedLines(lines: seq<string>, para: seq<string>, table: seq<string>)
    requires forall line :: line in lines + table ==> '\n' !in line
    requires ParagraphLines(para)
    ensures Parsed(ParseLines(lines, para, table))
  {
    TableIsClean(table);
    ParagraphIsClean(para);
    hide Strip, TableBlocks, ParagraphBlocks, IsHeading, Parsed, HeadingBlock, ParagraphLines;
    if lines == [] {
      ParsedBoth(ParagraphBlocks(para), TableBlocks(table));
    } else {
      var line, rest := lines[0], lines[1..];
      assert lines == [line] + rest;
      NoLinesAreParsed();
      var stripped := Strip(line);
      if IsHeading(stripped) {
        ParsedLines(rest, [], []);
        HeadingIsClean(line);
        ParsedBoth(ParagraphBlocks(para), TableBlocks(table));
        ParsedBoth(ParagraphBlocks(para) + TableBlocks(table), [HeadingBlock(stripped)]);
        ParsedBoth(ParagraphBlocks(para) + TableBlocks(table) + [HeadingBlock(stripped)], ParseLines(rest, [], []));
      } else if stripped != "" && stripped[0] == '|' {
        ParsedLines(rest, [], table + [line]);
        ParsedBoth(ParagraphBlocks(para), ParseLines(rest, [], table + [line]));
      } else if stripped == "" {
        ParsedLines(rest, [], []);
        ParsedBoth(TableBlocks(table), ParagraphBlocks(para));
        ParsedBoth(TableBlocks(table) + ParagraphBlocks(para), ParseLines(rest, [], []));
      } else {
        MoreParagraph(para, line);
        ParsedLines(rest, para + [line], []);
        ParsedBoth(TableBlocks(table), ParseLines(rest, para + [line], []));
      }
    }
  }

  lemma NoLinesAreParsed()
    ensures ParagraphLines([])
  {
  }

  lemma MoreParagraph(para: seq<string>, line: string)
    requires ParagraphLines(para) && '\n' !in line
    requires var stripped := Strip(line); stripped != "" && !IsHeading(stripped) && stripped[0] != '|'
    ensures ParagraphLines(para + [line])
  {
    assert ParagraphLine(line);
    hide ParagraphLine;
  }

  /** Every block found in any text is clean, or a table without rows. */
  lemma BlocksAreClean(text: string)
    ensures Parsed(Parse(text))
  {
    hide Parsed, ParagraphLines;
    var lines := SplitOn(text, '\n');
    assert lines + [] == lines;
    NoLinesAreParsed();
    ParsedLines(lines, [], []);
  }

  // ----- reading a document back -----

  lemma {:induction false} ParseParagraphLines(lines: seq<string>, para: seq<string>, rest: seq<string>)
    requires ParagraphLines(lines) && rest != [] && Strip(rest[0]) == ""
    ensures ParseLines(lines + rest, para, []) == ParagraphBlocks(para + lines) + ParseLines(rest, [], [])
  {
    hide TableBlocks, ParagraphBlocks, Strip, IsHeading, ParagraphLine;
    NoLines();
    if lines == [] {
      assert para + lines == para && lines + rest == rest;
      ParagraphEnds(para, rest);
    } else {
      assert lines[0] in lines;
      assert (lines + rest)[1..] == lines[1..] + rest;
      ParagraphStep(lines + rest, para);
      ParseParagraphLines(lines[1..], para + [lines[0]], rest);
      Regroup(para, [lines[0]], lines[1..]);
      assert lines == [lines[0]] + lines[1..];
    }
  }

  lemma ParagraphEnds(para: seq<string>, rest: seq<string>)
    requires rest != [] && Strip(rest[0]) == ""
    ensures ParseLines(rest, para, []) == ParagraphBlocks(para) + ParseLines(rest, [], [])
  {
    NoLines();
    hide TableBlocks, ParagraphBlocks;
  }

  lemma ParagraphStep(lines: seq<string>, para: seq<string>)
    requires lines != [] && ParagraphLine(lines[0])
    ensures ParseLines(lines, para, []) == ParseLines(lines[1..], para + [lines[0]], [])
  {
    NoLines();
    hide Strip, IsHeading, TableBlocks, ParagraphBlocks;
  }

  lemma EmptyLine(lines: seq<string>)
    requires lines != [] && lines[0] == ""
    ensures Strip(lines[0]) == "" && ParseLines(lines, [], []) == ParseLines(lines[1..], [], [])
  {
    StripOfTrimmed("");
    NoLines();
    hide Strip, TableBlocks, ParagraphBlocks;
  }

  lemma HeadingLine(b: Block)
    requires CleanHeading(b)
    ensures var line := BlockText(b); '\n' !in line && IsHeading(Strip(line)) && HeadingBlock(Strip(line)) == b
  {
    var marks := Marks(b.level.value);
    var line := marks + " " + b.text;
    var stripped := if b.text == "" then marks else line;
    HeadingStrips(marks, b.text);
    HeadingTitle(b.level.value, b.text);
    assert BlockText(b) == line;
  }

  lemma HeadingStrips(marks: string, title: string)
    requires marks != "" && (forall k :: 0 <= k < |marks| ==> marks[k] == '#') && Trimmed(title)
    ensures Strip(marks + " " + title) == if title == "" then marks else marks + " " + title
  {
    if title == "" {
      assert "" + marks + (" " + title) == marks + " " + title;
      StripAround("", marks, " " + title);
    } else {
      var line := marks + " " + title;
      assert line[0] == '#' && line[|line| - 1] == title[|title| - 1];
      StripOfTrimmed(line);
    }
  }

  lemma {:induction false} HashesOf(n: nat, tail: string)
    requires tail == "" || tail[0] != '#'
    ensures Hashes(Marks(n) + tail) == n
  {
    if n == 0 {
      assert Marks(n) + tail == tail;
    } else {
      HashesOf(n - 1, tail);
      assert (Marks(n) + tail)[1..] == Marks(n - 1) + tail;
    }
  }

  lemma HeadingTitle(n: nat, title: string)
    requires 1 <= n <= 6 && Trimmed(title)
    ensures var stripped := if title == "" then Marks(n) else Marks(n) + " " + title;
            IsHeading(stripped) && HeadingBlock(stripped) == Block(Heading, title, Some(n), None, [])
  {
    if title == "" {
      HashesOf(n, "");
      assert Marks(n) + "" == Marks(n) && Marks(n)[n..] == "";
      StripOfTrimmed("");
    } else {
      var line := Marks(n) + (" " + title);
      HashesOf(n, " " + title);
      assert line == Marks(n) + " " + title && line[n] == ' ' && line[n..] == " " + title + "";
      StripAround(" ", title, "");
    }
  }

  /** `n` marks, then the end of the line or whitespace. */
  ghost predicate HeadingOf(stripped: string, n: nat, tail: string) {
    1 <= n <= 6 && stripped == Marks(n) + tail && (tail == "" || IsSpace(tail[0]))
  }

  /** A stripped line is a heading exactly when it opens with one to six marks that end it or that
      whitespace follows. */
  lemma HeadingIff(stripped: string)
    ensures IsHeading(stripped) <==> exists n: nat, tail :: HeadingOf(stripped, n, tail)
  {
    if IsHeading(stripped) {
      var n := Hashes(stripped);
      LeadingMarks(stripped);
      assert HeadingOf(stripped, n, stripped[n..]);
    }
    if n: nat, tail :| HeadingOf(stripped, n, tail) {
      HashesOf(n, tail);
      assert tail != "" ==> stripped[n] == tail[0];
    }
  }

  lemma {:induction false} LeadingMarks(s: string)
    ensures s[..Hashes(s)] == Marks(Hashes(s))
  {
    if s != "" && s[0] == '#' {
      LeadingMarks(s[1..]);
      assert s[..Hashes(s)] == [s[0]] + s[1..][..Hashes(s[1..])];
    }
  }

  /** The lines of one block and an empty line are read as that block. */
  ghost predicate ReadsAs(b: Block, blocks: seq<Block>) {
    forall rest: seq<string> ::
      ParseLines(SplitOn(BlockText(b), '\n') + ([""] + rest), [], []) == blocks + ParseLines(rest, [], [])
  }

  lemma HeadingReads(b: Block)
    requires CleanHeading(b)
    ensures ReadsAs(b, [b])
  {
    var line := BlockText(b);
    HeadingLine(b);
    SplitPlain(line, '\n');
    NoLines();
    hide Strip, IsHeading, HeadingBlock, BlockText, TableBlocks, ParagraphBlocks;
    forall rest: seq<string> ensures ParseLines([line] + ([""] + rest), [], []) == [b] + ParseLines(rest, [], []) {
      EmptyLine([""] + rest);
      assert ([line] + ([""] + rest))[1..] == [""] + rest && ([""] + rest)[1..] == rest;
    }
  }

  lemma ParagraphReads(b: Block)
    requires CleanParagraph(b)
    ensures ReadsAs(b, [b])
  {
    var lines := SplitOn(b.text, '\n');
    JoinSplit(b.text, '\n');
    StripOfTrimmed(b.text);
    assert ParagraphBlocks(lines) == [b];
    hide ParagraphBlocks, Strip, ParagraphLines, SplitOn, Trimmed;
    forall rest: seq<string> ensures ParseLines(lines + ([""] + rest), [], []) == [b] + ParseLines(rest, [], []) {
      EmptyLine([""] + rest);
      ParseParagraphLines(lines, [], [""] + rest);
      assert [] + lines == lines && ([""] + rest)[1..] == rest;
    }
  }

  lemma TableReads(b: Block)
    requires CleanTable(b)
    ensures ReadsAs(b, [b])
  {
    var lines := RenderLines(b.rows);
    TableText(b.rows);
    hide TableLine, Strip, ParsedRows, SplitOn, RenderLines;
    forall rest: seq<string> ensures ParseLines(lines + ([""] + rest), [], []) == [b] + ParseLines(rest, [], []) {
      EmptyLine([""] + rest);
      ParseTableLines(lines, [], [""] + rest);
      assert [] + lines == lines && ([""] + rest)[1..] == rest;
    }
  }

  lemma EmptyTableReads()
    ensures ReadsAs(EmptyTable(), [])
  {
    assert BlockText(EmptyTable()) == "" && SplitOn("", '\n') == [""];
    hide Strip, BlockText;
    forall rest: seq<string> ensures ParseLines([""] + ([""] + rest), [], []) == [] + ParseLines(rest, [], []) {
      EmptyLine([""] + ([""] + rest));
      EmptyLine([""] + rest);
      assert ([""] + ([""] + rest))[1..] == [""] + rest && ([""] + rest)[1..] == rest;
    }
  }

  /** The blocks that are not tables without rows. */
  function Filled(blocks: seq<Block>): seq<Block> {
    if blocks == [] then []
    else if blocks[0] == EmptyTable() then Filled(blocks[1..])
    else [blocks[0]] + Filled(blocks[1..])
  }

  lemma BlockReads(b: Block)
    requires CleanBlock(b) || b == EmptyTable()
    ensures ReadsAs(b, if b == EmptyTable() then [] else [b])
  {
    hide ReadsAs, CleanHeading, CleanParagraph, ParsedRows;
    if b == EmptyTable() {
      EmptyTableReads();
    } else {
      match b.kind
      case Heading => HeadingReads(b);
      case Paragraph => ParagraphReads(b);
      case Table => TableReads(b);
    }
  }

  /** Reading the document of some blocks gives the same blocks, less the tables without rows. */
  lemma {:induction false} DocumentRoundTrip(blocks: seq<Block>)
    requires Parsed(blocks)
    ensures Parse(Document(blocks)) == Filled(blocks)
  {
    hide CleanBlock, BlockText, EmptyTable;
    if blocks == [] {
      EmptyDocument();
    } else {
      var b, rest := blocks[0], blocks[1..];
      assert b in blocks;
      DocumentRoundTrip(rest);
      BlockReads(b);
      FirstLines(b, Document(rest));
    }
  }

  lemma EmptyDocument()
    ensures Parse("") == []
  {
    EmptyLine([""]);
    NoLines();
    hide Strip, TableBlocks, ParagraphBlocks;
    assert SplitOn("", '\n') == [""] && [""][1..] == [];
    assert ParseLines([], [], []) == [];
  }

  lemma FirstLines(b: Block, rest: string)
    ensures SplitOn(BlockText(b) + "\n" + ("\n" + rest), '\n') == SplitOn(BlockText(b), '\n') + ([""] + SplitOn(rest, '\n'))
  {
    SplitAppend(BlockText(b), '\n', "\n" + rest);
    SplitAppend("", '\n', rest);
    hide BlockText;
    assert "" + "\n" + rest == "\n" + rest;
    assert SplitOn("", '\n') == [""];
  }

  // ----- what a document keeps -----

  lemma {:induction false} FilledOf(blocks: seq<Block>)
    ensures |Filled(blocks)| <= |blocks|
    ensures Filled(blocks) == blocks <==> EmptyTable() !in blocks
  {
    if blocks != [] {
      hide EmptyTable;
      FilledOf(blocks[1..]);
      assert blocks == [blocks[0]] + blocks[1..];
    }
  }

  /** Printing what was parsed and parsing it again gives the same blocks, less the tables without
      rows. */
  lemma ParsedAgain(text: string)
    ensures Parse(Document(Parse(text))) == Filled(Parse(text))
  {
    hide Parsed, Parse, Document, Filled;
    BlocksAreClean(text);
    DocumentRoundTrip(Parse(text));
  }

  /** Blocks come back from their document exactly when each of them is clean. */
  lemma DocumentSurvivesIff(blocks: seq<Block>)
    ensures Parse(Document(blocks)) == blocks <==> forall b :: b in blocks ==> CleanBlock(b)
  {
    hide Parse, Document, CleanHeading, CleanParagraph, ParsedRows;
    if Parse(Document(blocks)) == blocks {
      BlocksAreClean(Document(blocks));
      DocumentRoundTrip(blocks);
      FilledOf(blocks);
    } else if forall b :: b in blocks ==> CleanBlock(b) {
      DocumentRoundTrip(blocks);
      FilledOf(blocks);
    }
  }

  /** Every table that the parser finds in any text, when it has rows at all, is read back
      unchanged from its own rendered text. */
  lemma ParsedTableIsStable(text: string, b: Block)
    requires b in Parse(text) && b.kind == Table && b.rows != []
    ensures Parse(b.text) == [b]
  {
    hide Parse, ParsedRows, CleanHeading, CleanParagraph;
    BlocksAreClean(text);
    ParsedRowsAreClean(b.rows);
    TableRoundTrip(b.rows);
  }

  lemma ParsedRowsAreClean(rows: seq<Row>)
    requires ParsedRows(rows)
    ensures CleanRows(rows) && DataRows(rows) == rows
  {
  }
}
