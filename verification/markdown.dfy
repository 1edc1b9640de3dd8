/** Parsing Markdown into blocks, and the round trip between table rows and table text. */
module Markdown {
  import opened Wrappers
  import opened Text
  import opened Paragraphs
  import opened Tables
  import opened Blocks

  // ----- lines and cells -----

  /** The parts of `s` between the occurrences of `c`; always at least one part. */
  function SplitOn(s: string, c: char): (parts: seq<string>)
    ensures parts != []
    ensures forall p :: p in parts ==> c !in p
  {
    if s == "" then [""]
    else
      var rest := SplitOn(s[1..], c);
      if s[0] == c then [""] + rest else [[s[0]] + rest[0]] + rest[1..]
  }

  function BarsStart(s: string, i: nat): (r: nat)
    requires i <= |s|
    ensures i <= r <= |s|
    ensures forall k :: i <= k < r ==> s[k] == '|'
    ensures r < |s| ==> s[r] != '|'
    decreases |s| - i
  {
    if i < |s| && s[i] == '|' then BarsStart(s, i + 1) else i
  }

  function BarsEnd(s: string, i: nat, j: nat): (r: nat)
    requires i <= j <= |s|
    ensures i <= r <= j
    ensures forall k :: r <= k < j ==> s[k] == '|'
    ensures r > i ==> s[r - 1] != '|'
  {
    if j > i && s[j - 1] == '|' then BarsEnd(s, i, j - 1) else j
  }

  /** Drops the bars at both ends. */
  function StripBars(s: string): string {
    var i := BarsStart(s, 0);
    s[i..BarsEnd(s, i, |s|)]
  }

  function StripAll(parts: seq<string>): (cells: seq<string>)
    ensures |cells| == |parts|
    ensures forall i :: 0 <= i < |parts| ==> cells[i] == Strip(parts[i])
  {
    if parts == [] then [] else [Strip(parts[0])] + StripAll(parts[1..])
  }

  function Cells(line: string): Row {
    StripAll(SplitOn(StripBars(Strip(line)), '|'))
  }

  predicate Dashes(s: string) {
    s != "" && forall i :: 0 <= i < |s| ==> s[i] == '-'
  }

  /** Dashes with an optional colon at either end. */
  predicate IsRule(cell: string) {
    var body := if cell != "" && cell[0] == ':' then cell[1..] else cell;
    Dashes(body) || (body != "" && body[|body| - 1] == ':' && Dashes(body[..|body| - 1]))
  }

  /** Some cell is filled, and every filled cell is a rule. */
  predicate IsSeparator(row: Row) {
    && (exists i :: 0 <= i < |row| && row[i] != "")
    && (forall i :: 0 <= i < |row| && row[i] != "" ==> IsRule(row[i]))
  }

  /** The rows of a run of table lines, separators left out. */
  function RowsOf(lines: seq<string>): seq<Row> {
    if lines == [] then []
    else if IsSeparator(Cells(lines[0])) then RowsOf(lines[1..])
    else [Cells(lines[0])] + RowsOf(lines[1..])
  }

  // ----- blocks -----

  function Hashes(s: string): (n: nat)
    ensures n <= |s|
  {
    if s != "" && s[0] == '#' then 1 + Hashes(s[1..]) else 0
  }

  /** One to six hashes, then the end of the line or whitespace. */
  predicate IsHeading(stripped: string) {
    var n := Hashes(stripped);
    1 <= n <= 6 && (n == |stripped| || IsSpace(stripped[n]))
  }

  function HeadingBlock(stripped: string): Block {
    var n := Hashes(stripped);
    Block(Heading, Strip(stripped[n..]), Some(n), None, [])
  }

  function ParagraphBlocks(lines: seq<string>): seq<Block> {
    var text := Strip(Join("\n", lines));
    if text == "" then [] else [Block(Paragraph, text, None, None, [])]
  }

  function TableBlock(rows: seq<Row>): Block {
    Block(Table, RenderTable(rows), None, None, rows)
  }

  function TableBlocks(lines: seq<string>): seq<Block> {
    if lines == [] then [] else [TableBlock(RowsOf(lines))]
  }

  /** The blocks of the remaining lines when `para` and `table` are the lines collected so far. */
  function ParseLines(lines: seq<string>, para: seq<string>, table: seq<string>): seq<Block> {
    if lines == [] then ParagraphBlocks(para) + TableBlocks(table)
    else
      var stripped := Strip(lines[0]);
      if IsHeading(stripped) then
        ParagraphBlocks(para) + TableBlocks(table) + [HeadingBlock(stripped)] + ParseLines(lines[1..], [], [])
      else if stripped != "" && stripped[0] == '|' then
        ParagraphBlocks(para) + ParseLines(lines[1..], [], table + [lines[0]])
      else if stripped == "" then
        TableBlocks(table) + ParagraphBlocks(para) + ParseLines(lines[1..], [], [])
      else
        TableBlocks(table) + ParseLines(lines[1..], para + [lines[0]], [])
  }

  function Parse(text: string): seq<Block> {
    ParseLines(SplitOn(text, '\n'), [], [])
  }

  method CollectRows(lines: seq<string>) returns (rows: seq<Row>)
    ensures rows == RowsOf(lines)
  {
    hide Cells, IsSeparator;
    rows := [];
    for i := 0 to |lines|
      invariant rows + RowsOf(lines[i..]) == RowsOf(lines)
    {
      assert lines[i..][1..] == lines[i + 1..];
      var cells := Cells(lines[i]);
      if !IsSeparator(cells) {
        Regroup(rows, [cells], RowsOf(lines[i + 1..]));
        rows := rows + [cells];
      }
    }
  }

  method FlushTable(lines: seq<string>) returns (blocks: seq<Block>)
    ensures blocks == TableBlocks(lines)
  {
    if lines == [] {
      return [];
    }
    var rows := CollectRows(lines);
    blocks := [Block(Table, RenderTable(rows), None, None, rows)];
  }

  method ParseMarkdown(text: string) returns (blocks: seq<Block>)
    ensures blocks == Parse(text)
  {
    hide Strip, IsHeading, HeadingBlock, ParagraphBlocks, TableBlocks;
    var lines := SplitOn(text, '\n');
    var para: seq<string>, table: seq<string> := [], [];
    NoLines();
    blocks := [];
    var i := 0;
    ghost var goal := Parse(text);
    while i < |lines|
      invariant i <= |lines|
      invariant para == [] || table == []
      invariant blocks + ParseLines(lines[i..], para, table) == goal
    {
      var line := lines[i];
      assert lines[i..][1..] == lines[i + 1..];
      var stripped := Strip(line);
      var paraBlocks := ParagraphBlocks(para);
      var tableBlocks := FlushTable(table);
      i := i + 1;
      if IsHeading(stripped) {
        var all := paraBlocks + tableBlocks + [HeadingBlock(stripped)];
        Regroup(blocks, all, ParseLines(lines[i..], [], []));
        blocks := blocks + all;
        para, table := [], [];
      } else if stripped != "" && stripped[0] == '|' {
        Regroup(blocks, paraBlocks, ParseLines(lines[i..], [], table + [line]));
        blocks := blocks + paraBlocks;
        para, table := [], table + [line];
      } else if stripped == "" {
        var all := tableBlocks + paraBlocks;
        Regroup(blocks, all, ParseLines(lines[i..], [], []));
        blocks := blocks + all;
        para, table := [], [];
      } else {
        Regroup(blocks, tableBlocks, ParseLines(lines[i..], para + [line], []));
        blocks := blocks + tableBlocks;
        para, table := para + [line], [];
      }
    }
    var last := FlushTable(table);
    blocks := blocks + (ParagraphBlocks(para) + last);
  }

  lemma NoLines()
    ensures ParagraphBlocks([]) == [] && TableBlocks([]) == []
  {
  }

  // ----- separator cells -----

  /** A rule of `n` dashes between the ends. */
  ghost predicate RuleOf(cell: string, left: string, n: nat, right: string) {
    n > 0 && left in {"", ":"} && right in {"", ":"} && cell == left + seq(n, _ => '-') + right
  }

  lemma RuleFrom(cell: string, left: string, body: string) returns (n: nat, right: string)
    requires left in {"", ":"} && cell == left + body
    requires Dashes(body) || (body != "" && body[|body| - 1] == ':' && Dashes(body[..|body| - 1]))
    ensures RuleOf(cell, left, n, right)
  {
    if Dashes(body) {
      n, right := |body|, "";
      assert body == seq(n, _ => '-') + right;
    } else {
      n, right := |body| - 1, ":";
      assert body[..n] == seq(n, _ => '-');
      assert body == body[..n] + right;
    }
    Regroup(left, seq(n, _ => '-'), right);
  }

  lemma RuleTo(cell: string, left: string, n: nat, right: string)
    requires RuleOf(cell, left, n, right)
    ensures IsRule(cell)
  {
    var body := seq(n, _ => '-') + right;
    assert cell == left + body && body[0] == '-';
    if right == "" {
      assert Dashes(body);
    } else {
      assert body[..|body| - 1] == seq(n, _ => '-');
    }
  }

  /** A cell is a rule exactly when it is some dashes, with or without a colon at each end. */
  lemma RuleIff(cell: string)
    ensures IsRule(cell) <==> exists left, n: nat, right :: RuleOf(cell, left, n, right)
  {
    if IsRule(cell) {
      if cell != "" && cell[0] == ':' {
        var n, right := RuleFrom(cell, ":", cell[1..]);
      } else {
        var n, right := RuleFrom(cell, "", cell);
      }
    }
    hide IsRule;
    if left, n: nat, right :| RuleOf(cell, left, n, right) {
      RuleTo(cell, left, n, right);
    }
  }

  /** A row is a separator exactly when it has a filled cell and every filled one is a rule. */
  lemma SeparatorIff(row: Row)
    ensures IsSeparator(row) <==>
              && (exists cell :: cell in row && cell != "")
              && (forall cell :: cell in row && cell != "" ==> exists left, n: nat, right :: RuleOf(cell, left, n, right))
  {
    forall cell | cell in row ensures IsRule(cell) <==> exists left, n: nat, right :: RuleOf(cell, left, n, right) {
      RuleIff(cell);
    }
    hide IsRule, RuleOf;
    if exists i :: 0 <= i < |row| && row[i] != "" {
      var i :| 0 <= i < |row| && row[i] != "";
      assert row[i] in row;
    }
    assert forall i :: 0 <= i < |row| ==> row[i] in row;
  }

  // ----- splitting undoes joining -----

  lemma {:induction false} SplitPlain(s: string, c: char)
    requires c !in s
    ensures SplitOn(s, c) == [s]
  {
    if s != "" {
      SplitPlain(s[1..], c);
      assert s == [s[0]] + s[1..];
    }
  }

  lemma {:induction false} SplitAppend(a: string, c: char, b: string)
    ensures SplitOn(a + [c] + b, c) == SplitOn(a, c) + SplitOn(b, c)
  {
    var s := a + [c] + b;
    if a == "" {
      assert s[1..] == b;
    } else {
      assert s[1..] == a[1..] + [c] + b;
      SplitAppend(a[1..], c, b);
    }
  }

  lemma {:induction false} SplitJoin(parts: seq<string>, c: char)
    requires parts != [] && forall p :: p in parts ==> c !in p
    ensures SplitOn(Join([c], parts), c) == parts
  {
    SplitPlain(parts[0], c);
    if |parts| > 1 {
      SplitJoin(parts[1..], c);
      SplitAppend(parts[0], c, Join([c], parts[1..]));
      assert parts == [parts[0]] + parts[1..];
    }
  }

  // ----- rows survive rendering -----

  lemma StripPadded(s: string)
    requires Trimmed(s)
    ensures Strip(" " + s + " ") == s
  {
    var padded := " " + s + " ";
    var i := TextStart(padded, 0);
    if s == "" {
      assert padded == "  ";
      assert i == 2;
    } else {
      assert padded[1] == s[0] && i == 1;
      var l := LStrip(padded);
      assert l == s + " ";
      assert l[|s| - 1] == s[|s| - 1] && l[|s|] == ' ';
      assert TextEnd(l, |l|) == |s|;
    }
  }

  /** A cell that rendering keeps intact. */
  predicate CleanCell(cell: string) {
    Trimmed(cell) && '|' !in cell && '\n' !in cell
  }

  predicate CleanRow(row: Row) {
    row != [] && forall i :: 0 <= i < |row| ==> CleanCell(row[i])
  }

  function Padded(row: Row): (parts: seq<string>)
    ensures |parts| == |row|
    ensures forall i :: 0 <= i < |row| ==> parts[i] == " " + row[i] + " "
  {
    if row == [] then [] else [" " + row[0] + " "] + Padded(row[1..])
  }

  lemma {:induction false} PaddedJoin(row: Row)
    requires row != []
    ensures " " + Join(" | ", row) + " " == Join("|", Padded(row))
  {
    if |row| > 1 {
      PaddedJoin(row[1..]);
      assert " " + Join(" | ", row) + " " == " " + row[0] + " " + "|" + (" " + Join(" | ", row[1..]) + " ");
      assert Padded(row)[1..] == Padded(row[1..]);
    }
  }

  lemma {:induction false} JoinPlain(sep: string, parts: seq<string>, c: char)
    requires c !in sep && forall i :: 0 <= i < |parts| ==> c !in parts[i]
    ensures c !in Join(sep, parts)
  {
    if |parts| > 1 {
      JoinPlain(sep, parts[1..], c);
    }
  }

  lemma BarsOfRow(inner: string)
    requires inner != "" && inner[0] != '|' && inner[|inner| - 1] != '|'
    ensures StripBars("|" + inner + "|") == inner
  {
    var s := "|" + inner + "|";
    assert s[1] == inner[0] && s[|inner|] == inner[|inner| - 1] && s[|inner| + 1] == '|';
    assert BarsStart(s, 0) == 1;
    assert BarsEnd(s, 1, |s|) == |inner| + 1;
    assert s[1..|inner| + 1] == inner;
  }

  /** A rendered row is a table line of its own. */
  lemma RowIsLine(row: Row)
    requires CleanRow(row)
    ensures var line := RenderRow(row);
            '\n' !in line && Strip(line) == line && line[0] == '|' && !IsHeading(line)
  {
    var line := RenderRow(row);
    assert line[0] == '|' && line[|line| - 1] == '|';
    assert Trimmed(line) && Hashes(line) == 0;
    StripOfTrimmed(line);
    JoinPlain(" | ", row, '\n');
  }

  lemma PaddedStrip(row: Row)
    requires CleanRow(row)
    ensures StripAll(Padded(row)) == row
  {
    hide Strip;
    forall i | 0 <= i < |row| ensures StripAll(Padded(row))[i] == row[i] {
      assert CleanCell(row[i]);
      StripPadded(row[i]);
    }
  }

  lemma PaddedSplit(row: Row)
    requires CleanRow(row)
    ensures SplitOn(Join("|", Padded(row)), '|') == Padded(row)
  {
    hide Strip;
    forall p | p in Padded(row) ensures '|' !in p {
      var i :| 0 <= i < |row| && p == Padded(row)[i];
      assert CleanCell(row[i]);
    }
    SplitJoin(Padded(row), '|');
  }

  lemma BarsOfRendered(row: Row)
    requires row != []
    ensures StripBars(RenderRow(row)) == Join("|", Padded(row))
  {
    var inner := " " + Join(" | ", row) + " ";
    var line := RenderRow(row);
    assert inner != "" && inner[0] == ' ' && inner[|inner| - 1] == ' ';
    assert line == "|" + inner + "|";
    hide RenderRow, Join, Padded, StripBars;
    BarsOfRow(inner);
    PaddedJoin(row);
  }

  /** Rendering a row and reading its cells back gives the same row. */
  lemma RowRoundTrip(row: Row)
    requires row != [] && CleanRow(row)
    ensures Cells(RenderRow(row)) == row
  {
    hide Strip, StripBars, Join, RenderRow, SplitOn, Padded, IsHeading, CleanRow;
    RowIsLine(row);
    BarsOfRendered(row);
    PaddedSplit(row);
    PaddedStrip(row);
  }

  /** Cells read from a line are clean. */
  lemma CellsAreClean(line: string)
    requires '\n' !in line
    ensures CleanRow(Cells(line))
  {
    var before, after := StripIsSlice(line);
    var stripped := StripBars(Strip(line));
    var parts := SplitOn(stripped, '|');
    SplitKeepsOut(stripped, '|', '\n');
    forall i | 0 <= i < |parts| ensures CleanCell(Cells(line)[i]) {
      StripTrimmed(parts[i]);
      assert parts[i] in parts;
      var b, a := StripIsSlice(parts[i]);
    }
  }

  lemma {:induction false} SplitKeepsOut(s: string, c: char, d: char)
    requires d !in s
    ensures forall p :: p in SplitOn(s, c) ==> d !in p
  {
    if s != "" {
      SplitKeepsOut(s[1..], c, d);
      assert SplitOn(s[1..], c)[0] in SplitOn(s[1..], c);
    }
  }

  // ----- tables survive rendering and parsing -----

  function DataRows(rows: seq<Row>): seq<Row> {
    if rows == [] then []
    else if IsSeparator(rows[0]) then DataRows(rows[1..])
    else [rows[0]] + DataRows(rows[1..])
  }

  ghost predicate CleanRows(rows: seq<Row>) {
    forall i :: 0 <= i < |rows| ==> CleanRow(rows[i])
  }

  lemma {:induction false} RowsOfRendered(rows: seq<Row>)
    requires CleanRows(rows)
    ensures RowsOf(RenderLines(rows)) == DataRows(rows)
  {
    if rows != [] {
      RowRoundTrip(rows[0]);
      hide Cells, IsSeparator, RenderRow, CleanRow, IsHeading, Strip;
      assert forall i :: 0 <= i < |rows[1..]| ==> rows[1..][i] == rows[i + 1];
      RowsOfRendered(rows[1..]);
      assert RenderLines(rows)[1..] == RenderLines(rows[1..]);
    }
  }

  /** A line that the parser adds to the table it is reading. */
  ghost predicate TableLine(line: string) {
    var stripped := Strip(line);
    !IsHeading(stripped) && stripped != "" && stripped[0] == '|'
  }

  /** The lines end here or with a blank line. */
  ghost predicate Ends(rest: seq<string>) {
    rest == [] || Strip(rest[0]) == ""
  }

  lemma {:induction false} ParseTableLines(lines: seq<string>, table: seq<string>, rest: seq<string>)
    requires (forall line :: line in lines ==> TableLine(line)) && Ends(rest)
    ensures ParseLines(lines + rest, [], table) == TableBlocks(table + lines) + ParseLines(rest, [], [])
  {
    hide TableLine, TableBlocks, ParagraphBlocks, Strip, IsHeading;
    NoLines();
    if lines == [] {
      assert table + lines == table && lines + rest == rest;
      TableEnds(table, rest);
    } else {
      assert lines[0] in lines;
      assert (lines + rest)[1..] == lines[1..] + rest;
      TableStep(lines + rest, table);
      ParseTableLines(lines[1..], table + [lines[0]], rest);
      Regroup(table, [lines[0]], lines[1..]);
      assert lines == [lines[0]] + lines[1..];
    }
  }

  lemma TableEnds(table: seq<string>, rest: seq<string>)
    requires Ends(rest)
    ensures ParseLines(rest, [], table) == TableBlocks(table) + ParseLines(rest, [], [])
  {
    NoLines();
    hide TableBlocks, ParagraphBlocks;
  }

  lemma TableStep(lines: seq<string>, table: seq<string>)
    requires lines != [] && TableLine(lines[0])
    ensures ParseLines(lines, [], table) == ParseLines(lines[1..], [], table + [lines[0]])
  {
    NoLines();
    hide Strip, IsHeading, TableBlocks, ParagraphBlocks;
  }

  lemma TableText(rows: seq<Row>)
    requires rows != [] && CleanRows(rows)
    ensures var lines := RenderLines(rows);
            && SplitOn(RenderTable(rows), '\n') == lines && TableBlocks(lines) == [TableBlock(DataRows(rows))]
            && forall line :: line in lines ==> TableLine(line)
  {
    var lines := RenderLines(rows);
    forall i | 0 <= i < |lines| ensures TableLine(lines[i]) && '\n' !in lines[i] {
      RowIsLine(rows[i]);
    }
    hide TableLine;
    SplitJoin(lines, '\n');
    RowsOfRendered(rows);
  }

  /** Parsing the text of a table of clean rows gives one table with the same rows, except that
      separator rows are left out. */
  lemma TableRoundTrip(rows: seq<Row>)
    requires rows != [] && CleanRows(rows)
    ensures Parse(RenderTable(rows)) == [TableBlock(DataRows(rows))]
  {
    var lines := RenderLines(rows);
    TableText(rows);
    hide TableLine, TableBlocks;
    ParseTableLines(lines, [], []);
    assert [] + lines == lines && lines + [] == lines;
  }

  lemma {:induction false} DataRowsOfAll(rows: seq<Row>)
    ensures |DataRows(rows)| <= |rows|
    ensures DataRows(rows) == rows <==> forall i :: 0 <= i < |rows| ==> !IsSeparator(rows[i])
  {
    if rows != [] {
      hide IsSeparator;
      DataRowsOfAll(rows[1..]);
      assert rows == [rows[0]] + rows[1..];
      assert forall i :: 0 <= i < |rows[1..]| ==> rows[1..][i] == rows[i + 1];
      assert forall i :: 0 < i < |rows| ==> rows[i] == rows[1..][i - 1];
    }
  }

  /** A table of clean rows survives rendering and parsing exactly when it has no separator row. */
  lemma TableSurvivesIff(rows: seq<Row>)
    requires rows != [] && CleanRows(rows)
    ensures Parse(RenderTable(rows)) == [TableBlock(rows)] <==> forall i :: 0 <= i < |rows| ==> !IsSeparator(rows[i])
  {
    TableRoundTrip(rows);
    DataRowsOfAll(rows);
    hide Parse, IsSeparator, DataRows, CleanRow, RenderTable;
    assert TableBlock(rows).rows == rows && TableBlock(DataRows(rows)).rows == DataRows(rows);
  }

  /** The parser can return a table of these rows. */
  ghost predicate ParsedRows(rows: seq<Row>) {
    CleanRows(rows) && DataRows(rows) == rows
  }

  lemma {:induction false} RowsOfAreParsed(lines: seq<string>)
    requires forall i :: 0 <= i < |lines| ==> '\n' !in lines[i]
    ensures ParsedRows(RowsOf(lines))
  {
    if lines != [] {
      CellsAreClean(lines[0]);
      hide Cells, IsSeparator, CleanRow, ParsedRows;
      assert forall i :: 0 <= i < |lines[1..]| ==> lines[1..][i] == lines[i + 1];
      RowsOfAreParsed(lines[1..]);
      if !IsSeparator(Cells(lines[0])) {
        ParsedPush(Cells(lines[0]), RowsOf(lines[1..]));
      }
    } else {
      assert CleanRows([]) && DataRows([]) == [];
    }
  }

  lemma ParsedPush(row: Row, rows: seq<Row>)
    requires CleanRow(row) && !IsSeparator(row) && ParsedRows(rows)
    ensures ParsedRows([row] + rows)
  {
    hide CleanRow, IsSeparator;
    assert ([row] + rows)[1..] == rows;
  }

  // ----- the chunks of a split table are tables -----

  lemma {:induction false} WholeRowsOf(parts: seq<Part>, p: Part, line: string)
    requires p in parts && p.RowGroup? && line in p.rows
    ensures line in WholeRows(parts)
  {
    if p != parts[0] {
      WholeRowsOf(parts[1..], p, line);
    }
  }

  lemma {:induction false} FittingAreRows(header: string, body: seq<string>, allowed: nat)
    ensures forall line :: line in FittingRows(header, body, allowed) ==> line in body
  {
    if body != [] {
      FittingAreRows(header, body[1..], allowed);
    }
  }

  /** Lines that are rendered rows of a table are the rendering of some of its rows. */
  lemma {:induction false} LinesOfRows(rows: seq<Row>, lines: seq<string>) returns (group: seq<Row>)
    requires forall k :: 0 <= k < |lines| ==> lines[k] in RenderLines(rows)
    ensures RenderLines(group) == lines && forall i :: 0 <= i < |group| ==> group[i] in rows
  {
    hide RenderRow;
    if lines == [] {
      group := [];
    } else {
      assert lines[0] in RenderLines(rows);
      var i :| 0 <= i < |rows| && RenderLines(rows)[i] == lines[0];
      var rest := LinesOfRows(rows, lines[1..]);
      group := [rows[i]] + rest;
      assert group[1..] == rest && lines == [lines[0]] + lines[1..];
    }
  }

  /** Each chunk that shows a group of rows of a split table parses back to a table: the header
      and the rows of the group. */
  lemma GroupChunkIsTable(rows: seq<Row>, allowed: nat, p: Part)
    requires rows != [] && CleanRows(rows)
    requires p in SplitTable(RenderLines(rows), allowed) && p.RowGroup?
    ensures exists group: seq<Row> ::
      && RenderLines(group) == p.rows && (forall i :: 0 <= i < |group| ==> group[i] in rows)
      && p.Shown(RenderRow(rows[0])) == RenderTable([rows[0]] + group)
      && Parse(p.Shown(RenderRow(rows[0]))) == [TableBlock(DataRows([rows[0]] + group))]
  {
    hide Parse, CleanRow, RenderRow, DataRows, SplitTable, TableBlock, Join, RenderLines;
    GroupLines(rows, allowed, p);
    var group := LinesOfRows(rows, p.rows);
    var all := [rows[0]] + group;
    HeadLine(rows[0], group);
    TableRoundTrip(all);
  }

  lemma HeadLine(head: Row, group: seq<Row>)
    ensures RenderLines([head] + group) == [RenderRow(head)] + RenderLines(group)
  {
    assert ([head] + group)[1..] == group;
  }

  lemma GroupLines(rows: seq<Row>, allowed: nat, p: Part)
    requires rows != [] && p in SplitTable(RenderLines(rows), allowed) && p.RowGroup?
    ensures forall k :: 0 <= k < |p.rows| ==> p.rows[k] in RenderLines(rows)
  {
    hide NonSpace, Concat, Bodies, RenderRow;
    var lines := RenderLines(rows);
    SplitTableKeepsRows(lines, allowed);
    FittingAreRows(lines[0], lines[1..], allowed);
    hide SplitTable, FittingRows, WholeRows;
    forall k | 0 <= k < |p.rows| ensures p.rows[k] in lines {
      WholeRowsOf(SplitTable(lines, allowed), p, p.rows[k]);
    }
  }
}
