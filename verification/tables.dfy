/** Splitting a table that is over the budget into groups of rows, each under the header. */
module Tables {
  import opened Text
  import opened Sentences
  import Paragraphs

  type Row = seq<string>

  function RenderRow(cells: Row): string {
    "| " + Join(" | ", cells) + " |"
  }

  function RenderLines(rows: seq<Row>): (lines: seq<string>)
    ensures |lines| == |rows|
    ensures forall i :: 0 <= i < |rows| ==> lines[i] == RenderRow(rows[i])
  {
    if rows == [] then [] else [RenderRow(rows[0])] + RenderLines(rows[1..])
  }

  function RenderTable(rows: seq<Row>): string {
    Join("\n", RenderLines(rows))
  }

  /** What one chunk of a split table shows below the header line: some whole rows, or a slice
      of one row that is too long to ride whole. */
  datatype Part = RowGroup(rows: seq<string>) | RowSlice(row: string, slice: string) {
    function Shown(header: string): string {
      match this
      case RowGroup(rows) => Join("\n", [header] + rows)
      case RowSlice(_, slice) => header + "\n" + slice
    }

    function Body(): string {
      match this
      case RowGroup(rows) => Concat(rows)
      case RowSlice(_, slice) => slice
    }
  }

  /** What a row adds to its chunk: its own length and one for the line break. */
  function Cost(line: string): nat {
    Units(line) + 1
  }

  /** A row that does not fit even alone below the header. */
  predicate Oversized(header: string, line: string, allowed: nat) {
    Units(header) + Cost(line) > allowed
  }

  /** The length of the slices of an oversized row when `used` units are taken. */
  function SliceLimit(used: nat, allowed: nat): (limit: nat)
    ensures limit >= 1 && (used + 2 <= allowed ==> used + 1 + limit == allowed)
  {
    if allowed - used - 1 > 1 then allowed - used - 1 else 1
  }

  function SliceParts(line: string, slices: seq<string>): seq<Part> {
    if slices == [] then [] else [RowSlice(line, slices[0])] + SliceParts(line, slices[1..])
  }

  /** The parts made of the rows `body` when the rows `current`, taking up `used` with the
      header, are waiting to be emitted. */
  function Split(header: string, body: seq<string>, current: seq<string>, used: nat, allowed: nat): seq<Part>
    decreases |body|, 1
  {
    if body == [] then [RowGroup(current)]
    else if current != [] && used + Cost(body[0]) > allowed then
      [RowGroup(current)] + Place(header, body, [], Units(header), allowed)
    else Place(header, body, current, used, allowed)
  }

  function Place(header: string, body: seq<string>, current: seq<string>, used: nat, allowed: nat): seq<Part>
    requires body != []
    decreases |body|, 0
  {
    var line := body[0];
    if used + Cost(line) > allowed then
      SliceParts(line, CharSlices(line, SliceLimit(used, allowed))) + Split(header, body[1..], current, used, allowed)
    else
      Split(header, body[1..], current + [line], used + Cost(line), allowed)
  }

  function ShownAll(header: string, parts: seq<Part>): seq<string> {
    if parts == [] then [] else [parts[0].Shown(header)] + ShownAll(header, parts[1..])
  }

  function SplitTable(lines: seq<string>, allowed: nat): seq<Part>
    requires lines != []
  {
    Split(lines[0], lines[1..], [], Units(lines[0]), allowed)
  }

  function TableChunks(text: string, rows: seq<Row>, allowed: nat): seq<string> {
    if rows == [] then Paragraphs.ParagraphChunks(text, allowed, 0)
    else
      var lines := RenderLines(rows);
      if Units(RenderTable(rows)) <= allowed || |lines| == 1 then [RenderTable(rows)]
      else DropBlank(ShownAll(lines[0], SplitTable(lines, allowed)))
  }

  // ----- the loops -----

  method PackRows(header: string, body: seq<string>, allowed: nat) returns (chunks: seq<string>)
    ensures chunks == ShownAll(header, Split(header, body, [], Units(header), allowed))
  {
    hide Units, SliceLimit, CharSlices, Join;
    chunks := [];
    var current: seq<string> := [];
    var used: nat := Units(header);
    ghost var goal := ShownAll(header, Split(header, body, [], used, allowed));
    for i := 0 to |body|
      invariant chunks + ShownAll(header, Split(header, body[i..], current, used, allowed)) == goal
    {
      var line := body[i];
      var cost := Cost(line);
      ghost var rest := body[i..];
      assert rest[0] == line && rest[1..] == body[i + 1..];
      if current != [] && used + cost > allowed {
        ShownPush(header, chunks, RowGroup(current), Place(header, rest, [], Units(header), allowed));
        chunks := chunks + [RowGroup(current).Shown(header)];
        current, used := [], Units(header);
      }
      assert chunks + ShownAll(header, Place(header, rest, current, used, allowed)) == goal;
      if used + cost > allowed {
        var slices := SliceChars(line, SliceLimit(used, allowed));
        ShownAppend(header, SliceParts(line, slices), Split(header, rest[1..], current, used, allowed));
        Regroup(chunks, ShownAll(header, SliceParts(line, slices)), ShownAll(header, Split(header, rest[1..], current, used, allowed)));
        chunks := AddSlices(header, line, chunks, slices);
      } else {
        current, used := current + [line], used + cost;
      }
    }
    ShownPush(header, chunks, RowGroup(current), []);
    chunks := chunks + [RowGroup(current).Shown(header)];
  }

  method AddSlices(header: string, line: string, chunks: seq<string>, slices: seq<string>) returns (all: seq<string>)
    ensures all == chunks + ShownAll(header, SliceParts(line, slices))
  {
    all := chunks;
    for j := 0 to |slices|
      invariant all + ShownAll(header, SliceParts(line, slices[j..])) == chunks + ShownAll(header, SliceParts(line, slices))
    {
      assert slices[j..][1..] == slices[j + 1..];
      ShownPush(header, all, RowSlice(line, slices[j]), SliceParts(line, slices[j + 1..]));
      all := all + [header + "\n" + slices[j]];
    }
  }

  method SplitIntoChunks(text: string, rows: seq<Row>, allowed: nat) returns (chunks: seq<string>)
    ensures chunks == TableChunks(text, rows, allowed)
  {
    if rows == [] {
      chunks := Paragraphs.PackParagraph(text, allowed, 0);
      return;
    }
    var lines := RenderLines(rows);
    if Units(Join("\n", lines)) <= allowed {
      return [Join("\n", lines)];
    }
    if |lines| == 1 {
      return [Join("\n", lines)];
    }
    chunks := PackRows(lines[0], lines[1..], allowed);
    chunks := KeepNonBlank(chunks);
  }

  lemma {:induction false} ShownAppend(header: string, a: seq<Part>, b: seq<Part>)
    ensures ShownAll(header, a + b) == ShownAll(header, a) + ShownAll(header, b)
  {
    if a == [] {
      assert a + b == b;
    } else {
      assert (a + b)[1..] == a[1..] + b;
      ShownAppend(header, a[1..], b);
      Regroup([a[0].Shown(header)], ShownAll(header, a[1..]), ShownAll(header, b));
    }
  }

  lemma ShownPush(header: string, done: seq<string>, part: Part, rest: seq<Part>)
    ensures done + ShownAll(header, [part] + rest) == done + [part.Shown(header)] + ShownAll(header, rest)
  {
    assert ([part] + rest)[1..] == rest;
    Regroup(done, [part.Shown(header)], ShownAll(header, rest));
  }

  // ----- budget -----

  function SumCost(lines: seq<string>): nat {
    if lines == [] then 0 else Cost(lines[0]) + SumCost(lines[1..])
  }

  lemma {:induction false} SumCostPush(lines: seq<string>, x: string)
    ensures SumCost(lines + [x]) == SumCost(lines) + Cost(x)
  {
    if lines == [] {
      assert [] + [x] == [x] && [x][1..] == [];
    } else {
      assert (lines + [x])[1..] == lines[1..] + [x];
      SumCostPush(lines[1..], x);
    }
  }

  lemma {:induction false} JoinedUnits(lines: seq<string>)
    requires lines != []
    ensures Units(Join("\n", lines)) + 1 <= SumCost(lines)
  {
    if |lines| == 1 {
      assert lines[1..] == [];
    } else {
      JoinedUnits(lines[1..]);
      UnitsOfOne("\n");
      UnitsAppend(lines[0], "\n");
      UnitsAppend(lines[0] + "\n", Join("\n", lines[1..]));
    }
  }

  /** The parts that fit the budget when they are shown below the header. */
  ghost predicate AllFit(header: string, parts: seq<Part>, allowed: nat) {
    forall p :: p in parts ==> Units(p.Shown(header)) <= allowed
  }

  /** `used` is what the header and the waiting rows take up. */
  ghost predicate Tracks(header: string, current: seq<string>, used: nat) {
    used == Units(header) + SumCost(current)
  }

  lemma GroupFits(header: string, rows: seq<string>, used: nat, allowed: nat)
    requires Tracks(header, rows, used) && used <= allowed
    ensures Units(RowGroup(rows).Shown(header)) <= allowed
  {
    assert ([header] + rows)[1..] == rows;
    JoinedUnits([header] + rows);
  }

  lemma {:induction false} SlicePartsMeaning(line: string, slices: seq<string>)
    ensures forall p :: p in SliceParts(line, slices) ==> p.RowSlice? && p.row == line && p.slice in slices
    ensures Concat(Bodies(SliceParts(line, slices))) == Concat(slices)
  {
    if slices != [] {
      SlicePartsMeaning(line, slices[1..]);
    }
  }

  lemma SlicesFitBelow(header: string, line: string, allowed: nat)
    requires Units(header) + 2 <= allowed
    ensures AllFit(header, SliceParts(line, CharSlices(line, SliceLimit(Units(header), allowed))), allowed)
  {
    var limit := SliceLimit(Units(header), allowed);
    var slices := CharSlices(line, limit);
    CharSlicesMeaning(line, limit);
    SlicePartsMeaning(line, slices);
    forall p | p in SliceParts(line, slices) ensures Units(p.Shown(header)) <= allowed {
      UnitsOfOne("\n");
      UnitsAppend(header, "\n");
      UnitsAppend(header + "\n", p.slice);
    }
  }

  lemma {:induction false} SplitFits(header: string, body: seq<string>, current: seq<string>, used: nat, allowed: nat)
    requires Units(header) + 2 <= allowed && Tracks(header, current, used) && used <= allowed
    ensures AllFit(header, Split(header, body, current, used, allowed), allowed)
    decreases |body|, 1
  {
    GroupFits(header, current, used, allowed);
    hide Units;
    if body == [] {
    } else if current != [] && used + Cost(body[0]) > allowed {
      PlaceFits(header, body, [], Units(header), allowed);
    } else {
      PlaceFits(header, body, current, used, allowed);
    }
  }

  lemma FitAppend(header: string, a: seq<Part>, b: seq<Part>, allowed: nat)
    requires AllFit(header, a, allowed) && AllFit(header, b, allowed)
    ensures AllFit(header, a + b, allowed)
  {
    hide Units;
  }

  lemma NothingWaits(header: string, current: seq<string>, used: nat)
    requires Tracks(header, current, used)
    ensures current == [] ==> used == Units(header)
  {
  }

  lemma {:induction false} PlaceFits(header: string, body: seq<string>, current: seq<string>, used: nat, allowed: nat)
    requires Units(header) + 2 <= allowed && Tracks(header, current, used) && used <= allowed
    requires body != [] && (current == [] || used + Cost(body[0]) <= allowed)
    ensures AllFit(header, Place(header, body, current, used, allowed), allowed)
    decreases |body|, 0
  {
    hide AllFit, Units;
    var line := body[0];
    if used + Cost(line) > allowed {
      assert current == [] && used == Units(header) by { NothingWaits(header, current, used); }
      SlicesFitBelow(header, line, allowed);
      SplitFits(header, body[1..], current, used, allowed);
      FitAppend(header, SliceParts(line, CharSlices(line, SliceLimit(used, allowed))),
                Split(header, body[1..], current, used, allowed), allowed);
    } else {
      SumCostPush(current, line);
      SplitFits(header, body[1..], current + [line], used + Cost(line), allowed);
    }
  }

  /** Under a header that leaves less room every row is cut into slices of at most one unit. */
  lemma NarrowSlicesFit(header: string, line: string, allowed: nat)
    requires Units(header) + 2 > allowed && Fifths(header) + 7 <= 5 * allowed
    ensures AllFit(header, SliceParts(line, CharSlices(line, SliceLimit(Units(header), allowed))), allowed)
  {
    assert SliceLimit(Units(header), allowed) == 1;
    var slices := CharSlices(line, 1);
    CharSlicesMeaning(line, 1);
    SlicePartsMeaning(line, slices);
    forall p | p in SliceParts(line, slices) ensures Units(p.Shown(header)) <= allowed {
      hide CharSlices;
      FifthsAppend(header, "\n");
      FifthsAppend(header + "\n", p.slice);
      assert Fifths("\n") == 2 && Units(p.slice) <= 1;
    }
  }

  lemma {:induction false} NarrowFits(header: string, body: seq<string>, allowed: nat)
    requires Units(header) + 2 > allowed && Fifths(header) + 7 <= 5 * allowed
    requires forall i :: 0 <= i < |body| ==> body[i] != ""
    ensures AllFit(header, Split(header, body, [], Units(header), allowed), allowed)
  {
    if body == [] {
      assert Join("\n", [header] + []) == header;
    } else {
      var line := body[0];
      assert Units(line) >= 1;
      NarrowSlicesFit(header, line, allowed);
      NarrowFits(header, body[1..], allowed);
      hide AllFit, Units, Fifths;
      FitAppend(header, SliceParts(line, CharSlices(line, SliceLimit(Units(header), allowed))),
                Split(header, body[1..], [], Units(header), allowed), allowed);
    }
  }

  // ----- conservation -----

  function Bodies(parts: seq<Part>): seq<string> {
    if parts == [] then [] else [parts[0].Body()] + Bodies(parts[1..])
  }

  /** The rows that the parts show whole, in order. */
  function WholeRows(parts: seq<Part>): seq<string> {
    if parts == [] then []
    else (match parts[0] case RowGroup(rows) => rows case RowSlice(_, _) => []) + WholeRows(parts[1..])
  }

  function FittingRows(header: string, body: seq<string>, allowed: nat): seq<string> {
    if body == [] then []
    else if Oversized(header, body[0], allowed) then FittingRows(header, body[1..], allowed)
    else [body[0]] + FittingRows(header, body[1..], allowed)
  }

  lemma {:induction false} BodiesAppend(a: seq<Part>, b: seq<Part>)
    ensures Bodies(a + b) == Bodies(a) + Bodies(b)
  {
    if a == [] {
      assert a + b == b;
    } else {
      assert (a + b)[1..] == a[1..] + b;
      BodiesAppend(a[1..], b);
    }
  }

  lemma {:induction false} WholeRowsAppend(a: seq<Part>, b: seq<Part>)
    ensures WholeRows(a + b) == WholeRows(a) + WholeRows(b)
  {
    if a == [] {
      assert a + b == b;
    } else {
      assert (a + b)[1..] == a[1..] + b;
      WholeRowsAppend(a[1..], b);
      var first := match a[0] case RowGroup(rows) => rows case RowSlice(_, _) => [];
      Regroup(first, WholeRows(a[1..]), WholeRows(b));
    }
  }

  lemma {:induction false} SlicesShowNoRow(line: string, slices: seq<string>)
    ensures WholeRows(SliceParts(line, slices)) == []
  {
    if slices != [] {
      SlicesShowNoRow(line, slices[1..]);
    }
  }

  /** What a run of parts keeps of the waiting rows and the remaining body: all of their text
      in order, and every row that fits as a whole row. */
  ghost predicate Keeps(header: string, parts: seq<Part>, current: seq<string>, body: seq<string>, allowed: nat) {
    && NonSpace(Concat(Bodies(parts))) == NonSpace(Concat(current)) + NonSpace(Concat(body))
    && WholeRows(parts) == current + FittingRows(header, body, allowed)
  }

  lemma GroupKeeps(header: string, current: seq<string>, rest: seq<Part>, body: seq<string>, allowed: nat)
    requires Keeps(header, rest, [], body, allowed)
    ensures Keeps(header, [RowGroup(current)] + rest, current, body, allowed)
  {
    var parts := [RowGroup(current)] + rest;
    assert parts[1..] == rest;
    NonSpaceAppend(Concat(current), Concat(Bodies(rest)));
  }

  lemma {:induction false} SplitKeeps(header: string, body: seq<string>, current: seq<string>, used: nat, allowed: nat)
    requires Tracks(header, current, used)
    ensures Keeps(header, Split(header, body, current, used, allowed), current, body, allowed)
    decreases |body|, 1
  {
    if body == [] {
      GroupKeeps(header, current, [], [], allowed);
      assert [RowGroup(current)] + [] == [RowGroup(current)];
    } else if current != [] && used + Cost(body[0]) > allowed {
      PlaceKeeps(header, body, [], Units(header), allowed);
      GroupKeeps(header, current, Place(header, body, [], Units(header), allowed), body, allowed);
    } else {
      PlaceKeeps(header, body, current, used, allowed);
    }
  }

  lemma {:induction false} PlaceKeeps(header: string, body: seq<string>, current: seq<string>, used: nat, allowed: nat)
    requires Tracks(header, current, used)
    requires body != [] && (current == [] || used + Cost(body[0]) <= allowed)
    ensures Keeps(header, Place(header, body, current, used, allowed), current, body, allowed)
    decreases |body|, 0
  {
    hide Units, CharSlices, Keeps;
    var line := body[0];
    if used + Cost(line) > allowed {
      assert current == [] && Oversized(header, line, allowed);
      SplitKeeps(header, body[1..], current, used, allowed);
      SlicesKeep(header, body, used, Split(header, body[1..], current, used, allowed), allowed);
    } else {
      SumCostPush(current, line);
      SplitKeeps(header, body[1..], current + [line], used + Cost(line), allowed);
      RowKeeps(header, Split(header, body[1..], current + [line], used + Cost(line), allowed), current, body, allowed);
    }
  }

  lemma BodyStep(body: seq<string>)
    requires body != []
    ensures NonSpace(Concat(body)) == NonSpace(body[0]) + NonSpace(Concat(body[1..]))
    ensures NonSpace(Concat([])) == ""
  {
    NonSpaceAppend(body[0], Concat(body[1..]));
  }

  lemma RowKeeps(header: string, parts: seq<Part>, current: seq<string>, body: seq<string>, allowed: nat)
    requires body != [] && !Oversized(header, body[0], allowed)
    requires Keeps(header, parts, current + [body[0]], body[1..], allowed)
    ensures Keeps(header, parts, current, body, allowed)
  {
    BodyStep(body);
    ConcatPush(current, body[0]);
    NonSpaceAppend(Concat(current), body[0]);
    hide Units, Concat, NonSpace, Bodies, WholeRows;
    Regroup(NonSpace(Concat(current)), NonSpace(body[0]), NonSpace(Concat(body[1..])));
    Regroup(current, [body[0]], FittingRows(header, body[1..], allowed));
  }

  lemma SlicesKeep(header: string, body: seq<string>, used: nat, rest: seq<Part>, allowed: nat)
    requires body != [] && Oversized(header, body[0], allowed)
    requires Keeps(header, rest, [], body[1..], allowed)
    ensures Keeps(header, SliceParts(body[0], CharSlices(body[0], SliceLimit(used, allowed))) + rest, [], body, allowed)
  {
    var line := body[0];
    var slices := CharSlices(line, SliceLimit(used, allowed));
    CharSlicesMeaning(line, SliceLimit(used, allowed));
    SlicePartsMeaning(line, slices);
    SlicesShowNoRow(line, slices);
    hide Units, CharSlices, Concat, Bodies, WholeRows, NonSpace, SliceParts, Keeps;
    PrefixKeeps(header, SliceParts(line, slices), rest, body, allowed);
  }

  lemma PrefixKeeps(header: string, parts: seq<Part>, rest: seq<Part>, body: seq<string>, allowed: nat)
    requires body != [] && Oversized(header, body[0], allowed)
    requires Keeps(header, rest, [], body[1..], allowed)
    requires NonSpace(Concat(Bodies(parts))) == NonSpace(body[0]) && WholeRows(parts) == []
    ensures Keeps(header, parts + rest, [], body, allowed)
  {
    BodiesAppend(parts, rest);
    WholeRowsAppend(parts, rest);
    ConcatAppend(Bodies(parts), Bodies(rest));
    NonSpaceAppend(Concat(Bodies(parts)), Concat(Bodies(rest)));
    BodyStep(body);
    hide Units, Concat, Bodies, WholeRows, NonSpace;
  }

  /** The chunks of a split table show, below a header each, the whole text of the body in
      order, and every row that fits below the header appears whole, once and in order. */
  lemma SplitTableKeepsRows(lines: seq<string>, allowed: nat)
    requires lines != []
    ensures var parts := SplitTable(lines, allowed);
      && WholeRows(parts) == FittingRows(lines[0], lines[1..], allowed)
      && NonSpace(Concat(Bodies(parts))) == NonSpace(Concat(lines[1..]))
  {
    SplitKeeps(lines[0], lines[1..], [], Units(lines[0]), allowed);
  }

  /** The slices come from rows of the body that do not fit below the header. */
  ghost predicate SlicesOf(header: string, parts: seq<Part>, body: seq<string>, allowed: nat) {
    forall p :: p in parts && p.RowSlice? ==> p.row in body && Oversized(header, p.row, allowed)
  }

  lemma {:induction false} SplitSlices(header: string, body: seq<string>, current: seq<string>, used: nat, allowed: nat)
    requires Tracks(header, current, used)
    ensures SlicesOf(header, Split(header, body, current, used, allowed), body, allowed)
    decreases |body|, 1
  {
    hide Units;
    if body == [] {
    } else if current != [] && used + Cost(body[0]) > allowed {
      PlaceSlices(header, body, [], Units(header), allowed);
    } else {
      PlaceSlices(header, body, current, used, allowed);
    }
  }

  lemma {:induction false} PlaceSlices(header: string, body: seq<string>, current: seq<string>, used: nat, allowed: nat)
    requires Tracks(header, current, used)
    requires body != [] && (current == [] || used + Cost(body[0]) <= allowed)
    ensures SlicesOf(header, Place(header, body, current, used, allowed), body, allowed)
    decreases |body|, 0
  {
    hide Units, Concat;
    var line := body[0];
    if used + Cost(line) > allowed {
      assert current == [] && Oversized(header, line, allowed);
      SlicePartsMeaning(line, CharSlices(line, SliceLimit(used, allowed)));
      SplitSlices(header, body[1..], current, used, allowed);
    } else {
      SumCostPush(current, line);
      SplitSlices(header, body[1..], current + [line], used + Cost(line), allowed);
    }
  }

  lemma {:induction false} ShownMeaning(header: string, parts: seq<Part>)
    ensures forall c :: c in ShownAll(header, parts) ==> exists p :: p in parts && c == p.Shown(header)
  {
    if parts != [] {
      ShownMeaning(header, parts[1..]);
    }
  }

  /** The header leaves room for a line break and one wide character. */
  predicate HeaderLeavesRoom(header: string, allowed: int) {
    Fifths(header) + 7 <= 5 * allowed
  }

  lemma SplitTableFits(lines: seq<string>, allowed: nat)
    requires lines != [] && HeaderLeavesRoom(lines[0], allowed) && forall i :: 0 <= i < |lines| ==> lines[i] != ""
    ensures AllFit(lines[0], SplitTable(lines, allowed), allowed)
  {
    if Units(lines[0]) + 2 <= allowed {
      SplitFits(lines[0], lines[1..], [], Units(lines[0]), allowed);
    } else {
      NarrowFits(lines[0], lines[1..], allowed);
    }
  }

  /** Every chunk of a table fits the budget when the header leaves room, or when nothing has to be
      split. */
  lemma TableFits(text: string, rows: seq<Row>, allowed: nat)
    requires allowed >= 1
    requires rows != [] ==> HeaderLeavesRoom(RenderRow(rows[0]), allowed) || Units(RenderTable(rows)) <= allowed
    ensures forall c :: c in TableChunks(text, rows, allowed) ==> Units(c) <= allowed
  {
    if rows == [] {
      Paragraphs.ParagraphFits(text, allowed, 0);
    } else if |rows| == 1 {
      assert RenderLines(rows) == [RenderRow(rows[0])];
    } else if Units(RenderTable(rows)) > allowed {
      var lines := RenderLines(rows);
      SplitTableFits(lines, allowed);
      ShownMeaning(lines[0], SplitTable(lines, allowed));
      DropBlankMeaning(ShownAll(lines[0], SplitTable(lines, allowed)));
    }
  }

  /** A header over the budget puts every chunk of its split table over the budget. */
  lemma LargeHeaderNeverFits(text: string, rows: seq<Row>, allowed: nat)
    requires rows != [] && Units(RenderRow(rows[0])) > allowed
    ensures forall c :: c in TableChunks(text, rows, allowed) ==> Units(c) > allowed
  {
    var lines := RenderLines(rows);
    JoinStarts(lines[0], lines[1..]);
    assert lines == [lines[0]] + lines[1..];
    ShownMeaning(lines[0], SplitTable(lines, allowed));
    DropBlankMeaning(ShownAll(lines[0], SplitTable(lines, allowed)));
    forall p: Part ensures Units(p.Shown(lines[0])) >= Units(lines[0]) {
      match p
      case RowGroup(rs) => JoinStarts(lines[0], rs);
      case RowSlice(_, slice) =>
        UnitsAppend(lines[0], "\n");
        UnitsAppend(lines[0] + "\n", slice);
    }
  }

  lemma JoinStarts(header: string, rows: seq<string>)
    ensures Units(Join("\n", [header] + rows)) >= Units(header)
  {
    assert ([header] + rows)[1..] == rows;
    UnitsAppend(header, "\n");
    UnitsAppend(header + "\n", Join("\n", rows));
  }

  // ----- greedy groups, no chunk dropped -----

  function FirstRow(part: Part): string {
    match part
    case RowGroup(rows) => if rows == [] then "" else rows[0]
    case RowSlice(row, _) => row
  }

  /** Every group but the last holds rows and had no room for the row that comes next. */
  ghost predicate Greedy(header: string, parts: seq<Part>, allowed: nat) {
    forall k :: 0 <= k < |parts| - 1 && parts[k].RowGroup? ==>
      && parts[k].rows != []
      && Units(header) + SumCost(parts[k].rows) + Cost(FirstRow(parts[k + 1])) > allowed
  }

  ghost predicate StartsWith(parts: seq<Part>, rows: seq<string>) {
    parts != [] && (rows != [] ==> FirstRow(parts[0]) == rows[0])
  }

  lemma {:induction false} SplitGreedy(header: string, body: seq<string>, current: seq<string>, used: nat, allowed: nat)
    requires Tracks(header, current, used) && forall i :: 0 <= i < |body| ==> !Blank(body[i])
    ensures var parts := Split(header, body, current, used, allowed);
            Greedy(header, parts, allowed) && StartsWith(parts, current + body)
    decreases |body|, 1
  {
    if body == [] {
    } else if current != [] && used + Cost(body[0]) > allowed {
      PlaceGreedy(header, body, [], Units(header), allowed);
      var rest := Place(header, body, [], Units(header), allowed);
      assert StartsWith(rest, body);
      GreedyPush(header, RowGroup(current), rest, allowed);
    } else {
      PlaceGreedy(header, body, current, used, allowed);
    }
  }

  lemma GreedyPush(header: string, part: Part, rest: seq<Part>, allowed: nat)
    requires Greedy(header, rest, allowed)
    requires rest != [] && part.RowGroup? ==>
               part.rows != [] && Units(header) + SumCost(part.rows) + Cost(FirstRow(rest[0])) > allowed
    ensures Greedy(header, [part] + rest, allowed)
  {
    var parts := [part] + rest;
    forall k | 0 < k < |parts| - 1 && parts[k].RowGroup?
      ensures parts[k].rows != [] && Units(header) + SumCost(parts[k].rows) + Cost(FirstRow(parts[k + 1])) > allowed
    {
      assert parts[k] == rest[k - 1] && parts[k + 1] == rest[k];
    }
  }

  lemma {:induction false} PlaceGreedy(header: string, body: seq<string>, current: seq<string>, used: nat, allowed: nat)
    requires Tracks(header, current, used) && forall i :: 0 <= i < |body| ==> !Blank(body[i])
    requires body != [] && (current == [] || used + Cost(body[0]) <= allowed)
    ensures var parts := Place(header, body, current, used, allowed);
            Greedy(header, parts, allowed) && StartsWith(parts, current + body)
    decreases |body|, 0
  {
    var line := body[0];
    if used + Cost(line) > allowed {
      SplitGreedy(header, body[1..], current, used, allowed);
      var slices := CharSlices(line, SliceLimit(used, allowed));
      CharSlicesMeaning(line, SliceLimit(used, allowed));
      BlankIffNoText(line);
      assert slices != [];
      assert SliceParts(line, slices)[0] == RowSlice(line, slices[0]);
      SlicesGreedy(header, line, slices, Split(header, body[1..], current, used, allowed), allowed);
    } else {
      SumCostPush(current, line);
      assert current + body == current + [line] + body[1..];
      SplitGreedy(header, body[1..], current + [line], used + Cost(line), allowed);
    }
  }

  lemma {:induction false} SlicesGreedy(header: string, line: string, slices: seq<string>, rest: seq<Part>, allowed: nat)
    requires Greedy(header, rest, allowed)
    ensures Greedy(header, SliceParts(line, slices) + rest, allowed)
  {
    if slices == [] {
      assert SliceParts(line, slices) + rest == rest;
    } else {
      SlicesGreedy(header, line, slices[1..], rest, allowed);
      GreedyPush(header, RowSlice(line, slices[0]), SliceParts(line, slices[1..]) + rest, allowed);
      Regroup([RowSlice(line, slices[0])], SliceParts(line, slices[1..]), rest);
    }
  }

  lemma {:induction false} ShownNotBlank(header: string, parts: seq<Part>)
    requires header != "" && header[0] == '|'
    ensures DropBlank(ShownAll(header, parts)) == ShownAll(header, parts)
  {
    if parts != [] {
      ShownNotBlank(header, parts[1..]);
      var first := parts[0].Shown(header);
      assert first[0] == '|';
    }
  }

  lemma RowNotBlank(row: Row)
    ensures RenderRow(row) != "" && RenderRow(row)[0] == '|' && !Blank(RenderRow(row))
  {
    assert !IsSpace(RenderRow(row)[0]);
  }

  /** A table without rows is chunked as a paragraph without overlap. The chunks of one with rows: the table
      itself, or one chunk per part of the split,
      whose groups are as large as the budget lets them be. */
  lemma TableChunksMeaning(text: string, rows: seq<Row>, allowed: nat)
    ensures rows == [] ==> TableChunks(text, rows, allowed) == Paragraphs.ParagraphChunks(text, allowed, 0)
    ensures rows != [] ==>
      var lines := RenderLines(rows);
      && TableChunks(text, rows, allowed)
         == (if Units(RenderTable(rows)) <= allowed || |rows| == 1 then [RenderTable(rows)]
             else ShownAll(lines[0], SplitTable(lines, allowed)))
      && Greedy(lines[0], SplitTable(lines, allowed), allowed)
  {
    if rows == [] {
      return;
    }
    var lines := RenderLines(rows);
    RowNotBlank(rows[0]);
    forall i | 0 <= i < |lines[1..]| ensures !Blank(lines[1..][i]) {
      assert lines[1..][i] == lines[i + 1];
      RowNotBlank(rows[i + 1]);
    }
    hide Units, Blank, RenderRow, Join;
    ShownNotBlank(lines[0], SplitTable(lines, allowed));
    SplitGreedy(lines[0], lines[1..], [], Units(lines[0]), allowed);
  }
}
