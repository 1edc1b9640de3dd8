/** Chunking a whole document: the heading path of every block, the budget that the path
    leaves for the text, and the cap on the number of chunks. */
module Blocks {
  import opened Wrappers
  import opened Text
  import opened Paragraphs
  import opened Tables

  datatype Kind = Heading | Paragraph | Table

  datatype Block = Block(kind: Kind, text: string, level: Option<nat>, page: Option<nat>, rows: seq<Row>) {
    /** A heading without a level, or with level 0, counts as level 1. */
    function Level(): (r: nat)
      ensures r >= 1 && (level in {None, Some(0), Some(1)} <==> r == 1) && (r > 1 ==> level == Some(r))
    {
      if level.Some? && level.value > 0 then level.value else 1
    }
  }

  datatype Title = Title(level: nat, text: string)

  /** A chunk before it is numbered. */
  datatype Content = Content(text: string, isTable: bool, path: string, page: Option<nat>)

  datatype Chunk = Chunk(index: nat, content: Content)

  datatype Config = Config(budget: int, maxChunks: nat, overlap: nat)

  // ----- the heading stack -----

  /** Drops from the top every title at `level` or deeper. */
  function PopTo(stack: seq<Title>, level: nat): seq<Title> {
    if stack != [] && stack[|stack| - 1].level >= level then PopTo(stack[..|stack| - 1], level) else stack
  }

  function Push(stack: seq<Title>, heading: Block): seq<Title> {
    PopTo(stack, heading.Level()) + [Title(heading.Level(), heading.text)]
  }

  function TitleTexts(stack: seq<Title>): (texts: seq<string>)
    ensures |texts| == |stack| && forall i :: 0 <= i < |stack| ==> texts[i] == stack[i].text
  {
    if stack == [] then [] else [stack[0].text] + TitleTexts(stack[1..])
  }

  function Path(stack: seq<Title>): string {
    Join(" > ", TitleTexts(stack))
  }

  /** The stack after the blocks have been read. */
  function Stack(blocks: seq<Block>): seq<Title> {
    if blocks == [] then []
    else
      var last := |blocks| - 1;
      var before := Stack(blocks[..last]);
      if blocks[last].kind == Heading then Push(before, blocks[last]) else before
  }

  /** The heading at `j` still covers what comes after `blocks`: no later heading among them is
      at its level or above. */
  predicate Covers(blocks: seq<Block>, j: nat)
    requires j < |blocks|
  {
    && blocks[j].kind == Heading
    && forall k :: j < k < |blocks| && blocks[k].kind == Heading ==> blocks[k].Level() > blocks[j].Level()
  }

  /** The covering headings among the first `n` blocks, in document order. */
  function Ancestors(blocks: seq<Block>, n: nat): seq<Title>
    requires n <= |blocks|
  {
    if n == 0 then []
    else if Covers(blocks, n - 1) then Ancestors(blocks, n - 1) + [Title(blocks[n - 1].Level(), blocks[n - 1].text)]
    else Ancestors(blocks, n - 1)
  }

  ghost predicate StrictlyDeeper(stack: seq<Title>) {
    forall i, j :: 0 <= i < j < |stack| ==> stack[i].level < stack[j].level
  }

  method UpdatePath(stack: seq<Title>, heading: Block) returns (stack': seq<Title>, path: string)
    ensures stack' == Push(stack, heading) && path == Path(stack')
  {
    var level := heading.Level();
    stack' := stack;
    while stack' != [] && stack'[|stack'| - 1].level >= level
      invariant PopTo(stack', level) == PopTo(stack, level)
      decreases |stack'|
    {
      stack' := stack'[..|stack'| - 1];
    }
    stack' := stack' + [Title(level, heading.text)];
    path := Path(stack');
  }

  // ----- chunking -----

  function Prefix(path: string): string {
    if path != "" then "[" + path + "] " else ""
  }

  /** What is embedded for a chunk: its path in brackets, then its text. */
  function EmbedText(c: Content): string {
    if c.path != "" then "[" + c.path + "] " + c.text else c.text
  }

  function Allowed(path: string, budget: int): nat {
    var left := budget - Units(Prefix(path));
    if left > 1 then left else 1
  }

  function BlockTexts(block: Block, path: string, config: Config): seq<string> {
    if block.kind == Table then TableChunks(block.text, block.rows, Allowed(path, config.budget))
    else ParagraphChunks(block.text, Allowed(path, config.budget), config.overlap)
  }

  function Contents(texts: seq<string>, block: Block, path: string): (contents: seq<Content>)
    ensures |contents| == |texts| && forall i :: 0 <= i < |texts| ==> contents[i].text == texts[i]
  {
    if texts == [] then []
    else [Content(texts[0], block.kind == Table, path, block.page)] + Contents(texts[1..], block, path)
  }

  /** The chunks of the block that follows the blocks `before`. */
  function BlockChunks(before: seq<Block>, block: Block, config: Config): seq<Content> {
    if block.kind == Heading then []
    else Contents(BlockTexts(block, Path(Stack(before)), config), block, Path(Stack(before)))
  }

  /** All chunks of the document, without a cap. */
  function AllChunks(blocks: seq<Block>, config: Config): seq<Content> {
    if blocks == [] then []
    else
      var last := |blocks| - 1;
      AllChunks(blocks[..last], config) + BlockChunks(blocks[..last], blocks[last], config)
  }

  function Numbered(contents: seq<Content>): (chunks: seq<Chunk>)
    ensures |chunks| == |contents|
    ensures forall i :: 0 <= i < |contents| ==> chunks[i] == Chunk(i, contents[i])
  {
    seq(|contents|, i requires 0 <= i < |contents| => Chunk(i, contents[i]))
  }

  function Capped<T>(s: seq<T>, n: nat): seq<T> {
    if |s| <= n then s else s[..n]
  }

  /** Emits the texts of one block until the cap is hit. */
  method EmitAll(chunks: seq<Chunk>, texts: seq<string>, block: Block, path: string, maxChunks: nat, ghost done: seq<Content>)
    returns (chunks': seq<Chunk>, truncated: bool)
    requires chunks == Numbered(done) && |done| <= maxChunks
    ensures var all := done + Contents(texts, block, path);
            chunks' == Numbered(Capped(all, maxChunks)) && truncated == (|all| > maxChunks)
  {
    chunks', truncated := chunks, false;
    ghost var emitted := done;
    ghost var all := done + Contents(texts, block, path);
    for i := 0 to |texts|
      invariant chunks' == Numbered(emitted) && |emitted| <= maxChunks
      invariant emitted + Contents(texts[i..], block, path) == all
    {
      var content := Content(texts[i], block.kind == Table, path, block.page);
      assert texts[i..][1..] == texts[i + 1..];
      Regroup(emitted, [content], Contents(texts[i + 1..], block, path));
      if |chunks'| >= maxChunks {
        truncated := true;
        assert all[..maxChunks] == emitted;
        return;
      }
      chunks' := chunks' + [Chunk(|chunks'|, content)];
      emitted := emitted + [content];
    }
    assert all == emitted;
  }

  /** The chunks are exactly the first `maxChunks` of the uncapped list, numbered in order, and
      `truncated` says whether there are more. */
  method ChunkBlocks(blocks: seq<Block>, config: Config) returns (chunks: seq<Chunk>, truncated: bool)
    ensures chunks == Numbered(Capped(AllChunks(blocks, config), config.maxChunks))
    ensures truncated == (|AllChunks(blocks, config)| > config.maxChunks)
  {
    chunks, truncated := [], false;
    var stack: seq<Title> := [];
    var path := "";
    var n := 0;
    while n < |blocks|
      invariant n <= |blocks|
      invariant stack == Stack(blocks[..n]) && path == Path(stack)
      invariant |AllChunks(blocks[..n], config)| <= config.maxChunks
      invariant chunks == Numbered(AllChunks(blocks[..n], config))
    {
      hide Path, BlockTexts, Units, Capped, Push;
      var block := blocks[n];
      ghost var done := AllChunks(blocks[..n], config);
      assert blocks[..n + 1][..n] == blocks[..n];
      if block.kind == Heading {
        stack, path := UpdatePath(stack, block);
        assert AllChunks(blocks[..n + 1], config) == done;
        n := n + 1;
        continue;
      }
      var texts := TextsFor(block, path, config);
      chunks, truncated := EmitAll(chunks, texts, block, path, config.maxChunks, done);
      assert AllChunks(blocks[..n + 1], config) == done + Contents(texts, block, path);
      if truncated {
        MoreBlocks(blocks, n + 1, config);
        CappedPrefix(AllChunks(blocks[..n + 1], config), AllChunks(blocks, config), config.maxChunks);
        return;
      }
      CappedAll(AllChunks(blocks[..n + 1], config), config.maxChunks);
      n := n + 1;
    }
    assert blocks[..n] == blocks;
    CappedAll(AllChunks(blocks, config), config.maxChunks);
  }

  method TextsFor(block: Block, path: string, config: Config) returns (texts: seq<string>)
    ensures texts == BlockTexts(block, path, config)
  {
    var allowed := Allowed(path, config.budget);
    if block.kind == Table {
      texts := SplitIntoChunks(block.text, block.rows, allowed);
    } else {
      texts := PackParagraph(block.text, allowed, config.overlap);
    }
  }

  lemma CappedAll<T>(s: seq<T>, n: nat)
    requires |s| <= n
    ensures Capped(s, n) == s
  {
  }

  lemma CappedPrefix<T>(s: seq<T>, t: seq<T>, n: nat)
    requires s <= t && |s| > n
    ensures Capped(s, n) == Capped(t, n) && |t| > n
  {
  }

  lemma {:induction false} MoreBlocks(blocks: seq<Block>, n: nat, config: Config)
    requires n <= |blocks|
    ensures AllChunks(blocks[..n], config) <= AllChunks(blocks, config)
    decreases |blocks| - n
  {
    if n < |blocks| {
      MoreBlocks(blocks, n + 1, config);
      assert blocks[..n + 1][..n] == blocks[..n];
    } else {
      assert blocks[..n] == blocks;
    }
  }

  // ----- heading paths -----

  lemma {:induction false} PopToMeaning(stack: seq<Title>, level: nat)
    requires StrictlyDeeper(stack)
    ensures var kept := PopTo(stack, level);
      && kept <= stack && StrictlyDeeper(kept)
      && (forall i :: 0 <= i < |kept| ==> kept[i].level < level)
      && (forall i :: |kept| <= i < |stack| ==> stack[i].level >= level)
  {
    if stack != [] && stack[|stack| - 1].level >= level {
      PopToMeaning(stack[..|stack| - 1], level);
    }
  }

  /** Adding a heading at `level` leaves exactly the covering headings above that level. */
  lemma {:induction false} AncestorsAfterHeading(blocks: seq<Block>, heading: Block, n: nat)
    requires n <= |blocks| && heading.kind == Heading && StrictlyDeeper(Ancestors(blocks, n))
    ensures Ancestors(blocks + [heading], n) == PopTo(Ancestors(blocks, n), heading.Level())
  {
    var all := blocks + [heading];
    var titles := Ancestors(blocks, n);
    PopToMeaning(titles, heading.Level());
    if n > 0 {
      var shorter := Ancestors(blocks, n - 1);
      if Covers(blocks, n - 1) {
        assert titles[..|titles| - 1] == shorter;
        assert forall i, j :: 0 <= i < j < |shorter| ==> shorter[i] == titles[i] && shorter[j] == titles[j];
      }
      AncestorsAfterHeading(blocks, heading, n - 1);
      CoversAfterHeading(blocks, heading, n - 1);
      hide Covers;
      if Covers(all, n - 1) {
        PopToMeaning(shorter, heading.Level());
        assert titles[|titles| - 1].level < heading.Level();
        assert PopTo(titles, heading.Level()) == titles;
        PopNothing(titles, shorter, heading.Level());
      } else if Covers(blocks, n - 1) {
        assert titles[|titles| - 1].level >= heading.Level();
      }
    }
  }

  lemma CoversAfterHeading(blocks: seq<Block>, heading: Block, j: nat)
    requires j < |blocks| && heading.kind == Heading
    ensures Covers(blocks + [heading], j) <==> Covers(blocks, j) && heading.Level() > blocks[j].Level()
  {
    var all := blocks + [heading];
    assert all[|blocks|] == heading && all[j] == blocks[j];
    assert forall k :: 0 <= k < |blocks| ==> all[k] == blocks[k];
  }

  lemma PopNothing(titles: seq<Title>, shorter: seq<Title>, level: nat)
    requires StrictlyDeeper(titles) && shorter < titles && titles[|titles| - 1].level < level
    ensures PopTo(shorter, level) == shorter
  {
    if shorter != [] {
      assert shorter[|shorter| - 1] == titles[|shorter| - 1];
    }
  }

  lemma {:induction false} AncestorsAfterOther(blocks: seq<Block>, other: Block, n: nat)
    requires n <= |blocks| && other.kind != Heading
    ensures Ancestors(blocks + [other], n) == Ancestors(blocks, n)
  {
    if n > 0 {
      AncestorsAfterOther(blocks, other, n - 1);
      var all := blocks + [other];
      assert forall k :: 0 <= k < |blocks| ==> all[k] == blocks[k];
      assert Covers(all, n - 1) <==> Covers(blocks, n - 1);
    }
  }

  /** The stack holds exactly the headings that cover the next block, each deeper than the one
      before: the path of a chunk is the chain of its ancestor headings. */
  lemma {:induction false} StackIsAncestors(blocks: seq<Block>)
    ensures Stack(blocks) == Ancestors(blocks, |blocks|)
    ensures StrictlyDeeper(Stack(blocks))
  {
    if blocks != [] {
      var last := |blocks| - 1;
      var before, block := blocks[..last], blocks[last];
      assert blocks == before + [block];
      StackIsAncestors(before);
      if block.kind == Heading {
        AncestorsAfterHeading(before, block, last);
        PopToMeaning(Stack(before), block.Level());
        assert Covers(blocks, last);
      } else {
        AncestorsAfterOther(before, block, last);
      }
    }
  }

  // ----- budget -----

  /** The path leaves room for text, and so does the header of a table that has to be split. */
  ghost predicate LeavesRoom(block: Block, path: string, budget: int) {
    && Units(Prefix(path)) < budget
    && (block.kind == Table && block.rows != [] ==>
          || HeaderLeavesRoom(RenderRow(block.rows[0]), budget - Units(Prefix(path)))
          || Units(RenderTable(block.rows)) <= budget - Units(Prefix(path)))
  }

  lemma {:induction false} ContentsMeaning(texts: seq<string>, block: Block, path: string)
    ensures forall c :: c in Contents(texts, block, path) ==>
              c.text in texts && c.path == path && c.isTable == (block.kind == Table) && c.page == block.page
  {
    if texts != [] {
      ContentsMeaning(texts[1..], block, path);
    }
  }

  /** What is embedded for a chunk, path included, fits the budget whenever the path leaves room. */
  lemma BlockFits(before: seq<Block>, block: Block, config: Config)
    requires LeavesRoom(block, Path(Stack(before)), config.budget)
    ensures forall c :: c in BlockChunks(before, block, config) ==> Units(EmbedText(c)) <= config.budget
  {
    if block.kind != Heading {
      var path := Path(Stack(before));
      var texts := BlockTexts(block, path, config);
      var allowed := Allowed(path, config.budget);
      if block.kind == Table {
        TableFits(block.text, block.rows, allowed);
      } else {
        ParagraphFits(block.text, allowed, config.overlap);
      }
      ContentsMeaning(texts, block, path);
      forall c | c in BlockChunks(before, block, config) ensures Units(EmbedText(c)) <= config.budget {
        EmbedUnits(c);
      }
    }
  }

  lemma EmbedUnits(c: Content)
    ensures Units(Prefix(c.path)) <= Units(EmbedText(c)) <= Units(Prefix(c.path)) + Units(c.text)
  {
    assert EmbedText(c) == Prefix(c.path) + c.text;
    UnitsAppend(Prefix(c.path), c.text);
  }

  /** A path over the budget puts every chunk under it over the budget. */
  lemma LongPathNeverFits(before: seq<Block>, block: Block, config: Config)
    requires Units(Prefix(Path(Stack(before)))) > config.budget
    ensures forall c :: c in BlockChunks(before, block, config) ==> Units(EmbedText(c)) > config.budget
  {
    if block.kind != Heading {
      var path := Path(Stack(before));
      ContentsMeaning(BlockTexts(block, path, config), block, path);
      forall c | c in BlockChunks(before, block, config) ensures Units(EmbedText(c)) > config.budget {
        EmbedUnits(c);
      }
    }
  }

  /** The chunk `c` comes from block `n`: it bears the chain of headings that cover the block, and
      fits the budget with it whenever the chain leaves room. */
  ghost predicate ComesFrom(blocks: seq<Block>, n: nat, config: Config, c: Content)
    requires n < |blocks|
  {
    && blocks[n].kind != Heading
    && c in BlockChunks(blocks[..n], blocks[n], config)
    && c.path == Path(Ancestors(blocks[..n], n))
    && (LeavesRoom(blocks[n], c.path, config.budget) ==> Units(EmbedText(c)) <= config.budget)
  }

  lemma LastOrigin(blocks: seq<Block>, config: Config, c: Content)
    requires blocks != [] && c in BlockChunks(blocks[..|blocks| - 1], blocks[|blocks| - 1], config)
    ensures ComesFrom(blocks, |blocks| - 1, config, c)
  {
    var last := |blocks| - 1;
    var before, block := blocks[..last], blocks[last];
    StackIsAncestors(before);
    ContentsMeaning(BlockTexts(block, Path(Stack(before)), config), block, Path(Stack(before)));
    if LeavesRoom(block, c.path, config.budget) {
      BlockFits(before, block, config);
    }
  }

  /** Every chunk of a document comes from one of its blocks. */
  lemma {:induction false} ChunkOrigin(blocks: seq<Block>, config: Config, c: Content)
    requires c in AllChunks(blocks, config)
    ensures exists n :: 0 <= n < |blocks| && ComesFrom(blocks, n, config, c)
  {
    hide ComesFrom, BlockChunks;
    var last := |blocks| - 1;
    var before := blocks[..last];
    if c in AllChunks(before, config) {
      ChunkOrigin(before, config, c);
      var n :| 0 <= n < |before| && ComesFrom(before, n, config, c);
      EarlierOrigin(blocks, n, config, c);
    } else {
      LastOrigin(blocks, config, c);
    }
  }

  lemma EarlierOrigin(blocks: seq<Block>, n: nat, config: Config, c: Content)
    requires n + 1 < |blocks| && ComesFrom(blocks[..|blocks| - 1], n, config, c)
    ensures ComesFrom(blocks, n, config, c)
  {
    hide BlockChunks, Units, LeavesRoom;
    assert blocks[..|blocks| - 1][..n] == blocks[..n];
  }

  /** The texts of a block under the headings that cover it, within what their path leaves of the budget. */
  function TextsUnder(blocks: seq<Block>, j: nat, config: Config): seq<string>
    requires j < |blocks|
  {
    var path := Join(" > ", TitleTexts(Ancestors(blocks[..j], j)));
    var left := config.budget - (if path == "" then 0 else Units("[" + path + "] "));
    var allowed := if left >= 1 then left else 1;
    match blocks[j].kind
    case Heading => []
    case Table => TableChunks(blocks[j].text, blocks[j].rows, allowed)
    case Paragraph => ParagraphChunks(blocks[j].text, allowed, config.overlap)
  }

  lemma AllowedOf(path: string, budget: int)
    ensures var left := budget - (if path == "" then 0 else Units("[" + path + "] "));
            Allowed(path, budget) == if left >= 1 then left else 1
  {
    UnitsOfNone();
    hide Units;
  }

  lemma BlockTextsUnder(blocks: seq<Block>, j: nat, config: Config)
    requires j < |blocks|
    ensures var chunks, texts := BlockChunks(blocks[..j], blocks[j], config), TextsUnder(blocks, j, config);
            |chunks| == |texts| && forall i :: 0 <= i < |texts| ==> chunks[i].text == texts[i]
  {
    hide Units, Allowed, Stack, Ancestors, TitleTexts, Join, TableChunks, ParagraphChunks;
    StackIsAncestors(blocks[..j]);
    AllowedOf(Path(Stack(blocks[..j])), config.budget);
  }

  lemma OneMoreBlock(blocks: seq<Block>, config: Config, j: nat)
    requires j < |blocks|
    ensures AllChunks(blocks[..j + 1], config) == AllChunks(blocks[..j], config) + BlockChunks(blocks[..j], blocks[j], config)
    ensures AllChunks([], config) == []
  {
    hide BlockChunks;
    assert blocks[..j + 1][..j] == blocks[..j];
  }

  lemma InPlace<T>(a: seq<T>, b: seq<T>, all: seq<T>)
    requires a + b <= all
    ensures |a| + |b| <= |all| && forall i :: 0 <= i < |b| ==> all[|a| + i] == b[i]
  {
    forall i | 0 <= i < |b| ensures all[|a| + i] == b[i] {
      assert (a + b)[|a| + i] == b[i];
    }
  }

  /** No block is left out: the chunks of block `j` follow those of the blocks before it, and are its
      texts in order. A heading has none. */
  lemma EveryBlockIsChunked(blocks: seq<Block>, config: Config, j: nat)
    requires j < |blocks|
    ensures var all, texts := AllChunks(blocks, config), TextsUnder(blocks, j, config);
            var start, end := |AllChunks(blocks[..j], config)|, |AllChunks(blocks[..j + 1], config)|;
            && end == start + |texts| && end <= |all|
            && forall i :: 0 <= i < |texts| ==> all[start + i].text == texts[i]
    ensures AllChunks([], config) == []
  {
    hide BlockChunks, TextsUnder, AllChunks;
    BlockTextsUnder(blocks, j, config);
    MoreBlocks(blocks, j + 1, config);
    OneMoreBlock(blocks, config, j);
    InPlace(AllChunks(blocks[..j], config), BlockChunks(blocks[..j], blocks[j], config), AllChunks(blocks, config));
  }
}
