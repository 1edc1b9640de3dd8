/** Merging the lexical and the vector hits of one attachment. */
module DocumentRank {
  import opened Ordering
  import opened Rrf

  datatype Chunk = Chunk(id: Id, chunkIndex: int)

  function Ids(list: seq<Chunk>): (ids: seq<Id>)
    ensures |ids| == |list|
    ensures forall i :: 0 <= i < |list| ==> ids[i] == list[i].id
  {
    seq(|list|, i requires 0 <= i < |list| => list[i].id)
  }

  function Flatten(lists: seq<seq<Chunk>>): seq<Chunk> {
    if lists == [] then [] else Flatten(lists[..|lists| - 1]) + lists[|lists| - 1]
  }

  /** All entries of all lists, each with its rank in its own list. */
  function Entries(lists: seq<seq<Chunk>>): seq<Entry> {
    if lists == [] then [] else Entries(lists[..|lists| - 1]) + Ranked(Ids(lists[|lists| - 1]))
  }

  /** The first chunk met for each id, in the order in which the ids are met. */
  function FirstSeen(chunks: seq<Chunk>): seq<Chunk> {
    if chunks == [] then []
    else
      var seen, last := FirstSeen(chunks[..|chunks| - 1]), chunks[|chunks| - 1];
      if last.id in Ids(seen) then seen else seen + [last]
  }

  function SortKey(entries: seq<Entry>, c: Chunk): Rank {
    Rank(Score(entries, c.id), -Hits(entries, c.id), c.chunkIndex, "")
  }

  function Merged(lists: seq<seq<Chunk>>): seq<Chunk> {
    var entries := Entries(lists);
    SortBy(FirstSeen(Flatten(lists)), c => SortKey(entries, c))
  }

  /** The dictionaries hold what the entries add up to, for exactly these ids. */
  ghost predicate Sums(entries: seq<Entry>, rrf: map<Id, real>, listsHit: map<Id, int>, ids: seq<Id>) {
    forall id ::
      && (id in rrf <==> id in ids) && (id in listsHit <==> id in ids)
      && (id in ids ==> rrf[id] == Score(entries, id) && listsHit[id] == Hits(entries, id))
      && (id !in ids ==> Score(entries, id) == 0.0 && Hits(entries, id) == 0)
  }

  ghost predicate Accumulated(entries: seq<Entry>, chunks: seq<Chunk>, rrf: map<Id, real>, listsHit: map<Id, int>, byId: seq<Chunk>) {
    byId == FirstSeen(chunks) && Sums(entries, rrf, listsHit, Ids(byId))
  }

  method AddList(ranked: seq<Chunk>, rrf0: map<Id, real>, listsHit0: map<Id, int>, byId0: seq<Chunk>,
                 ghost entries: seq<Entry>, ghost chunks: seq<Chunk>)
    returns (rrf: map<Id, real>, listsHit: map<Id, int>, byId: seq<Chunk>)
    requires Accumulated(entries, chunks, rrf0, listsHit0, byId0)
    ensures Accumulated(entries + Ranked(Ids(ranked)), chunks + ranked, rrf, listsHit, byId)
  {
    hide Accumulated, Score, Hits;
    rrf, listsHit, byId := rrf0, listsHit0, byId0;
    assert entries + Ranked(Ids(ranked[..0])) == entries && chunks + ranked[..0] == chunks;
    for i := 0 to |ranked|
      invariant Accumulated(entries + Ranked(Ids(ranked[..i])), chunks + ranked[..i], rrf, listsHit, byId)
    {
      var chunk, rank := ranked[i], i + 1;
      AccumulateOne(entries, chunks, ranked, i);
      AccumulatedAfter(entries + Ranked(Ids(ranked[..i])), chunks + ranked[..i], rrf, listsHit, byId, chunk, rank);
      rrf := rrf[chunk.id := (if chunk.id in rrf then rrf[chunk.id] else 0.0) + 1.0 / ((K + rank) as real)];
      listsHit := listsHit[chunk.id := (if chunk.id in listsHit then listsHit[chunk.id] else 0) + 1];
      if chunk.id !in Ids(byId) {
        byId := byId + [chunk];
      }
    }
    assert ranked[..|ranked|] == ranked;
  }

  method RrfMerge(lists: seq<seq<Chunk>>) returns (merged: seq<Chunk>)
    ensures merged == Merged(lists)
  {
    var rrf: map<Id, real>, listsHit: map<Id, int> := map[], map[];
    var byId: seq<Chunk> := [];
    for n := 0 to |lists|
      invariant Accumulated(Entries(lists[..n]), Flatten(lists[..n]), rrf, listsHit, byId)
    {
      hide Accumulated, Ids, Ranked;
      assert lists[..n + 1][..n] == lists[..n];
      rrf, listsHit, byId := AddList(lists[n], rrf, listsHit, byId, Entries(lists[..n]), Flatten(lists[..n]));
    }
    assert lists[..|lists|] == lists;
    merged := SortAccumulated(rrf, listsHit, byId, lists);
  }

  method SortAccumulated(rrf: map<Id, real>, listsHit: map<Id, int>, byId: seq<Chunk>, ghost lists: seq<seq<Chunk>>)
    returns (merged: seq<Chunk>)
    requires Accumulated(Entries(lists), Flatten(lists), rrf, listsHit, byId)
    ensures merged == Merged(lists)
  {
    var byKey := (c: Chunk) => if c.id in rrf && c.id in listsHit then Rank(rrf[c.id], -listsHit[c.id], c.chunkIndex, "")
                               else Rank(0.0, 0, c.chunkIndex, "");
    ghost var entries := Entries(lists);
    ghost var specKey := (c: Chunk) => SortKey(entries, c);
    assert Merged(lists) == SortBy(byId, specKey);
    hide Score, Hits, Merged, Entries, Flatten, FirstSeen;
    forall c | c in byId ensures byKey(c) == specKey(c) {
      var i :| 0 <= i < |byId| && byId[i] == c;
      assert Ids(byId)[i] == c.id;
    }
    SortSame(byId, byKey, specKey);
    merged := SortBy(byId, byKey);
  }

  lemma AccumulateOne(entries: seq<Entry>, chunks: seq<Chunk>, ranked: seq<Chunk>, i: nat)
    requires i < |ranked|
    ensures entries + Ranked(Ids(ranked[..i + 1])) == entries + Ranked(Ids(ranked[..i])) + [Entry(ranked[i].id, i + 1)]
    ensures chunks + ranked[..i + 1] == chunks + ranked[..i] + [ranked[i]]
  {
    assert ranked[..i + 1][..i] == ranked[..i];
    assert Ids(ranked[..i + 1])[..i] == Ids(ranked[..i]);
  }

  lemma AccumulatedAfter(entries: seq<Entry>, chunks: seq<Chunk>, rrf: map<Id, real>, listsHit: map<Id, int>, byId: seq<Chunk>,
                         chunk: Chunk, rank: nat)
    requires Accumulated(entries, chunks, rrf, listsHit, byId)
    ensures var score := (if chunk.id in rrf then rrf[chunk.id] else 0.0) + Weight(rank);
            var hits := (if chunk.id in listsHit then listsHit[chunk.id] else 0) + 1;
            Accumulated(entries + [Entry(chunk.id, rank)], chunks + [chunk], rrf[chunk.id := score], listsHit[chunk.id := hits],
                        if chunk.id in Ids(byId) then byId else byId + [chunk])
  {
    FirstSeenPush(chunks, chunk);
    assert Ids(byId + [chunk]) == Ids(byId) + [chunk.id] by {
      assert (byId + [chunk])[..|byId|] == byId;
    }
    SumsAfter(entries, rrf, listsHit, Ids(byId), Entry(chunk.id, rank));
    hide Sums, FirstSeen, Weight, Ids;
  }

  lemma SumsAfter(entries: seq<Entry>, rrf: map<Id, real>, listsHit: map<Id, int>, ids: seq<Id>, e: Entry)
    requires Sums(entries, rrf, listsHit, ids)
    ensures var score := (if e.id in rrf then rrf[e.id] else 0.0) + Weight(e.rank);
            var hits := (if e.id in listsHit then listsHit[e.id] else 0) + 1;
            Sums(entries + [e], rrf[e.id := score], listsHit[e.id := hits], if e.id in ids then ids else ids + [e.id])
  {
    ScorePush(entries, e);
    hide Score, Hits, Weight;
  }

  lemma ScorePush(entries: seq<Entry>, e: Entry)
    ensures forall id :: Score(entries + [e], id) == Score(entries, id) + if id == e.id then Weight(e.rank) else 0.0
    ensures forall id :: Hits(entries + [e], id) == Hits(entries, id) + if id == e.id then 1 else 0
  {
    assert (entries + [e])[..|entries|] == entries;
  }

  lemma FirstSeenPush(chunks: seq<Chunk>, c: Chunk)
    ensures var seen := FirstSeen(chunks);
            FirstSeen(chunks + [c]) == if c.id in Ids(seen) then seen else seen + [c]
  {
    assert (chunks + [c])[..|chunks|] == chunks;
  }

  // ----- what the merge returns -----

  lemma {:induction false} FirstSeenMeaning(chunks: seq<Chunk>)
    ensures Distinct(Ids(FirstSeen(chunks)))
    ensures forall id :: id in Ids(FirstSeen(chunks)) <==> id in Ids(chunks)
    ensures forall c :: c in FirstSeen(chunks) ==> c in chunks
  {
    if chunks != [] {
      var last := |chunks| - 1;
      FirstSeenMeaning(chunks[..last]);
      assert Ids(chunks) == Ids(chunks[..last]) + [chunks[last].id];
      var seen := FirstSeen(chunks[..last]);
      assert Ids(seen + [chunks[last]]) == Ids(seen) + [chunks[last].id];
    }
  }

  /** An ordered permutation of the chunks met, one for each id. */
  lemma MergeIsOrderedUnion(lists: seq<seq<Chunk>>)
    ensures var merged := Merged(lists);
      && multiset(merged) == multiset(FirstSeen(Flatten(lists)))
      && Ordered(merged, c => SortKey(Entries(lists), c))
    ensures forall id :: id in Ids(FirstSeen(Flatten(lists))) <==> id in Ids(Flatten(lists))
    ensures Distinct(Ids(FirstSeen(Flatten(lists))))
  {
    SortMeaning(FirstSeen(Flatten(lists)), c => SortKey(Entries(lists), c));
    FirstSeenMeaning(Flatten(lists));
  }

  // ----- dominance -----

  /** Two hits at the ends of lists of these lengths weigh at least as much as one first place. */
  predicate TwoBeatOne(lexicalMax: nat, vectorMax: nat) {
    Weight(lexicalMax) + Weight(vectorMax) >= Weight(1)
  }

  predicate InBoth(lexical: seq<Chunk>, vector: seq<Chunk>, id: Id) {
    id in Ids(lexical) && id in Ids(vector)
  }

  /** Every chunk found by both lists comes before every chunk found by only one. */
  ghost predicate SharedFirst(lexical: seq<Chunk>, vector: seq<Chunk>, merged: seq<Chunk>) {
    forall i, j | 0 <= i < |merged| && 0 <= j < |merged| ::
      InBoth(lexical, vector, merged[i].id) && !InBoth(lexical, vector, merged[j].id) ==> i < j
  }

  lemma EntriesOfTwo(lexical: seq<Chunk>, vector: seq<Chunk>)
    ensures Entries([lexical, vector]) == Ranked(Ids(lexical)) + Ranked(Ids(vector))
    ensures Flatten([lexical, vector]) == lexical + vector
  {
    hide Ranked, Ids;
    var lists := [lexical, vector];
    assert lists[..1] == [lexical] && [lexical][..0] == [];
    assert Entries([]) == [] && Flatten([]) == [];
    assert Entries([lexical]) == Entries([]) + Ranked(Ids(lexical));
    assert Flatten([lexical]) == Flatten([]) + lexical;
  }

  lemma TwoScores(lexical: seq<Chunk>, vector: seq<Chunk>, id: Id)
    requires Distinct(Ids(lexical)) && Distinct(Ids(vector))
    ensures var entries := Entries([lexical, vector]);
      && (InBoth(lexical, vector, id) ==>
            Score(entries, id) >= Weight(|lexical|) + Weight(|vector|) && Hits(entries, id) == 2)
      && (!InBoth(lexical, vector, id) ==> Score(entries, id) <= Weight(1) && Hits(entries, id) <= 1)
  {
    EntriesOfTwo(lexical, vector);
    ScoreAppend(Ranked(Ids(lexical)), Ranked(Ids(vector)), id);
    ListScore(lexical, id);
    ListScore(vector, id);
    hide Score, Hits, Weight, Ids;
  }

  lemma ListScore(list: seq<Chunk>, id: Id)
    requires Distinct(Ids(list))
    ensures var s := Score(Ranked(Ids(list)), id);
            if id in Ids(list) then Weight(|list|) <= s <= Weight(1) && Hits(Ranked(Ids(list)), id) == 1
            else s == 0.0 && Hits(Ranked(Ids(list)), id) == 0
  {
    var ids := Ids(list);
    hide Score, Hits, Weight, Ranked, Ids;
    if id in ids {
      var i :| 0 <= i < |ids| && ids[i] == id;
      ScoreOfListed(ids, i);
      WeightDecreases(1, i + 1);
      WeightDecreases(i + 1, |list|);
    } else {
      ScoreOfMissing(ids, id);
    }
  }

  /** With lists no longer than `l` and `v`, chunks found by both lists come first. */
  lemma SharedComeFirst(lexical: seq<Chunk>, vector: seq<Chunk>, l: nat, v: nat)
    requires Distinct(Ids(lexical)) && Distinct(Ids(vector)) && |lexical| <= l && |vector| <= v
    requires TwoBeatOne(l, v)
    ensures SharedFirst(lexical, vector, Merged([lexical, vector]))
  {
    var lists := [lexical, vector];
    var merged, entries := Merged(lists), Entries(lists);
    MergeIsOrderedUnion(lists);
    assert forall i, j :: 0 <= i < j < |merged| ==> KeyLeq(SortKey(entries, merged[i]), SortKey(entries, merged[j]));
    WeightDecreases(|lexical|, l);
    WeightDecreases(|vector|, v);
    hide Merged, Entries, Weight, KeyLeq;
    forall i, j | 0 <= i < |merged| && 0 <= j < |merged|
                  && InBoth(lexical, vector, merged[i].id) && !InBoth(lexical, vector, merged[j].id)
      ensures i < j
    {
      SharedBeatsSingle(lexical, vector, merged[i], merged[j]);
    }
  }

  lemma SharedBeatsSingle(lexical: seq<Chunk>, vector: seq<Chunk>, shared: Chunk, single: Chunk)
    requires Distinct(Ids(lexical)) && Distinct(Ids(vector))
    requires TwoBeatOne(|lexical|, |vector|)
    requires InBoth(lexical, vector, shared.id) && !InBoth(lexical, vector, single.id)
    ensures var entries := Entries([lexical, vector]);
            !KeyLeq(SortKey(entries, single), SortKey(entries, shared)) && shared != single
  {
    TwoScores(lexical, vector, shared.id);
    TwoScores(lexical, vector, single.id);
    hide Entries, Weight, Score, Hits, Ids;
  }

  lemma ShortEnough()
    ensures TwoBeatOne(150, 20)
  {
    assert Weight(150) == 1.0 / 210.0 && Weight(20) == 1.0 / 80.0 && Weight(1) == 1.0 / 61.0;
  }

  /** With at most 150 lexical and 20 vector hits, that is always so. */
  lemma SharedComeFirstHere(lexical: seq<Chunk>, vector: seq<Chunk>)
    requires Distinct(Ids(lexical)) && Distinct(Ids(vector)) && |lexical| <= 150 && |vector| <= 20
    ensures SharedFirst(lexical, vector, Merged([lexical, vector]))
  {
    ShortEnough();
    SharedComeFirst(lexical, vector, 150, 20);
  }

  // ----- the bound is exact -----

  function Fresh(n: nat, from: nat): (list: seq<Chunk>)
    ensures |list| == n
    ensures forall i :: 0 <= i < n ==> list[i] == Chunk(from + i, from + i)
  {
    seq(n, i requires 0 <= i < n => Chunk(from + i, from + i))
  }

  lemma FreshDistinct(list: seq<Chunk>)
    requires forall i, j :: 0 <= i < j < |list| ==> list[i].id != list[j].id
    ensures Distinct(Ids(list))
  {
  }

  lemma FirstPlaceSuffices(l: nat, v: nat)
    ensures l == 1 || v == 1 ==> TwoBeatOne(l, v)
  {
  }

  /** When two hits at the ends of lists of these lengths weigh less than one first place, such
      lists exist with the shared chunk behind a chunk found once. */
  lemma LateSharedLoses(l: nat, v: nat) returns (lexical: seq<Chunk>, vector: seq<Chunk>)
    requires l > 0 && v > 0 && !TwoBeatOne(l, v)
    ensures Distinct(Ids(lexical)) && Distinct(Ids(vector)) && |lexical| == l && |vector| == v
    ensures !SharedFirst(lexical, vector, Merged([lexical, vector]))
  {
    FirstPlaceSuffices(l, v);
    assert Weight(l) + Weight(v) < Weight(1);
    hide TwoBeatOne, Merged, SharedFirst;
    lexical, vector := LateShared(l, v);
    LastAndFirst(lexical, vector, l, v);
    var single, shared := lexical[0], lexical[l - 1];
    SharedIsBehind(lexical, vector, single, shared);
  }

  /** Two lists whose only common chunk is last in both. */
  lemma LateShared(l: nat, v: nat) returns (lexical: seq<Chunk>, vector: seq<Chunk>)
    requires l > 1 && v > 1
    ensures Distinct(Ids(lexical)) && Distinct(Ids(vector)) && |lexical| == l && |vector| == v
    ensures lexical[l - 1].id == vector[v - 1].id && lexical[0].id !in Ids(vector)
    ensures InBoth(lexical, vector, lexical[l - 1].id) && !InBoth(lexical, vector, lexical[0].id)
    ensures lexical[0].id in Ids(lexical)
  {
    lexical, vector := Fresh(l, 0), Fresh(v - 1, l) + [Chunk(l - 1, l - 1)];
    FreshDistinct(lexical);
    FreshDistinct(vector);
    assert Ids(lexical)[l - 1] == l - 1 && Ids(vector)[v - 1] == l - 1 && Ids(lexical)[0] == 0;
    assert forall j :: 0 <= j < v ==> Ids(vector)[j] == vector[j].id != 0;
  }

  lemma LastAndFirst(lexical: seq<Chunk>, vector: seq<Chunk>, l: nat, v: nat)
    requires Distinct(Ids(lexical)) && Distinct(Ids(vector)) && |lexical| == l > 0 && |vector| == v > 0
    requires lexical[l - 1].id == vector[v - 1].id && lexical[0].id !in Ids(vector)
    ensures var entries := Entries([lexical, vector]);
            Score(entries, lexical[l - 1].id) == Weight(l) + Weight(v) && Score(entries, lexical[0].id) == Weight(1)
  {
    EntriesOfTwo(lexical, vector);
    ScoreAppend(Ranked(Ids(lexical)), Ranked(Ids(vector)), lexical[l - 1].id);
    ScoreAppend(Ranked(Ids(lexical)), Ranked(Ids(vector)), lexical[0].id);
    ScoreOfListed(Ids(lexical), l - 1);
    ScoreOfListed(Ids(vector), v - 1);
    ScoreOfListed(Ids(lexical), 0);
    ScoreOfMissing(Ids(vector), lexical[0].id);
    hide Score, Weight, Entries, Ranked;
  }

  /** Both chunks are in the merge, the one found once in front. */
  lemma SharedIsBehind(lexical: seq<Chunk>, vector: seq<Chunk>, single: Chunk, shared: Chunk)
    requires InBoth(lexical, vector, shared.id) && !InBoth(lexical, vector, single.id) && single.id in Ids(lexical)
    requires Score(Entries([lexical, vector]), shared.id) < Score(Entries([lexical, vector]), single.id)
    ensures !SharedFirst(lexical, vector, Merged([lexical, vector]))
  {
    var merged := Merged([lexical, vector]);
    var i := IndexInMerge(lexical, vector, shared.id);
    var j := IndexInMerge(lexical, vector, single.id);
    ScoresDescend([lexical, vector]);
    hide Merged, Entries, Score, Ids;
    assert !(i < j);
  }

  lemma ScoresDescend(lists: seq<seq<Chunk>>)
    ensures var merged := Merged(lists);
            forall i, j :: 0 <= i < j < |merged| ==> Score(Entries(lists), merged[i].id) >= Score(Entries(lists), merged[j].id)
  {
    var merged, entries := Merged(lists), Entries(lists);
    MergeIsOrderedUnion(lists);
    hide Merged, Entries, Score, Hits, Ids;
    forall i, j | 0 <= i < j < |merged| ensures Score(entries, merged[i].id) >= Score(entries, merged[j].id) {
      assert KeyLeq(SortKey(entries, merged[i]), SortKey(entries, merged[j]));
    }
  }

  lemma IndexInMerge(lexical: seq<Chunk>, vector: seq<Chunk>, id: Id) returns (i: nat)
    requires id in Ids(lexical)
    ensures i < |Merged([lexical, vector])| && Merged([lexical, vector])[i].id == id
  {
    var lists := [lexical, vector];
    MergeIsOrderedUnion(lists);
    EntriesOfTwo(lexical, vector);
    var k :| 0 <= k < |Ids(lexical)| && Ids(lexical)[k] == id;
    assert Ids(lexical + vector)[k] == id;
    assert Flatten(lists) == lexical + vector;
    assert id in Ids(Flatten(lists));
    var merged, seen := Merged(lists), FirstSeen(Flatten(lists));
    hide Merged, Flatten, FirstSeen, Entries, Ids;
    var n :| 0 <= n < |Ids(seen)| && Ids(seen)[n] == id;
    assert seen[n] in multiset(seen);
    assert seen[n] in multiset(merged);
    i :| 0 <= i < |merged| && merged[i] == seen[n];
  }

  /** The length bound under which chunks found by both lists always come first is exact. */
  lemma SharedFirstIff(l: nat, v: nat)
    requires l > 0 && v > 0
    ensures TwoBeatOne(l, v) <==>
            forall lexical: seq<Chunk>, vector: seq<Chunk> |
              Distinct(Ids(lexical)) && Distinct(Ids(vector)) && |lexical| <= l && |vector| <= v ::
              SharedFirst(lexical, vector, Merged([lexical, vector]))
  {
    hide Merged, SharedFirst, TwoBeatOne;
    if TwoBeatOne(l, v) {
      forall lexical: seq<Chunk>, vector: seq<Chunk>
        | Distinct(Ids(lexical)) && Distinct(Ids(vector)) && |lexical| <= l && |vector| <= v
        ensures SharedFirst(lexical, vector, Merged([lexical, vector]))
      {
        SharedComeFirst(lexical, vector, l, v);
      }
    } else {
      var lexical, vector := LateSharedLoses(l, v);
    }
  }
}
