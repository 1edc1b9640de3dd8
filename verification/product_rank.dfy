/** Scoring, fusing and de-duplicating catalog products, and choosing the primary one. */
module ProductRank {
  import opened Ordering
  import opened Rrf

  const PRIMARY_MIN := 0.55
  const PRIMARY_MARGIN := 0.12
  const SCALE := 30.0

  /** A catalog row: `sku` and `name` are stripped and lowercased, `title` is the lowercased name
      as it stands, `doc` the lowercased search document. */
  datatype Product = Product(id: Id, org: bool, sku: string, name: string, title: string, doc: string)

  datatype MatchKind = ExactSku | Fuzzy | Vector

  datatype Hit = Hit(product: Product, score: real, kind: MatchKind)

  function KindRank(kind: MatchKind): int {
    match kind case ExactSku => 0 case Fuzzy => 1 case Vector => 2
  }

  function OwnerRank(p: Product): int {
    if p.org then 0 else 1
  }

  function Ids(hits: seq<Hit>): (ids: seq<Id>)
    ensures |ids| == |hits|
    ensures forall i :: 0 <= i < |hits| ==> ids[i] == hits[i].product.id
  {
    seq(|hits|, i requires 0 <= i < |hits| => hits[i].product.id)
  }

  // ----- lexical scores -----

  predicate Contains(hay: string, needle: string) {
    exists i | 0 <= i <= |hay| :: needle <= hay[i..]
  }

  /** How well one normalised query matches a row; 0 when it does not match at all. */
  function TierScore(p: Product, q: string): real {
    if q == "" then 0.0
    else if q == p.sku || q == p.name then 1.0
    else if p.sku != "" && (Contains(p.sku, q) || Contains(q, p.sku)) then 0.92
    else if p.name != "" && Contains(p.name, q) then 0.8
    else if |p.name| >= 2 && Contains(q, p.name) then 0.72
    else if p.doc != "" && Contains(p.doc, q) then
      0.55 + 0.25 * (if |q| <= |p.doc| then (|q| as real) / (|p.doc| as real) else 1.0)
    else 0.0
  }

  predicate SkuTier(p: Product, q: string) {
    q != "" && (q == p.sku || q == p.name || (p.sku != "" && (Contains(p.sku, q) || Contains(q, p.sku))))
  }

  function BestScore(p: Product, queries: seq<string>): real {
    if queries == [] then 0.0
    else
      var before, tier := BestScore(p, queries[..|queries| - 1]), TierScore(p, queries[|queries| - 1]);
      if tier > before then tier else before
  }

  function LexicalKind(p: Product, queries: seq<string>): MatchKind {
    if exists i | 0 <= i < |queries| :: SkuTier(p, queries[i]) then ExactSku else Fuzzy
  }

  function LexicalMatches(rows: seq<Product>, queries: seq<string>): seq<Hit> {
    if rows == [] then []
    else
      var before, p := LexicalMatches(rows[..|rows| - 1], queries), rows[|rows| - 1];
      if BestScore(p, queries) > 0.0 then before + [Hit(p, BestScore(p, queries), LexicalKind(p, queries))] else before
  }

  function LexicalKey(h: Hit): Rank {
    Rank(h.score, OwnerRank(h.product), 0, "")
  }

  function LexicalHits(rows: seq<Product>, queries: seq<string>): seq<Hit> {
    SortBy(LexicalMatches(rows, queries), LexicalKey)
  }

  method ScoreRow(p: Product, queries: seq<string>) returns (best: real, kind: MatchKind)
    ensures best == BestScore(p, queries) && kind == LexicalKind(p, queries)
  {
    hide Contains;
    best, kind := 0.0, Fuzzy;
    for i := 0 to |queries|
      invariant best == BestScore(p, queries[..i])
      invariant kind == if exists j | 0 <= j < i :: SkuTier(p, queries[j]) then ExactSku else Fuzzy
    {
      var q := queries[i];
      assert queries[..i + 1][..i] == queries[..i];
      if q == "" {
      } else if q == p.sku || q == p.name {
        best := if 1.0 > best then 1.0 else best;
        kind := ExactSku;
        assert SkuTier(p, queries[i]);
      } else if p.sku != "" && (Contains(p.sku, q) || Contains(q, p.sku)) {
        best := if 0.92 > best then 0.92 else best;
        kind := if best >= 0.92 then ExactSku else kind;
        assert SkuTier(p, queries[i]);
      } else if p.name != "" && Contains(p.name, q) {
        best := if 0.8 > best then 0.8 else best;
      } else if p.name != "" && Contains(q, p.name) && |p.name| >= 2 {
        best := if 0.72 > best then 0.72 else best;
      } else if p.doc != "" && Contains(p.doc, q) {
        var ratio := if |q| <= |p.doc| then (|q| as real) / (|p.doc| as real) else 1.0;
        var tier := 0.55 + 0.25 * ratio;
        best := if tier > best then tier else best;
      }
    }
    assert queries[..|queries|] == queries;
  }

  method FindLexical(rows: seq<Product>, queries: seq<string>) returns (hits: seq<Hit>)
    ensures hits == LexicalHits(rows, queries)
  {
    hits := [];
    for i := 0 to |rows|
      invariant hits == LexicalMatches(rows[..i], queries)
    {
      assert rows[..i + 1][..i] == rows[..i];
      var best, kind := ScoreRow(rows[i], queries);
      if best > 0.0 {
        hits := hits + [Hit(rows[i], best, kind)];
      }
    }
    assert rows[..|rows|] == rows;
    hits := SortBy(hits, LexicalKey);
  }

  /** The tiers of a query that is not blank: one for the SKU or the name itself, more than the rest for a
      part of the SKU or more than it; and a score at all only for a match. */
  lemma TierMeaning(p: Product, q: string)
    requires q != ""
    ensures TierScore(p, q) == 1.0 <==> q == p.sku || q == p.name
    ensures TierScore(p, q) > 0.8 <==> SkuTier(p, q)
    ensures TierScore(p, q) >= 0.72 <== p.name != "" && (Contains(p.name, q) || (|p.name| >= 2 && Contains(q, p.name)))
    ensures TierScore(p, q) > 0.0 <==>
            SkuTier(p, q) || (p.name != "" && Contains(p.name, q)) || (|p.name| >= 2 && Contains(q, p.name)) || (p.doc != "" && Contains(p.doc, q))
  {
    hide Contains;
    if |q| <= |p.doc| && p.doc != "" {
      Ratio(|q|, |p.doc|);
    }
  }

  lemma Ratio(a: nat, b: nat)
    requires a <= b && b > 0
    ensures 0.0 <= (a as real) / (b as real) <= 1.0
  {
    assert (a as real) / (b as real) <= (b as real) / (b as real);
  }

  predicate ExactFor(p: Product, queries: seq<string>) {
    exists i | 0 <= i < |queries| :: queries[i] != "" && (queries[i] == p.sku || queries[i] == p.name)
  }

  lemma {:induction false} BestIsOneIff(p: Product, queries: seq<string>)
    ensures BestScore(p, queries) == 1.0 <==> ExactFor(p, queries)
    ensures BestScore(p, queries) <= 1.0
  {
    hide TierScore;
    if queries != [] {
      var last := |queries| - 1;
      BestIsOneIff(p, queries[..last]);
      TierRange(p, queries[last]);
      if queries[last] != "" {
        TierMeaning(p, queries[last]);
      } else {
        assert TierScore(p, queries[last]) == 0.0 by { BlankScore(p); }
      }
      assert forall i :: 0 <= i < last ==> queries[..last][i] == queries[i];
    }
  }

  lemma BlankScore(p: Product)
    ensures TierScore(p, "") == 0.0
  {
  }

  lemma {:induction false} MatchesMeaning(rows: seq<Product>, queries: seq<string>)
    ensures forall h :: h in LexicalMatches(rows, queries) <==>
              h.product in rows && BestScore(h.product, queries) > 0.0
              && h == Hit(h.product, BestScore(h.product, queries), LexicalKind(h.product, queries))
  {
    hide BestScore, LexicalKind;
    if rows != [] {
      var last := |rows| - 1;
      MatchesMeaning(rows[..last], queries);
      assert rows == rows[..last] + [rows[last]];
    }
  }

  /** The lexical hits are the rows that match some query, in order; and a row whose SKU or name is asked for
      has the full score and comes before every row for which neither is. */
  lemma ExactComesFirst(rows: seq<Product>, queries: seq<string>)
    ensures forall p :: p in rows && BestScore(p, queries) > 0.0 ==>
              exists h :: h in LexicalHits(rows, queries) && h.product == p
    ensures forall h :: h in LexicalHits(rows, queries) ==> h.product in rows && (h.score == 1.0 <==> ExactFor(h.product, queries))
    ensures var hits := LexicalHits(rows, queries);
            forall i, j :: 0 <= i < |hits| && 0 <= j < |hits| && ExactFor(hits[i].product, queries) && !ExactFor(hits[j].product, queries)
              ==> i < j
  {
    var matches, hits := LexicalMatches(rows, queries), LexicalHits(rows, queries);
    MatchesMeaning(rows, queries);
    SortMeaning(matches, LexicalKey);
    hide LexicalMatches, BestScore, LexicalKind, ExactFor;
    forall h ensures h in hits <==> h in matches {
      SortMembers(matches, LexicalKey, h);
    }
    forall h | h in hits ensures h.product in rows && (h.score == 1.0 <==> ExactFor(h.product, queries)) && h.score <= 1.0 {
      BestIsOneIff(h.product, queries);
    }
    forall p | p in rows && BestScore(p, queries) > 0.0 ensures exists h :: h in hits && h.product == p {
      assert Hit(p, BestScore(p, queries), LexicalKind(p, queries)) in matches;
    }
    forall i, j | 0 <= i < |hits| && 0 <= j < |hits| && ExactFor(hits[i].product, queries) && !ExactFor(hits[j].product, queries)
      ensures i < j
    {
      assert hits[i] in hits && hits[j] in hits;
    }
  }

  lemma {:induction false} BestScoreRange(p: Product, queries: seq<string>)
    ensures BestScore(p, queries) == 0.0 || PRIMARY_MIN < BestScore(p, queries) <= 1.0
  {
    if queries != [] {
      BestScoreRange(p, queries[..|queries| - 1]);
      TierRange(p, queries[|queries| - 1]);
    }
  }

  lemma TierRange(p: Product, q: string)
    ensures TierScore(p, q) == 0.0 || PRIMARY_MIN < TierScore(p, q) <= 1.0
  {
    if q != "" && p.doc != "" && |q| <= |p.doc| {
      var a, b := |q| as real, |p.doc| as real;
      assert (a / b) * b == a;
      assert 0.0 < a / b <= 1.0;
    }
  }

  lemma {:induction false} MatchesRange(rows: seq<Product>, queries: seq<string>)
    ensures forall h :: h in LexicalMatches(rows, queries) ==> PRIMARY_MIN < h.score <= 1.0 && h.product in rows
  {
    if rows != [] {
      var last := |rows| - 1;
      MatchesRange(rows[..last], queries);
      BestScoreRange(rows[last], queries);
    }
  }

  /** Every lexical hit scores above the floor for a primary product. */
  lemma LexicalAboveFloor(rows: seq<Product>, queries: seq<string>)
    ensures forall h :: h in LexicalHits(rows, queries) ==> PRIMARY_MIN < h.score <= 1.0 && h.product in rows
  {
    MatchesRange(rows, queries);
    SortPermutes(LexicalMatches(rows, queries), LexicalKey);
    forall h | h in LexicalHits(rows, queries) ensures h in LexicalMatches(rows, queries) {
      assert h in multiset(LexicalHits(rows, queries));
      assert h in multiset(LexicalMatches(rows, queries));
    }
  }

  // ----- fusion -----

  /** `h` replaces `prev` as the hit kept for a product. */
  predicate Better(h: Hit, prev: Hit) {
    h.score > prev.score || (h.score == prev.score && KindRank(h.kind) < KindRank(prev.kind))
  }

  function KeepBetter(best: map<Id, Hit>, h: Hit): map<Id, Hit> {
    var id := h.product.id;
    if id !in best || Better(h, best[id]) then best[id := h] else best
  }

  /** The hit kept for each product id. */
  function Best(hits: seq<Hit>): map<Id, Hit> {
    if hits == [] then map[] else KeepBetter(Best(hits[..|hits| - 1]), hits[|hits| - 1])
  }

  /** The elements in the order in which they are first met. */
  function Seen<T(==)>(ids: seq<T>): seq<T> {
    if ids == [] then []
    else
      var before, id := Seen(ids[..|ids| - 1]), ids[|ids| - 1];
      if id in before then before else before + [id]
  }

  function Scaled(entries: seq<Entry>, id: Id): real {
    var s := Score(entries, id) * SCALE;
    if s < 1.0 then s else 1.0
  }

  function Lifted(h: Hit, scaled: real): Hit {
    h.(score := if scaled > h.score then scaled else h.score)
  }

  /** The kept hits of the listed products, each lifted to its fused score. */
  function LiftAll(order: seq<Id>, best: map<Id, Hit>, entries: seq<Entry>): (lifted: seq<Hit>)
    requires forall id :: id in order ==> id in best
    ensures |lifted| == |order|
    ensures forall i :: 0 <= i < |order| ==> lifted[i] == Lifted(best[order[i]], Scaled(entries, order[i]))
  {
    seq(|order|, i requires 0 <= i < |order| => Lifted(best[order[i]], Scaled(entries, order[i])))
  }

  function FusedKey(h: Hit): Rank {
    Rank(h.score, KindRank(h.kind), OwnerRank(h.product), h.product.title)
  }

  lemma {:induction false} SeenMeaning<T>(ids: seq<T>)
    ensures Distinct(Seen(ids)) && forall id :: id in Seen(ids) <==> id in ids
  {
    if ids != [] {
      SeenMeaning(ids[..|ids| - 1]);
      assert ids == ids[..|ids| - 1] + [ids[|ids| - 1]];
    }
  }

  /** The hit kept for a product is one of its hits, and no other hit of it is better. */
  lemma {:induction false} BestMeaning(hits: seq<Hit>)
    ensures forall id :: id in Best(hits) <==> id in Ids(hits)
    ensures forall id :: id in Best(hits) ==> Best(hits)[id] in hits && Best(hits)[id].product.id == id
    ensures forall g :: g in hits ==> g.product.id in Best(hits) && !Better(g, Best(hits)[g.product.id])
  {
    if hits != [] {
      var last := |hits| - 1;
      BestMeaning(hits[..last]);
      assert hits == hits[..last] + [hits[last]];
      assert Ids(hits) == Ids(hits[..last]) + [hits[last].product.id];
    }
  }

  function Fused(hits: seq<Hit>, entries: seq<Entry>): seq<Hit> {
    SeenMeaning(Ids(hits));
    BestMeaning(hits);
    SortBy(LiftAll(Seen(Ids(hits)), Best(hits), entries), FusedKey)
  }

  function Merge(lexical: seq<Hit>, vector: seq<Hit>): seq<Hit> {
    if vector == [] then lexical
    else if lexical == [] then vector
    else Fused(lexical + vector, Ranked(Ids(lexical)) + Ranked(Ids(vector)))
  }

  /** The dictionaries hold what the hits met so far add up to; `order` is their insertion order. */
  ghost predicate Tallies(rrf: map<Id, real>, best: map<Id, Hit>, order: seq<Id>, hits: seq<Hit>, entries: seq<Entry>) {
    && (forall id :: (if id in rrf then rrf[id] else 0.0) == Score(entries, id))
    && best == Best(hits) && order == Seen(Ids(hits))
  }

  /** Adds one ranked list to the scores and to the hits kept. */
  method AddRanked(list: seq<Hit>, rrf0: map<Id, real>, best0: map<Id, Hit>, order0: seq<Id>,
                   ghost hits: seq<Hit>, ghost entries: seq<Entry>)
    returns (rrf: map<Id, real>, best: map<Id, Hit>, order: seq<Id>)
    requires Tallies(rrf0, best0, order0, hits, entries)
    ensures Tallies(rrf, best, order, hits + list, entries + Ranked(Ids(list)))
  {
    hide Tallies, Score;
    rrf, best, order := rrf0, best0, order0;
    assert entries + Ranked(Ids(list[..0])) == entries && hits + list[..0] == hits;
    for i := 0 to |list|
      invariant Tallies(rrf, best, order, hits + list[..i], entries + Ranked(Ids(list[..i])))
    {
      var hit, rank := list[i], i + 1;
      StepList(hits, entries, list, i);
      TallyOne(rrf, best, order, hits + list[..i], entries + Ranked(Ids(list[..i])), hit, rank);
      var id := hit.product.id;
      rrf := rrf[id := (if id in rrf then rrf[id] else 0.0) + 1.0 / ((K + rank) as real)];
      if id !in best || Better(hit, best[id]) {
        best := best[id := hit];
      }
      if id !in order {
        order := order + [id];
      }
    }
    assert list[..|list|] == list;
  }

  lemma StepList(hits: seq<Hit>, entries: seq<Entry>, list: seq<Hit>, i: nat)
    requires i < |list|
    ensures hits + list[..i + 1] == hits + list[..i] + [list[i]]
    ensures entries + Ranked(Ids(list[..i + 1])) == entries + Ranked(Ids(list[..i])) + [Entry(list[i].product.id, i + 1)]
  {
    assert Ids(list[..i + 1])[..i] == Ids(list[..i]);
  }

  lemma TallyOne(rrf: map<Id, real>, best: map<Id, Hit>, order: seq<Id>, hits: seq<Hit>, entries: seq<Entry>, h: Hit, rank: nat)
    requires Tallies(rrf, best, order, hits, entries)
    ensures var id := h.product.id;
            Tallies(rrf[id := (if id in rrf then rrf[id] else 0.0) + Weight(rank)], KeepBetter(best, h),
                    if id in order then order else order + [id], hits + [h], entries + [Entry(id, rank)])
  {
    var id := h.product.id;
    assert (entries + [Entry(id, rank)])[..|entries|] == entries;
    assert (hits + [h])[..|hits|] == hits;
    assert Ids(hits + [h]) == Ids(hits) + [id];
    assert (Ids(hits) + [id])[..|hits|] == Ids(hits);
    assert forall id' :: Score(entries + [Entry(id, rank)], id') == Score(entries, id') + if id' == id then Weight(rank) else 0.0;
    assert Best(hits + [h]) == KeepBetter(Best(hits), h);
    hide Weight, KeepBetter, Score, Best;
  }

  lemma NoTallies()
    ensures Tallies(map[], map[], [], [], [])
  {
  }

  method TallyBoth(lexical: seq<Hit>, vector: seq<Hit>) returns (rrf: map<Id, real>, best: map<Id, Hit>, order: seq<Id>)
    ensures Tallies(rrf, best, order, lexical + vector, Ranked(Ids(lexical)) + Ranked(Ids(vector)))
  {
    NoTallies();
    hide Tallies, Ranked, Ids;
    rrf, best, order := AddRanked(lexical, map[], map[], [], [], []);
    AfterNothing(lexical);
    AfterNothing(Ranked(Ids(lexical)));
    rrf, best, order := AddRanked(vector, rrf, best, order, lexical, Ranked(Ids(lexical)));
  }

  lemma AfterNothing<T>(s: seq<T>)
    ensures [] + s == s
  {
  }

  method FuseHits(lexical: seq<Hit>, vector: seq<Hit>) returns (fused: seq<Hit>)
    ensures fused == Merge(lexical, vector)
  {
    if vector == [] {
      return lexical;
    }
    if lexical == [] {
      return vector;
    }
    var rrf, best, order := TallyBoth(lexical, vector);
    ghost var hits, entries := lexical + vector, Ranked(Ids(lexical)) + Ranked(Ids(vector));
    OrderOf(rrf, best, order, hits, entries);
    hide Tallies, Score, Seen, Best, LiftAll, Ranked, Ids, SortBy;
    fused := LiftHits(rrf, best, order, hits, entries);
    fused := SortBy(fused, FusedKey);
  }

  lemma OrderOf(rrf: map<Id, real>, best: map<Id, Hit>, order: seq<Id>, hits: seq<Hit>, entries: seq<Entry>)
    requires Tallies(rrf, best, order, hits, entries)
    ensures best == Best(hits) && order == Seen(Ids(hits))
  {
  }

  method LiftHits(rrf: map<Id, real>, best: map<Id, Hit>, order: seq<Id>, ghost hits: seq<Hit>, ghost entries: seq<Entry>)
    returns (fused: seq<Hit>)
    requires Tallies(rrf, best, order, hits, entries)
    ensures (forall id :: id in order ==> id in best) && fused == LiftAll(order, best, entries)
  {
    SeenMeaning(Ids(hits));
    BestMeaning(hits);
    hide Score, Best, Seen;
    fused := [];
    for i := 0 to |order|
      invariant |fused| == i
      invariant forall j :: 0 <= j < i ==> fused[j] == Lifted(best[order[j]], Scaled(entries, order[j]))
    {
      var hit := best[order[i]];
      var sum := (if order[i] in rrf then rrf[order[i]] else 0.0) * SCALE;
      var scaled := if sum < 1.0 then sum else 1.0;
      fused := fused + [hit.(score := if scaled > hit.score then scaled else hit.score)];
    }
  }

  // ----- what fusion does to a score -----

  lemma FusedMembers(hits: seq<Hit>, entries: seq<Entry>)
    ensures forall m :: m in Fused(hits, entries) <==>
              exists id :: id in Best(hits) && m == Lifted(Best(hits)[id], Scaled(entries, id))
  {
    var order, best := Seen(Ids(hits)), Best(hits);
    SeenMeaning(Ids(hits));
    BestMeaning(hits);
    var lifted := LiftAll(order, best, entries);
    SortPermutes(lifted, FusedKey);
    var fused := Fused(hits, entries);
    assert multiset(fused) == multiset(lifted);
    hide Fused, Best, Seen, Scaled;
    forall m ensures m in fused <==> exists id :: id in best && m == Lifted(best[id], Scaled(entries, id)) {
      assert m in fused <==> m in multiset(fused);
      assert m in lifted <==> m in multiset(lifted);
      if m in lifted {
        var i :| 0 <= i < |lifted| && lifted[i] == m;
        assert order[i] in best;
      }
      if id :| id in best && m == Lifted(best[id], Scaled(entries, id)) {
        var i :| 0 <= i < |order| && order[i] == id;
        assert lifted[i] == m;
      }
    }
  }

  /** No list mentions a product twice. */
  ghost predicate Listed(lexical: seq<Hit>, vector: seq<Hit>) {
    Distinct(Ids(lexical)) && Distinct(Ids(vector))
  }

  lemma OneHit(hits: seq<Hit>, g: Hit, h: Hit)
    requires Distinct(Ids(hits)) && g in hits && h in hits && g.product.id == h.product.id
    ensures g == h
  {
    var i :| 0 <= i < |hits| && hits[i] == g;
    var j :| 0 <= j < |hits| && hits[j] == h;
    assert Ids(hits)[i] == Ids(hits)[j];
  }

  lemma InIds(hits: seq<Hit>, h: Hit)
    requires h in hits
    ensures h.product.id in Ids(hits)
  {
    var i :| 0 <= i < |hits| && hits[i] == h;
    assert Ids(hits)[i] == h.product.id;
  }

  lemma FromIds(hits: seq<Hit>, id: Id) returns (h: Hit)
    requires id in Ids(hits)
    ensures h in hits && h.product.id == id
  {
    var i :| 0 <= i < |Ids(hits)| && Ids(hits)[i] == id;
    h := hits[i];
  }

  /** A product hit by one list only keeps that hit. */
  lemma SingleKept(a: seq<Hit>, b: seq<Hit>, h: Hit, hits: seq<Hit>)
    requires Distinct(Ids(a)) && h in a && h.product.id !in Ids(b) && (hits == a + b || hits == b + a)
    ensures h.product.id in Best(hits) && Best(hits)[h.product.id] == h
  {
    BestMeaning(hits);
    var k := Best(hits)[h.product.id];
    assert k in hits;
    if k in a {
      OneHit(a, k, h);
    } else {
      InIds(b, k);
    }
  }

  lemma SingleWeight(a: seq<Id>, b: seq<Id>, id: Id) returns (rank: nat)
    requires Distinct(a) && id in a && id !in b
    ensures rank >= 1 && Score(Ranked(a) + Ranked(b), id) == Score(Ranked(b) + Ranked(a), id) == Weight(rank)
  {
    var i :| 0 <= i < |a| && a[i] == id;
    rank := i + 1;
    ScoreOfListed(a, i);
    ScoreOfMissing(b, id);
    ScoreAppend(Ranked(a), Ranked(b), id);
    ScoreAppend(Ranked(b), Ranked(a), id);
    hide Ranked, Score, Weight, Hits;
  }

  lemma SmallWeight(rank: nat)
    requires rank >= 1
    ensures 0.0 < Weight(rank) * SCALE < PRIMARY_MIN
  {
    WeightDecreases(1, rank);
    assert Weight(1) == 1.0 / 61.0;
  }

  /** Alone in one list, a product gathers less than the floor for a primary product. */
  lemma SingleScore(a: seq<Id>, b: seq<Id>, id: Id)
    requires Distinct(a) && Distinct(b) && (id in a) != (id in b)
    ensures 0.0 < Scaled(Ranked(a) + Ranked(b), id) < PRIMARY_MIN
  {
    hide Ranked, Score, Weight;
    if id in a {
      var rank := SingleWeight(a, b, id);
      SmallWeight(rank);
    } else {
      var rank := SingleWeight(b, a, id);
      SmallWeight(rank);
    }
  }

  /** Fusion leaves a lexical-only hit as it was. */
  lemma LexicalOnlyUnchanged(lexical: seq<Hit>, vector: seq<Hit>, h: Hit)
    requires Listed(lexical, vector) && h in lexical && h.product.id !in Ids(vector) && h.score >= PRIMARY_MIN
    ensures h in Merge(lexical, vector)
  {
    if vector != [] {
      var id, entries := h.product.id, Ranked(Ids(lexical)) + Ranked(Ids(vector));
      InIds(lexical, h);
      SingleKept(lexical, vector, h, lexical + vector);
      SingleScore(Ids(lexical), Ids(vector), id);
      FusedMembers(lexical + vector, entries);
      hide Scaled, Best, Fused, Ids;
      assert h == Lifted(Best(lexical + vector)[id], Scaled(entries, id));
    }
  }

  /** Every fused hit comes from a hit of the same product in one of the lists, and only a product
      found by both lists can be lifted to the floor for a primary product. */
  lemma LiftNeedsBoth(lexical: seq<Hit>, vector: seq<Hit>, m: Hit) returns (h: Hit)
    requires Listed(lexical, vector) && m in Merge(lexical, vector)
    ensures h in lexical + vector && m.product == h.product && m.kind == h.kind && m.score >= h.score
    ensures m.score >= PRIMARY_MIN ==> h.score >= PRIMARY_MIN || (m.product.id in Ids(lexical) && m.product.id in Ids(vector))
  {
    if vector == [] || lexical == [] {
      h := m;
      assert lexical + vector == Merge(lexical, vector);
    } else {
      var hits, entries := lexical + vector, Ranked(Ids(lexical)) + Ranked(Ids(vector));
      FusedMembers(hits, entries);
      BestMeaning(hits);
      var id :| id in Best(hits) && m == Lifted(Best(hits)[id], Scaled(entries, id));
      h := Best(hits)[id];
      LiftOfOne(lexical, vector, id);
      hide Scaled, Best, Fused, Merge, Ids;
    }
  }

  lemma LiftOfOne(lexical: seq<Hit>, vector: seq<Hit>, id: Id)
    requires Listed(lexical, vector) && id in Ids(lexical + vector)
    ensures Scaled(Ranked(Ids(lexical)) + Ranked(Ids(vector)), id) < PRIMARY_MIN
            || (id in Ids(lexical) && id in Ids(vector))
  {
    assert Ids(lexical + vector) == Ids(lexical) + Ids(vector);
    hide Scaled, Ids;
    if (id in Ids(lexical)) != (id in Ids(vector)) {
      SingleScore(Ids(lexical), Ids(vector), id);
    }
  }

  function Larger(a: real, b: real): real {
    if a > b then a else b
  }

  function AtMostOne(a: real): real {
    if a < 1.0 then a else 1.0
  }

  lemma SharedScore(a: seq<Id>, b: seq<Id>, i: nat, j: nat)
    requires Distinct(a) && Distinct(b) && i < |a| && j < |b| && a[i] == b[j]
    ensures Scaled(Ranked(a) + Ranked(b), a[i]) == AtMostOne(30.0 * (1.0 / ((61 + i) as real) + 1.0 / ((61 + j) as real)))
  {
    ScoreOfListed(a, i);
    ScoreOfListed(b, j);
    ScoreAppend(Ranked(a), Ranked(b), a[i]);
    hide Ranked, Score, Hits;
  }

  lemma AloneScore(a: seq<Id>, b: seq<Id>, i: nat)
    requires Distinct(a) && i < |a| && a[i] !in b
    ensures Scaled(Ranked(a) + Ranked(b), a[i]) == Scaled(Ranked(b) + Ranked(a), a[i]) == AtMostOne(30.0 / ((61 + i) as real))
  {
    hide Ranked, Score, Hits, Weight;
    ScoreOfListed(a, i);
    ScoreOfMissing(b, a[i]);
    ScoreAppend(Ranked(a), Ranked(b), a[i]);
    ScoreAppend(Ranked(b), Ranked(a), a[i]);
    Thirtyfold(i);
  }

  lemma Thirtyfold(i: nat)
    ensures Weight(i + 1) * SCALE == 30.0 / ((61 + i) as real)
  {
    var d := (61 + i) as real;
    assert Weight(i + 1) == 1.0 / d;
    assert (1.0 / d) * 30.0 == 30.0 / d;
  }

  /** A product in both lists gets the best of its two scores and of thirty times the sum of its
      reciprocal ranks, counted from 61, that is of at most one. */
  lemma SharedLift(lexical: seq<Hit>, vector: seq<Hit>, i: nat, j: nat, m: Hit)
    requires Listed(lexical, vector) && i < |lexical| && j < |vector| && lexical[i].product.id == vector[j].product.id
    requires m in Merge(lexical, vector) && m.product.id == lexical[i].product.id
    ensures m.score == Larger(Larger(lexical[i].score, vector[j].score),
                              AtMostOne(30.0 * (1.0 / ((61 + i) as real) + 1.0 / ((61 + j) as real))))
  {
    var hits, entries := lexical + vector, Ranked(Ids(lexical)) + Ranked(Ids(vector));
    hide Scaled, Best, Fused, Ranked;
    FusedMembers(hits, entries);
    SharedScore(Ids(lexical), Ids(vector), i, j);
    BestOfShared(lexical, vector, i, j);
    var id :| id in Best(hits) && m == Lifted(Best(hits)[id], Scaled(entries, id));
    BestMeaning(hits);
  }

  lemma BestOfShared(lexical: seq<Hit>, vector: seq<Hit>, i: nat, j: nat)
    requires Listed(lexical, vector) && i < |lexical| && j < |vector| && lexical[i].product.id == vector[j].product.id
    ensures var hits := lexical + vector;
            lexical[i].product.id in Best(hits)
            && Best(hits)[lexical[i].product.id].score == Larger(lexical[i].score, vector[j].score)
  {
    var hits := lexical + vector;
    BestMeaning(hits);
    hide Best;
    assert hits[i] == lexical[i] && hits[|lexical| + j] == vector[j];
    var h := Best(hits)[lexical[i].product.id];
    assert h in lexical || h in vector;
    if h in lexical {
      OneHit(lexical, h, lexical[i]);
    } else {
      OneHit(vector, h, vector[j]);
    }
  }

  /** One in a single list gets the best of its score and of thirty over its rank. */
  lemma AloneLift(lexical: seq<Hit>, vector: seq<Hit>, m: Hit)
    requires Listed(lexical, vector) && lexical != [] && vector != [] && m in Merge(lexical, vector)
    ensures forall i :: 0 <= i < |lexical| && lexical[i].product.id == m.product.id && m.product.id !in Ids(vector) ==>
              m.score == Larger(lexical[i].score, AtMostOne(30.0 / ((61 + i) as real)))
    ensures forall j :: 0 <= j < |vector| && vector[j].product.id == m.product.id && m.product.id !in Ids(lexical) ==>
              m.score == Larger(vector[j].score, AtMostOne(30.0 / ((61 + j) as real)))
  {
    var hits, entries := lexical + vector, Ranked(Ids(lexical)) + Ranked(Ids(vector));
    FusedMembers(hits, entries);
    hide Scaled, Best, Fused, Ranked;
    var id :| id in Best(hits) && m == Lifted(Best(hits)[id], Scaled(entries, id));
    BestMeaning(hits);
    forall i | 0 <= i < |lexical| && lexical[i].product.id == m.product.id && m.product.id !in Ids(vector)
      ensures m.score == Larger(lexical[i].score, AtMostOne(30.0 / ((61 + i) as real)))
    {
      SingleKept(lexical, vector, lexical[i], hits);
      AloneScore(Ids(lexical), Ids(vector), i);
    }
    forall j | 0 <= j < |vector| && vector[j].product.id == m.product.id && m.product.id !in Ids(lexical)
      ensures m.score == Larger(vector[j].score, AtMostOne(30.0 / ((61 + j) as real)))
    {
      SingleKept(vector, lexical, vector[j], hits);
      AloneScore(Ids(vector), Ids(lexical), j);
    }
  }

  /** The merge shows each product of the two lists exactly once; a proper fusion is in order. */
  lemma MergeShowsEachOnce(lexical: seq<Hit>, vector: seq<Hit>)
    requires Listed(lexical, vector)
    ensures Distinct(Ids(Merge(lexical, vector)))
    ensures forall id :: id in Ids(Merge(lexical, vector)) <==> id in Ids(lexical) || id in Ids(vector)
    ensures lexical != [] && vector != [] ==> Ordered(Merge(lexical, vector), FusedKey)
  {
    if vector != [] && lexical != [] {
      var hits, entries := lexical + vector, Ranked(Ids(lexical)) + Ranked(Ids(vector));
      SeenMeaning(Ids(hits));
      BestMeaning(hits);
      assert Ids(hits) == Ids(lexical) + Ids(vector);
      hide Scaled, Seen, Best, Ranked, SortBy;
      var lifted := LiftAll(Seen(Ids(hits)), Best(hits), entries);
      assert Ids(lifted) == Seen(Ids(hits));
      SortMeaning(lifted, FusedKey);
      SortKeepsIds(lifted, FusedKey);
    }
  }

  lemma SortKeepsIds(s: seq<Hit>, key: Hit -> Rank)
    requires Distinct(Ids(s))
    ensures Distinct(Ids(SortBy(s, key)))
    ensures forall id :: id in Ids(SortBy(s, key)) <==> id in Ids(s)
  {
    var sorted := SortBy(s, key);
    var idOf := (h: Hit) => h.product.id;
    assert forall i :: 0 <= i < |s| ==> Ids(s)[i] == idOf(s[i]);
    SortApart(s, key, idOf);
    forall id ensures id in Ids(sorted) <==> id in Ids(s) {
      if id in Ids(sorted) {
        var h := FromIds(sorted, id);
        SortMembers(s, key, h);
        InIds(s, h);
      }
      if id in Ids(s) {
        var h := FromIds(s, id);
        SortMembers(s, key, h);
        InIds(sorted, h);
      }
    }
    assert forall i :: 0 <= i < |sorted| ==> Ids(sorted)[i] == idOf(sorted[i]);
  }

  // ----- one row per SKU -----

  /** `h` takes the place of `prev` for the same SKU. */
  predicate Replaces(h: Hit, prev: Hit) {
    if h.product.org && !prev.product.org then true
    else if prev.product.org && !h.product.org then false
    else h.score > prev.score
  }

  function Skus(hits: seq<Hit>): (skus: seq<string>)
    ensures |skus| == |hits|
    ensures forall i :: 0 <= i < |hits| ==> skus[i] == hits[i].product.sku
  {
    seq(|hits|, i requires 0 <= i < |hits| => hits[i].product.sku)
  }

  function Winners(hits: seq<Hit>): map<string, Hit> {
    if hits == [] then map[]
    else
      var before, h := Winners(hits[..|hits| - 1]), hits[|hits| - 1];
      if h.product.sku !in before || Replaces(h, before[h.product.sku]) then before[h.product.sku := h] else before
  }

  function DedupeKey(h: Hit): Rank {
    Rank(h.score, OwnerRank(h.product), 0, h.product.title)
  }

  function Pick(skus: seq<string>, winners: map<string, Hit>): (picked: seq<Hit>)
    requires forall s :: s in skus ==> s in winners
    ensures |picked| == |skus| && forall i :: 0 <= i < |skus| ==> picked[i] == winners[skus[i]]
  {
    seq(|skus|, i requires 0 <= i < |skus| => winners[skus[i]])
  }

  /** The hit kept for a SKU: an organisation row if there is one, and of its kind the best. */
  ghost predicate Wins(hits: seq<Hit>, w: Hit) {
    && w in hits
    && forall h :: h in hits && h.product.sku == w.product.sku ==>
         (h.product.org ==> w.product.org) && (h.product.org == w.product.org ==> h.score <= w.score)
  }

  lemma {:induction false} WinnersMeaning(hits: seq<Hit>)
    ensures forall s :: s in Winners(hits) <==> s in Skus(hits)
    ensures forall s :: s in Winners(hits) ==> Winners(hits)[s].product.sku == s && Wins(hits, Winners(hits)[s])
  {
    if hits != [] {
      var last := |hits| - 1;
      WinnersMeaning(hits[..last]);
      assert hits == hits[..last] + [hits[last]];
      OneMoreWins(hits[..last], hits[last]);
    }
  }

  /** A winner stays one, unless the new hit takes its place. */
  lemma OneMoreWins(hits: seq<Hit>, h: Hit)
    requires forall s :: s in Winners(hits) <==> s in Skus(hits)
    requires forall s :: s in Winners(hits) ==> Winners(hits)[s].product.sku == s && Wins(hits, Winners(hits)[s])
    ensures var w := Winners(hits + [h]);
            && (forall s :: s in w <==> s in Skus(hits + [h]))
            && forall s :: s in w ==> w[s].product.sku == s && Wins(hits + [h], w[s])
  {
    var before, after, sku := Winners(hits), Winners(hits + [h]), h.product.sku;
    assert (hits + [h])[..|hits|] == hits;
    assert Skus(hits + [h]) == Skus(hits) + [sku];
    hide Winners, Skus, Wins;
    if sku in before {
      NewHitWins(hits, h, before[sku]);
    } else {
      SkusOf(hits);
      FirstHitWins(hits, h);
    }
    forall s | s in after && s != sku ensures Wins(hits + [h], after[s]) {
      OldHitWins(hits, h, before[s]);
    }
  }

  lemma OldHitWins(hits: seq<Hit>, h: Hit, w: Hit)
    requires Wins(hits, w) && w.product.sku != h.product.sku
    ensures Wins(hits + [h], w)
  {
  }

  lemma FirstHitWins(hits: seq<Hit>, h: Hit)
    requires forall g :: g in hits ==> g.product.sku != h.product.sku
    ensures Wins(hits + [h], h)
  {
    assert (hits + [h])[|hits|] == h;
  }

  lemma NewHitWins(hits: seq<Hit>, h: Hit, w: Hit)
    requires Wins(hits, w) && w.product.sku == h.product.sku
    ensures Wins(hits + [h], if Replaces(h, w) then h else w)
  {
    assert (hits + [h])[|hits|] == h;
  }

  lemma SkusOf(hits: seq<Hit>)
    ensures forall g :: g in hits ==> g.product.sku in Skus(hits)
  {
    forall g | g in hits ensures g.product.sku in Skus(hits) {
      var i :| 0 <= i < |hits| && hits[i] == g;
      assert Skus(hits)[i] == g.product.sku;
    }
  }

  function Dedupe(hits: seq<Hit>): seq<Hit> {
    SeenMeaning(Skus(hits));
    WinnersMeaning(hits);
    SortBy(Pick(Seen(Skus(hits)), Winners(hits)), DedupeKey)
  }

  method DedupeOrgWins(hits: seq<Hit>) returns (ranked: seq<Hit>)
    ensures ranked == Dedupe(hits)
  {
    hide Wins, SortBy;
    var bySku: map<string, Hit>, order: seq<string> := map[], [];
    for i := 0 to |hits|
      invariant bySku == Winners(hits[..i]) && order == Seen(Skus(hits[..i]))
    {
      var hit := hits[i];
      assert hits[..i + 1][..i] == hits[..i];
      assert Skus(hits[..i + 1])[..i] == Skus(hits[..i]);
      SeenMeaning(Skus(hits[..i]));
      WinnersMeaning(hits[..i]);
      var sku := hit.product.sku;
      if sku !in bySku {
        bySku := bySku[sku := hit];
        order := order + [sku];
        continue;
      }
      var prev := bySku[sku];
      if hit.product.org && !prev.product.org {
        bySku := bySku[sku := hit];
        continue;
      }
      if prev.product.org && !hit.product.org {
        continue;
      }
      if hit.score > prev.score {
        bySku := bySku[sku := hit];
      }
    }
    assert hits[..|hits|] == hits;
    SeenMeaning(Skus(hits));
    WinnersMeaning(hits);
    ranked := SortBy(Pick(order, bySku), DedupeKey);
  }

  /** De-duplication returns exactly one hit for each SKU, its winner, best score first. */
  lemma DedupeMeaning(hits: seq<Hit>)
    ensures Ordered(Dedupe(hits), DedupeKey)
    ensures Apart(Dedupe(hits), (h: Hit) => h.product.sku)
    ensures forall h :: h in Dedupe(hits) ==> Wins(hits, h)
    ensures forall h :: h in hits ==> exists w :: w in Dedupe(hits) && w.product.sku == h.product.sku
  {
    SeenMeaning(Skus(hits));
    WinnersMeaning(hits);
    var order, winners := Seen(Skus(hits)), Winners(hits);
    var picked := Pick(order, winners);
    SortMeaning(picked, DedupeKey);
    SortApart(picked, DedupeKey, (h: Hit) => h.product.sku);
    DedupeMembers(hits);
    hide Seen, Winners, Dedupe, Wins, SortBy;
    forall h | h in hits ensures exists w :: w in Dedupe(hits) && w.product.sku == h.product.sku {
      var k :| 0 <= k < |hits| && hits[k] == h;
      assert Skus(hits)[k] == h.product.sku;
      assert h.product.sku in winners;
      assert winners[h.product.sku] in Dedupe(hits);
    }
  }

  lemma DedupeMembers(hits: seq<Hit>)
    ensures forall h :: h in Dedupe(hits) ==> h.product.sku in Winners(hits) && h == Winners(hits)[h.product.sku]
    ensures forall s :: s in Winners(hits) ==> Winners(hits)[s] in Dedupe(hits)
  {
    SeenMeaning(Skus(hits));
    WinnersMeaning(hits);
    var order, winners := Seen(Skus(hits)), Winners(hits);
    var picked := Pick(order, winners);
    assert Dedupe(hits) == SortBy(picked, DedupeKey);
    hide Seen, Winners, Dedupe, Wins, SortBy;
    forall h | h in Dedupe(hits) ensures h.product.sku in winners && h == winners[h.product.sku] {
      SortMembers(picked, DedupeKey, h);
      var i :| 0 <= i < |picked| && picked[i] == h;
      assert order[i] in winners;
    }
    forall s | s in winners ensures winners[s] in Dedupe(hits) {
      var i :| 0 <= i < |order| && order[i] == s;
      assert picked[i] == winners[s];
      SortMembers(picked, DedupeKey, winners[s]);
    }
  }

  // ----- the primary product -----

  datatype Choice = Choice(primary: seq<Hit>, needClarify: bool)

  /** At most one primary hit, and whether to ask the user instead. */
  function PickPrimary(hits: seq<Hit>): Choice {
    if hits == [] then Choice([], false)
    else if hits[0].score < PRIMARY_MIN then Choice([], true)
    else if |hits| >= 2 && hits[0].score - hits[1].score < PRIMARY_MARGIN then Choice([], true)
    else Choice([hits[0]], false)
  }

  function Cut(hits: seq<Hit>, limit: int): seq<Hit> {
    var n := if limit > 1 then limit else 1;
    if |hits| <= n then hits else hits[..n]
  }

  function Search(lexical: seq<Hit>, vector: seq<Hit>, limit: int): seq<Hit> {
    Cut(Dedupe(Merge(lexical, vector)), limit)
  }

  /** Cutting the list does not change the choice, unless it is cut to one hit that the second
      one would have made unclear. */
  lemma CutKeepsChoice(hits: seq<Hit>, limit: int)
    ensures PickPrimary(Cut(hits, limit)) == PickPrimary(hits) <==>
            limit >= 2 || |hits| < 2 || hits[0].score < PRIMARY_MIN || hits[0].score - hits[1].score >= PRIMARY_MARGIN
  {
  }

  /** A primary product returned by a search of at least two hits beats every other product
      found by the margin, and it either scored above the floor itself or was found by both lists. */
  lemma PrimaryIsClear(lexical: seq<Hit>, vector: seq<Hit>, limit: int, p: Hit)
    requires Listed(lexical, vector) && limit >= 2
    requires PickPrimary(Search(lexical, vector, limit)).primary == [p]
    ensures forall h :: h in Dedupe(Merge(lexical, vector)) && h != p ==> p.score - h.score >= PRIMARY_MARGIN
    ensures exists h :: h in lexical + vector && h.product == p.product
              && (h.score >= PRIMARY_MIN || (p.product.id in Ids(lexical) && p.product.id in Ids(vector)))
  {
    var merged := Merge(lexical, vector);
    var all := Dedupe(merged);
    CutKeepsChoice(all, limit);
    DedupeMeaning(merged);
    hide Dedupe, Merge, Ids;
    assert all[0] == p && p.score >= PRIMARY_MIN;
    assert Wins(merged, p);
    var h := LiftNeedsBoth(lexical, vector, p);
    GapGrows(all);
  }

  /** A hit that is clear of all others. */
  ghost predicate Clear(all: seq<Hit>, p: Hit) {
    p in all && p.score >= PRIMARY_MIN && forall h :: h in all && h != p ==> p.score - h.score >= PRIMARY_MARGIN
  }

  /** A search of at least two returns a primary exactly when some product is clear of all others found, and
      asks the user exactly when products are found but none is clear. */
  lemma PrimaryIff(lexical: seq<Hit>, vector: seq<Hit>, limit: int, p: Hit)
    requires limit >= 2
    ensures var all, choice := Dedupe(Merge(lexical, vector)), PickPrimary(Search(lexical, vector, limit));
            && (choice.primary == [p] <==> Clear(all, p))
            && (choice.needClarify <==> all != [] && choice.primary == [])
  {
    var all := Dedupe(Merge(lexical, vector));
    CutKeepsChoice(all, limit);
    DedupeMeaning(Merge(lexical, vector));
    hide Dedupe, Merge, Wins;
    if PickPrimary(all).primary == [p] {
      GapGrows(all);
    }
    if Clear(all, p) {
      ClearIsFirst(all, p);
    }
  }

  lemma ClearIsFirst(all: seq<Hit>, p: Hit)
    requires Ordered(all, DedupeKey) && Apart(all, (h: Hit) => h.product.sku) && Clear(all, p)
    ensures PickPrimary(all).primary == [p]
  {
    var i :| 0 <= i < |all| && all[i] == p;
    if |all| >= 2 {
      assert all[1] in all && all[1].product.sku != all[0].product.sku;
    }
  }

  /** In an ordered list with a clear first hit, every later hit trails by the margin. */
  lemma GapGrows(all: seq<Hit>)
    requires Ordered(all, DedupeKey) && |PickPrimary(all).primary| == 1
    ensures forall g :: g in all && g != all[0] ==> all[0].score - g.score >= PRIMARY_MARGIN
  {
    forall g | g in all && g != all[0] ensures all[0].score - g.score >= PRIMARY_MARGIN {
      var i :| 0 <= i < |all| && all[i] == g;
      if i > 1 {
        assert KeyLeq(DedupeKey(all[1]), DedupeKey(all[i]));
      }
    }
  }
}
