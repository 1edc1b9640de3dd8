/** The order of the three product lists, and the kind of match that a hit shows. */
module ProductOrder {
  import opened Ordering
  import opened Rrf
  import opened ProductRank

  /** The needle is a part of the text. */
  lemma ContainsIff(hay: string, needle: string)
    ensures Contains(hay, needle) <==> exists before, after :: hay == before + needle + after
  {
    if i :| 0 <= i <= |hay| && needle <= hay[i..] {
      assert hay == hay[..i] + needle + hay[i + |needle|..];
    }
    if before, after :| hay == before + needle + after {
      assert hay[|before|..] == needle + after;
    }
  }

  // ----- kinds -----

  lemma {:induction false} KindFollowsBest(p: Product, queries: seq<string>)
    ensures LexicalKind(p, queries) == (if BestScore(p, queries) > 0.8 then ExactSku else Fuzzy)
  {
    hide TierScore, SkuTier;
    if queries != [] {
      var last := |queries| - 1;
      KindFollowsBest(p, queries[..last]);
      TierKind(p, queries[last]);
      assert forall i :: 0 <= i < last ==> queries[..last][i] == queries[i];
      assert (exists i | 0 <= i < |queries| :: SkuTier(p, queries[i]))
        <==> SkuTier(p, queries[last]) || exists i | 0 <= i < last :: SkuTier(p, queries[..last][i]);
    }
  }

  lemma TierKind(p: Product, q: string)
    ensures TierScore(p, q) > 0.8 <==> SkuTier(p, q)
  {
    if q != "" {
      hide SkuTier, TierScore;
      TierMeaning(p, q);
    } else {
      hide Contains;
    }
  }

  /** A lexical hit shows an exact SKU exactly when its score is above that of a part of the name. */
  lemma KindFollowsScore(rows: seq<Product>, queries: seq<string>)
    ensures forall h :: h in LexicalHits(rows, queries) ==> h.kind == (if h.score > 0.8 then ExactSku else Fuzzy)
  {
    var matches := LexicalMatches(rows, queries);
    MatchesMeaning(rows, queries);
    hide LexicalMatches, BestScore, LexicalKind;
    forall h | h in LexicalHits(rows, queries) ensures h.kind == (if h.score > 0.8 then ExactSku else Fuzzy) {
      SortMembers(matches, LexicalKey, h);
      KindFollowsBest(h.product, queries);
    }
  }

  /** A product in both lists shows the hit of the better score, and of equal ones that of the stronger
      kind, the lexical one if these are equal too. */
  lemma SharedKind(lexical: seq<Hit>, vector: seq<Hit>, i: nat, j: nat, m: Hit)
    requires Listed(lexical, vector) && i < |lexical| && j < |vector| && lexical[i].product.id == vector[j].product.id
    requires m in Merge(lexical, vector) && m.product.id == lexical[i].product.id
    ensures var a, b := lexical[i], vector[j];
            var shown := if b.score > a.score || (b.score == a.score && StrongerKind(b.kind, a.kind)) then b else a;
            m.kind == shown.kind && (a.score != b.score ==> m.product == shown.product)
  {
    var hits, entries := lexical + vector, Ranked(Ids(lexical)) + Ranked(Ids(vector));
    FusedMembers(hits, entries);
    hide Scaled, Best, Fused, Ranked;
    var id :| id in Best(hits) && m == Lifted(Best(hits)[id], Scaled(entries, id));
    BestMeaning(hits);
    assert hits[i] == lexical[i] && hits[|lexical| + j] == vector[j];
    var h := Best(hits)[id];
    assert h in lexical || h in vector;
    if h in lexical {
      OneHit(lexical, h, lexical[i]);
    } else {
      OneHit(vector, h, vector[j]);
    }
  }

  // ----- orders -----

  /** An exact SKU is stronger than a fuzzy match, and that than a vector one. */
  predicate StrongerKind(a: MatchKind, b: MatchKind) {
    (a.ExactSku? && !b.ExactSku?) || (a.Fuzzy? && b.Vector?)
  }

  /** The better score, or an organisation's own product with the same. */
  predicate LexicalBefore(a: Hit, b: Hit) {
    a.score > b.score || (a.score == b.score && (a.product.org || !b.product.org))
  }

  /** The better score, then an organisation's own product, then the name. */
  predicate DedupedBefore(a: Hit, b: Hit) {
    || a.score > b.score
    || (a.score == b.score && a.product.org && !b.product.org)
    || (a.score == b.score && a.product.org == b.product.org && StrLeq(a.product.title, b.product.title))
  }

  /** The better score, then the stronger kind, then an organisation's own product, then the name. */
  predicate FusedBefore(a: Hit, b: Hit) {
    || a.score > b.score
    || (a.score == b.score && StrongerKind(a.kind, b.kind))
    || (a.score == b.score && a.kind == b.kind && DedupedBefore(a, b))
  }

  /** Every pair of hits in each list stands in that order. */
  lemma ListsAreOrdered(rows: seq<Product>, queries: seq<string>, lexical: seq<Hit>, vector: seq<Hit>, hits: seq<Hit>)
    ensures var found := LexicalHits(rows, queries); forall i, j :: 0 <= i < j < |found| ==> LexicalBefore(found[i], found[j])
    ensures lexical != [] && vector != [] ==>
              var merged := Merge(lexical, vector); forall i, j :: 0 <= i < j < |merged| ==> FusedBefore(merged[i], merged[j])
    ensures var kept := Dedupe(hits); forall i, j :: 0 <= i < j < |kept| ==> DedupedBefore(kept[i], kept[j])
  {
    SortMeaning(LexicalMatches(rows, queries), LexicalKey);
    DedupeMeaning(hits);
    hide Dedupe, Wins;
    if lexical != [] && vector != [] {
      MergedInOrder(lexical, vector);
    }
    hide Merge, LexicalHits;
  }

  lemma MergedInOrder(lexical: seq<Hit>, vector: seq<Hit>)
    requires lexical != [] && vector != []
    ensures Ordered(Merge(lexical, vector), FusedKey)
  {
    var hits, entries := lexical + vector, Ranked(Ids(lexical)) + Ranked(Ids(vector));
    SeenMeaning(Ids(hits));
    BestMeaning(hits);
    SortMeaning(LiftAll(Seen(Ids(hits)), Best(hits), entries), FusedKey);
  }

  // ----- the hit kept for a SKU -----

  /** No hit before `k` with its SKU and the same kind of owner scores as much. */
  ghost predicate IsFirstBest(hits: seq<Hit>, k: nat) {
    && k < |hits|
    && forall i :: 0 <= i < k && hits[i].product.sku == hits[k].product.sku && hits[i].product.org == hits[k].product.org ==>
         hits[i].score < hits[k].score
  }

  /** A hit that is the first of its SKU, or takes the place of the winner so far. */
  lemma NewWinnerIsFirst(hits: seq<Hit>, h: Hit)
    requires var before := Winners(hits); h.product.sku !in before || Replaces(h, before[h.product.sku])
    ensures IsFirstBest(hits + [h], |hits|)
  {
    WinnersMeaning(hits);
    hide Winners;
    forall i | 0 <= i < |hits| && hits[i].product.sku == h.product.sku && hits[i].product.org == h.product.org
      ensures hits[i].score < h.score
    {
      assert Skus(hits)[i] == h.product.sku;
      assert Wins(hits, Winners(hits)[h.product.sku]);
    }
  }

  lemma StaysFirst(hits: seq<Hit>, h: Hit, k: nat)
    requires IsFirstBest(hits, k)
    ensures IsFirstBest(hits + [h], k)
  {
  }

  lemma {:induction false} WinnerIsFirst(hits: seq<Hit>, sku: string) returns (k: nat)
    requires sku in Winners(hits)
    ensures k < |hits| && hits[k] == Winners(hits)[sku] && IsFirstBest(hits, k)
  {
    hide IsFirstBest, Replaces;
    var last := |hits| - 1;
    var before, h := Winners(hits[..last]), hits[last];
    assert hits[..last] + [h] == hits;
    if sku in before && !(sku == h.product.sku && Replaces(h, before[sku])) {
      k := WinnerIsFirst(hits[..last], sku);
      StaysFirst(hits[..last], h, k);
    } else {
      k := last;
      NewWinnerIsFirst(hits[..last], h);
    }
  }

  /** Of equal hits for a SKU the one that came first is kept. */
  lemma FirstOfEqualsWins(hits: seq<Hit>)
    ensures forall h :: h in Dedupe(hits) ==> exists k: nat :: k < |hits| && hits[k] == h && IsFirstBest(hits, k)
  {
    DedupeMembers(hits);
    hide Dedupe, IsFirstBest, Winners;
    forall h | h in Dedupe(hits) ensures exists k: nat :: k < |hits| && hits[k] == h && IsFirstBest(hits, k) {
      var k := WinnerIsFirst(hits, h.product.sku);
    }
  }
}
