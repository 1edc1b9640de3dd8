/** Reciprocal-rank fusion: each list adds 1/(60 + rank) to the score of what it ranks. */
module Rrf {

  type Id = nat

  const K := 60

  /** An id met at a rank, counted from one, of some list. */
  datatype Entry = Entry(id: Id, rank: nat)

  function Weight(rank: nat): (w: real)
    ensures w > 0.0
  {
    1.0 / ((K + rank) as real)
  }

  function Ranked(ids: seq<Id>): (entries: seq<Entry>)
    ensures |entries| == |ids|
    ensures forall i :: 0 <= i < |ids| ==> entries[i] == Entry(ids[i], i + 1)
  {
    if ids == [] then [] else Ranked(ids[..|ids| - 1]) + [Entry(ids[|ids| - 1], |ids|)]
  }

  /** The total weight of an id over the entries. */
  function Score(entries: seq<Entry>, id: Id): real {
    if entries == [] then 0.0
    else Score(entries[..|entries| - 1], id) + if entries[|entries| - 1].id == id then Weight(entries[|entries| - 1].rank) else 0.0
  }

  /** How often an id is met. */
  function Hits(entries: seq<Entry>, id: Id): int {
    if entries == [] then 0
    else Hits(entries[..|entries| - 1], id) + if entries[|entries| - 1].id == id then 1 else 0
  }

  ghost predicate Distinct<T>(ids: seq<T>) {
    forall i, j :: 0 <= i < j < |ids| ==> ids[i] != ids[j]
  }

  lemma WeightDecreases(a: nat, b: nat)
    requires a <= b
    ensures Weight(b) <= Weight(a)
  {
    var x, y := (K + a) as real, (K + b) as real;
    assert Weight(a) * x == 1.0 && Weight(b) * y == 1.0;
    assert Weight(a) * (y - x) >= 0.0;
    assert (Weight(a) - Weight(b)) * y == Weight(a) * (y - x);
  }

  lemma {:induction false} ScoreAppend(a: seq<Entry>, b: seq<Entry>, id: Id)
    ensures Score(a + b, id) == Score(a, id) + Score(b, id)
    ensures Hits(a + b, id) == Hits(a, id) + Hits(b, id)
  {
    if b == [] {
      assert a + b == a;
    } else {
      var last := |b| - 1;
      assert (a + b)[..|a + b| - 1] == a + b[..last];
      ScoreAppend(a, b[..last], id);
    }
  }

  lemma RankedPrefix(ids: seq<Id>)
    requires ids != []
    ensures Ranked(ids)[..|ids| - 1] == Ranked(ids[..|ids| - 1])
  {
  }

  lemma {:induction false} ScoreOfMissing(ids: seq<Id>, id: Id)
    requires id !in ids
    ensures Score(Ranked(ids), id) == 0.0 && Hits(Ranked(ids), id) == 0
  {
    if ids != [] {
      RankedPrefix(ids);
      ScoreOfMissing(ids[..|ids| - 1], id);
    }
  }

  /** In a list without repetitions an id weighs exactly what its rank gives. */
  lemma {:induction false} ScoreOfListed(ids: seq<Id>, i: nat)
    requires Distinct(ids) && i < |ids|
    ensures Score(Ranked(ids), ids[i]) == Weight(i + 1) && Hits(Ranked(ids), ids[i]) == 1
  {
    RankedPrefix(ids);
    var last := |ids| - 1;
    if i == last {
      ScoreOfMissing(ids[..last], ids[i]);
    } else {
      ScoreOfListed(ids[..last], i);
    }
  }
}
