/** The order of strings, and stable sorting by a composite key. */
module Ordering {

  // ----- strings, by code point -----

  predicate StrLeq(a: string, b: string) {
    a == "" || (b != "" && (a[0] < b[0] || (a[0] == b[0] && StrLeq(a[1..], b[1..]))))
  }

  lemma {:induction false} StrTotal(a: string, b: string)
    ensures StrLeq(a, b) || StrLeq(b, a)
    ensures StrLeq(a, b) && StrLeq(b, a) ==> a == b
  {
    if a != "" && b != "" {
      StrTotal(a[1..], b[1..]);
      assert a == [a[0]] + a[1..] && b == [b[0]] + b[1..];
    }
  }

  lemma {:induction false} StrTransitive(a: string, b: string, c: string)
    requires StrLeq(a, b) && StrLeq(b, c)
    ensures StrLeq(a, c)
  {
    if a != "" && a[0] == b[0] == c[0] {
      StrTransitive(a[1..], b[1..], c[1..]);
    }
  }

  // ----- keys -----

  /** A sort key: descending by score, then ascending by the two ranks, then by name. */
  datatype Rank = Rank(score: real, first: int, second: int, name: string)

  predicate KeyLeq(a: Rank, b: Rank) {
    if a.score != b.score then a.score > b.score
    else if a.first != b.first then a.first < b.first
    else if a.second != b.second then a.second < b.second
    else StrLeq(a.name, b.name)
  }

  lemma KeyTotal(a: Rank, b: Rank)
    ensures KeyLeq(a, b) || KeyLeq(b, a)
  {
    StrTotal(a.name, b.name);
  }

  lemma KeyTransitive(a: Rank, b: Rank, c: Rank)
    requires KeyLeq(a, b) && KeyLeq(b, c)
    ensures KeyLeq(a, c)
  {
    if StrLeq(a.name, b.name) && StrLeq(b.name, c.name) {
      StrTransitive(a.name, b.name, c.name);
    }
  }

  // ----- stable insertion sort -----

  function Insert<T>(x: T, s: seq<T>, key: T -> Rank): seq<T> {
    if s == [] || KeyLeq(key(x), key(s[0])) then [x] + s else [s[0]] + Insert(x, s[1..], key)
  }

  function SortBy<T>(s: seq<T>, key: T -> Rank): seq<T> {
    if s == [] then [] else Insert(s[0], SortBy(s[1..], key), key)
  }

  ghost predicate Ordered<T>(s: seq<T>, key: T -> Rank) {
    forall i, j :: 0 <= i < j < |s| ==> KeyLeq(key(s[i]), key(s[j]))
  }

  /** The elements with key `k`, in order. */
  function WithKey<T>(s: seq<T>, key: T -> Rank, k: Rank): seq<T> {
    if s == [] then []
    else if key(s[0]) == k then [s[0]] + WithKey(s[1..], key, k)
    else WithKey(s[1..], key, k)
  }

  lemma {:induction false} InsertPermutes<T>(x: T, s: seq<T>, key: T -> Rank)
    ensures multiset(Insert(x, s, key)) == multiset(s) + multiset{x}
  {
    if s != [] && !KeyLeq(key(x), key(s[0])) {
      InsertPermutes(x, s[1..], key);
      assert s == [s[0]] + s[1..];
    }
  }

  lemma {:induction false} SortPermutes<T>(s: seq<T>, key: T -> Rank)
    ensures multiset(SortBy(s, key)) == multiset(s)
  {
    if s != [] {
      SortPermutes(s[1..], key);
      InsertPermutes(s[0], SortBy(s[1..], key), key);
      assert s == [s[0]] + s[1..];
    }
  }

  lemma {:induction false} InsertOrdered<T>(x: T, s: seq<T>, key: T -> Rank)
    requires Ordered(s, key)
    ensures Ordered(Insert(x, s, key), key)
  {
    hide KeyLeq;
    if s == [] {
    } else if KeyLeq(key(x), key(s[0])) {
      var r := [x] + s;
      forall i, j | 0 <= i < j < |r| ensures KeyLeq(key(r[i]), key(r[j])) {
        if i == 0 && j > 1 {
          KeyTransitive(key(x), key(s[0]), key(s[j - 1]));
        }
      }
    } else {
      KeyTotal(key(x), key(s[0]));
      var rest := Insert(x, s[1..], key);
      InsertOrdered(x, s[1..], key);
      InsertPermutes(x, s[1..], key);
      var r := [s[0]] + rest;
      forall i, j | 0 <= i < j < |r| ensures KeyLeq(key(r[i]), key(r[j])) {
        if i == 0 {
          assert rest[j - 1] in multiset(rest);
          if rest[j - 1] != x {
            assert rest[j - 1] in multiset(s[1..]);
            assert rest[j - 1] in s[1..];
          }
        }
      }
    }
  }

  /** Sorting gives an ordered permutation. */
  lemma {:induction false} SortMeaning<T>(s: seq<T>, key: T -> Rank)
    ensures multiset(SortBy(s, key)) == multiset(s)
    ensures Ordered(SortBy(s, key), key)
  {
    SortPermutes(s, key);
    if s != [] {
      SortMeaning(s[1..], key);
      InsertOrdered(s[0], SortBy(s[1..], key), key);
    }
  }

  lemma {:induction false} InsertStable<T>(x: T, s: seq<T>, key: T -> Rank, k: Rank)
    ensures WithKey(Insert(x, s, key), key, k) == if key(x) == k then [x] + WithKey(s, key, k) else WithKey(s, key, k)
  {
    if s == [] || KeyLeq(key(x), key(s[0])) {
      assert ([x] + s)[1..] == s;
    } else {
      InsertStable(x, s[1..], key, k);
      var rest := Insert(x, s[1..], key);
      assert ([s[0]] + rest)[1..] == rest;
      KeyTotal(key(x), key(x));
    }
  }

  /** Sorting never reorders elements with equal keys. */
  lemma {:induction false} SortStable<T>(s: seq<T>, key: T -> Rank, k: Rank)
    ensures WithKey(SortBy(s, key), key, k) == WithKey(s, key, k)
  {
    if s != [] {
      SortStable(s[1..], key, k);
      InsertStable(s[0], SortBy(s[1..], key), key, k);
    }
  }

  lemma {:induction false} InsertSame<T>(x: T, s: seq<T>, f: T -> Rank, g: T -> Rank)
    requires f(x) == g(x) && forall y :: y in s ==> f(y) == g(y)
    ensures Insert(x, s, f) == Insert(x, s, g)
  {
    hide KeyLeq;
    if s != [] {
      assert s[0] in s;
      InsertSame(x, s[1..], f, g);
    }
  }

  /** Keys that agree on the elements sort them alike. */
  lemma {:induction false} SortSame<T>(s: seq<T>, f: T -> Rank, g: T -> Rank)
    requires forall x :: x in s ==> f(x) == g(x)
    ensures SortBy(s, f) == SortBy(s, g)
  {
    if s != [] {
      assert s[0] in s;
      SortSame(s[1..], f, g);
      SortPermutes(s[1..], f);
      forall y | y in SortBy(s[1..], f) ensures f(y) == g(y) {
        assert y in multiset(SortBy(s[1..], f));
        assert y in multiset(s[1..]);
      }
      InsertSame(s[0], SortBy(s[1..], f), f, g);
    }
  }

  lemma SortMembers<T>(s: seq<T>, key: T -> Rank, x: T)
    ensures x in SortBy(s, key) <==> x in s
  {
    SortPermutes(s, key);
    assert x in SortBy(s, key) <==> x in multiset(SortBy(s, key));
    assert x in s <==> x in multiset(s);
  }

  /** No two elements have the same image. */
  ghost predicate Apart<T, K>(s: seq<T>, f: T -> K) {
    forall i, j :: 0 <= i < j < |s| ==> f(s[i]) != f(s[j])
  }

  lemma {:induction false} InsertApart<T, K>(x: T, s: seq<T>, key: T -> Rank, f: T -> K)
    requires Apart(s, f) && forall y :: y in s ==> f(y) != f(x)
    ensures Apart(Insert(x, s, key), f)
  {
    hide KeyLeq;
    if s != [] && !KeyLeq(key(x), key(s[0])) {
      var rest := Insert(x, s[1..], key);
      InsertApart(x, s[1..], key, f);
      InsertPermutes(x, s[1..], key);
      var r := [s[0]] + rest;
      forall i, j | 0 <= i < j < |r| ensures f(r[i]) != f(r[j]) {
        if i == 0 {
          assert s[0] in s;
          assert rest[j - 1] in multiset(rest);
          if rest[j - 1] != x {
            assert rest[j - 1] in multiset(s[1..]);
            var k :| 0 <= k < |s[1..]| && s[1..][k] == rest[j - 1];
            assert s[k + 1] == rest[j - 1];
          }
        }
      }
    }
  }

  lemma {:induction false} SortApart<T, K>(s: seq<T>, key: T -> Rank, f: T -> K)
    requires Apart(s, f)
    ensures Apart(SortBy(s, key), f)
  {
    if s != [] {
      SortApart(s[1..], key, f);
      forall y | y in SortBy(s[1..], key) ensures f(y) != f(s[0]) {
        SortMembers(s[1..], key, y);
        var k :| 0 <= k < |s[1..]| && s[1..][k] == y;
        assert s[k + 1] == y;
      }
      InsertApart(s[0], SortBy(s[1..], key), key, f);
    }
  }
}
