/**
 * Ranked hits and the ordering both sub-indices and the fusion step apply to
 * them: `Array.prototype.sort` with the comparator `(a, b) => b.score - a.score`,
 * which is a stable sort by non-increasing score, followed by `slice(0, limit)`.
 */
module Ranking {
  import opened Js

  /** One entry of a sub-index result list: `{ id, score, metadata }`. */
  datatype Hit = Hit(id: string, score: real, metadata: Meta)

  function HitScore(h: Hit): real { h.score }

  /** The ids of a result list, rank by rank. */
  function Ids(hits: seq<Hit>): (r: seq<string>)
    ensures |r| == |hits|
    ensures forall i :: 0 <= i < |hits| ==> r[i] == hits[i].id
  {
    seq(|hits|, i requires 0 <= i < |hits| => hits[i].id)
  }

  ghost predicate SortedDesc<T>(s: seq<T>, key: T -> real)
  {
    forall i, j :: 0 <= i < j < |s| ==> key(s[i]) >= key(s[j])
  }

  /** The elements whose key equals `v`, in their order in `s`. A sort is
      stable exactly when it leaves every such subsequence as it was. */
  function Tied<T>(s: seq<T>, key: T -> real, v: real): seq<T>
  {
    if s == [] then [] else (if key(s[0]) == v then [s[0]] else []) + Tied(s[1..], key, v)
  }

  /** Places `x` in front of the first element of `l` whose key does not
      exceed its own. */
  function Insert<T>(x: T, l: seq<T>, key: T -> real): seq<T>
  {
    if l == [] then [x]
    else if key(l[0]) <= key(x) then [x] + l
    else [l[0]] + Insert(x, l[1..], key)
  }

  /** Stable sort by non-increasing key (insertion sort). */
  function SortDesc<T>(s: seq<T>, key: T -> real): seq<T>
  {
    if s == [] then [] else Insert(s[0], SortDesc(s[1..], key), key)
  }

  /** `s.sort((a, b) => key(b) - key(a)).slice(0, limit)` */
  function TopK<T>(s: seq<T>, key: T -> real, limit: int): seq<T>
  {
    SliceUpTo(SortDesc(s, key), limit)
  }

  lemma {:induction false} InsertPermutes<T>(x: T, l: seq<T>, key: T -> real)
    ensures multiset(Insert(x, l, key)) == multiset([x] + l)
  {
    if l != [] && key(l[0]) > key(x) {
      InsertPermutes(x, l[1..], key);
      assert l == [l[0]] + l[1..];
    }
  }

  lemma {:induction false} InsertSorted<T>(x: T, l: seq<T>, key: T -> real)
    requires SortedDesc(l, key)
    ensures SortedDesc(Insert(x, l, key), key)
  {
    if l != [] && key(l[0]) > key(x) {
      var rest := Insert(x, l[1..], key);
      InsertSorted(x, l[1..], key);
      InsertPermutes(x, l[1..], key);
      forall k | 0 <= k < |rest|
        ensures key(l[0]) >= key(rest[k])
      {
        assert rest[k] in multiset([x] + l[1..]);
        assert rest[k] == x || rest[k] in l[1..];
      }
    }
  }

  lemma {:induction false} InsertTied<T>(x: T, l: seq<T>, key: T -> real, v: real)
    requires SortedDesc(l, key)
    ensures Tied(Insert(x, l, key), key, v) == Tied([x] + l, key, v)
  {
    if l != [] && key(l[0]) > key(x) {
      InsertTied(x, l[1..], key, v);
      var rest := Insert(x, l[1..], key);
      calc {
        Tied(Insert(x, l, key), key, v);
        Tied([l[0]] + rest, key, v);
        (if key(l[0]) == v then [l[0]] else []) + Tied(rest, key, v);
        (if key(l[0]) == v then [l[0]] else []) + Tied([x] + l[1..], key, v);
        { assert ([x] + l[1..])[1..] == l[1..]; }
        (if key(l[0]) == v then [l[0]] else []) + (if key(x) == v then [x] else []) + Tied(l[1..], key, v);
        // at most one of l[0] and x has key v, since key(l[0]) > key(x)
        (if key(x) == v then [x] else []) + (if key(l[0]) == v then [l[0]] else []) + Tied(l[1..], key, v);
        (if key(x) == v then [x] else []) + Tied(l, key, v);
        { assert ([x] + l)[1..] == l; }
        Tied([x] + l, key, v);
      }
    }
  }

  /** SortDesc is a stable sort: its output is a permutation of its input, in
      non-increasing key order, and elements with equal keys keep their
      relative order. */
  lemma {:induction false} SortDescCorrect<T>(s: seq<T>, key: T -> real)
    ensures |SortDesc(s, key)| == |s|
    ensures multiset(SortDesc(s, key)) == multiset(s)
    ensures SortedDesc(SortDesc(s, key), key)
    ensures forall v :: Tied(SortDesc(s, key), key, v) == Tied(s, key, v)
  {
    if s != [] {
      var rest := SortDesc(s[1..], key);
      SortDescCorrect(s[1..], key);
      InsertPermutes(s[0], rest, key);
      InsertSorted(s[0], rest, key);
      assert s == [s[0]] + s[1..];
      assert |multiset(SortDesc(s, key))| == |multiset(s)|;
      forall v
        ensures Tied(SortDesc(s, key), key, v) == Tied(s, key, v)
      {
        InsertTied(s[0], rest, key, v);
        assert ([s[0]] + rest)[1..] == rest;
      }
    }
  }

  /** The equal-key elements of a prefix are a prefix of those of the whole. */
  lemma {:induction false} TiedPrefix<T>(s: seq<T>, n: nat, key: T -> real, v: real)
    requires n <= |s|
    ensures Tied(s[..n], key, v) <= Tied(s, key, v)
  {
    if n > 0 {
      TiedPrefix(s[1..], n - 1, key, v);
      assert s[..n][1..] == s[1..][..n - 1];
    }
  }

  /** What `sort` followed by `slice(0, limit)` returns: min(limit, |s|)
      elements of `s` for a non-negative limit, in non-increasing key order;
      no element left out scores above one taken; and elements with equal
      keys come in their order in `s`. */
  lemma TopKCorrect<T>(s: seq<T>, key: T -> real, limit: int)
    ensures var r := TopK(s, key, limit);
      && |r| == SliceIndex(limit, |s|)
      && (limit >= 0 ==> |r| == if limit < |s| then limit else |s|)
      && multiset(r) <= multiset(s)
      && SortedDesc(r, key)
      && (forall x, i :: x in multiset(s) - multiset(r) && 0 <= i < |r| ==> key(x) <= key(r[i]))
      && (forall v :: Tied(r, key, v) <= Tied(s, key, v))
  {
    var sorted := SortDesc(s, key);
    SortDescCorrect(s, key);
    var n := SliceIndex(limit, |s|);
    var r := sorted[..n];
    assert sorted == r + sorted[n..];
    assert multiset(sorted) == multiset(r) + multiset(sorted[n..]);
    forall x, i | x in multiset(s) - multiset(r) && 0 <= i < |r|
      ensures key(x) <= key(r[i])
    {
      assert x in multiset(sorted[n..]);
      var j :| 0 <= j < |sorted[n..]| && sorted[n..][j] == x;
      assert sorted[n + j] == x;
    }
    forall v
      ensures Tied(r, key, v) <= Tied(s, key, v)
    {
      TiedPrefix(sorted, n, key, v);
    }
  }
}
