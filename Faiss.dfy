/**
 * The dense index: documents carry fixed-length embeddings and a query is
 * ranked by cosine similarity,
 *
 *   cos(a, b) = a . b / (sqrt(a . a) * sqrt(b . b))
 *
 * computed by brute force over every stored document. `Math.sqrt` is the
 * function-valued field `sqrt`; what is assumed about it is stated where it
 * is needed (`IsSqrt`).
 */
module Faiss {
  import opened Js
  import opened Ranking
  import opened RealArith

  const DefaultDimension: int := 384
  /** The default `limit` of `search` and `batchSearch`. */
  const DefaultSearchLimit: int := 10

  /** A stored document: `{ id, embedding, metadata }`. */
  datatype VectorDocument = VectorDocument(id: string, embedding: seq<real>, metadata: Meta)

  /** The two errors the index throws, with the expected and the actual length. */
  datatype DimensionError =
    | InvalidEmbeddingDimension(expected: int, got: nat)
    | InvalidQueryEmbeddingDimension(expected: int, got: nat)

  ghost predicate IsSqrt(sqrt: real -> real)
  {
    forall x :: x >= 0.0 ==> sqrt(x) >= 0.0 && sqrt(x) * sqrt(x) == x
  }

  function Min(a: int, b: int): int { if a < b then a else b }

  // ---------------------------------------------------------------------------
  // Vectors

  /** The dot product of two vectors of equal length, summed from the front. */
  function Dot(a: seq<real>, b: seq<real>): real
    requires |a| == |b|
  {
    if a == [] then 0.0
    else Dot(a[..|a| - 1], b[..|b| - 1]) + a[|a| - 1] * b[|b| - 1]
  }

  /** `Math.sqrt(normA) * Math.sqrt(normB)` */
  function Denominator(a: seq<real>, b: seq<real>, sqrt: real -> real): real
  {
    sqrt(Dot(a, a)) * sqrt(Dot(b, b))
  }

  /** The cosine similarity of two vectors of equal length, defined when
      neither square root is zero. */
  function Cosine(a: seq<real>, b: seq<real>, sqrt: real -> real): real
    requires |a| == |b| && Denominator(a, b, sqrt) != 0.0
  {
    Dot(a, b) / Denominator(a, b, sqrt)
  }

  /** The position of the first vector whose length is not `dimension`. */
  function FirstMismatch(vectors: seq<seq<real>>, dimension: int): (r: Option<nat>)
    ensures r.None? <==> forall i :: 0 <= i < |vectors| ==> |vectors[i]| == dimension
    ensures r.Some? ==>
      && r.value < |vectors| && |vectors[r.value]| != dimension
      && (forall i :: 0 <= i < r.value ==> |vectors[i]| == dimension)
  {
    if vectors == [] then None
    else if |vectors[0]| != dimension then Some(0)
    else match FirstMismatch(vectors[1..], dimension)
      case None => None
      case Some(i) => Some(i + 1)
  }

  function Embeddings(docs: seq<VectorDocument>): (r: seq<seq<real>>)
    ensures |r| == |docs| && forall i :: 0 <= i < |docs| ==> r[i] == docs[i].embedding
  {
    seq(|docs|, i requires 0 <= i < |docs| => docs[i].embedding)
  }

  /** Every document can be compared with `query`: same length, and no zero
      square root in the denominator. */
  ghost predicate Comparable(query: seq<real>, docs: seq<VectorDocument>, sqrt: real -> real)
  {
    forall i :: 0 <= i < |docs| ==>
      |docs[i].embedding| == |query| && Denominator(query, docs[i].embedding, sqrt) != 0.0
  }

  /** `documents.map(doc => ({ id, score: cosine(query, doc), metadata }))` */
  function Similarities(query: seq<real>, docs: seq<VectorDocument>, sqrt: real -> real): (r: seq<Hit>)
    requires Comparable(query, docs, sqrt)
    ensures |r| == |docs|
  {
    seq(|docs|, i requires 0 <= i < |docs| && Comparable(query, docs, sqrt) =>
      Hit(docs[i].id, Cosine(query, docs[i].embedding, sqrt), docs[i].metadata))
  }

  /** The result of a search: scored, sorted and truncated. */
  function Ranked(query: seq<real>, docs: seq<VectorDocument>, sqrt: real -> real, limit: int): seq<Hit>
    requires Comparable(query, docs, sqrt)
  {
    TopK(Similarities(query, docs, sqrt), HitScore, limit)
  }

  // ---------------------------------------------------------------------------
  // Properties of the similarity

  lemma {:induction false} DotSymmetric(a: seq<real>, b: seq<real>)
    requires |a| == |b|
    ensures Dot(a, b) == Dot(b, a)
  {
    if a != [] {
      DotSymmetric(a[..|a| - 1], b[..|b| - 1]);
    }
  }

  /** Cosine similarity does not depend on the order of its arguments. */
  lemma CosineSymmetric(a: seq<real>, b: seq<real>, sqrt: real -> real)
    requires |a| == |b| && Denominator(a, b, sqrt) != 0.0
    ensures Denominator(b, a, sqrt) != 0.0
    ensures Cosine(a, b, sqrt) == Cosine(b, a, sqrt)
  {
    DotSymmetric(a, b);
  }

  /** A squared norm is never negative. */
  lemma {:induction false} DotSelfNonNegative(a: seq<real>)
    ensures Dot(a, a) >= 0.0
  {
    if a != [] {
      DotSelfNonNegative(a[..|a| - 1]);
      MulNonNegSquare(a[|a| - 1]);
    }
  }

  lemma MulNonNegSquare(x: real)
    ensures x * x >= 0.0
  {
    if x < 0.0 {
      MulPos(-x, -x);
    }
  }

  /** sum over i of (a[i] * y - x * b[i])^2 */
  function CrossSquares(a: seq<real>, b: seq<real>, x: real, y: real): real
    requires |a| == |b|
  {
    if a == [] then 0.0
    else
      var d := a[|a| - 1] * y - x * b[|b| - 1];
      CrossSquares(a[..|a| - 1], b[..|b| - 1], x, y) + d * d
  }

  lemma {:induction false} CrossSquaresNonNegative(a: seq<real>, b: seq<real>, x: real, y: real)
    requires |a| == |b|
    ensures CrossSquares(a, b, x, y) >= 0.0
  {
    if a != [] {
      CrossSquaresNonNegative(a[..|a| - 1], b[..|b| - 1], x, y);
      MulNonNegSquare(a[|a| - 1] * y - x * b[|b| - 1]);
    }
  }

  /** The cross sum expands to y^2 |a|^2 + x^2 |b|^2 - 2xy a.b. */
  lemma {:induction false} CrossSquaresExpand(a: seq<real>, b: seq<real>, x: real, y: real)
    requires |a| == |b|
    ensures CrossSquares(a, b, x, y) == y * y * Dot(a, a) + x * x * Dot(b, b) - 2.0 * x * y * Dot(a, b)
  {
    // The prefix and last coordinates are written out rather than named, so
    // that the products below are the very terms Dot and CrossSquares unfold to.
    if a != [] {
      CrossSquaresExpand(a[..|a| - 1], b[..|b| - 1], x, y);
      DotLast(a, a);
      DotLast(b, b);
      DotLast(a, b);
      Distribute(y * y, Dot(a, a), Dot(a[..|a| - 1], a[..|a| - 1]), a[|a| - 1] * a[|a| - 1]);
      Distribute(x * x, Dot(b, b), Dot(b[..|b| - 1], b[..|b| - 1]), b[|b| - 1] * b[|b| - 1]);
      Distribute(2.0 * x * y, Dot(a, b), Dot(a[..|a| - 1], b[..|b| - 1]), a[|a| - 1] * b[|b| - 1]);
      SquareExpand(a[|a| - 1], b[|b| - 1], x, y);
    }
  }

  lemma DotLast(a: seq<real>, b: seq<real>)
    requires |a| == |b| && a != []
    ensures Dot(a, b) == Dot(a[..|a| - 1], b[..|b| - 1]) + a[|a| - 1] * b[|b| - 1]
  {
  }

  /** k * (p + q) == k * p + k * q, for a total written as p + q. */
  lemma Distribute(k: real, total: real, p: real, q: real)
    requires total == p + q
    ensures k * total == k * p + k * q
  {
  }

  /** (uy - xv)^2 = y^2 u^2 + x^2 v^2 - 2xy uv */
  lemma SquareExpand(u: real, v: real, x: real, y: real)
    ensures (u * y - x * v) * (u * y - x * v) == y * y * (u * u) + x * x * (v * v) - 2.0 * x * y * (u * v)
  {
  }

  /** The Cauchy-Schwarz inequality: (a.b)^2 <= |a|^2 |b|^2. */
  lemma {:induction false} CauchySchwarz(a: seq<real>, b: seq<real>)
    requires |a| == |b|
    ensures Dot(a, b) * Dot(a, b) <= Dot(a, a) * Dot(b, b)
  {
    if a != [] {
      var a0, b0 := a[..|a| - 1], b[..|b| - 1];
      var x, y := a[|a| - 1], b[|b| - 1];
      CauchySchwarz(a0, b0);
      CrossSquaresExpand(a0, b0, x, y);
      CrossSquaresNonNegative(a0, b0, x, y);
      StepIdentity(Dot(a0, a0), Dot(b0, b0), Dot(a0, b0), x, y);
    }
  }

  /** (na + x^2)(nb + y^2) - (d + xy)^2 = (na nb - d^2) + (y^2 na + x^2 nb - 2xyd) */
  lemma StepIdentity(na: real, nb: real, d: real, x: real, y: real)
    ensures (na + x * x) * (nb + y * y) - (d + x * y) * (d + x * y)
      == (na * nb - d * d) + (y * y * na + x * x * nb - 2.0 * x * y * d)
  {
  }

  /** With a true square root, cosine similarity lies in [-1, 1]. */
  lemma CosineBounded(a: seq<real>, b: seq<real>, sqrt: real -> real)
    requires IsSqrt(sqrt)
    requires |a| == |b| && Denominator(a, b, sqrt) != 0.0
    ensures -1.0 <= Cosine(a, b, sqrt) <= 1.0
  {
    DotSelfNonNegative(a);
    DotSelfNonNegative(b);
    CauchySchwarz(a, b);
    var na, nb := Dot(a, a), Dot(b, b);
    var sa, sb := sqrt(na), sqrt(nb);
    assert sa >= 0.0 && sa * sa == na;
    assert sb >= 0.0 && sb * sb == nb;
    var den := Denominator(a, b, sqrt);
    RatioBounded(Dot(a, b), na, nb, sa, sb, den, Cosine(a, b, sqrt));
  }

  /** d / (sa * sb) lies in [-1, 1] when sa and sb are the non-negative roots
      of na and nb, their product is non-zero and d^2 <= na * nb. */
  lemma RatioBounded(d: real, na: real, nb: real, sa: real, sb: real, den: real, ratio: real)
    requires sa >= 0.0 && sa * sa == na && sb >= 0.0 && sb * sb == nb
    requires den == sa * sb && den != 0.0 && ratio == d / den
    requires d * d <= na * nb
    ensures -1.0 <= ratio <= 1.0
  {
    MulNonNeg(sa, sb);
    assert den * den == (sa * sa) * (sb * sb);
    SquareBound(d, den);
    DivWithin(d, den);
  }

  lemma SquareBound(x: real, d: real)
    requires d > 0.0 && x * x <= d * d
    ensures -d <= x <= d
  {
    if x > d {
      SquareGrows(d, x);
    } else if x < -d {
      SquareGrows(d, -x);
    }
  }

  lemma DivWithin(x: real, d: real)
    requires d > 0.0 && -d <= x <= d
    ensures -1.0 <= x / d <= 1.0
  {
  }

  /** A vector with a non-zero norm is perfectly similar to itself. */
  lemma CosineSelf(a: seq<real>, sqrt: real -> real)
    requires IsSqrt(sqrt)
    requires Denominator(a, a, sqrt) != 0.0
    ensures Cosine(a, a, sqrt) == 1.0
  {
    DotSelfNonNegative(a);
    assert Denominator(a, a, sqrt) == Dot(a, a);
  }

  /** What `search` returns on a valid query: min(limit, N) hits for a
      non-negative limit, each a stored document with its similarity to the
      query, by non-increasing similarity, with no document left out more
      similar than one returned, and equal similarities in stored order. */
  lemma {:induction false} RankedBySimilarity(query: seq<real>, docs: seq<VectorDocument>, sqrt: real -> real, limit: int)
    requires Comparable(query, docs, sqrt)
    ensures var r := Ranked(query, docs, sqrt, limit);
      && (limit >= 0 ==> |r| == Min(limit, |docs|))
      && (forall h :: h in r ==>
            exists i :: 0 <= i < |docs| && h == Hit(docs[i].id, Cosine(query, docs[i].embedding, sqrt), docs[i].metadata))
      && SortedDesc(r, HitScore)
      && (forall h: Hit, j :: h in multiset(Similarities(query, docs, sqrt)) - multiset(r) && 0 <= j < |r| ==>
            h.score <= r[j].score)
      && (forall v :: Tied(r, HitScore, v) <= Tied(Similarities(query, docs, sqrt), HitScore, v))
  {
    var all := Similarities(query, docs, sqrt);
    var r := TopK(all, HitScore, limit);
    TopKCorrect(all, HitScore, limit);
    forall h | h in r
      ensures exists i :: 0 <= i < |docs| && h == Hit(docs[i].id, Cosine(query, docs[i].embedding, sqrt), docs[i].metadata)
    {
      assert h in multiset(r);
      assert h in all;
      var i :| 0 <= i < |all| && all[i] == h;
    }
    forall h: Hit, j | h in multiset(all) - multiset(r) && 0 <= j < |r|
      ensures h.score <= r[j].score
    {
      assert HitScore(h) <= HitScore(r[j]);
    }
  }

  // ---------------------------------------------------------------------------
  // The index

  class VectorSearch {
    var documents: seq<VectorDocument>
    const dimension: int
    /** `Math.sqrt` */
    const sqrt: real -> real

    /** Every stored embedding has the index's dimension. */
    ghost predicate Valid()
      reads this
    {
      FirstMismatch(Embeddings(documents), dimension).None?
    }

    constructor(dimension: int, sqrt: real -> real)
      ensures Valid()
      ensures documents == [] && this.dimension == dimension && this.sqrt == sqrt
    {
      documents := [];
      this.dimension := dimension;
      this.sqrt := sqrt;
    }

    /** Checks every embedding's length first; throws on the first bad one and
        then keeps the old documents, otherwise replaces them all. */
    method AddDocuments(docs: seq<VectorDocument>) returns (r: Outcome<DimensionError>)
      requires Valid()
      modifies this
      ensures Valid()
      ensures match FirstMismatch(Embeddings(docs), dimension)
        case None => r == Pass && documents == docs
        case Some(i) => (r == Fail(InvalidEmbeddingDimension(dimension, |docs[i].embedding|))
          && documents == old(documents))
    {
      for i := 0 to |docs|
        invariant forall j :: 0 <= j < i ==> |docs[j].embedding| == dimension
      {
        if |docs[i].embedding| != dimension {
          return Fail(InvalidEmbeddingDimension(dimension, |docs[i].embedding|));
        }
      }
      documents := docs;
      return Pass;
    }

    /** One pass accumulates the dot product and both squared norms. */
    method CosineSimilarity(a: seq<real>, b: seq<real>) returns (similarity: real)
      requires |a| == |b| && Denominator(a, b, sqrt) != 0.0
      ensures similarity == Cosine(a, b, sqrt)
    {
      var dotProduct := 0.0;
      var normA := 0.0;
      var normB := 0.0;
      for i := 0 to |a|
        invariant dotProduct == Dot(a[..i], b[..i])
        invariant normA == Dot(a[..i], a[..i])
        invariant normB == Dot(b[..i], b[..i])
      {
        assert a[..i + 1][..i] == a[..i] && b[..i + 1][..i] == b[..i];
        dotProduct := dotProduct + a[i] * b[i];
        normA := normA + a[i] * a[i];
        normB := normB + b[i] * b[i];
      }
      assert a[..|a|] == a && b[..|b|] == b;
      similarity := dotProduct / (sqrt(normA) * sqrt(normB));
    }

    /** Rejects a query of the wrong length; otherwise ranks every document by
        its similarity to the query and keeps the first `limit`. */
    method Search(queryEmbedding: seq<real>, limit: int) returns (r: Result<seq<Hit>, DimensionError>)
      requires Valid()
      requires |queryEmbedding| == dimension ==> Comparable(queryEmbedding, documents, sqrt)
      ensures |queryEmbedding| != dimension ==>
        r == Failure(InvalidQueryEmbeddingDimension(dimension, |queryEmbedding|))
      ensures |queryEmbedding| == dimension ==>
        r == Success(Ranked(queryEmbedding, documents, sqrt, limit))
    {
      if |queryEmbedding| != dimension {
        return Failure(InvalidQueryEmbeddingDimension(dimension, |queryEmbedding|));
      }
      var scores: seq<Hit> := [];
      for i := 0 to |documents|
        invariant scores == Similarities(queryEmbedding, documents[..i], sqrt)
      {
        var doc := documents[i];
        var score := CosineSimilarity(queryEmbedding, doc.embedding);
        scores := scores + [Hit(doc.id, score, doc.metadata)];
      }
      assert documents[..|documents|] == documents;
      return Success(TopK(scores, HitScore, limit));
    }

    /** Searches each query in turn; the first query of the wrong length
        aborts the whole batch. */
    method BatchSearch(queryEmbeddings: seq<seq<real>>, limit: int) returns (r: Result<seq<seq<Hit>>, DimensionError>)
      requires Valid()
      requires forall q :: q in queryEmbeddings && |q| == dimension ==> Comparable(q, documents, sqrt)
      ensures match FirstMismatch(queryEmbeddings, dimension)
        case None => r.Success? && |r.value| == |queryEmbeddings|
          && forall i :: 0 <= i < |queryEmbeddings| ==> r.value[i] == Ranked(queryEmbeddings[i], documents, sqrt, limit)
        case Some(i) => r == Failure(InvalidQueryEmbeddingDimension(dimension, |queryEmbeddings[i]|))
    {
      var results: seq<seq<Hit>> := [];
      for i := 0 to |queryEmbeddings|
        invariant |results| == i
        invariant forall j :: 0 <= j < i ==> |queryEmbeddings[j]| == dimension
        invariant forall j :: 0 <= j < i ==> results[j] == Ranked(queryEmbeddings[j], documents, sqrt, limit)
      {
        var hits := Search(queryEmbeddings[i], limit);
        if hits.Failure? {
          return Failure(hits.error);
        }
        results := results + [hits.value];
      }
      return Success(results);
    }
  }
}
