/**
 * The lexical index: Okapi BM25 with the "+1 inside the logarithm" IDF,
 *
 *   idf(t)      = ln((N - df(t) + 0.5) / (df(t) + 0.5) + 1)
 *   score(q, d) = sum over the tokens t of q (repeats included) of
 *                 idf(t) * tf(t, d) * (k1 + 1) / (tf(t, d) + k1 * (1 - b + b * |d| / avgdl))
 *
 * Real numbers stand for the source's floating-point numbers; `Math.log` is
 * the function-valued field `ln`, about which only what a lemma requires is
 * assumed.
 */
module Bm25 {
  import opened Js
  import opened Ranking
  import Tokenizer
  import opened RealArith

  const DefaultK1: real := 1.5
  const DefaultB: real := 0.75
  /** The default `limit` of `search`. */
  const DefaultSearchLimit: int := 10

  /** A tokenized document: `{ id, tokens, metadata }`. */
  datatype Document = Document(id: string, tokens: seq<string>, metadata: Meta)

  /** The index state a score depends on. */
  datatype Scoring = Scoring(idf: map<string, real>, avgDocLength: real, k1: real, b: real)

  /** Parameter ranges under which no BM25 denominator is zero. */
  predicate ValidParameters(k1: real, b: real)
  {
    k1 > 0.0 && 0.0 <= b < 1.0
  }

  ghost predicate LnPositiveAboveOne(ln: real -> real)
  {
    forall x :: x > 1.0 ==> ln(x) > 0.0
  }

  ghost predicate LnIncreasing(ln: real -> real)
  {
    forall x, y :: 0.0 < x < y ==> ln(x) < ln(y)
  }

  function Min(a: int, b: int): int { if a < b then a else b }

  // ---------------------------------------------------------------------------
  // Corpus statistics

  /** The number of documents that contain `term` at least once. */
  function DocumentFrequency(docs: seq<Document>, term: string): nat
  {
    if docs == [] then 0
    else DocumentFrequency(docs[..|docs| - 1], term) + (if term in docs[|docs| - 1].tokens then 1 else 0)
  }

  /** Every term that occurs in some document. */
  function CorpusTerms(docs: seq<Document>): set<string>
  {
    if docs == [] then {}
    else CorpusTerms(docs[..|docs| - 1]) + Vocabulary(docs[|docs| - 1].tokens)
  }

  /** `new Set(tokens)` */
  function Vocabulary(tokens: seq<string>): set<string>
  {
    set t | t in tokens
  }

  /** The argument the source hands to `Math.log`. */
  function IdfArgument(n: nat, df: nat): real
  {
    ((n as real) - (df as real) + 0.5) / ((df as real) + 0.5) + 1.0
  }

  /** The IDF entries a corpus produces, one per corpus term. */
  function IdfTable(docs: seq<Document>, ln: real -> real): map<string, real>
  {
    map t | t in CorpusTerms(docs) :: ln(IdfArgument(|docs|, DocumentFrequency(docs, t)))
  }

  /** The IDF entries for a table of document counts over `n` documents. */
  function IdfsOf(counts: map<string, nat>, n: nat, ln: real -> real): map<string, real>
  {
    map t | t in counts :: ln(IdfArgument(n, counts[t]))
  }

  /** Setting one more counted term's IDF extends the entries set so far. */
  lemma IdfsStep(before: map<string, real>, counts: map<string, nat>, pending: set<string>, term: string, n: nat, ln: real -> real)
    requires term in pending && term in counts
    ensures before + IdfsOf(counts - (pending - {term}), n, ln)
      == (before + IdfsOf(counts - pending, n, ln))[term := ln(IdfArgument(n, counts[term]))]
  {
    var m := IdfsOf(counts - pending, n, ln);
    var v := ln(IdfArgument(n, counts[term]));
    assert IdfsOf(counts - (pending - {term}), n, ln) == m[term := v];
    assert before + m[term := v] == (before + m)[term := v];
  }

  /** The entries for the counted document frequencies are the corpus's IDF
      table. */
  lemma IdfsOfCounts(docs: seq<Document>, counts: map<string, nat>, ln: real -> real)
    requires counts.Keys == CorpusTerms(docs)
    requires forall t :: t in counts ==> counts[t] == DocumentFrequency(docs, t)
    ensures IdfsOf(counts - {}, |docs|, ln) == IdfTable(docs, ln)
  {
    assert counts - {} == counts;
  }

  /** The total token count (`reduce((sum, doc) => sum + doc.tokens.length, 0)`). */
  function TotalLength(docs: seq<Document>): nat
  {
    if docs == [] then 0 else TotalLength(docs[..|docs| - 1]) + |docs[|docs| - 1].tokens|
  }

  /** Mean token count; 0 for an empty corpus, where the source computes 0/0. */
  function AvgDocLength(docs: seq<Document>): real
  {
    if |docs| == 0 then 0.0 else (TotalLength(docs) as real) / (|docs| as real)
  }

  /** The number of times `term` occurs in `tokens`. */
  function TermFrequency(tokens: seq<string>, term: string): nat
  {
    multiset(tokens)[term]
  }

  // ---------------------------------------------------------------------------
  // Scoring

  lemma DenominatorPositive(tf: real, k1: real, b: real, ratio: real)
    requires tf >= 0.0 && ValidParameters(k1, b) && ratio >= 0.0
    ensures tf + k1 * (1.0 - b + b * ratio) > 0.0
  {
    MulNonNeg(b, ratio);
    var inner := 1.0 - b + b * ratio;
    assert inner > 0.0;
    MulPos(k1, inner);
    assert k1 * inner > 0.0;
    assert tf + k1 * inner > 0.0;
  }

  /** The saturating term-frequency factor tf * (k1 + 1) / (tf + k1 * (1 - b + b * ratio)),
      where ratio is the document's length over the mean length: it is 0 for
      an absent term, positive for a present one, and stays below k1 + 1 however
      often the term occurs. */
  function TermWeight(tf: real, k1: real, b: real, ratio: real): (w: real)
    requires tf >= 0.0 && ValidParameters(k1, b) && ratio >= 0.0
    ensures 0.0 <= w < k1 + 1.0
    ensures tf > 0.0 <==> w > 0.0
  {
    DenominatorPositive(0.0, k1, b, ratio);
    Saturation(tf, k1 * (1.0 - b + b * ratio), k1);
    (tf * (k1 + 1.0)) / (tf + k1 * (1.0 - b + b * ratio))
  }

  /** `idf.get(term) || 0` */
  function IdfOf(idf: map<string, real>, term: string): real
  {
    if term in idf then idf[term] else 0.0
  }

  /** What one query token adds to a document's score: its IDF times its term
      weight in the document. */
  function TermScore(term: string, doc: Document, s: Scoring): real
    requires ValidParameters(s.k1, s.b) && s.avgDocLength > 0.0
  {
    var tf := TermFrequency(doc.tokens, term) as real;
    DivNonNeg(|doc.tokens| as real, s.avgDocLength);
    IdfOf(s.idf, term) * TermWeight(tf, s.k1, s.b, (|doc.tokens| as real) / s.avgDocLength)
  }

  /** The BM25 score of `doc`, summed over the query tokens in order. */
  function Score(query: seq<string>, doc: Document, s: Scoring): real
    requires ValidParameters(s.k1, s.b) && (s.avgDocLength > 0.0 || query == [])
  {
    if query == [] then 0.0
    else Score(query[..|query| - 1], doc, s) + TermScore(query[|query| - 1], doc, s)
  }

  /** `documents.map(doc => ({ id, score, metadata }))` */
  function Scored(query: seq<string>, docs: seq<Document>, s: Scoring): (r: seq<Hit>)
    requires ValidParameters(s.k1, s.b) && (docs == [] || s.avgDocLength > 0.0 || query == [])
    ensures |r| == |docs|
  {
    seq(|docs|, i requires 0 <= i < |docs| => Hit(docs[i].id, Score(query, docs[i], s), docs[i].metadata))
  }

  /** The result of a search: scored, sorted and truncated. */
  function Ranked(query: seq<string>, docs: seq<Document>, s: Scoring, limit: int): seq<Hit>
    requires ValidParameters(s.k1, s.b) && (docs == [] || s.avgDocLength > 0.0 || query == [])
  {
    TopK(Scored(query, docs, s), HitScore, limit)
  }

  // ---------------------------------------------------------------------------
  // Properties of the statistics

  /** Extending a prefix of the corpus by one document adds its vocabulary to
      the corpus terms and one to the frequency of each of them. */
  lemma PrefixStep(docs: seq<Document>, i: nat)
    requires i < |docs|
    ensures CorpusTerms(docs[..i + 1]) == CorpusTerms(docs[..i]) + Vocabulary(docs[i].tokens)
    ensures forall t ::
      DocumentFrequency(docs[..i + 1], t) == DocumentFrequency(docs[..i], t) + (if t in Vocabulary(docs[i].tokens) then 1 else 0)
  {
    assert docs[..i + 1][..i] == docs[..i];
  }

  /** A document frequency counts each document at most once, so it lies
      between 1 and N for every corpus term and is 0 for every other term. */
  lemma {:induction false} DocumentFrequencyBounds(docs: seq<Document>, term: string)
    ensures DocumentFrequency(docs, term) <= |docs|
    ensures term in CorpusTerms(docs) <==> DocumentFrequency(docs, term) >= 1
  {
    if docs != [] {
      DocumentFrequencyBounds(docs[..|docs| - 1], term);
    }
  }

  /** For 0 <= df <= N, the logarithm's argument exceeds 1. */
  lemma IdfArgumentAboveOne(n: nat, df: nat)
    requires df <= n
    ensures IdfArgument(n, df) > 1.0
  {
    var num := (n as real) - (df as real) + 0.5;
    var den := (df as real) + 0.5;
    assert num > 0.0 && den > 0.0;
    assert num / den > 0.0;
  }

  /** Every IDF a corpus produces is positive (given a logarithm that is
      positive above 1). */
  lemma IdfPositive(docs: seq<Document>, ln: real -> real)
    requires LnPositiveAboveOne(ln)
    ensures forall t :: t in IdfTable(docs, ln) ==> IdfTable(docs, ln)[t] > 0.0
  {
    forall t | t in IdfTable(docs, ln)
      ensures IdfTable(docs, ln)[t] > 0.0
    {
      DocumentFrequencyBounds(docs, t);
      IdfArgumentAboveOne(|docs|, DocumentFrequency(docs, t));
    }
  }

  /** Rarer terms weigh more: the IDF strictly decreases as the document
      frequency grows (given an increasing logarithm). */
  lemma IdfRarerWeighsMore(n: nat, df1: nat, df2: nat, ln: real -> real)
    requires df1 < df2 <= n
    requires LnIncreasing(ln)
    ensures ln(IdfArgument(n, df1)) > ln(IdfArgument(n, df2))
  {
    var a1 := (n as real) - (df1 as real) + 0.5;
    var a2 := (n as real) - (df2 as real) + 0.5;
    var d1 := (df1 as real) + 0.5;
    var d2 := (df2 as real) + 0.5;
    DivNumMono(a1, a2, d1);
    DivDenMono(a2, d1, d2);
    assert IdfArgument(n, df1) > IdfArgument(n, df2);
    IdfArgumentAboveOne(n, df2);
  }

  /** The mean length is positive exactly when some document has a token, and
      it times N is the total token count. */
  lemma {:induction false} AvgDocLengthMeaning(docs: seq<Document>)
    ensures AvgDocLength(docs) >= 0.0
    ensures AvgDocLength(docs) > 0.0 <==> exists i :: 0 <= i < |docs| && docs[i].tokens != []
    ensures AvgDocLength(docs) * (|docs| as real) == TotalLength(docs) as real
  {
    TotalLengthPositive(docs);
    if |docs| > 0 {
      var total := TotalLength(docs) as real;
      var n := |docs| as real;
      assert AvgDocLength(docs) == total / n;
      DivMul(total, n);
      DivNonNeg(total, n);
      if total > 0.0 {
        DivPos(total, n);
      } else {
        ZeroDiv(n);
      }
    }
  }

  lemma {:induction false} TotalLengthPositive(docs: seq<Document>)
    ensures TotalLength(docs) > 0 <==> exists i :: 0 <= i < |docs| && docs[i].tokens != []
  {
    if docs != [] {
      var init := docs[..|docs| - 1];
      TotalLengthPositive(init);
      if TotalLength(init) > 0 {
        var i :| 0 <= i < |init| && init[i].tokens != [];
        assert docs[i] == init[i];
      }
      if exists i :: 0 <= i < |docs| && docs[i].tokens != [] {
        var i :| 0 <= i < |docs| && docs[i].tokens != [];
        if i < |init| {
          assert init[i] == docs[i];
        }
      }
    }
  }

  // ---------------------------------------------------------------------------
  // Properties of scoring

  /** A query token without an IDF entry, or absent from the document, adds 0. */
  lemma TermScoreZero(term: string, doc: Document, s: Scoring)
    requires ValidParameters(s.k1, s.b) && s.avgDocLength > 0.0
    requires term !in s.idf || term !in doc.tokens
    ensures TermScore(term, doc, s) == 0.0
  {
    if term !in doc.tokens {
      assert TermFrequency(doc.tokens, term) == 0;
    }
  }

  /** tf * (k1 + 1) / (tf + rest) lies in [0, k1 + 1), and is positive exactly
      when tf is. */
  lemma Saturation(tf: real, rest: real, k1: real)
    requires tf >= 0.0 && rest > 0.0 && k1 > 0.0
    ensures 0.0 <= (tf * (k1 + 1.0)) / (tf + rest) < k1 + 1.0
    ensures tf > 0.0 <==> (tf * (k1 + 1.0)) / (tf + rest) > 0.0
  {
    var den := tf + rest;
    var num := tf * (k1 + 1.0);
    MulNonNeg(tf, k1 + 1.0);
    DivNonNeg(num, den);
    MulStrictMono(tf, den, k1 + 1.0);
    DivBelow(num, den, k1 + 1.0);
    if tf > 0.0 {
      MulPos(tf, k1 + 1.0);
      DivPos(num, den);
    } else {
      ZeroDiv(den);
    }
  }

  /** A token of the document with a positive IDF adds a positive amount,
      which never exceeds idf * (k1 + 1): term frequency saturates. */
  lemma TermScoreBounds(term: string, doc: Document, s: Scoring)
    requires ValidParameters(s.k1, s.b) && s.avgDocLength > 0.0
    requires term in s.idf && s.idf[term] > 0.0
    ensures term in doc.tokens ==> TermScore(term, doc, s) > 0.0
    ensures TermScore(term, doc, s) < s.idf[term] * (s.k1 + 1.0)
  {
    var tf := TermFrequency(doc.tokens, term);
    var ratio := (|doc.tokens| as real) / s.avgDocLength;
    DivNonNeg(|doc.tokens| as real, s.avgDocLength);
    var w := TermWeight(tf as real, s.k1, s.b, ratio);
    TermScoreFrom(term, doc, s, tf, s.idf[term], w);
    ScaledBounds(TermScore(term, doc, s), s.idf[term], w, s.k1);
    assert term in doc.tokens ==> tf > 0;
  }

  /** A positive multiple of a term weight, which lies in [0, k1 + 1), lies
      below that multiple of k1 + 1, and is positive when the weight is. */
  lemma ScaledBounds(product: real, i: real, w: real, k1: real)
    requires product == i * w && i > 0.0 && 0.0 <= w < k1 + 1.0
    ensures product < i * (k1 + 1.0)
    ensures w > 0.0 ==> product > 0.0
  {
    MulStrictMono(w, k1 + 1.0, i);
    if w > 0.0 {
      MulPos(i, w);
    }
  }

  /** The score of a longer query prefix adds the next token's contribution. */
  lemma ScoreStep(q: seq<string>, j: nat, doc: Document, s: Scoring, contribution: real)
    requires j < |q| && ValidParameters(s.k1, s.b) && s.avgDocLength > 0.0
    requires contribution == TermScore(q[j], doc, s)
    ensures Score(q[..j + 1], doc, s) == Score(q[..j], doc, s) + contribution
  {
    assert q[..j + 1][..j] == q[..j];
  }

  /** One step of the scoring loop, in the quantities the loop computes: the
      denominator is positive and the running score grows by the next token's
      contribution. */
  lemma ScoreLoopStep(q: seq<string>, j: nat, doc: Document, s: Scoring,
                      tf: nat, idf: real, ratio: real, numerator: real, denominator: real)
    requires j < |q| && ValidParameters(s.k1, s.b) && s.avgDocLength > 0.0
    requires tf == TermFrequency(doc.tokens, q[j]) && idf == IdfOf(s.idf, q[j])
    requires ratio == (|doc.tokens| as real) / s.avgDocLength
    requires numerator == (tf as real) * (s.k1 + 1.0)
    requires denominator == (tf as real) + s.k1 * (1.0 - s.b + s.b * ratio)
    ensures denominator > 0.0
    ensures Score(q[..j + 1], doc, s) == Score(q[..j], doc, s) + idf * (numerator / denominator)
  {
    DivNonNeg(|doc.tokens| as real, s.avgDocLength);
    WeightStep(tf as real, s.k1, s.b, ratio, numerator, denominator);
    TermScoreFrom(q[j], doc, s, tf, idf, numerator / denominator);
    ScoreStep(q, j, doc, s, idf * (numerator / denominator));
  }

  lemma WeightStep(tf: real, k1: real, b: real, ratio: real, numerator: real, denominator: real)
    requires tf >= 0.0 && ValidParameters(k1, b) && ratio >= 0.0
    requires numerator == tf * (k1 + 1.0)
    requires denominator == tf + k1 * (1.0 - b + b * ratio)
    ensures denominator > 0.0 && numerator / denominator == TermWeight(tf, k1, b, ratio)
  {
    DenominatorPositive(tf, k1, b, ratio);
  }

  lemma TermScoreFrom(term: string, doc: Document, s: Scoring, tf: nat, idf: real, weight: real)
    requires ValidParameters(s.k1, s.b) && s.avgDocLength > 0.0
    requires tf == TermFrequency(doc.tokens, term) && idf == IdfOf(s.idf, term)
    requires (|doc.tokens| as real) / s.avgDocLength >= 0.0
    requires weight == TermWeight(tf as real, s.k1, s.b, (|doc.tokens| as real) / s.avgDocLength)
    ensures TermScore(term, doc, s) == idf * weight
  {
  }

  /** Scores add up over a split query. */
  lemma {:induction false} ScoreAppend(q1: seq<string>, q2: seq<string>, doc: Document, s: Scoring)
    requires ValidParameters(s.k1, s.b) && (s.avgDocLength > 0.0 || q1 + q2 == [])
    ensures Score(q1 + q2, doc, s) == Score(q1, doc, s) + Score(q2, doc, s)
  {
    if q2 == [] {
      assert q1 + q2 == q1;
    } else {
      var init := q2[..|q2| - 1];
      ScoreAppend(q1, init, doc, s);
      assert (q1 + q2)[..|q1 + q2| - 1] == q1 + init;
    }
  }

  /** Repeated query tokens are not merged: a query written twice scores
      twice as much. */
  lemma ScoreRepeatedQuery(q: seq<string>, doc: Document, s: Scoring)
    requires ValidParameters(s.k1, s.b) && (s.avgDocLength > 0.0 || q == [])
    ensures Score(q + q, doc, s) == 2.0 * Score(q, doc, s)
  {
    ScoreAppend(q, q, doc, s);
  }

  /** A query whose every token is unknown to the index or absent from the
      document scores 0 for it. */
  lemma {:induction false} ScoreOfUnmatchedQuery(q: seq<string>, doc: Document, s: Scoring)
    requires ValidParameters(s.k1, s.b) && (s.avgDocLength > 0.0 || q == [])
    requires forall i :: 0 <= i < |q| ==> q[i] !in s.idf || q[i] !in doc.tokens
    ensures Score(q, doc, s) == 0.0
  {
    if q != [] {
      ScoreOfUnmatchedQuery(q[..|q| - 1], doc, s);
      TermScoreZero(q[|q| - 1], doc, s);
    }
  }

  /** `search` returns min(limit, N) hits for a non-negative limit, and none
      for an empty corpus. */
  lemma {:induction false} RankedCount(query: seq<string>, docs: seq<Document>, s: Scoring, limit: int)
    requires ValidParameters(s.k1, s.b) && (docs == [] || s.avgDocLength > 0.0 || query == [])
    ensures var r := Ranked(query, docs, s, limit);
      && (limit >= 0 ==> |r| == Min(limit, |docs|))
      && (docs == [] ==> r == [])
  {
    TopKCorrect(Scored(query, docs, s), HitScore, limit);
  }

  /** Each hit `search` returns carries a corpus document's id and metadata
      with that document's score. */
  lemma {:induction false} RankedFromCorpus(query: seq<string>, docs: seq<Document>, s: Scoring, limit: int)
    requires ValidParameters(s.k1, s.b) && (docs == [] || s.avgDocLength > 0.0 || query == [])
    ensures forall h :: h in Ranked(query, docs, s, limit) ==>
      exists i :: 0 <= i < |docs| && h == Hit(docs[i].id, Score(query, docs[i], s), docs[i].metadata)
  {
    var all := Scored(query, docs, s);
    var r := Ranked(query, docs, s, limit);
    TopKCorrect(all, HitScore, limit);
    forall h | h in r
      ensures exists i :: 0 <= i < |docs| && h == Hit(docs[i].id, Score(query, docs[i], s), docs[i].metadata)
    {
      assert h in multiset(r);
      assert h in all;
      var i :| 0 <= i < |all| && all[i] == h;
    }
  }

  /** The hits of `search` come by non-increasing score, no document left out
      scores above one returned, and equal scores keep corpus order. */
  lemma {:induction false} RankedOrder(query: seq<string>, docs: seq<Document>, s: Scoring, limit: int)
    requires ValidParameters(s.k1, s.b) && (docs == [] || s.avgDocLength > 0.0 || query == [])
    ensures var r := Ranked(query, docs, s, limit);
      && SortedDesc(r, HitScore)
      && (forall h, j :: h in multiset(Scored(query, docs, s)) - multiset(r) && 0 <= j < |r| ==> h.score <= r[j].score)
      && (forall v :: Tied(r, HitScore, v) <= Tied(Scored(query, docs, s), HitScore, v))
  {
    var all := Scored(query, docs, s);
    var r := TopK(all, HitScore, limit);
    TopKCorrect(all, HitScore, limit);
    forall h: Hit, j | h in multiset(all) - multiset(r) && 0 <= j < |r|
      ensures h.score <= r[j].score
    {
      assert HitScore(h) <= HitScore(r[j]);
    }
  }

  // ---------------------------------------------------------------------------
  // The index

  class BM25 {
    var documents: seq<Document>
    var idf: map<string, real>
    var avgDocLength: real
    const k1: real
    const b: real
    /** `Math.log` */
    const ln: real -> real

    /** The statistics describe the stored corpus; the IDF table may in
        addition hold entries left over from earlier corpora. */
    ghost predicate Valid()
      reads this
    {
      && ValidParameters(k1, b)
      && avgDocLength == AvgDocLength(documents)
      && (forall t :: t in CorpusTerms(documents) ==> t in idf && idf[t] == IdfTable(documents, ln)[t])
    }

    function CurrentScoring(): Scoring
      reads this
    {
      Scoring(idf, avgDocLength, k1, b)
    }

    constructor(k1: real, b: real, ln: real -> real)
      requires ValidParameters(k1, b)
      ensures Valid()
      ensures documents == [] && idf == map[] && avgDocLength == 0.0
      ensures this.k1 == k1 && this.b == b && this.ln == ln
    {
      documents := [];
      idf := map[];
      avgDocLength := 0.0;
      this.k1 := k1;
      this.b := b;
      this.ln := ln;
    }

    /** Replaces the corpus wholesale and recomputes the statistics. The IDF
        table is updated, never cleared. */
    method AddDocuments(docs: seq<Document>)
      requires ValidParameters(k1, b)
      modifies this
      ensures Valid()
      ensures documents == docs
      ensures idf == old(idf) + IdfTable(docs, ln)
      ensures forall t :: t in old(idf) && t !in CorpusTerms(docs) ==> t in idf && idf[t] == old(idf)[t]
      ensures avgDocLength == AvgDocLength(docs)
    {
      documents := docs;
      CalculateIDF();
      CalculateAvgDocLength();
    }

    /** The counting half of `calculateIDF`: for every term, the number of
        documents whose token set holds it. */
    static method CountDocumentFrequencies(docs: seq<Document>) returns (termDocCount: map<string, nat>)
      ensures termDocCount.Keys == CorpusTerms(docs)
      ensures forall t :: t in termDocCount ==> termDocCount[t] == DocumentFrequency(docs, t)
    {
      termDocCount := map[];
      for i := 0 to |docs|
        invariant termDocCount.Keys == CorpusTerms(docs[..i])
        invariant forall t :: t in termDocCount ==> termDocCount[t] == DocumentFrequency(docs[..i], t)
      {
        var uniqueTerms := Vocabulary(docs[i].tokens);
        var pending := uniqueTerms;
        while pending != {}
          invariant pending <= uniqueTerms
          invariant termDocCount.Keys == CorpusTerms(docs[..i]) + (uniqueTerms - pending)
          invariant forall t :: t in termDocCount ==>
            termDocCount[t] == DocumentFrequency(docs[..i], t) + (if t in uniqueTerms - pending then 1 else 0)
          decreases pending
        {
          var term :| term in pending;
          DocumentFrequencyBounds(docs[..i], term);
          termDocCount := termDocCount[term := (if term in termDocCount then termDocCount[term] else 0) + 1];
          pending := pending - {term};
        }
        PrefixStep(docs, i);
      }
      assert docs[..|docs|] == docs;
    }

    /** Counts document frequencies, then sets (overwriting or adding) the IDF
        of every counted term; entries for other terms stay. */
    method CalculateIDF()
      modifies this`idf
      ensures idf == old(idf) + IdfTable(documents, ln)
    {
      var docCount := |documents|;
      var termDocCount := CountDocumentFrequencies(documents);
      ghost var before := idf;
      var pending := termDocCount.Keys;
      assert termDocCount - pending == map[];
      while pending != {}
        invariant pending <= termDocCount.Keys
        invariant idf == before + IdfsOf(termDocCount - pending, docCount, ln)
        decreases pending
      {
        var term :| term in pending;
        IdfsStep(before, termDocCount, pending, term, docCount, ln);
        idf := idf[term := ln(IdfArgument(docCount, termDocCount[term]))];
        pending := pending - {term};
      }
      IdfsOfCounts(documents, termDocCount, ln);
    }

    method CalculateAvgDocLength()
      modifies this`avgDocLength
      ensures avgDocLength == AvgDocLength(documents)
    {
      var totalLength := TotalLength(documents);
      avgDocLength := if |documents| == 0 then 0.0 else (totalLength as real) / (|documents| as real);
    }

    /** The counting half of `calculateScore`: how often each token occurs. */
    static method CountTermFrequencies(tokens: seq<string>) returns (termFreq: map<string, nat>)
      ensures forall t :: t in termFreq <==> t in tokens
      ensures forall t :: t in termFreq ==> termFreq[t] == TermFrequency(tokens, t)
    {
      termFreq := map[];
      for i := 0 to |tokens|
        invariant forall t :: t in termFreq <==> t in tokens[..i]
        invariant forall t :: t in termFreq ==> termFreq[t] == multiset(tokens[..i])[t]
      {
        var token := tokens[i];
        assert tokens[..i + 1] == tokens[..i] + [token];
        termFreq := termFreq[token := (if token in termFreq then termFreq[token] else 0) + 1];
      }
      assert tokens[..|tokens|] == tokens;
    }

    /** Scores one document: counts its term frequencies, then adds each query
        token's contribution in turn. */
    method CalculateScore(queryTokens: seq<string>, doc: Document) returns (score: real)
      requires ValidParameters(k1, b)
      requires avgDocLength > 0.0 || queryTokens == []
      ensures score == Score(queryTokens, doc, CurrentScoring())
    {
      score := 0.0;
      var docLength := |doc.tokens|;
      var termFreq := CountTermFrequencies(doc.tokens);
      ghost var sc := CurrentScoring();
      for j := 0 to |queryTokens|
        invariant score == Score(queryTokens[..j], doc, sc)
      {
        var term := queryTokens[j];
        var tf := if term in termFreq then termFreq[term] else 0;
        var idfValue := if term in idf then idf[term] else 0.0;
        var numerator := (tf as real) * (k1 + 1.0);
        var ratio := (docLength as real) / avgDocLength;
        var denominator := (tf as real) + k1 * (1.0 - b + b * ratio);
        ScoreLoopStep(queryTokens, j, doc, sc, tf, idfValue, ratio, numerator, denominator);
        score := score + idfValue * (numerator / denominator);
      }
      assert queryTokens[..|queryTokens|] == queryTokens;
    }

    /** Tokenizes the query, scores every stored document, sorts by
        non-increasing score and keeps the first `limit` hits. */
    method Search(query: string, limit: int) returns (hits: seq<Hit>)
      requires Valid()
      requires documents == [] || avgDocLength > 0.0 || Tokenizer.Tokenize(query) == []
      ensures hits == Ranked(Tokenizer.Tokenize(query), documents, CurrentScoring(), limit)
      ensures limit >= 0 ==> |hits| == Min(limit, |documents|)
    {
      var queryTokens := Tokenizer.Tokenize(query);
      var scores: seq<Hit> := [];
      for i := 0 to |documents|
        invariant scores == Scored(queryTokens, documents[..i], CurrentScoring())
      {
        var score := CalculateScore(queryTokens, documents[i]);
        scores := scores + [Hit(documents[i].id, score, documents[i].metadata)];
      }
      assert documents[..|documents|] == documents;
      hits := TopK(scores, HitScore, limit);
      RankedCount(queryTokens, documents, CurrentScoring(), limit);
    }
  }
}
