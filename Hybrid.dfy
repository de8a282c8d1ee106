/**
 * The hybrid facade: one corpus is fed to both sub-indices, a query is run
 * against each with twice the requested limit, and the two ranked lists are
 * merged by weighted Reciprocal Rank Fusion (Cormack, Clarke and Buettcher,
 * 2009): an id at 0-based rank r of a list weighted w gains w / (k + r + 1).
 * The merged list is sorted by non-increasing fused score and truncated.
 *
 * The embedding model is the function-valued field `embed`; `Math.log` and
 * `Math.sqrt` are handed to the sub-indices.
 */
module Hybrid {
  import opened Js
  import opened Ranking
  import opened RealArith
  import Tokenizer
  import Bm25
  import Faiss

  /** The default `limit` of `search`. */
  const DefaultSearchLimit: int := 10

  /** `{ bm25Weight, vectorWeight, rrfK }` */
  datatype Config = Config(bm25Weight: real, vectorWeight: real, rrfK: real)

  /** `Partial<HybridSearchConfig>`: None is a missing, `undefined` or `null` field. */
  datatype PartialConfig = PartialConfig(bm25Weight: Option<real>, vectorWeight: Option<real>, rrfK: Option<real>)

  /** A document handed to `initialize`. */
  datatype InputDocument = InputDocument(id: string, content: string, metadata: Meta)

  /** One fused result. */
  datatype SearchResult = SearchResult(id: string, title: Value, content: Value, score: real, metadata: Meta)

  function ResultScore(r: SearchResult): real { r.score }

  /** `config.x ?? default` for each field: 0.5, 0.5 and 60. */
  function WithDefaults(p: PartialConfig): (c: Config)
    ensures c.bm25Weight == (if p.bm25Weight.Some? then p.bm25Weight.value else 0.5)
    ensures c.vectorWeight == (if p.vectorWeight.Some? then p.vectorWeight.value else 0.5)
    ensures c.rrfK == (if p.rrfK.Some? then p.rrfK.value else 60.0)
  {
    Config(
      match p.bm25Weight case Some(w) => w case None => 0.5,
      match p.vectorWeight case Some(w) => w case None => 0.5,
      match p.rrfK case Some(k) => k case None => 60.0)
  }

  // ---------------------------------------------------------------------------
  // Preparing the corpus

  /** The lexical index's view of the corpus: same ids and metadata, content
      tokenized. */
  function LexicalDocuments(docs: seq<InputDocument>): (r: seq<Bm25.Document>)
    ensures |r| == |docs|
    ensures forall i :: 0 <= i < |docs| ==>
      r[i].id == docs[i].id && r[i].metadata == docs[i].metadata && r[i].tokens == Tokenizer.Tokenize(docs[i].content)
  {
    seq(|docs|, i requires 0 <= i < |docs| =>
      Bm25.Document(docs[i].id, Tokenizer.Tokenize(docs[i].content), docs[i].metadata))
  }

  /** The dense index's view of the corpus: same ids and metadata, content
      embedded. */
  function VectorDocuments(docs: seq<InputDocument>, embed: string -> seq<real>): (r: seq<Faiss.VectorDocument>)
    ensures |r| == |docs|
    ensures forall i :: 0 <= i < |docs| ==>
      r[i].id == docs[i].id && r[i].metadata == docs[i].metadata && r[i].embedding == embed(docs[i].content)
  {
    seq(|docs|, i requires 0 <= i < |docs| =>
      Faiss.VectorDocument(docs[i].id, embed(docs[i].content), docs[i].metadata))
  }

  // ---------------------------------------------------------------------------
  // Reciprocal Rank Fusion, as a specification

  /** The weighted reciprocal rank of 0-based rank `rank`. */
  function Reciprocal(weight: real, k: real, rank: nat): real
    requires k >= 0.0
  {
    weight / (k + rank as real + 1.0)
  }

  /** What one ranked list adds to the fused score of `id`: the weighted
      reciprocal rank of every rank at which `id` occurs. */
  function Contribution(hits: seq<Hit>, id: string, weight: real, k: real): real
    requires k >= 0.0
  {
    if hits == [] then 0.0
    else
      var r := |hits| - 1;
      Contribution(hits[..r], id, weight, k) + (if hits[r].id == id then Reciprocal(weight, k, r) else 0.0)
  }

  function FusedScore(lexical: seq<Hit>, dense: seq<Hit>, c: Config, id: string): real
    requires c.rrfK >= 0.0
  {
    Contribution(lexical, id, c.bm25Weight, c.rrfK) + Contribution(dense, id, c.vectorWeight, c.rrfK)
  }

  /** The elements of `s` in order of first occurrence (the key order of a
      JavaScript Map filled from `s`). */
  function Distinct<T(==)>(s: seq<T>): seq<T>
  {
    if s == [] then []
    else
      var d := Distinct(s[..|s| - 1]);
      if s[|s| - 1] in d then d else d + [s[|s| - 1]]
  }

  function Elements<T>(s: seq<T>): set<T>
  {
    set x | x in s
  }

  predicate NoDuplicates<T(==)>(s: seq<T>)
  {
    forall i, j :: 0 <= i < j < |s| ==> s[i] != s[j]
  }

  /** The metadata a list records last for `id` (`metadata.set` on every hit). */
  function LastMeta(hits: seq<Hit>, id: string): Meta
  {
    if hits == [] then Absent
    else if hits[|hits| - 1].id == id then hits[|hits| - 1].metadata
    else LastMeta(hits[..|hits| - 1], id)
  }

  /** The metadata a list records first for `id` (`metadata.set` only when
      the id is new). */
  function FirstMeta(hits: seq<Hit>, id: string): Meta
  {
    if hits == [] then Absent
    else if id in Ids(hits[..|hits| - 1]) then FirstMeta(hits[..|hits| - 1], id)
    else if hits[|hits| - 1].id == id then hits[|hits| - 1].metadata
    else Absent
  }

  /** The metadata a fused id ends up with: from the lexical list when it
      occurs there, otherwise from the dense list. */
  function MetaOf(lexical: seq<Hit>, dense: seq<Hit>, id: string): Meta
  {
    if id in Ids(lexical) then LastMeta(lexical, id) else FirstMeta(dense, id)
  }

  /** `{}` for missing metadata. */
  function RecordOrEmpty(m: Meta): (r: Meta)
    ensures r.Record?
    ensures m.Record? ==> r == m
  {
    if m.Record? then m else Record(map[])
  }

  /** `{ id, title: m?.title || "Untitled", content: m?.content || "", score, metadata: m || {} }` */
  function Present(id: string, score: real, m: Meta): SearchResult
  {
    SearchResult(id, OrElse(Field(m, "title"), Str("Untitled")), OrElse(Field(m, "content"), Str("")), score, RecordOrEmpty(m))
  }

  function ResultFor(lexical: seq<Hit>, dense: seq<Hit>, c: Config, id: string): SearchResult
    requires c.rrfK >= 0.0
  {
    Present(id, FusedScore(lexical, dense, c, id), MetaOf(lexical, dense, id))
  }

  /** The fused results before sorting, in first-seen id order. */
  function Unsorted(lexical: seq<Hit>, dense: seq<Hit>, c: Config): (r: seq<SearchResult>)
    requires c.rrfK >= 0.0
    ensures |r| == |Distinct(Ids(lexical) + Ids(dense))|
  {
    var ids := Distinct(Ids(lexical) + Ids(dense));
    seq(|ids|, i requires 0 <= i < |ids| => ResultFor(lexical, dense, c, ids[i]))
  }

  /** What `reciprocalRankFusion` returns. */
  function Fuse(lexical: seq<Hit>, dense: seq<Hit>, c: Config): seq<SearchResult>
    requires c.rrfK >= 0.0
  {
    SortDesc(Unsorted(lexical, dense, c), ResultScore)
  }

  // ---------------------------------------------------------------------------
  // Steps the fusion loops take

  lemma IdsPrefix(hits: seq<Hit>, n: nat)
    requires n <= |hits|
    ensures Ids(hits[..n]) == Ids(hits)[..n]
  {
  }

  lemma IdsStep(hits: seq<Hit>, r: nat)
    requires r < |hits|
    ensures Ids(hits[..r + 1]) == Ids(hits[..r]) + [hits[r].id]
  {
    var a, b := Ids(hits[..r + 1]), Ids(hits[..r]) + [hits[r].id];
    assert |a| == |b|;
    forall i | 0 <= i < |a|
      ensures a[i] == b[i]
    {
    }
  }

  lemma ContributionStep(hits: seq<Hit>, r: nat, weight: real, k: real)
    requires r < |hits| && k >= 0.0
    ensures forall id :: (Contribution(hits[..r + 1], id, weight, k)
      == Contribution(hits[..r], id, weight, k) + (if hits[r].id == id then Reciprocal(weight, k, r) else 0.0))
  {
    assert hits[..r + 1][..r] == hits[..r];
  }

  lemma {:induction false} ContributionAbsent(hits: seq<Hit>, id: string, weight: real, k: real)
    requires k >= 0.0 && id !in Ids(hits)
    ensures Contribution(hits, id, weight, k) == 0.0
  {
    if hits != [] {
      IdsPrefix(hits, |hits| - 1);
      assert Ids(hits) == Ids(hits[..|hits| - 1]) + [hits[|hits| - 1].id];
      ContributionAbsent(hits[..|hits| - 1], id, weight, k);
    }
  }

  lemma DistinctStep<T>(s: seq<T>, x: T)
    ensures Distinct(s + [x]) == if x in Distinct(s) then Distinct(s) else Distinct(s) + [x]
  {
    assert (s + [x])[..|s|] == s;
  }

  lemma LastMetaStep(hits: seq<Hit>, r: nat)
    requires r < |hits|
    ensures forall id :: LastMeta(hits[..r + 1], id) == if hits[r].id == id then hits[r].metadata else LastMeta(hits[..r], id)
  {
    var p := hits[..r + 1];
    assert p[..r] == hits[..r] && p[r] == hits[r] && |p| == r + 1;
    forall id
      ensures LastMeta(p, id) == if hits[r].id == id then hits[r].metadata else LastMeta(hits[..r], id)
    {
    }
  }

  lemma FirstMetaStep(hits: seq<Hit>, r: nat)
    requires r < |hits|
    ensures forall id :: (FirstMeta(hits[..r + 1], id) ==
      if id in Ids(hits[..r]) then FirstMeta(hits[..r], id) else if hits[r].id == id then hits[r].metadata else Absent)
  {
    assert hits[..r + 1][..r] == hits[..r];
  }

  /** The state the two `forEach` loops build: the score Map, the metadata
      Map, and the key order the two Maps share. */
  datatype Accumulator = Accumulator(keys: seq<string>, scores: map<string, real>, metadata: map<string, Meta>)

  /** `scores.set(id, (scores.get(id) || 0) + x)` */
  function AddScore(scores: map<string, real>, id: string, x: real): map<string, real>
  {
    scores[id := (if id in scores then scores[id] else 0.0) + x]
  }

  /** One lexical hit: its reciprocal rank is added to its id's score and its
      metadata overwrites whatever the id had. */
  function AddLexical(acc: Accumulator, hit: Hit, rank: nat, weight: real, k: real): Accumulator
    requires k >= 0.0
  {
    Accumulator(
      if hit.id in acc.scores then acc.keys else acc.keys + [hit.id],
      AddScore(acc.scores, hit.id, Reciprocal(weight, k, rank)),
      acc.metadata[hit.id := hit.metadata])
  }

  /** One dense hit: its reciprocal rank is added to its id's score; its
      metadata is recorded only for an id not seen before. */
  function AddDense(acc: Accumulator, hit: Hit, rank: nat, c: Config): Accumulator
    requires c.rrfK >= 0.0
  {
    Accumulator(
      if hit.id in acc.scores then acc.keys else acc.keys + [hit.id],
      AddScore(acc.scores, hit.id, Reciprocal(c.vectorWeight, c.rrfK, rank)),
      if hit.id in acc.metadata then acc.metadata else acc.metadata[hit.id := hit.metadata])
  }

  /** The state after the lexical loop has seen `hits`. */
  function LexicalPass(hits: seq<Hit>, weight: real, k: real): Accumulator
    requires k >= 0.0
  {
    if hits == [] then Accumulator([], map[], map[])
    else AddLexical(LexicalPass(hits[..|hits| - 1], weight, k), hits[|hits| - 1], |hits| - 1, weight, k)
  }

  /** The state after the dense loop has seen `dense`. */
  function DensePass(lexical: seq<Hit>, dense: seq<Hit>, c: Config): Accumulator
    requires c.rrfK >= 0.0
  {
    if dense == [] then LexicalPass(lexical, c.bm25Weight, c.rrfK)
    else AddDense(DensePass(lexical, dense[..|dense| - 1], c), dense[|dense| - 1], |dense| - 1, c)
  }

  /** The score Map's entries, in key order, as results. */
  function Entries(acc: Accumulator): seq<SearchResult>
    requires forall id :: id in acc.keys ==> id in acc.scores && id in acc.metadata
  {
    seq(|acc.keys|, i requires 0 <= i < |acc.keys| =>
      Present(acc.keys[i], acc.scores[acc.keys[i]], acc.metadata[acc.keys[i]]))
  }

  lemma LexicalPassStep(hits: seq<Hit>, n: nat, weight: real, k: real)
    requires k >= 0.0 && n < |hits|
    ensures LexicalPass(hits[..n + 1], weight, k) == AddLexical(LexicalPass(hits[..n], weight, k), hits[n], n, weight, k)
  {
    assert hits[..n + 1][..n] == hits[..n];
  }

  lemma DensePassStep(lexical: seq<Hit>, dense: seq<Hit>, n: nat, c: Config)
    requires c.rrfK >= 0.0 && n < |dense|
    ensures DensePass(lexical, dense[..n + 1], c) == AddDense(DensePass(lexical, dense[..n], c), dense[n], n, c)
  {
    assert dense[..n + 1][..n] == dense[..n];
  }

  /** The lexical loop keys both Maps by exactly the ids of its list, in
      first-seen order. */
  lemma {:induction false} LexicalPassKeys(hits: seq<Hit>, weight: real, k: real)
    requires k >= 0.0
    ensures var a := LexicalPass(hits, weight, k);
      && a.keys == Distinct(Ids(hits))
      && (forall id :: id in a.scores <==> id in Ids(hits))
      && (forall id :: id in a.metadata <==> id in Ids(hits))
  {
    if hits != [] {
      var r := |hits| - 1;
      LexicalPassKeys(hits[..r], weight, k);
      IdsStep(hits, r);
      assert hits[..r + 1] == hits;
      DistinctStep(Ids(hits[..r]), hits[r].id);
      DistinctMembers(Ids(hits[..r]));
    }
  }

  /** The lexical loop gives each id of its list the sum of its reciprocal
      ranks. */
  lemma {:induction false} LexicalPassScores(hits: seq<Hit>, weight: real, k: real)
    requires k >= 0.0
    ensures forall id :: id in Ids(hits) ==>
      id in LexicalPass(hits, weight, k).scores && LexicalPass(hits, weight, k).scores[id] == Contribution(hits, id, weight, k)
  {
    if hits != [] {
      var r := |hits| - 1;
      var p, last := hits[..r], hits[r].id;
      var before := LexicalPass(p, weight, k).scores;
      LexicalPassScores(p, weight, k);
      LexicalPassKeys(p, weight, k);
      IdsStep(hits, r);
      assert hits[..r + 1] == hits;
      ContributionStep(hits, r, weight, k);
      forall id | id in Ids(hits)
        ensures LexicalPass(hits, weight, k).scores[id] == Contribution(hits, id, weight, k)
      {
        if id == last && last !in before {
          ContributionAbsent(p, last, weight, k);
        }
      }
    }
  }

  /** The lexical loop gives each id of its list the metadata of its last
      occurrence. */
  lemma {:induction false} LexicalPassMetadata(hits: seq<Hit>, weight: real, k: real)
    requires k >= 0.0
    ensures forall id :: id in Ids(hits) ==>
      id in LexicalPass(hits, weight, k).metadata && LexicalPass(hits, weight, k).metadata[id] == LastMeta(hits, id)
  {
    if hits != [] {
      var r := |hits| - 1;
      LexicalPassMetadata(hits[..r], weight, k);
      IdsStep(hits, r);
      assert hits[..r + 1] == hits;
      LastMetaStep(hits, r);
    }
  }

  /** After both loops the Maps are keyed by exactly the ids of the two
      lists, in first-seen order. */
  lemma {:induction false} DensePassKeys(lexical: seq<Hit>, dense: seq<Hit>, c: Config)
    requires c.rrfK >= 0.0
    ensures var a := DensePass(lexical, dense, c);
      && a.keys == Distinct(Ids(lexical) + Ids(dense))
      && (forall id :: id in a.scores <==> id in Ids(lexical) + Ids(dense))
      && (forall id :: id in a.metadata <==> id in Ids(lexical) + Ids(dense))
  {
    if dense == [] {
      LexicalPassKeys(lexical, c.bm25Weight, c.rrfK);
      assert Ids(lexical) + Ids(dense) == Ids(lexical);
    } else {
      var r := |dense| - 1;
      var seen := Ids(lexical) + Ids(dense[..r]);
      DensePassKeys(lexical, dense[..r], c);
      IdsStep(dense, r);
      assert dense[..r + 1] == dense;
      assert Ids(lexical) + Ids(dense) == seen + [dense[r].id];
      DistinctStep(seen, dense[r].id);
      DistinctMembers(seen);
    }
  }

  /** After both loops each id carries its fused score. */
  lemma {:induction false} DensePassScores(lexical: seq<Hit>, dense: seq<Hit>, c: Config)
    requires c.rrfK >= 0.0
    ensures forall id :: id in Ids(lexical) + Ids(dense) ==>
      id in DensePass(lexical, dense, c).scores && DensePass(lexical, dense, c).scores[id] == FusedScore(lexical, dense, c, id)
  {
    if dense == [] {
      LexicalPassScores(lexical, c.bm25Weight, c.rrfK);
      assert Ids(lexical) + Ids(dense) == Ids(lexical);
    } else {
      var r := |dense| - 1;
      var p, last := dense[..r], dense[r].id;
      var x := Reciprocal(c.vectorWeight, c.rrfK, r);
      var before := DensePass(lexical, p, c).scores;
      assert DensePass(lexical, dense, c).scores == AddScore(before, last, x);
      DensePassScores(lexical, p, c);
      DensePassKeys(lexical, p, c);
      IdsStep(dense, r);
      assert dense[..r + 1] == dense;
      assert Ids(lexical) + Ids(dense) == (Ids(lexical) + Ids(p)) + [last];
      ContributionStep(dense, r, c.vectorWeight, c.rrfK);
      forall id | id in Ids(lexical) + Ids(dense)
        ensures DensePass(lexical, dense, c).scores[id] == FusedScore(lexical, dense, c, id)
      {
        if id != last {
          assert FusedScore(lexical, dense, c, id) == FusedScore(lexical, p, c, id);
        } else if last in before {
          assert FusedScore(lexical, dense, c, id) == FusedScore(lexical, p, c, id) + x;
        } else {
          ContributionAbsent(lexical, last, c.bm25Weight, c.rrfK);
          ContributionAbsent(p, last, c.vectorWeight, c.rrfK);
          assert FusedScore(lexical, dense, c, id) == x;
        }
      }
    }
  }

  /** After both loops each id carries the metadata MetaOf chooses. */
  lemma {:induction false} DensePassMetadata(lexical: seq<Hit>, dense: seq<Hit>, c: Config)
    requires c.rrfK >= 0.0
    ensures forall id :: id in Ids(lexical) + Ids(dense) ==>
      id in DensePass(lexical, dense, c).metadata && DensePass(lexical, dense, c).metadata[id] == MetaOf(lexical, dense, id)
  {
    if dense == [] {
      LexicalPassMetadata(lexical, c.bm25Weight, c.rrfK);
      assert Ids(lexical) + Ids(dense) == Ids(lexical);
    } else {
      var r := |dense| - 1;
      var p := dense[..r];
      DensePassMetadata(lexical, p, c);
      DensePassKeys(lexical, p, c);
      IdsStep(dense, r);
      assert dense[..r + 1] == dense;
      assert Ids(lexical) + Ids(dense) == (Ids(lexical) + Ids(p)) + [dense[r].id];
      FirstMetaStep(dense, r);
    }
  }

  /** Presenting the final Maps in key order gives the unsorted results. */
  lemma EntriesAreUnsorted(lexical: seq<Hit>, dense: seq<Hit>, c: Config)
    requires c.rrfK >= 0.0
    ensures var a := DensePass(lexical, dense, c);
      && (forall id :: id in a.keys ==> id in a.scores && id in a.metadata)
      && Entries(a) == Unsorted(lexical, dense, c)
  {
    DistinctMembers(Ids(lexical) + Ids(dense));
    DensePassKeys(lexical, dense, c);
    DensePassScores(lexical, dense, c);
    DensePassMetadata(lexical, dense, c);
  }


  // ---------------------------------------------------------------------------
  // Properties of the fusion

  /** Distinct keeps exactly the elements of its input. */
  lemma {:induction false} DistinctMembers<T>(s: seq<T>)
    ensures forall x :: x in Distinct(s) <==> x in s
  {
    if s != [] {
      var p, x := s[..|s| - 1], s[|s| - 1];
      DistinctMembers(p);
      assert s == p + [x];
      DistinctStep(p, x);
    }
  }

  /** Distinct holds each element once, so its length is the number of
      distinct elements of its input. */
  lemma {:induction false} DistinctCorrect<T>(s: seq<T>)
    ensures forall x :: x in Distinct(s) <==> x in s
    ensures NoDuplicates(Distinct(s))
    ensures |Distinct(s)| == |Elements(s)|
  {
    DistinctMembers(s);
    if s != [] {
      var p, x := s[..|s| - 1], s[|s| - 1];
      DistinctCorrect(p);
      assert s == p + [x];
      DistinctStep(p, x);
      assert Elements(s) == Elements(p) + {x};
    }
  }

  /** Distinct of a concatenation starts with Distinct of the first part and
      continues with elements the first part does not hold. */
  lemma {:induction false} DistinctAppend<T>(a: seq<T>, b: seq<T>)
    ensures |Distinct(a)| <= |Distinct(a + b)|
    ensures Distinct(a + b)[..|Distinct(a)|] == Distinct(a)
    ensures forall i :: |Distinct(a)| <= i < |Distinct(a + b)| ==> Distinct(a + b)[i] !in a
  {
    if b == [] {
      assert a + b == a;
    } else {
      var p, x := b[..|b| - 1], b[|b| - 1];
      DistinctAppend(a, p);
      assert a + b == (a + p) + [x];
      DistinctStep(a + p, x);
      DistinctMembers(a);
      DistinctMembers(a + p);
      if x !in Distinct(a + p) {
        var d := Distinct(a + p);
        assert (d + [x])[..|Distinct(a)|] == d[..|Distinct(a)|];
        assert x !in a;
      }
    }
  }

  /** Ties in the fused order follow first-seen order, and in that order every
      id of the lexical list comes before every id found only by the dense
      list. */
  lemma LexicalIdsFirst(lexical: seq<Hit>, dense: seq<Hit>)
    ensures var ids := Distinct(Ids(lexical) + Ids(dense));
      forall i, j :: 0 <= i < j < |ids| && ids[j] in Ids(lexical) ==> ids[i] in Ids(lexical)
  {
    var a := Ids(lexical);
    var ids := Distinct(a + Ids(dense));
    DistinctAppend(a, Ids(dense));
    DistinctMembers(a);
    forall i, j | 0 <= i < j < |ids| && ids[j] in a
      ensures ids[i] in a
    {
      assert j < |Distinct(a)|;
      assert ids[i] == Distinct(a)[i];
    }
  }

  /** Every result of the fusion belongs to an id of one of the two lists and
      is that id's fused result; every such id has its result in the output,
      exactly once, so the output is as long as the number of distinct ids. */
  lemma FuseIdsOnce(lexical: seq<Hit>, dense: seq<Hit>, c: Config)
    requires c.rrfK >= 0.0
    ensures var r := Fuse(lexical, dense, c);
      && |r| == |Elements(Ids(lexical) + Ids(dense))|
      && (forall i :: 0 <= i < |r| ==>
            r[i].id in Ids(lexical) + Ids(dense) && r[i] == ResultFor(lexical, dense, c, r[i].id))
      && (forall id :: id in Ids(lexical) + Ids(dense) ==> ResultFor(lexical, dense, c, id) in r)
      && (forall i, j :: 0 <= i < j < |r| ==> r[i].id != r[j].id)
  {
    var all := Ids(lexical) + Ids(dense);
    var u := Unsorted(lexical, dense, c);
    var r := Fuse(lexical, dense, c);
    DistinctCorrect(all);
    SortDescCorrect(u, ResultScore);
    UnsortedOnce(lexical, dense, c);
    forall i | 0 <= i < |r|
      ensures r[i].id in all && r[i] == ResultFor(lexical, dense, c, r[i].id)
    {
      assert r[i] in multiset(u);
    }
    forall id | id in all
      ensures ResultFor(lexical, dense, c, id) in r
    {
      assert ResultFor(lexical, dense, c, id) in multiset(u);
    }
    forall i, j | 0 <= i < j < |r|
      ensures r[i].id != r[j].id
    {
      if r[i].id == r[j].id {
        CountAtLeastTwo(r, i, j);
        NoDuplicatesCount(u, r[i]);
        assert false;
      }
    }
  }

  /** The unsorted results hold one result per distinct id. */
  lemma UnsortedOnce(lexical: seq<Hit>, dense: seq<Hit>, c: Config)
    requires c.rrfK >= 0.0
    ensures var u := Unsorted(lexical, dense, c);
      && NoDuplicates(u)
      && (forall x :: x in u ==> x.id in Ids(lexical) + Ids(dense) && x == ResultFor(lexical, dense, c, x.id))
      && (forall id :: id in Ids(lexical) + Ids(dense) ==> ResultFor(lexical, dense, c, id) in u)
  {
    var all := Ids(lexical) + Ids(dense);
    var ids := Distinct(all);
    var u := Unsorted(lexical, dense, c);
    DistinctCorrect(all);
    assert forall k :: 0 <= k < |u| ==> u[k].id == ids[k];
    forall id | id in all
      ensures ResultFor(lexical, dense, c, id) in u
    {
      var k :| 0 <= k < |ids| && ids[k] == id;
      assert u[k] == ResultFor(lexical, dense, c, id);
    }
  }

  lemma {:induction false} NoDuplicatesCount<T>(s: seq<T>, x: T)
    requires NoDuplicates(s)
    ensures multiset(s)[x] <= 1
  {
    if s != [] {
      var p := s[..|s| - 1];
      NoDuplicatesCount(p, x);
      assert s == p + [s[|s| - 1]];
      if s[|s| - 1] == x {
        assert x !in p;
      }
    }
  }

  lemma CountAtLeastTwo<T>(s: seq<T>, i: nat, j: nat)
    requires i < j < |s| && s[i] == s[j]
    ensures multiset(s)[s[i]] >= 2
  {
    assert s == s[..j] + [s[j]] + s[j + 1..];
    assert s[i] in s[..j];
  }

  /** The fused list is sorted by non-increasing score, and results with
      equal scores keep first-seen order. */
  lemma FuseOrder(lexical: seq<Hit>, dense: seq<Hit>, c: Config)
    requires c.rrfK >= 0.0
    ensures SortedDesc(Fuse(lexical, dense, c), ResultScore)
    ensures forall v :: Tied(Fuse(lexical, dense, c), ResultScore, v) == Tied(Unsorted(lexical, dense, c), ResultScore, v)
  {
    SortDescCorrect(Unsorted(lexical, dense, c), ResultScore);
  }

  /** The metadata the lexical list records for an id is that of the id's
      last occurrence there. */
  lemma {:induction false} LastMetaAt(hits: seq<Hit>, id: string, i: nat)
    requires i < |hits| && hits[i].id == id
    requires forall j :: i < j < |hits| ==> hits[j].id != id
    ensures LastMeta(hits, id) == hits[i].metadata
  {
    var n := |hits| - 1;
    if i < n {
      assert hits[..n][i] == hits[i];
      LastMetaAt(hits[..n], id, i);
    }
  }

  /** The metadata the dense list records for an id is that of the id's
      first occurrence there. */
  lemma {:induction false} FirstMetaAt(hits: seq<Hit>, id: string, i: nat)
    requires i < |hits| && hits[i].id == id
    requires forall j :: 0 <= j < i ==> hits[j].id != id
    ensures FirstMeta(hits, id) == hits[i].metadata
  {
    var n := |hits| - 1;
    IdsPrefix(hits, n);
    if i < n {
      assert Ids(hits[..n])[i] == id;
      FirstMetaAt(hits[..n], id, i);
    } else {
      assert id !in Ids(hits[..n]);
    }
  }

  /** An id found at exactly one rank r of a list gains weight / (k + r + 1)
      from it. */
  lemma {:induction false} ContributionAt(hits: seq<Hit>, id: string, weight: real, k: real, r: nat)
    requires k >= 0.0 && r < |hits| && hits[r].id == id
    requires forall j :: 0 <= j < |hits| && j != r ==> hits[j].id != id
    ensures Contribution(hits, id, weight, k) == Reciprocal(weight, k, r)
  {
    var n := |hits| - 1;
    if r == n {
      IdsPrefix(hits, n);
      assert forall j :: 0 <= j < n ==> Ids(hits[..n])[j] != id;
      ContributionAbsent(hits[..n], id, weight, k);
    } else {
      ContributionAt(hits[..n], id, weight, k, r);
    }
  }

  /** With positive weights, and each list naming an id at most once, the id
      ranked first by both lists outscores every other id. */
  lemma TopOfBothWins(lexical: seq<Hit>, dense: seq<Hit>, c: Config, other: string)
    requires c.rrfK >= 0.0 && c.bm25Weight > 0.0 && c.vectorWeight > 0.0
    requires NoDuplicates(Ids(lexical)) && NoDuplicates(Ids(dense))
    requires lexical != [] && dense != [] && lexical[0].id == dense[0].id
    requires other != lexical[0].id
    ensures FusedScore(lexical, dense, c, lexical[0].id) > FusedScore(lexical, dense, c, other)
  {
    var top := lexical[0].id;
    var k := c.rrfK;
    ContributionAt(lexical, top, c.bm25Weight, k, 0);
    ContributionAt(dense, top, c.vectorWeight, k, 0);
    RunnerUpBound(lexical, other, c.bm25Weight, k);
    RunnerUpBound(dense, other, c.vectorWeight, k);
  }

  /** An id not ranked first by a list without repeats gains strictly less
      from it than the first-ranked id does. */
  lemma RunnerUpBound(hits: seq<Hit>, id: string, weight: real, k: real)
    requires k >= 0.0 && weight > 0.0 && NoDuplicates(Ids(hits))
    requires hits != [] && hits[0].id != id
    ensures Contribution(hits, id, weight, k) < weight / (k + 1.0)
  {
    DivDenMono(weight, k + 1.0, k + 2.0);
    if id in Ids(hits) {
      var r :| 0 <= r < |hits| && hits[r].id == id;
      forall j | 0 <= j < |hits| && j != r
        ensures hits[j].id != id
      {
        assert Ids(hits)[j] != Ids(hits)[r];
      }
      ContributionAt(hits, id, weight, k, r);
      if r > 1 {
        DivDenMono(weight, k + 2.0, k + r as real + 1.0);
      }
    } else {
      ContributionAbsent(hits, id, weight, k);
      DivPos(weight, k + 1.0);
    }
  }

  /** With equal weights the two lists play symmetric roles: swapping them
      leaves every fused score unchanged. */
  lemma EqualWeightsSymmetric(lexical: seq<Hit>, dense: seq<Hit>, c: Config, id: string)
    requires c.rrfK >= 0.0 && c.bm25Weight == c.vectorWeight
    ensures FusedScore(lexical, dense, c, id) == FusedScore(dense, lexical, c, id)
  {
  }

  // ---------------------------------------------------------------------------
  // The facade

  class HybridSearch {
    const bm25: Bm25.BM25
    const vectorSearch: Faiss.VectorSearch
    const config: Config
    /** `generateMockEmbedding` */
    const embed: string -> seq<real>

    ghost predicate Valid()
      reads this, bm25, vectorSearch
    {
      bm25.Valid() && vectorSearch.Valid() && config.rrfK >= 0.0
    }

    constructor(partial: PartialConfig, embed: string -> seq<real>, ln: real -> real, sqrt: real -> real)
      requires WithDefaults(partial).rrfK >= 0.0
      ensures Valid() && fresh(bm25) && fresh(vectorSearch)
      ensures config == WithDefaults(partial) && this.embed == embed
      ensures bm25.documents == [] && bm25.k1 == Bm25.DefaultK1 && bm25.b == Bm25.DefaultB && bm25.ln == ln
      ensures vectorSearch.documents == [] && vectorSearch.dimension == Faiss.DefaultDimension && vectorSearch.sqrt == sqrt
    {
      bm25 := new Bm25.BM25(Bm25.DefaultK1, Bm25.DefaultB, ln);
      vectorSearch := new Faiss.VectorSearch(Faiss.DefaultDimension, sqrt);
      config := WithDefaults(partial);
      this.embed := embed;
    }

    /** Loads the corpus into the lexical index, then into the dense index.
        The lexical index is replaced even when the dense index then rejects
        an embedding. */
    method Initialize(documents: seq<InputDocument>) returns (r: Outcome<Faiss.DimensionError>)
      requires Valid()
      modifies bm25, vectorSearch
      ensures Valid()
      ensures bm25.documents == LexicalDocuments(documents)
      ensures bm25.idf == old(bm25.idf) + Bm25.IdfTable(LexicalDocuments(documents), bm25.ln)
      ensures var vectorDocs := VectorDocuments(documents, embed);
        match Faiss.FirstMismatch(Faiss.Embeddings(vectorDocs), vectorSearch.dimension)
        case None => r == Pass && vectorSearch.documents == vectorDocs
        case Some(i) => (r == Fail(Faiss.InvalidEmbeddingDimension(vectorSearch.dimension, |vectorDocs[i].embedding|))
          && vectorSearch.documents == old(vectorSearch.documents))
    {
      var bm25Docs := LexicalDocuments(documents);
      bm25.AddDocuments(bm25Docs);
      var vectorDocs := VectorDocuments(documents, embed);
      r := vectorSearch.AddDocuments(vectorDocs);
    }

    /** Fills a score Map and a metadata Map from both lists, then presents
        the Map's entries in insertion order and sorts them. */
    method ReciprocalRankFusion(bm25Results: seq<Hit>, vectorResults: seq<Hit>) returns (fused: seq<SearchResult>)
      requires config.rrfK >= 0.0
      ensures fused == Fuse(bm25Results, vectorResults, config)
    {
      var keys, scores, metadata := AccumulateLexical(bm25Results);
      keys, scores, metadata := AccumulateDense(bm25Results, vectorResults, keys, scores, metadata);
      EntriesAreUnsorted(bm25Results, vectorResults, config);
      var results := Entries(Accumulator(keys, scores, metadata));
      fused := SortDesc(results, ResultScore);
    }

    /** The `forEach` over the lexical hits. `keys` is the Maps' insertion
        order. */
    method AccumulateLexical(bm25Results: seq<Hit>)
      returns (keys: seq<string>, scores: map<string, real>, metadata: map<string, Meta>)
      requires config.rrfK >= 0.0
      ensures Accumulator(keys, scores, metadata) == LexicalPass(bm25Results, config.bm25Weight, config.rrfK)
    {
      var k := config.rrfK;
      keys, scores, metadata := [], map[], map[];
      for rank := 0 to |bm25Results|
        invariant Accumulator(keys, scores, metadata) == LexicalPass(bm25Results[..rank], config.bm25Weight, k)
      {
        var result := bm25Results[rank];
        var rrfScore := config.bm25Weight / (k + rank as real + 1.0);
        LexicalPassStep(bm25Results, rank, config.bm25Weight, k);
        keys := if result.id in scores then keys else keys + [result.id];
        scores := AddScore(scores, result.id, rrfScore);
        metadata := metadata[result.id := result.metadata];
      }
      assert bm25Results[..|bm25Results|] == bm25Results;
    }

    /** The `forEach` over the dense hits, continuing from the lexical
        loop's Maps. */
    method AccumulateDense(bm25Results: seq<Hit>, vectorResults: seq<Hit>,
                           keys0: seq<string>, scores0: map<string, real>, metadata0: map<string, Meta>)
      returns (keys: seq<string>, scores: map<string, real>, metadata: map<string, Meta>)
      requires config.rrfK >= 0.0
      requires Accumulator(keys0, scores0, metadata0) == LexicalPass(bm25Results, config.bm25Weight, config.rrfK)
      ensures Accumulator(keys, scores, metadata) == DensePass(bm25Results, vectorResults, config)
    {
      var k := config.rrfK;
      keys, scores, metadata := keys0, scores0, metadata0;
      for rank := 0 to |vectorResults|
        invariant Accumulator(keys, scores, metadata) == DensePass(bm25Results, vectorResults[..rank], config)
      {
        var result := vectorResults[rank];
        var rrfScore := config.vectorWeight / (k + rank as real + 1.0);
        DensePassStep(bm25Results, vectorResults, rank, config);
        keys := if result.id in scores then keys else keys + [result.id];
        scores := AddScore(scores, result.id, rrfScore);
        // only the first occurrence of a new id records metadata
        metadata := if result.id in metadata then metadata else metadata[result.id := result.metadata];
      }
      assert vectorResults[..|vectorResults|] == vectorResults;
    }

    /** Over-fetches 2 * limit hits from each index, fuses them and keeps the
        first `limit`. A query embedding of the wrong length makes the dense
        index throw, and the search with it. */
    method Search(query: string, limit: int) returns (r: Result<seq<SearchResult>, Faiss.DimensionError>)
      requires Valid()
      requires bm25.documents == [] || bm25.avgDocLength > 0.0 || Tokenizer.Tokenize(query) == []
      requires |embed(query)| == vectorSearch.dimension ==>
        Faiss.Comparable(embed(query), vectorSearch.documents, vectorSearch.sqrt)
      ensures |embed(query)| != vectorSearch.dimension ==>
        r == Failure(Faiss.InvalidQueryEmbeddingDimension(vectorSearch.dimension, |embed(query)|))
      ensures |embed(query)| == vectorSearch.dimension ==>
        r == Success(SliceUpTo(Fuse(
          Bm25.Ranked(Tokenizer.Tokenize(query), bm25.documents, bm25.CurrentScoring(), limit * 2),
          Faiss.Ranked(embed(query), vectorSearch.documents, vectorSearch.sqrt, limit * 2),
          config), limit))
      ensures r.Success? && limit >= 0 ==> |r.value| <= limit
    {
      var bm25Results := bm25.Search(query, limit * 2);
      var queryEmbedding := embed(query);
      var vectorResults := vectorSearch.Search(queryEmbedding, limit * 2);
      if vectorResults.Failure? {
        return Failure(vectorResults.error);
      }
      var fusedResults := ReciprocalRankFusion(bm25Results, vectorResults.value);
      return Success(SliceUpTo(fusedResults, limit));
    }
  }
}
