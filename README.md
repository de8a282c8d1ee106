# Hybrid retrieval engine and analytics recorders, in Dafny

This project models the retrieval core of an enterprise knowledge-retrieval
service, together with the two in-memory recorders that track its use.
The retrieval core is a TypeScript library and has three parts:

- a BM25 lexical index;
- a brute-force cosine-similarity vector index;
- a hybrid facade that feeds one corpus to both indices and merges their
  ranked lists by weighted Reciprocal Rank Fusion.

The two recorders are a metrics collector and a query logger.

Each source file is one Dafny module. Each TypeScript class is a Dafny `class`:

- Fields the source reassigns are `var` fields. Fields it never reassigns are `const`.
- Operations that change state in place, or that run a loop, are methods. Each
  method is proved against a specification function.
- Expressions built from `map`, `filter`, `reduce`, `sort` and `slice` are functions.

| file | models |
|---|---|
| `Js.dfy` | the parts of the JavaScript runtime the code relies on: `slice` with negative and clamped indices, `reverse`, `filter`, truthiness-based defaults, thrown errors as `Result`/`Outcome` |
| `Ranking.dfy` | `sort((a, b) => b.score - a.score).slice(0, limit)`, as a stable sort by non-increasing key followed by truncation |
| `Tokenizer.dfy` | `toLowerCase().replace(/[^\w\s]/g, " ").split(/\s+/).filter(t => t.length > 0)`, which the BM25 index and the facade share |
| `Capped.dfy` | the store both recorders keep: `push`, then one `shift` when over capacity |
| `Bm25.dfy` | `lib/search/bm25.ts` |
| `Faiss.dfy` | `lib/search/faiss.ts` |
| `Hybrid.dfy` | `lib/search/hybrid.ts` |
| `Metrics.dfy` | `lib/analytics/metrics.ts` |
| `Logger.dfy` | `lib/analytics/logger.ts` |
| `RealArith.dfy` | small facts about products and quotients of reals |

Conventions:

- Floating-point numbers are `real`.
- `Math.log` and `Math.sqrt` are function-valued constructor arguments. The only
  facts assumed about them appear as lemma preconditions: `LnPositiveAboveOne`,
  `LnIncreasing`, `IsSqrt`.
- The mock embedding generator is the function-valued field `HybridSearch.embed`.
- A thrown `Error` is a `Failure`/`Fail` value that carries the expected and the actual length.
- `Date` values are integers counting milliseconds.
- A default parameter value is a named constant (`DefaultK1`, `DefaultSearchLimit`,
  `DefaultMaxStoredQueries`, `DefaultRecentLogs`, ...) that the caller passes explicitly.

Behaviour of the code that the model keeps:

- Cosine similarity has no zero-norm guard. A zero vector makes the
  denominator 0, so the model requires non-zero denominators (`Faiss.Comparable`).
- The BM25 score sums over every query token, repeats included, rather than over
  distinct terms. `Bm25.ScoreRepeatedQuery` states the consequence.
- The IDF table is never cleared between corpora. A term absent from a new
  corpus keeps its old entry (`Bm25.BM25.AddDocuments`).
- `HybridSearch.initialize` is not atomic. The lexical index is replaced
  before the vector index may reject an embedding (`Hybrid.HybridSearch.Initialize`).

## Model

| member | source | states |
|---|---|---|
| Js.OrElse | lib/search/hybrid.ts:99-100 | JavaScript's or-operator yields the value exactly when it is present and truthy, otherwise the fallback |
| Js.SliceIndex | lib/search/hybrid.ts:67 | a `slice` index is clamped to `0..len`, and a negative one counts back from the end |
| Js.Reverse | lib/analytics/metrics.ts:89 | `reverse` keeps the length |
| Js.Filter | lib/analytics/metrics.ts:96 | `filter` never lengthens its input |
| Js.FilterMembers | lib/analytics/metrics.ts:96 | `filter` keeps exactly the elements that pass the test |
| Js.FilterConcat | lib/analytics/logger.ts:76 | filtering a concatenation filters each part, so the kept elements keep their order |
| Js.PassingCorrect | lib/analytics/logger.ts:76 | the positions of the passing elements are increasing, each is a passing one, and none is missed |
| Js.FilterPassing | lib/analytics/logger.ts:76 | `filter` returns exactly the elements at those positions, in that order |
| Js.FilterAll | lib/search/bm25.ts:114 | `filter` returns its input unchanged when every element passes |
| Ranking.InsertPermutes | lib/search/bm25.ts:103 | one insertion step of the sort permutes its input |
| Ranking.InsertSorted | lib/search/bm25.ts:103 | one insertion step keeps the list in non-increasing key order |
| Ranking.InsertTied | lib/search/bm25.ts:103 | one insertion step keeps equal-key elements in their order (stability) |
| Ranking.SortDescCorrect | lib/search/bm25.ts:103 | the sort keeps the length, permutes its input, orders it by non-increasing score, and keeps equal scores in input order |
| Ranking.TiedPrefix | lib/search/bm25.ts:103 | a prefix of a list keeps a prefix of every equal-key subsequence |
| Ranking.TopKCorrect | lib/search/bm25.ts:103 | sort-then-slice returns min(limit, n) elements drawn from the input, in non-increasing order; nothing left out scores above anything kept; ties keep input order |
| Tokenizer.LowerCase | lib/search/bm25.ts:111 | lower-casing keeps the length; the characters it yields are covered by NormalizedChars |
| Tokenizer.ReplaceNonWord | lib/search/bm25.ts:112 | the replacement keeps the length; the characters it yields are covered by NormalizedChars |
| Tokenizer.FirstSpace | lib/search/bm25.ts:113 | the index of the first white-space character, with no white space before it |
| Tokenizer.SpaceRun | lib/search/bm25.ts:113 | the length of the leading run of white space, which ends at a non-space |
| Tokenizer.Split | lib/search/bm25.ts:113 | `split(/\s+/)` always yields at least one piece |
| Tokenizer.NormalizedChars | lib/search/bm25.ts:110-112 | after lower-casing and replacement every character is a lower-case letter, a digit, `_` or white space |
| Tokenizer.SplitPieces | lib/search/bm25.ts:113 | the pieces of a split hold no white space and only characters of the split string |
| Tokenizer.TokensAreWords | lib/search/hybrid.ts:111-117 | every token is non-empty and made of lower-case ASCII letters, digits and `_` |
| Tokenizer.JoinChars | lib/search/hybrid.ts:111-117 | joined tokens hold only token characters and single spaces, and start with a token character |
| Tokenizer.NormalizeJoin | lib/search/hybrid.ts:112-114 | lower-casing and replacement leave space-joined tokens unchanged |
| Tokenizer.FirstSpaceOfConcat | lib/search/bm25.ts:113 | the first space of `a + b` when `a` holds no space comes after `a` |
| Tokenizer.SplitCons | lib/search/bm25.ts:113 | a space-free piece, one space and a non-space-led rest split into the piece followed by the split of the rest |
| Tokenizer.SplitJoin | lib/search/bm25.ts:113 | splitting space-joined tokens returns the tokens |
| Tokenizer.TokenizeJoin | lib/search/hybrid.ts:111-117 | tokenizing space-joined tokens returns the same tokens |
| Tokenizer.TokenizeIdempotent | lib/search/hybrid.ts:111-117 | re-tokenizing the space-joined output of a tokenization gives the same tokens |
| Capped.Keep | lib/analytics/metrics.ts:41-44 | the most recent window of a history holds at most the capacity and at most the history |
| Capped.PushShiftKeeps | lib/analytics/metrics.ts:38-45 | push-then-one-shift on the most recent window of a history gives the most recent window of the history plus the new element, so one shift per push is enough and only the oldest element is dropped |
| Bm25.IdfsStep | lib/search/bm25.ts:52-54 | setting one more counted term's IDF extends the table built so far by exactly that entry |
| Bm25.IdfsOfCounts | lib/search/bm25.ts:52-54 | the IDFs of the counted document frequencies form the corpus's IDF table |
| Bm25.DenominatorPositive | lib/search/bm25.ts:84 | the BM25 denominator is positive for k1 > 0, 0 <= b < 1, tf >= 0 and a non-negative length ratio |
| Bm25.TermWeight | lib/search/bm25.ts:83-86 | the saturating term weight lies in [0, k1 + 1) and is positive exactly when tf is |
| Bm25.Scored | lib/search/bm25.ts:97-101 | one hit per stored document |
| Bm25.PrefixStep | lib/search/bm25.ts:44-49 | one more document adds its vocabulary to the corpus terms and 1 to each of their document frequencies |
| Bm25.DocumentFrequencyBounds | lib/search/bm25.ts:44-49 | a document frequency is at most N, and it is at least 1 exactly for the terms in the corpus |
| Bm25.IdfArgumentAboveOne | lib/search/bm25.ts:53 | for 0 <= df <= N the logarithm's argument exceeds 1 |
| Bm25.IdfPositive | lib/search/bm25.ts:52-54 | every IDF a corpus produces is positive, given a logarithm that is positive above 1 |
| Bm25.IdfRarerWeighsMore | lib/search/bm25.ts:53 | the IDF strictly decreases as the document frequency grows, given an increasing logarithm |
| Bm25.AvgDocLengthMeaning | lib/search/bm25.ts:60-63 | the mean length is non-negative, positive exactly when some document has a token, and times N equals the total token count |
| Bm25.TotalLengthPositive | lib/search/bm25.ts:61 | the total token count is positive exactly when some document has a token |
| Bm25.TermScoreZero | lib/search/bm25.ts:79-87 | a query token without an IDF entry, or absent from the document, adds 0 |
| Bm25.Saturation | lib/search/bm25.ts:83-86 | tf (k1 + 1) / (tf + rest) lies in [0, k1 + 1) and is positive exactly when tf is |
| Bm25.TermScoreBounds | lib/search/bm25.ts:79-87 | a document's token with a positive IDF adds a positive amount that stays below idf (k1 + 1) |
| Bm25.ScoreStep | lib/search/bm25.ts:86 | the score of a longer query prefix adds the next token's contribution |
| Bm25.ScoreLoopStep | lib/search/bm25.ts:80-86 | the loop's numerator and denominator give exactly the next token's contribution, with a positive denominator |
| Bm25.WeightStep | lib/search/bm25.ts:83-84 | the loop's numerator over denominator is the term weight |
| Bm25.TermScoreFrom | lib/search/bm25.ts:80-86 | a token's contribution is its IDF (or 0) times its term weight |
| Bm25.ScoreAppend | lib/search/bm25.ts:79-87 | scores add up over a split query |
| Bm25.ScoreRepeatedQuery | lib/search/bm25.ts:79-87 | repeated query tokens are not merged: a query written twice scores twice as much |
| Bm25.ScoreOfUnmatchedQuery | lib/search/bm25.ts:79-87 | a query whose every token is unknown or absent from the document scores 0 |
| Bm25.RankedCount | lib/search/bm25.ts:95-104 | a search returns min(limit, N) hits for a non-negative limit, and none over an empty corpus |
| Bm25.RankedFromCorpus | lib/search/bm25.ts:97-103 | every hit carries a stored document's id and metadata with that document's score |
| Bm25.RankedOrder | lib/search/bm25.ts:103 | hits come by non-increasing score; no document left out scores above a returned one; equal scores keep corpus order |
| Bm25.BM25.constructor | lib/search/bm25.ts:19-25 | an empty index with no IDF entries, average length 0 and the given k1 and b |
| Bm25.BM25.AddDocuments | lib/search/bm25.ts:30-34 | the corpus is replaced wholesale; the IDF table gains the new corpus's entries and keeps stale ones; the average length is recomputed |
| Bm25.BM25.CountDocumentFrequencies | lib/search/bm25.ts:40-49 | the counts are keyed by exactly the corpus terms, and each count is that term's document frequency |
| Bm25.BM25.CalculateIDF | lib/search/bm25.ts:39-55 | the IDF table becomes the old table overwritten by the corpus's IDF table |
| Bm25.BM25.CalculateAvgDocLength | lib/search/bm25.ts:60-63 | the average length becomes the corpus's mean token count |
| Bm25.BM25.CountTermFrequencies | lib/search/bm25.ts:73-76 | the map is keyed by exactly the document's tokens, and each count is that token's number of occurrences |
| Bm25.BM25.CalculateScore | lib/search/bm25.ts:68-90 | the loop's sum is the BM25 score of the document for the query |
| Bm25.BM25.Search | lib/search/bm25.ts:95-104 | the ranked, truncated scores of every stored document for the tokenized query; min(limit, N) hits |
| Faiss.FirstMismatch | lib/search/faiss.ts:26-30 | the first vector whose length is wrong, or none exactly when every length is right |
| Faiss.Embeddings | lib/search/faiss.ts:26-27 | the documents' embeddings, one per document in order |
| Faiss.Similarities | lib/search/faiss.ts:59-63 | one hit per stored document |
| Faiss.DotSymmetric | lib/search/faiss.ts:43 | the dot product is symmetric |
| Faiss.CosineSymmetric | lib/search/faiss.ts:37-49 | cosine similarity is symmetric in its arguments |
| Faiss.DotSelfNonNegative | lib/search/faiss.ts:44-45 | a squared norm is never negative |
| Faiss.CrossSquaresNonNegative | lib/search/faiss.ts:42-46 | a sum of squares is never negative |
| Faiss.CrossSquaresExpand | lib/search/faiss.ts:42-46 | the sum of (a[i] y − x b[i])² expands to y²‖a‖² + x²‖b‖² − 2xy a·b |
| Faiss.CauchySchwarz | lib/search/faiss.ts:42-46 | (a·b)² <= ‖a‖² ‖b‖² for the sums the loop accumulates |
| Faiss.CosineBounded | lib/search/faiss.ts:48 | with a true square root, cosine similarity lies in [−1, 1] |
| Faiss.CosineSelf | lib/search/faiss.ts:48 | a vector with a non-zero norm has similarity 1 with itself |
| Faiss.RankedBySimilarity | lib/search/faiss.ts:59-65 | a search returns min(limit, N) hits, each a stored document with its similarity, in non-increasing order, none left out more similar than one returned, equal similarities in stored order |
| Faiss.VectorSearch.constructor | lib/search/faiss.ts:16-19 | an empty index of the given dimension |
| Faiss.VectorSearch.AddDocuments | lib/search/faiss.ts:24-32 | throws on the first embedding of the wrong length and then keeps the old documents; otherwise stores exactly the argument |
| Faiss.VectorSearch.CosineSimilarity | lib/search/faiss.ts:37-49 | the one-pass loop computes the cosine similarity of the two vectors |
| Faiss.VectorSearch.Search | lib/search/faiss.ts:54-66 | throws on a query of the wrong length; otherwise returns the ranked, truncated similarities |
| Faiss.VectorSearch.BatchSearch | lib/search/faiss.ts:71-76 | one result per query in input order, each equal to that query's search; throws on the first query of the wrong length |
| Hybrid.WithDefaults | lib/search/hybrid.ts:24-28 | each missing setting takes its default: 0.5, 0.5 and 60 |
| Hybrid.LexicalDocuments | lib/search/hybrid.ts:36-40 | one lexical document per input document, in order, with its id, metadata and tokenized content |
| Hybrid.VectorDocuments | lib/search/hybrid.ts:44-48 | one vector document per input document, in order, with its id, metadata and embedded content |
| Hybrid.RecordOrEmpty | lib/search/hybrid.ts:102 | the `{}` default makes the metadata always a record, and keeps the metadata itself when present |
| Hybrid.Unsorted | lib/search/hybrid.ts:97-103 | one result per distinct id of the two lists |
| Hybrid.ContributionAbsent | lib/search/hybrid.ts:81-94 | an id a list does not name gains nothing from it |
| Hybrid.LexicalPassKeys | lib/search/hybrid.ts:81-85 | after the lexical loop both Maps are keyed by exactly the lexical ids, in first-seen order |
| Hybrid.LexicalPassScores | lib/search/hybrid.ts:81-85 | after the lexical loop each id holds the sum of its weighted reciprocal ranks |
| Hybrid.LexicalPassMetadata | lib/search/hybrid.ts:84 | after the lexical loop each id holds the metadata of its last occurrence |
| Hybrid.DensePassKeys | lib/search/hybrid.ts:88-94 | after both loops the Maps are keyed by exactly the ids of both lists, lexical ids first, in first-seen order |
| Hybrid.DensePassScores | lib/search/hybrid.ts:88-94 | after both loops each id holds its fused score: the sum over both lists of w / (k + r + 1) at each rank r where it occurs |
| Hybrid.DensePassMetadata | lib/search/hybrid.ts:91-93 | after both loops each id holds the lexical metadata when it has some, else the first dense one |
| Hybrid.EntriesAreUnsorted | lib/search/hybrid.ts:97-103 | presenting the final Maps in key order gives the unsorted results |
| Hybrid.DistinctMembers | lib/search/hybrid.ts:77 | the Map's keys are exactly the ids it was given |
| Hybrid.DistinctCorrect | lib/search/hybrid.ts:77 | the Map holds each id once, so its size is the number of distinct ids |
| Hybrid.DistinctAppend | lib/search/hybrid.ts:88-94 | ids first seen in the dense list come after every lexical id |
| Hybrid.LexicalIdsFirst | lib/search/hybrid.ts:97 | in the Map's key order no dense-only id comes before a lexical id |
| Hybrid.FuseIdsOnce | lib/search/hybrid.ts:97-105 | the fused output names each id of either list exactly once, with its fused result, so its length is the number of distinct ids |
| Hybrid.UnsortedOnce | lib/search/hybrid.ts:97-103 | the unsorted results hold one result per distinct id, each that id's fused result |
| Hybrid.FuseOrder | lib/search/hybrid.ts:105 | the fused list comes by non-increasing score, and equal scores keep first-seen order |
| Hybrid.LastMetaAt | lib/search/hybrid.ts:84 | the lexical metadata of an id is that of its last occurrence |
| Hybrid.FirstMetaAt | lib/search/hybrid.ts:91-93 | the dense metadata of an id is that of its first occurrence |
| Hybrid.ContributionAt | lib/search/hybrid.ts:82-83 | an id found at exactly one rank r gains w / (k + r + 1) |
| Hybrid.TopOfBothWins | lib/search/hybrid.ts:82-90 | with positive weights and no repeated ids, the id both lists rank first outscores every other id |
| Hybrid.RunnerUpBound | lib/search/hybrid.ts:82-83 | an id not ranked first in a list without repeats gains less than the first-ranked id |
| Hybrid.EqualWeightsSymmetric | lib/search/hybrid.ts:82-90 | with equal weights, swapping the two lists leaves every fused score unchanged |
| Hybrid.HybridSearch.constructor | lib/search/hybrid.ts:21-29 | default sub-indices (k1 1.5, b 0.75, dimension 384), both empty, and the settings with their defaults |
| Hybrid.HybridSearch.Initialize | lib/search/hybrid.ts:34-50 | the lexical index receives the tokenized corpus and its IDF table is merged over the old one; the vector index receives the embedded corpus, or rejects it and keeps its old documents |
| Hybrid.HybridSearch.ReciprocalRankFusion | lib/search/hybrid.ts:73-106 | the two loops and the sort produce the fused list |
| Hybrid.HybridSearch.AccumulateLexical | lib/search/hybrid.ts:81-85 | the lexical loop's Maps are the lexical pass's state |
| Hybrid.HybridSearch.AccumulateDense | lib/search/hybrid.ts:88-94 | the dense loop's Maps are the state after both passes |
| Hybrid.HybridSearch.Search | lib/search/hybrid.ts:55-68 | fuses 2·limit hits from each index and returns the first `limit`, so at most `limit`; a query embedding of the wrong length throws |
| Metrics.TotalWithin | lib/analytics/metrics.ts:64-66 | a sum of n values in [lo, hi] lies in [n·lo, n·hi] |
| Metrics.MeanWithin | lib/analytics/metrics.ts:78-80 | an average lies between the least and the greatest value averaged |
| Metrics.SuccessesAndFailures | lib/analytics/metrics.ts:63 | every record either succeeded or failed |
| Metrics.Ceil | lib/analytics/metrics.ts:106 | `Math.ceil(x)` is the least integer at or above x |
| Metrics.SortAscCorrect | lib/analytics/metrics.ts:103 | the numeric sort keeps the length, permutes the times and orders them ascending |
| Metrics.AscendingUnique | lib/analytics/metrics.ts:103 | two ascending arrangements of the same times are equal, so the result does not depend on the sort algorithm |
| Metrics.RankMono | lib/analytics/metrics.ts:106 | the scaled position (p / 100) · n grows with p |
| Metrics.RankWithin | lib/analytics/metrics.ts:106 | for a non-empty store and 0 < p <= 100 the scaled position lies in (0, n] |
| Metrics.PercentileIndexBounds | lib/analytics/metrics.ts:106 | for n > 0 and 0 < p <= q <= 100 the index ⌈p·n/100⌉ − 1 falls inside the list and grows with p |
| Metrics.PercentileMono | lib/analytics/metrics.ts:105-108 | a higher percentile of ascending times is never smaller |
| Metrics.PercentilesAreTimes | lib/analytics/metrics.ts:105-108 | over a non-empty store each of the four percentiles is a measured time |
| Metrics.Times | lib/analytics/metrics.ts:103 | the execution times, one per record in order |
| Metrics.MetricsCollector.constructor | lib/analytics/metrics.ts:30-33 | an empty store with the given capacity |
| Metrics.MetricsCollector.RecordQuery | lib/analytics/metrics.ts:38-45 | appends the record and drops only the oldest one when over capacity; the store stays the most recent `maxStoredQueries` records in arrival order, never above the capacity, with the new record last |
| Metrics.MetricsCollector.GetSystemMetrics | lib/analytics/metrics.ts:50-82 | all zeros for an empty store; total = records; successful + failed = total, each counting its own kind; each average is the mean of its field; queries per hour is the number of records divided by the span from the first to the last timestamp in hours when that span is positive, and 0 otherwise |
| Metrics.MetricsCollector.GetRecentQueries | lib/analytics/metrics.ts:88-90 | newest first; the last min(limit, n) records for limit >= 1, all of them for limit 0, all but the oldest −limit for a negative limit |
| Metrics.MetricsCollector.GetQueriesByTimeRange | lib/analytics/metrics.ts:95-97 | exactly the records with start <= timestamp <= end, in stored order |
| Metrics.MetricsCollector.GetPerformancePercentiles | lib/analytics/metrics.ts:102-116 | zeros for an empty store; p50 <= p90 <= p95 <= p99, each a measured time otherwise; each is the element at ⌈p·n/100⌉ − 1 of any ascending arrangement of the times |
| Logger.QueryLogger.constructor | lib/analytics/logger.ts:17-20 | an empty log with the given capacity |
| Logger.QueryLogger.Info | lib/analytics/logger.ts:25-27 | adds exactly one "info" entry with the message, the metadata and the time |
| Logger.QueryLogger.Warn | lib/analytics/logger.ts:32-34 | adds exactly one "warn" entry with the message, the metadata and the time |
| Logger.QueryLogger.Error | lib/analytics/logger.ts:39-41 | adds exactly one "error" entry with the message, the metadata and the time |
| Logger.QueryLogger.AddLog | lib/analytics/logger.ts:46-58 | appends the entry and drops only the oldest one when over capacity; the log stays the most recent `maxLogs` entries in order, never above the capacity, with the new entry last |
| Logger.QueryLogger.GetRecentLogs | lib/analytics/logger.ts:68-70 | newest first; the last min(limit, n) entries for limit >= 1, all of them for limit 0, all but the oldest −limit for a negative limit |
| Logger.QueryLogger.GetLogsByLevel | lib/analytics/logger.ts:75-77 | exactly the entries at that level, in insertion order |
| Logger.QueryLogger.Clear | lib/analytics/logger.ts:82-84 | the log is empty |

Both recorders' getters are `function`s that read the object and cannot
change it, so `getRecentLogs`, `getLogsByLevel` and the metrics getters leave
the stored state as it was.

## Left out

- Floating point: numbers are exact reals. IEEE rounding, NaN and the infinities are not modelled. For example, `(p / 100) * n` in the percentile index is exact here.
- `Math.log` and `Math.sqrt` are function-valued arguments. Lemmas assume only the facts named in their preconditions.
- `generateMockEmbedding` (lib/search/hybrid.ts:122-135) is not modelled. It is the `embed` argument of `Hybrid.HybridSearch.constructor`.
- `async` on `initialize` and `search`: the model is sequential, because nothing is awaited.
- The `console.error` output of `addLog` (lib/analytics/logger.ts:60-62) is a side effect outside the program state.
- `new Date()` in `addLog` is replaced by the `now` parameter. Dates are integers counting milliseconds.
- Tokenizer.LowerCase: lower-cases only the ASCII letters. `toLowerCase` also maps non-ASCII characters, some of them to ASCII letters or to longer strings (the Kelvin sign to `k`, `İ` to two code points).
- Limits and capacities are integers. A fractional or NaN `limit`, `maxStoredQueries` or `maxLogs` is not modelled.
- Metadata values typed `any` are `Js.Value`. Objects and arrays in them are all the one value `Compound`.
- Bm25.BM25.constructor: requires k1 > 0 and 0 <= b < 1, so that no BM25 denominator can be 0. The source accepts any numbers.
- Bm25.BM25.CalculateAvgDocLength: stores 0 for an empty corpus, where the source computes 0/0 (NaN). Nothing reads it then, because there is no document to score.
- Bm25.BM25.CalculateScore: requires a positive average length unless the query is empty. Otherwise the source divides 0 by 0 and scores NaN.
- Bm25.BM25.Search: requires the corpus or the query to be empty, or a positive average length. Otherwise every score is NaN.
- Faiss.VectorSearch.CosineSimilarity: requires a non-zero denominator. The source has no zero-norm guard and returns NaN for a zero vector (an infinity when the norm product underflows).
- Faiss.VectorSearch.Search: requires every stored document to be comparable with a query of the right length, for the same reason.
- Faiss.VectorSearch.BatchSearch: requires the same of every query of the right length.
- Hybrid.HybridSearch.constructor: requires a non-negative `rrfK`. A negative one can make a reciprocal-rank denominator 0.
- Hybrid.HybridSearch.Search: carries the sub-indices' preconditions for the query.
- The iteration order of the Map in `calculateIDF` is not modelled. The loop picks terms in any order, and the resulting table does not depend on it.
