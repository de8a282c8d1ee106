/**
 * The metrics collector: a bounded store of per-query measurements and the
 * summaries computed over it (totals, averages, throughput, latency
 * percentiles, the most recent queries, a time window).
 */
module Metrics {
  import opened Js
  import opened Capped
  import opened Ranking
  import opened RealArith

  /** The constructor's default capacity. */
  const DefaultMaxStoredQueries: int := 1000
  /** `getRecentQueries`'s default limit. */
  const DefaultRecentQueries: int := 10
  /** `1000 * 60 * 60`: timestamps are milliseconds. */
  const MillisecondsPerHour: real := 3600000.0

  /** One executed query; `timestamp` is its `Date` in milliseconds. */
  datatype QueryMetrics = QueryMetrics(
    queryId: string,
    query: string,
    timestamp: int,
    executionTime: real,
    resultsCount: real,
    success: bool,
    agentSteps: real,
    tokensUsed: real)

  datatype SystemMetrics = SystemMetrics(
    totalQueries: nat,
    successfulQueries: nat,
    failedQueries: int,
    avgResponseTime: real,
    avgTokensUsed: real,
    avgAgentSteps: real,
    queriesPerHour: real)

  datatype Percentiles = Percentiles(p50: real, p90: real, p95: real, p99: real)

  function ExecutionTime(q: QueryMetrics): real { q.executionTime }
  function TokensUsed(q: QueryMetrics): real { q.tokensUsed }
  function AgentSteps(q: QueryMetrics): real { q.agentSteps }
  predicate Succeeded(q: QueryMetrics) { q.success }
  predicate Failed(q: QueryMetrics) { !q.success }

  /** `(q) => q.timestamp >= startDate && q.timestamp <= endDate` */
  function InRange(start: int, end: int): QueryMetrics -> bool
  {
    (q: QueryMetrics) => start <= q.timestamp <= end
  }

  // ---------------------------------------------------------------------------
  // Totals and averages

  /** `qs.reduce((sum, q) => sum + field(q), 0)` */
  function Total(qs: seq<QueryMetrics>, field: QueryMetrics -> real): real
  {
    if qs == [] then 0.0 else Total(qs[..|qs| - 1], field) + field(qs[|qs| - 1])
  }

  /** The total over a non-empty store divided by its size. */
  function Mean(qs: seq<QueryMetrics>, field: QueryMetrics -> real): real
    requires qs != []
  {
    Total(qs, field) / (|qs| as real)
  }

  lemma ScaleSucc(c: real, n: nat)
    ensures c * ((n + 1) as real) == c * (n as real) + c
  {
  }

  /** A total of `n` values that each lie in `[lo, hi]` lies in `[n·lo, n·hi]`. */
  lemma {:induction false} TotalWithin(qs: seq<QueryMetrics>, field: QueryMetrics -> real, lo: real, hi: real)
    requires forall i :: 0 <= i < |qs| ==> lo <= field(qs[i]) <= hi
    ensures lo * (|qs| as real) <= Total(qs, field) <= hi * (|qs| as real)
  {
    if qs != [] {
      var init := qs[..|qs| - 1];
      assert forall i :: 0 <= i < |init| ==> init[i] == qs[i];
      TotalWithin(init, field, lo, hi);
      ScaleSucc(lo, |init|);
      ScaleSucc(hi, |init|);
    }
  }

  /** An average lies between the smallest and the largest value averaged. */
  lemma MeanWithin(qs: seq<QueryMetrics>, field: QueryMetrics -> real, lo: real, hi: real)
    requires qs != []
    requires forall i :: 0 <= i < |qs| ==> lo <= field(qs[i]) <= hi
    ensures lo <= Mean(qs, field) <= hi
  {
    TotalWithin(qs, field, lo, hi);
    DivAtLeast(Total(qs, field), |qs| as real, lo);
    DivAtMost(Total(qs, field), |qs| as real, hi);
  }

  /** Every query either succeeded or failed. */
  lemma {:induction false} SuccessesAndFailures(qs: seq<QueryMetrics>)
    ensures |Filter(qs, Succeeded)| + |Filter(qs, Failed)| == |qs|
  {
    if qs != [] {
      SuccessesAndFailures(qs[1..]);
    }
  }

  // ---------------------------------------------------------------------------
  // Percentiles

  /** `Math.ceil` */
  function Ceil(x: real): (r: int)
    ensures x <= r as real < x + 1.0
  {
    -((-x).Floor)
  }

  function Neg(x: real): real { -x }

  /** `times.sort((a, b) => a - b)`, as the stable sort by non-increasing
      negated value. */
  function SortAsc(times: seq<real>): seq<real>
  {
    SortDesc(times, Neg)
  }

  ghost predicate Ascending(s: seq<real>)
  {
    forall i, j :: 0 <= i < j < |s| ==> s[i] <= s[j]
  }

  lemma SortAscCorrect(times: seq<real>)
    ensures |SortAsc(times)| == |times|
    ensures multiset(SortAsc(times)) == multiset(times)
    ensures Ascending(SortAsc(times))
  {
    SortDescCorrect(times, Neg);
    var r := SortAsc(times);
    forall i, j | 0 <= i < j < |r|
      ensures r[i] <= r[j]
    {
      assert Neg(r[i]) >= Neg(r[j]);
    }
  }

  /** The first element of an ascending sequence is its least. */
  lemma AscendingFirstLeast(s: seq<real>, x: real)
    requires Ascending(s) && x in multiset(s)
    ensures s[0] <= x
  {
    var i :| 0 <= i < |s| && s[i] == x;
  }

  /** Two non-empty ascending arrangements of the same values start alike and
      continue with ascending arrangements of the same remaining values. */
  lemma AscendingSplit(s: seq<real>, t: seq<real>)
    requires Ascending(s) && Ascending(t) && multiset(s) == multiset(t) && s != []
    ensures t != [] && s[0] == t[0]
    ensures Ascending(s[1..]) && Ascending(t[1..]) && multiset(s[1..]) == multiset(t[1..])
  {
    assert s[0] in multiset(t) && t[0] in multiset(s);
    AscendingFirstLeast(t, s[0]);
    AscendingFirstLeast(s, t[0]);
    assert s == [s[0]] + s[1..] && t == [t[0]] + t[1..];
    assert multiset(s[1..]) == multiset(s) - multiset{s[0]};
    assert multiset(t[1..]) == multiset(t) - multiset{t[0]};
  }

  /** Two ascending arrangements of the same values are the same sequence, so
      any correct numeric sort gives the percentiles computed here. */
  lemma {:induction false} AscendingUnique(s: seq<real>, t: seq<real>)
    requires Ascending(s) && Ascending(t) && multiset(s) == multiset(t)
    ensures s == t
  {
    if s != [] {
      AscendingSplit(s, t);
      AscendingUnique(s[1..], t[1..]);
      assert s == [s[0]] + s[1..] && t == [t[0]] + t[1..];
    }
  }

  /** `(p / 100) * sortedTimes.length` */
  function Rank(n: nat, p: real): real
  {
    (p / 100.0) * (n as real)
  }

  /** `Math.ceil((p / 100) * n) - 1` */
  function PercentileIndex(n: nat, p: real): int
  {
    Ceil(Rank(n, p)) - 1
  }

  /** `sortedTimes[index] || 0`: a missing element reads as 0, and so does a
      0 element. */
  function Percentile(sorted: seq<real>, p: real): real
  {
    var i := PercentileIndex(|sorted|, p);
    if 0 <= i < |sorted| then sorted[i] else 0.0
  }

  lemma RankMono(n: nat, p: real, q: real)
    requires p <= q
    ensures Rank(n, p) <= Rank(n, q)
  {
    MulNonNeg((q - p) / 100.0, n as real);
    assert Rank(n, q) - Rank(n, p) == ((q - p) / 100.0) * (n as real);
  }

  /** For `0 < p <= 100` the scaled position lies in `(0, n]`. */
  lemma RankWithin(n: nat, p: real)
    requires n > 0 && 0.0 < p <= 100.0
    ensures 0.0 < Rank(n, p) <= n as real
  {
    MulPos(p / 100.0, n as real);
    RankMono(n, p, 100.0);
    assert Rank(n, 100.0) == n as real;
  }

  /** For a non-empty store and `0 < p <= 100` the index falls inside the
      store, and it grows with `p`. */
  lemma PercentileIndexBounds(n: nat, p: real, q: real)
    requires n > 0 && 0.0 < p <= q <= 100.0
    ensures 0 <= PercentileIndex(n, p) <= PercentileIndex(n, q) < n
  {
    RankWithin(n, p);
    RankWithin(n, q);
    RankMono(n, p, q);
  }

  /** A higher percentile of an ascending sequence is never smaller. */
  lemma PercentileMono(sorted: seq<real>, p: real, q: real)
    requires Ascending(sorted) && 0.0 < p <= q <= 100.0
    ensures Percentile(sorted, p) <= Percentile(sorted, q)
  {
    if sorted != [] {
      PercentileIndexBounds(|sorted|, p, q);
    }
  }

  /** `this.queries.map((q) => q.executionTime)` */
  function Times(qs: seq<QueryMetrics>): (r: seq<real>)
    ensures |r| == |qs| && forall i :: 0 <= i < |qs| ==> r[i] == qs[i].executionTime
  {
    seq(|qs|, i requires 0 <= i < |qs| => qs[i].executionTime)
  }

  // ---------------------------------------------------------------------------
  // The collector

  class MetricsCollector {
    var queries: seq<QueryMetrics>
    const maxStoredQueries: int
    /** Every query recorded so far, oldest first. */
    ghost var recorded: seq<QueryMetrics>

    /** The store holds the most recent `maxStoredQueries` recorded queries, in
        the order they were recorded. */
    ghost predicate Valid()
      reads this
    {
      queries == Keep(recorded, maxStoredQueries)
    }

    constructor(maxStoredQueries: int)
      ensures Valid()
      ensures queries == [] && recorded == [] && this.maxStoredQueries == maxStoredQueries
    {
      queries := [];
      recorded := [];
      this.maxStoredQueries := maxStoredQueries;
    }

    /** Appends the measurement and drops the oldest one once the store is
        over capacity. */
    method RecordQuery(metrics: QueryMetrics)
      requires Valid()
      modifies this
      ensures Valid() && recorded == old(recorded) + [metrics]
      ensures queries == PushShift(old(queries), metrics, maxStoredQueries)
      ensures |queries| <= Room(maxStoredQueries)
      ensures maxStoredQueries >= 1 ==> queries[|queries| - 1] == metrics
    {
      queries := queries + [metrics];
      if |queries| > maxStoredQueries {
        queries := queries[1..];
      }
      PushShiftKeeps(recorded, metrics, maxStoredQueries);
      recorded := recorded + [metrics];
    }

    /** Zeros for an empty store; otherwise the counts, the three averages and
        the number of queries per hour between the first and the last stored
        timestamp (0 when that span is not positive). */
    function GetSystemMetrics(): (r: SystemMetrics)
      reads this
      ensures queries == [] ==> r == SystemMetrics(0, 0, 0, 0.0, 0.0, 0.0, 0.0)
      ensures r.totalQueries == |queries|
      ensures r.successfulQueries == |Filter(queries, Succeeded)|
      ensures r.failedQueries == |Filter(queries, Failed)|
      ensures r.successfulQueries + r.failedQueries == r.totalQueries
      ensures queries != [] ==>
        && r.avgResponseTime == Mean(queries, ExecutionTime)
        && r.avgTokensUsed == Mean(queries, TokensUsed)
        && r.avgAgentSteps == Mean(queries, AgentSteps)
      ensures r.queriesPerHour >= 0.0
      ensures r.queriesPerHour > 0.0 <==>
        queries != [] && queries[0].timestamp < queries[|queries| - 1].timestamp
      ensures queries != [] && queries[0].timestamp < queries[|queries| - 1].timestamp ==>
        r.queriesPerHour == (|queries| as real)
          / (((queries[|queries| - 1].timestamp - queries[0].timestamp) as real) / MillisecondsPerHour)
      ensures !(queries != [] && queries[0].timestamp < queries[|queries| - 1].timestamp) ==>
        r.queriesPerHour == 0.0
    {
      if queries == [] then
        SystemMetrics(0, 0, 0, 0.0, 0.0, 0.0, 0.0)
      else
        var n := |queries|;
        var successful := |Filter(queries, Succeeded)|;
        SuccessesAndFailures(queries);
        var span := (queries[n - 1].timestamp - queries[0].timestamp) as real;
        var hoursDiff := span / MillisecondsPerHour;
        var perHour := if hoursDiff > 0.0 then (n as real) / hoursDiff else 0.0;
        assert perHour > 0.0 <==> span > 0.0 by {
          if hoursDiff > 0.0 { DivPos(n as real, hoursDiff); }
        }
        SystemMetrics(n, successful, n - successful, Mean(queries, ExecutionTime),
          Mean(queries, TokensUsed), Mean(queries, AgentSteps), perHour)
    }

    /** `queries.slice(-limit).reverse()`: newest first; the last `limit`
        queries for a positive limit, every query for 0, and all but the
        oldest `-limit` for a negative one. */
    function GetRecentQueries(limit: int): (r: seq<QueryMetrics>)
      reads this
      ensures limit >= 0 ==> |r| == if 0 < limit < |queries| then limit else |queries|
      ensures limit < 0 ==> |r| == if -limit < |queries| then |queries| + limit else 0
      ensures forall i :: 0 <= i < |r| ==> r[i] == queries[|queries| - 1 - i]
    {
      Reverse(SliceFrom(queries, -limit))
    }

    /** The stored queries whose timestamp lies in `[start, end]`, in stored
        order. */
    function GetQueriesByTimeRange(start: int, end: int): (r: seq<QueryMetrics>)
      reads this
      ensures forall q :: q in r <==> q in queries && start <= q.timestamp <= end
      ensures |r| == |Passing(queries, InRange(start, end))|
      ensures forall k :: 0 <= k < |r| ==> r[k] == queries[Passing(queries, InRange(start, end))[k]]
    {
      FilterMembers(queries, InRange(start, end));
      FilterPassing(queries, InRange(start, end));
      Filter(queries, InRange(start, end))
    }

    /** The 50th, 90th, 95th and 99th percentiles of the execution times. */
    function GetPerformancePercentiles(): (r: Percentiles)
      reads this
      ensures queries == [] ==> r == Percentiles(0.0, 0.0, 0.0, 0.0)
      ensures r.p50 <= r.p90 <= r.p95 <= r.p99
      ensures queries != [] ==>
        r.p50 in Times(queries) && r.p90 in Times(queries) && r.p95 in Times(queries) && r.p99 in Times(queries)
      ensures forall sorted :: Ascending(sorted) && multiset(sorted) == multiset(Times(queries)) ==>
        r == Percentiles(Percentile(sorted, 50.0), Percentile(sorted, 90.0),
                         Percentile(sorted, 95.0), Percentile(sorted, 99.0))
    {
      var sortedTimes := SortAsc(Times(queries));
      SortAscCorrect(Times(queries));
      PercentileMono(sortedTimes, 50.0, 90.0);
      PercentileMono(sortedTimes, 90.0, 95.0);
      PercentileMono(sortedTimes, 95.0, 99.0);
      PercentilesAreTimes(sortedTimes, Times(queries));
      forall sorted | Ascending(sorted) && multiset(sorted) == multiset(Times(queries))
        ensures sorted == sortedTimes
      {
        AscendingUnique(sorted, sortedTimes);
      }
      Percentiles(Percentile(sortedTimes, 50.0), Percentile(sortedTimes, 90.0),
                  Percentile(sortedTimes, 95.0), Percentile(sortedTimes, 99.0))
    }
  }

  /** Over a non-empty store each reported percentile is one of the measured
      times. */
  lemma PercentilesAreTimes(sorted: seq<real>, times: seq<real>)
    requires Ascending(sorted) && multiset(sorted) == multiset(times)
    ensures times != [] ==>
      forall p :: p in [50.0, 90.0, 95.0, 99.0] ==> Percentile(sorted, p) in times
  {
    if times != [] {
      assert |sorted| == |times| by {
        calc { |sorted|; |multiset(sorted)|; |multiset(times)|; |times|; }
      }
      forall p | p in [50.0, 90.0, 95.0, 99.0]
        ensures Percentile(sorted, p) in times
      {
        PercentileIndexBounds(|sorted|, p, p);
        assert sorted[PercentileIndex(|sorted|, p)] in multiset(times);
      }
    }
  }
}
