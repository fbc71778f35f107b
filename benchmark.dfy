/**
 * The benchmark harness: the per-query executor, which turns an engine call
 * into a SearchResult and never lets a failure escape; the batch scheduler,
 * which runs a list of queries either in parallel or one after another; the
 * statistics aggregator; and the run that ties them together into a
 * BenchmarkResult.
 *
 * The clock is an input: `clock(i)` is the latency measured around the i-th
 * query's engine call and the instant its result was stamped. The parallel
 * path's worker bound is concurrency and is not modelled; `asyncio.gather`
 * lists results in the order of its arguments, the tasks share only the
 * failure counter and the progress task, and the final values of both do
 * not depend on the interleaving, so the model runs the tasks in
 * submission order.
 */
module Benchmark {

  import opened Types
  import opened Engine
  import opened Statistics
  import Brave

  datatype Timing = Timing(latencyMs: real, finishedAt: Timestamp)

  type Clock = nat -> Timing

  /** The live failure counter shared by the queries of one run. */
  class BenchmarkProgress {
    var failedCount: int

    constructor ()
      ensures failedCount == 0
    {
      failedCount := 0;
    }
  }

  /** A task of the progress display, reduced to the number of steps it has advanced. */
  class ProgressTask {
    var total: nat
    var completed: nat

    constructor (total: nat)
      ensures this.total == total && completed == 0
    {
      this.total := total;
      completed := 0;
    }

    method Advance()
      modifies this
      ensures completed == old(completed) + 1 && total == old(total)
    {
      completed := completed + 1;
    }
  }

  // ---------------------------------------------------------------------------
  // Per-query executor

  /**
   * The result of one query: a success carrying the engine's URLs and status
   * 200 when the engine returns, a failure carrying the exception text, no
   * URLs and no status when it raises. Either way the result is well formed.
   */
  function Execute(engine: SearchEngine, query: string, numResults: int, api: string, t: Timing): (r: SearchResult)
    ensures WellFormedResult(r)
    ensures r.api == api && r.query == query && r.latencyMs == t.latencyMs && r.timestamp == t.finishedAt
    ensures r.success <==> engine(query, numResults).Urls?
    ensures r.success ==> r.resultUrls == engine(query, numResults).urls && r.statusCode == Some(200)
    ensures !r.success ==> r.error == Some(engine(query, numResults).message) && r.resultUrls == [] && r.statusCode == None
  {
    match engine(query, numResults)
    case Urls(urls) =>
      SearchResult(success := true, api := api, query := query, latencyMs := t.latencyMs,
                   resultUrls := urls, statusCode := Some(200), timestamp := t.finishedAt)
    case Raised(message) =>
      FailedResult(api, query, t.latencyMs, message, t.finishedAt)
  }

  /** `process_single_query`: returns a result for every engine outcome and counts a failure exactly once. */
  method ProcessSingleQuery(engine: SearchEngine, query: string, numResults: int, api: string, t: Timing,
                            progress: BenchmarkProgress?) returns (r: SearchResult)
    modifies progress
    ensures r == Execute(engine, query, numResults, api, t)
    ensures progress != null ==> progress.failedCount == old(progress.failedCount) + (if r.success then 0 else 1)
  {
    var outcome := engine(query, numResults);
    match outcome {
      case Urls(urls) =>
        r := SearchResult(success := true, api := api, query := query, latencyMs := t.latencyMs,
                          resultUrls := urls, statusCode := Some(200), timestamp := t.finishedAt);
      case Raised(message) =>
        if progress != null {
          progress.failedCount := progress.failedCount + 1;
        }
        r := FailedResult(api, query, t.latencyMs, message, t.finishedAt);
    }
  }

  // ---------------------------------------------------------------------------
  // Counting results

  /** The number of failed results. */
  function FailedCount(results: seq<SearchResult>): (n: nat)
    ensures n <= |results|
  {
    if results == [] then 0
    else FailedCount(results[..|results| - 1]) + (if results[|results| - 1].success then 0 else 1)
  }

  lemma FailedCountAppend(results: seq<SearchResult>, r: SearchResult)
    ensures FailedCount(results + [r]) == FailedCount(results) + (if r.success then 0 else 1)
  {
    assert (results + [r])[..|results|] == results;
  }

  /** `[r for r in results if r.success]`. */
  function Successful(results: seq<SearchResult>): (ok: seq<SearchResult>)
    ensures |ok| <= |results|
    ensures forall r :: r in ok ==> r in results && r.success
    ensures forall r :: r in results && r.success ==> r in ok
    ensures forall r :: multiset(ok)[r] == if r.success then multiset(results)[r] else 0
  {
    if results == [] then []
    else
      var last := results[|results| - 1];
      assert results == results[..|results| - 1] + [last];
      assert multiset(results) == multiset(results[..|results| - 1]) + multiset{last};
      Successful(results[..|results| - 1]) + (if last.success then [last] else [])
  }

  /** Changing the latency of a failed result changes neither the successes nor the failure count. */
  lemma {:induction false} FailedLatencyKeepsCounts(results: seq<SearchResult>, k: nat, x: real)
    requires k < |results| && !results[k].success
    ensures Successful(results[k := results[k].(latencyMs := x)]) == Successful(results)
    ensures FailedCount(results[k := results[k].(latencyMs := x)]) == FailedCount(results)
  {
    var changed := results[k := results[k].(latencyMs := x)];
    var n := |results|;
    if k == n - 1 {
      assert changed[..n - 1] == results[..n - 1];
    } else {
      var prefix := results[..n - 1];
      assert changed[..n - 1] == prefix[k := prefix[k].(latencyMs := x)];
      FailedLatencyKeepsCounts(prefix, k, x);
    }
  }

  /** Every result is either a success or a failure. */
  lemma {:induction false} SuccessesAndFailuresPartition(results: seq<SearchResult>)
    ensures |Successful(results)| + FailedCount(results) == |results|
  {
    if results != [] {
      SuccessesAndFailuresPartition(results[..|results| - 1]);
    }
  }

  /** The number of queries on which the engine raises. */
  function RaisingCount(engine: SearchEngine, queries: seq<string>, numResults: int): nat
  {
    if queries == [] then 0
    else
      RaisingCount(engine, queries[..|queries| - 1], numResults)
      + (if engine(queries[|queries| - 1], numResults).Raised? then 1 else 0)
  }

  // ---------------------------------------------------------------------------
  // Batch scheduler

  /** The results of a batch: the i-th is the result of the i-th query. */
  function BatchResults(engine: SearchEngine, queries: seq<string>, numResults: int, api: string, clock: Clock): (rs: seq<SearchResult>)
    ensures |rs| == |queries|
    ensures forall i :: 0 <= i < |rs| ==> rs[i].query == queries[i] && rs[i].api == api && WellFormedResult(rs[i])
    ensures forall i :: 0 <= i < |rs| ==> (rs[i].success <==> engine(queries[i], numResults).Urls?)
  {
    var rs := seq(|queries|, i requires 0 <= i < |queries| => Execute(engine, queries[i], numResults, api, clock(i)));
    assert forall i :: 0 <= i < |rs| ==> rs[i] == Execute(engine, queries[i], numResults, api, clock(i));
    rs
  }

  /** A batch has exactly as many failures as there are queries on which the engine raises. */
  lemma {:induction false} BatchFailures(engine: SearchEngine, queries: seq<string>, numResults: int, api: string, clock: Clock)
    ensures FailedCount(BatchResults(engine, queries, numResults, api, clock)) == RaisingCount(engine, queries, numResults)
  {
    if queries != [] {
      var n := |queries|;
      var rs := BatchResults(engine, queries, numResults, api, clock);
      assert rs[..n - 1] == BatchResults(engine, queries[..n - 1], numResults, api, clock);
      BatchFailures(engine, queries[..n - 1], numResults, api, clock);
    }
  }

  /** The parallel path is taken only when asked for and there is more than one query. */
  predicate UsesParallelPath(parallel: bool, queryCount: nat)
  {
    parallel && queryCount > 1
  }

  /** `bounded_process`: one query, then one step of the progress task. */
  method BoundedProcess(engine: SearchEngine, query: string, numResults: int, api: string, t: Timing,
                        task: ProgressTask?, progress: BenchmarkProgress?) returns (r: SearchResult)
    modifies task, progress
    ensures r == Execute(engine, query, numResults, api, t)
    ensures progress != null ==> progress.failedCount == old(progress.failedCount) + (if r.success then 0 else 1)
    ensures task != null ==> task.completed == old(task.completed) + 1 && task.total == old(task.total)
  {
    r := ProcessSingleQuery(engine, query, numResults, api, t, progress);
    if task != null {
      task.Advance();
    }
  }

  /** `process_batch_parallel`: every query runs, none is dropped or repeated, results in input order. */
  method ProcessBatchParallel(engine: SearchEngine, queries: seq<string>, numResults: int, api: string,
                              maxWorkers: int, clock: Clock,
                              task: ProgressTask?, progress: BenchmarkProgress?) returns (results: seq<SearchResult>)
    requires maxWorkers >= 1
    modifies task, progress
    ensures results == BatchResults(engine, queries, numResults, api, clock)
    ensures progress != null ==> progress.failedCount == old(progress.failedCount) + FailedCount(results)
    ensures task != null ==> task.completed == old(task.completed) + |queries| && task.total == old(task.total)
  {
    results := [];
    for i := 0 to |queries|
      invariant |results| == i
      invariant forall k :: 0 <= k < i ==> results[k] == Execute(engine, queries[k], numResults, api, clock(k))
      invariant progress != null ==> progress.failedCount == old(progress.failedCount) + FailedCount(results)
      invariant task != null ==> task.completed == old(task.completed) + i && task.total == old(task.total)
    {
      var r := BoundedProcess(engine, queries[i], numResults, api, clock(i), task, progress);
      FailedCountAppend(results, r);
      results := results + [r];
    }
  }

  /**
   * The sequential loop of `process_batch`: queries one at a time in input
   * order, the progress task advanced after each, and a pause after each
   * when the batch holds more than one query. `pauses` counts the
   * `asyncio.sleep(0.1)` calls.
   */
  method ProcessSequential(engine: SearchEngine, queries: seq<string>, numResults: int, api: string, clock: Clock,
                           task: ProgressTask?, progress: BenchmarkProgress?) returns (results: seq<SearchResult>, pauses: nat)
    modifies task, progress
    ensures results == BatchResults(engine, queries, numResults, api, clock)
    ensures pauses == if |queries| > 1 then |queries| else 0
    ensures progress != null ==> progress.failedCount == old(progress.failedCount) + FailedCount(results)
    ensures task != null ==> task.completed == old(task.completed) + |queries| && task.total == old(task.total)
  {
    results, pauses := [], 0;
    for i := 0 to |queries|
      invariant |results| == i
      invariant forall k :: 0 <= k < i ==> results[k] == Execute(engine, queries[k], numResults, api, clock(k))
      invariant pauses == if |queries| > 1 then i else 0
      invariant progress != null ==> progress.failedCount == old(progress.failedCount) + FailedCount(results)
      invariant task != null ==> task.completed == old(task.completed) + i && task.total == old(task.total)
    {
      var r := ProcessSingleQuery(engine, queries[i], numResults, api, clock(i), progress);
      FailedCountAppend(results, r);
      results := results + [r];
      if task != null {
        task.Advance();
      }
      if |queries| > 1 {
        pauses := pauses + 1;
      }
    }
  }

  /**
   * `process_batch`: both paths give one result per query in input order and
   * advance the progress task once per query; only the sequential path
   * pauses, and only when there is more than one query.
   */
  method ProcessBatch(engine: SearchEngine, queries: seq<string>, numResults: int, api: string,
                      parallel: bool, maxWorkers: int, clock: Clock,
                      task: ProgressTask?, progress: BenchmarkProgress?) returns (results: seq<SearchResult>, pauses: nat)
    requires UsesParallelPath(parallel, |queries|) ==> maxWorkers >= 1
    modifies task, progress
    ensures results == BatchResults(engine, queries, numResults, api, clock)
    ensures pauses == if !UsesParallelPath(parallel, |queries|) && |queries| > 1 then |queries| else 0
    ensures progress != null ==> progress.failedCount == old(progress.failedCount) + FailedCount(results)
    ensures task != null ==> task.completed == old(task.completed) + |queries| && task.total == old(task.total)
  {
    if UsesParallelPath(parallel, |queries|) {
      results := ProcessBatchParallel(engine, queries, numResults, api, maxWorkers, clock, task, progress);
      pauses := 0;
    } else {
      results, pauses := ProcessSequential(engine, queries, numResults, api, clock, task, progress);
    }
  }

  // ---------------------------------------------------------------------------
  // Statistics aggregator

  /** `[r.latency_ms for r in successful]`. */
  function Latencies(results: seq<SearchResult>): (lat: seq<real>)
    ensures |lat| == |results|
  {
    seq(|results|, i requires 0 <= i < |results| => results[i].latencyMs)
  }

  /** The seven latency figures of at least one latency. */
  function Stats(lat: seq<real>): (st: LatencyStats)
    requires |lat| >= 1
    ensures st.min == Min(lat) && st.max == Max(lat) && st.mean == Mean(lat)
  {
    if |lat| == 1 then
      assert Sum(lat) == lat[0] + Sum(lat[1..]);
      LatencyStats(lat[0], lat[0], lat[0], lat[0], lat[0], lat[0], lat[0])
    else
      var q := Quantiles(lat);
      LatencyStats(Min(lat), q[49], q[89], q[94], q[98], Max(lat), Mean(lat))
  }

  /** `calculate_summary_stats`. */
  function Summarize(results: seq<SearchResult>): (s: BenchmarkSummary)
    ensures s.totalQueries == |results|
    ensures s.successfulQueries + s.failedQueries == s.totalQueries
    ensures s.failedQueries == FailedCount(results)
    ensures s.latency.None? <==> s.successfulQueries == 0
    ensures s.bySearchType == map[]
  {
    var ok := Successful(results);
    SuccessesAndFailuresPartition(results);
    if |ok| == 0 then
      CountsOnlySummary(|results|, 0, |results|)
    else
      CountsOnlySummary(|results|, |ok|, |results| - |ok|).(latency := Some(Stats(Latencies(ok))))
  }

  /** The latency figures are ordered: min <= p50 <= p90 <= p95 <= p99 <= max, with the mean between min and max. */
  predicate Ordered(st: LatencyStats)
  {
    && st.min <= st.p50 <= st.p90 <= st.p95 <= st.p99 <= st.max
    && st.min <= st.mean <= st.max
  }

  /**
   * The statistics of a batch of latencies are ordered; min and max are the
   * least and greatest latency; a single latency gives all seven figures.
   */
  lemma StatsOrdered(lat: seq<real>)
    requires |lat| >= 1
    ensures Ordered(Stats(lat))
    ensures Stats(lat).min in lat && Stats(lat).max in lat
    ensures forall x :: x in lat ==> Stats(lat).min <= x <= Stats(lat).max
    ensures |lat| == 1 ==> Stats(lat) == LatencyStats(lat[0], lat[0], lat[0], lat[0], lat[0], lat[0], lat[0])
  {
    if |lat| >= 2 {
      QuantilesOrdered(lat);
      MeanBounds(lat);
      var q := Quantiles(lat);
      assert q[49] <= q[89] <= q[94] <= q[98];
      assert Min(lat) <= q[49] && q[98] <= Max(lat);
    }
  }

  /** The latency a failed result carries has no effect on the summary: only successful latencies are aggregated. */
  lemma FailedLatencyIrrelevant(results: seq<SearchResult>, k: nat, x: real)
    requires k < |results| && !results[k].success
    ensures Summarize(results[k := results[k].(latencyMs := x)]) == Summarize(results)
  {
    FailedLatencyKeepsCounts(results, k, x);
  }

  /** Unfolds the summary's latency figures: the statistics of the successful results' latencies. */
  lemma SummaryLatency(results: seq<SearchResult>)
    ensures Summarize(results).latency ==
              if |Successful(results)| == 0 then None else Some(Stats(Latencies(Successful(results))))
  {
  }

  /** Every successful result's latency is among the latencies the summary aggregates. */
  lemma SuccessfulLatencyAggregated(results: seq<SearchResult>, r: SearchResult)
    requires r in results && r.success
    ensures r.latencyMs in Latencies(Successful(results))
  {
    var ok := Successful(results);
    var k :| 0 <= k < |ok| && ok[k] == r;
    assert Latencies(ok)[k] == r.latencyMs;
  }

  /** Whenever a summary has latency figures, they are ordered and bound every successful latency. */
  lemma SummaryLatencyOrdered(results: seq<SearchResult>)
    ensures Summarize(results).latency.Some? ==>
              var st := Summarize(results).latency.value;
              && Ordered(st)
              && forall r :: r in results && r.success ==> st.min <= r.latencyMs <= st.max
  {
    var ok := Successful(results);
    SummaryLatency(results);
    if |ok| > 0 {
      var lat := Latencies(ok);
      StatsOrdered(lat);
      forall r | r in results && r.success
        ensures Stats(lat).min <= r.latencyMs <= Stats(lat).max
      {
        SuccessfulLatencyAggregated(results, r);
      }
    }
  }

  /** When every result but one has failed, that one is the only success. */
  lemma OnlySuccess(results: seq<SearchResult>, k: nat)
    requires k < |results| && results[k].success
    requires FailedCount(results) == |results| - 1
    ensures Successful(results) == [results[k]]
  {
    var ok := Successful(results);
    SuccessesAndFailuresPartition(results);
    assert |ok| == 1;
    assert results[k] in results;
    assert results[k] in ok;
    assert ok == [ok[0]];
  }

  /** A single latency gives seven equal figures. */
  lemma SingleLatencyStats(x: real)
    ensures Stats([x]) == LatencyStats(x, x, x, x, x, x, x)
  {
  }

  /** With exactly one successful query, all seven figures equal its latency. */
  lemma SingleSuccessStats(results: seq<SearchResult>, k: nat)
    requires k < |results| && results[k].success
    requires FailedCount(results) == |results| - 1
    ensures Summarize(results).successfulQueries == 1
    ensures Summarize(results).latency == Some(LatencyStats(results[k].latencyMs, results[k].latencyMs,
              results[k].latencyMs, results[k].latencyMs, results[k].latencyMs, results[k].latencyMs, results[k].latencyMs))
  {
    OnlySuccess(results, k);
    SummaryLatency(results);
    assert Latencies([results[k]]) == [results[k].latencyMs];
    SingleLatencyStats(results[k].latencyMs);
  }

  /** The latencies 10, 20, ..., 1000 ms. */
  function Tenfold(): (lat: seq<real>)
    ensures |lat| == 100 && SortedAsc(lat)
    ensures forall k :: 0 <= k < 100 ==> lat[k] == (10 * (k + 1)) as real
  {
    seq(100, k requires 0 <= k < 100 => (10 * (k + 1)) as real)
  }

  /** Stats reads its percentiles from the inclusive cut points of the sorted latencies. */
  lemma TenfoldPercentile(k: nat)
    requires k < Cuts - 1
    ensures Quantiles(Tenfold())[k] == InclusiveCut(Tenfold(), k + 1)
  {
    SortOfSorted(Tenfold());
    QuantileAt(Tenfold(), k);
  }

  lemma TenfoldCuts()
    ensures InclusiveCut(Tenfold(), 50) == 505.0
    ensures InclusiveCut(Tenfold(), 99) == 990.1
  {
    var lat := Tenfold();
    assert CutPosition(50, 99) == (49, 50);
    assert CutPosition(99, 99) == (98, 1);
    assert lat[49] == 500.0 && lat[50] == 510.0;
    assert lat[98] == 990.0 && lat[99] == 1000.0;
  }

  /** For latencies 10, 20, ..., 1000 ms, p50 is the inclusive 50th percentile 505, not a nearest-rank value, and p99 is 990.1. */
  lemma InclusivePercentileExample()
    ensures Stats(Tenfold()).p50 == 505.0 && Stats(Tenfold()).p99 == 990.1
  {
    TenfoldCuts();
    TenfoldPercentile(49);
    TenfoldPercentile(98);
  }

  // ---------------------------------------------------------------------------
  // Run record

  /** A run record is internally consistent. */
  predicate ConsistentRun(run: BenchmarkResult)
  {
    && run.queriesCount == |run.results| == run.summary.totalQueries
    && run.summary.successfulQueries + run.summary.failedQueries == run.summary.totalQueries
    && run.summary.failedQueries == FailedCount(run.results)
    && (run.summary.latency.None? <==> run.summary.successfulQueries == 0)
    && (run.executionMode == Sequential ==> run.maxWorkers == 1)
    && forall i :: 0 <= i < |run.results| ==> WellFormedResult(run.results[i])
  }

  /**
   * `run_benchmark`: runs the batch with a fresh failure counter and a
   * progress task sized to the batch, summarises it and records the run.
   * `elapsedMs` is the measured wall-clock time of the batch and `finishedAt`
   * the instant the record is stamped.
   */
  method RunBenchmark(engine: SearchEngine, queries: seq<string>, numResults: int, api: ApiName,
                      parallel: bool, maxWorkers: int, clock: Clock,
                      elapsedMs: real, finishedAt: Timestamp) returns (run: BenchmarkResult)
    requires UsesParallelPath(parallel, |queries|) ==> maxWorkers >= 1
    ensures run.api == api.Name()
    ensures run.executionMode == Parallel <==> parallel
    ensures run.executionMode.Name() == (if parallel then "parallel" else "sequential")
    ensures run.maxWorkers == (if parallel then maxWorkers else 1)
    ensures run.queriesCount == |queries|
    ensures run.results == BatchResults(engine, queries, numResults, api.Name(), clock)
    ensures run.summary == Summarize(run.results)
    ensures run.totalExecutionTimeMs == elapsedMs && run.timestamp == finishedAt
    ensures ConsistentRun(run)
  {
    var progress := new BenchmarkProgress();
    var task := new ProgressTask(|queries|);
    var results, pauses := ProcessBatch(engine, queries, numResults, api.Name(), parallel, maxWorkers, clock, task, progress);
    // The live counter ends equal to the number of failed results, and the
    // progress task ends complete.
    assert progress.failedCount == FailedCount(results);
    assert task.completed == task.total;
    var summary := Summarize(results);
    run := BenchmarkResult(
      api := api.Name(),
      executionMode := if parallel then Parallel else Sequential,
      maxWorkers := if parallel then maxWorkers else 1,
      queriesCount := |queries|,
      totalExecutionTimeMs := elapsedMs,
      timestamp := finishedAt,
      summary := summary,
      results := results);
  }

  // ---------------------------------------------------------------------------
  // The executor over the Brave engine

  /** A 422 ("no results") from the Brave endpoint is a successful query with no URLs, not a failure. */
  lemma BraveNoResultsIsSuccess(server: Brave.Server, query: string, numResults: int, api: string, t: Timing)
    requires server(query, numResults).statusCode == Brave.NoResultsStatus
    ensures var r := Execute(Brave.AsEngine(server), query, numResults, api, t);
            r.success && r.resultUrls == [] && r.statusCode == Some(200) && r.error == None
  {
  }

  /** Any status but 200 and 422 is a failed query whose error names the query and the status. */
  lemma BraveHttpErrorIsFailure(server: Brave.Server, query: string, numResults: int, api: string, t: Timing)
    requires server(query, numResults).statusCode != Brave.NoResultsStatus
    requires server(query, numResults).statusCode != Brave.OkStatus
    ensures var r := Execute(Brave.AsEngine(server), query, numResults, api, t);
            !r.success && r.resultUrls == [] && r.statusCode == None &&
            r.error == Some(Brave.HttpErrorMessage(query, server(query, numResults).statusCode))
  {
  }
}
