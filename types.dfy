/**
 * The immutable records of a benchmark run: one SearchResult per query, the
 * LatencyStats and BenchmarkSummary computed over a batch, and the
 * BenchmarkResult that a run returns. Fields that the records declare with a
 * default value carry the same default here, so a record built without them
 * gets that default. The exception is `timestamp`, whose default reads the
 * clock; here it is an input.
 */
module Types {

  datatype Option<+T> = None | Some(value: T)

  /** A UTC wall-clock instant, as produced by the (unmodelled) clock. */
  type Timestamp = int

  /** Outcome of one query execution. */
  datatype SearchResult = SearchResult(
    success: bool,
    api: string,
    query: string,
    latencyMs: real,
    resultUrls: seq<string> := [],
    statusCode: Option<int> := None,
    error: Option<string> := None,
    timestamp: Timestamp)

  /** Latency statistics in milliseconds: exactly these seven figures. */
  datatype LatencyStats = LatencyStats(
    min: real,
    p50: real,
    p90: real,
    p95: real,
    p99: real,
    max: real,
    mean: real)

  /** Per-search-type breakdown; the core never fills it, so its values stay abstract text. */
  type Breakdown = map<string, map<string, string>>

  datatype BenchmarkSummary = BenchmarkSummary(
    totalQueries: nat,
    successfulQueries: nat,
    failedQueries: nat,
    latency: Option<LatencyStats> := None,
    bySearchType: Breakdown := map[])

  /** The execution mode of a run is one of exactly two values. */
  datatype ExecutionMode = Parallel | Sequential {
    function Name(): (s: string)
      ensures s == "parallel" || s == "sequential"
      ensures (s == "parallel") <==> this == Parallel
    {
      match this
      case Parallel => "parallel"
      case Sequential => "sequential"
    }
  }

  /** The backends a run may be labelled with. */
  datatype ApiName = ExaAuto | ExaFast | Brave | Perplexity | ParallelSearch {
    function Name(): string
    {
      match this
      case ExaAuto => "exa-auto"
      case ExaFast => "exa-fast"
      case Brave => "brave"
      case Perplexity => "perplexity"
      case ParallelSearch => "parallel"
    }
  }

  datatype BenchmarkResult = BenchmarkResult(
    api: string,
    executionMode: ExecutionMode,
    maxWorkers: int,
    queriesCount: nat,
    totalExecutionTimeMs: real,
    timestamp: Timestamp,
    summary: BenchmarkSummary,
    results: seq<SearchResult>)

  /**
   * A failed result built the way the executor builds it: only the error is
   * given, so the URL list and the status code take their defaults.
   */
  function FailedResult(api: string, query: string, latencyMs: real, message: string, at: Timestamp): (r: SearchResult)
    ensures !r.success && r.error == Some(message)
    ensures r.resultUrls == [] && r.statusCode == None
    ensures r.api == api && r.query == query && r.latencyMs == latencyMs && r.timestamp == at
  {
    SearchResult(success := false, api := api, query := query, latencyMs := latencyMs,
                 error := Some(message), timestamp := at)
  }

  /** A summary built from the three counts alone: no latency statistics and no breakdown. */
  function CountsOnlySummary(total: nat, successful: nat, failed: nat): (s: BenchmarkSummary)
    ensures s.latency == None && s.bySearchType == map[]
    ensures s.totalQueries == total && s.successfulQueries == successful && s.failedQueries == failed
  {
    BenchmarkSummary(totalQueries := total, successfulQueries := successful, failedQueries := failed)
  }

  /** The two-sided invariant of a result: an error is recorded exactly when the query failed, and URLs only on success. */
  predicate WellFormedResult(r: SearchResult)
  {
    && (r.error.Some? <==> !r.success)
    && (r.resultUrls != [] ==> r.success)
  }
}
