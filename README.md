# search-latency-bench core, modelled in Dafny

This project models the benchmark harness of `search-latency-bench`. The harness sends a list of search queries to one search engine, records each query's outcome, and reduces the batch to latency statistics. The model covers four parts:

- **Per-query executor** (`process_single_query`). It turns one engine call into a `SearchResult` and never lets an `Exception` raised by the engine escape. On failure it increments the run's live failure counter.
- **Batch scheduler** (`process_batch`, `process_batch_parallel`). It takes the parallel path only when asked to and there is more than one query. Otherwise it runs the queries one at a time, advances the progress task after each one, and pauses 100 ms after each one when the batch has more than one query.
- **Statistics aggregator** (`calculate_summary_stats`). It splits the results into successes and failures. Over the successful latencies only, it computes min, max, mean and the inclusive-method percentiles p50/p90/p95/p99 (`statistics.quantiles(n=100, method="inclusive")`).
- **Run record** (`run_benchmark`). It builds the `BenchmarkResult` from the flags, the batch and its summary.

It also models the records of `types.py` as datatypes with their defaults, and the Brave engine's response classification:

- status 422 means "no results";
- any other status except 200 is an error naming the query and the status;
- a 200 response yields the `url` of each entry of `web.results`.

Files:

- `types.dfy` (module `Types`): `SearchResult`, `LatencyStats` (exactly seven fields), `BenchmarkSummary`, `BenchmarkResult`, the two-valued `ExecutionMode`, and the API names.
- `engine.dfy` (module `Engine`): a search engine is an oracle. It is a total function from `(query, num_results)` to either a URL list or the text of the exception it raises.
- `statistics.dfy` (module `Statistics`): sorting, `min`, `max`, exact `mean`, and the inclusive quantiles. For sorted data `d`, `m = |d| - 1` and cut `i` in 1..99: `j, delta = divmod(i*m, 100)` and `q = (d[j]*(100-delta) + d[j+1]*delta)/100`.
- `decimal.dfy` (module `Decimal`): decimal text of integers and its parser, used to state that an error message names the HTTP status.
- `brave.dfy` (module `Brave`): the body of `BraveSearchEngine.__call__` as a function of the endpoint's response (status code and decoded JSON body).
- `benchmark.dfy` (module `Benchmark`): the executor, the scheduler, the aggregator and the run.

State the source updates in place is modelled as classes:

- `BenchmarkProgress.failedCount` is the live failure counter.
- `ProgressTask.completed` is the progress bar's advance count.

The executor and both batch paths are methods that modify only these objects. Each method is proved against the pure functions `Execute` and `BatchResults`. The aggregator and the run record are functions and lemmas.

Inputs the model takes as parameters:

- The clock is a parameter. `clock(i)` gives the latency measured around the i-th query's engine call and the instant its result was stamped. `RunBenchmark` takes the measured batch time and the final stamp as inputs.
- `asyncio.sleep` calls are counted and returned as `pauses`.

Two facts about the source that the model makes explicit:

- In the parallel path, `asyncio.gather` returns results in input order, whatever order the queries complete in (`benchmark.py:83`).
- The sequential path pauses after every query, including the last, whenever there is more than one query (`benchmark.py:113-114`). So a 3-query batch makes 3 pauses.

## Model

| member | source | states |
|---|---|---|
| `Types.FailedResult` | search_latency_bench/types.py:7-15 | a failed result built with only its error has the default empty URL list and no status code |
| `Types.CountsOnlySummary` | search_latency_bench/types.py:33-38 | a summary built from its counts alone has no latency statistics and an empty per-search-type breakdown |
| `Types.ExecutionMode.Name` | search_latency_bench/types.py:43 | the execution mode is "parallel" or "sequential", and "parallel" exactly for the parallel mode |
| `Benchmark.BenchmarkProgress.constructor` | search_latency_bench/benchmark.py:13-15 | the failure counter starts at 0 |
| `Benchmark.ProgressTask.Advance` | search_latency_bench/benchmark.py:80 | a progress update advances the task by exactly one step and leaves its total alone |
| `Benchmark.Execute` | search_latency_bench/benchmark.py:27-56 | every engine outcome gives a well-formed result for that query. Engine returns: success, the engine's URLs, status 200. Engine raises: failure, the exception text, no URLs, no status. Success holds exactly when the engine returns |
| `Benchmark.ProcessSingleQuery` | search_latency_bench/benchmark.py:18-56 | returns the `Execute` result for every engine outcome (an `Exception` from the engine never escapes), and increments the failure counter by one exactly when the query fails |
| `Benchmark.BatchResults` | search_latency_bench/benchmark.py:97-116 | one result per query, with result i for query i; result i succeeds exactly when the engine returns on query i |
| `Benchmark.BatchFailures` | search_latency_bench/benchmark.py:46-47 | the failed results of a batch are exactly as many as the queries on which the engine raises |
| `Benchmark.BoundedProcess` | search_latency_bench/benchmark.py:71-81 | runs one query, counts its failure, and advances the progress task exactly once |
| `Benchmark.ProcessBatchParallel` | search_latency_bench/benchmark.py:59-83 | results are the batch results in input order, none dropped or repeated; the counter grows by the number of failed results; the task advances once per query |
| `Benchmark.ProcessSequential` | search_latency_bench/benchmark.py:102-116 | the sequential loop gives the batch results in input order, grows the counter by the number of failed results, advances the task once per query, and pauses once after every query when there is more than one query and never otherwise |
| `Benchmark.ProcessBatch` | search_latency_bench/benchmark.py:86-116 | both paths give the batch results in input order and advance progress once per query. The counter grows by the number of failures. Pauses are n when the sequential path runs with n > 1 queries, and 0 otherwise (parallel path or a single query) |
| `Benchmark.Successful` | search_latency_bench/benchmark.py:120 | the successful results are exactly the results with `success` set, each kept as many times as it occurs among the results |
| `Benchmark.SuccessesAndFailuresPartition` | search_latency_bench/benchmark.py:120-134 | successes plus failures equal the number of results |
| `Benchmark.Summarize` | search_latency_bench/benchmark.py:119-161 | total is the number of results; successful + failed = total; failed equals the number of failed results; latency is absent exactly when nothing succeeded |
| `Benchmark.FailedLatencyKeepsCounts` | search_latency_bench/benchmark.py:120-134 | changing the latency of a failed result leaves the list of successes and the failure count unchanged |
| `Benchmark.FailedLatencyIrrelevant` | search_latency_bench/benchmark.py:120-159 | the latency a failed result carries has no effect on the summary: the statistics are computed over the successful results' latencies only |
| `Benchmark.Stats` | search_latency_bench/benchmark.py:137-159 | min, max and mean are the least latency, the greatest latency and the exact mean, also in the single-latency branch, which does not call `min`, `max` or `mean` |
| `Benchmark.StatsOrdered` | search_latency_bench/benchmark.py:137-159 | min <= p50 <= p90 <= p95 <= p99 <= max and min <= mean <= max; min and max are the least and greatest latency; a single latency gives all seven figures |
| `Benchmark.SummaryLatencyOrdered` | search_latency_bench/benchmark.py:137-159 | a summary's latency figures are ordered and bracket every successful latency |
| `Benchmark.OnlySuccess` | search_latency_bench/benchmark.py:120 | when every result but one has failed, the successful results are exactly that one |
| `Benchmark.SingleSuccessStats` | search_latency_bench/benchmark.py:138-148 | with exactly one success, all seven statistics equal that query's latency |
| `Benchmark.InclusivePercentileExample` | search_latency_bench/benchmark.py:150-156 | for latencies 10, 20, ..., 1000, p50 is 505 and p99 is 990.1 (inclusive interpolation, not nearest rank) |
| `Benchmark.RunBenchmark` | search_latency_bench/benchmark.py:164-208 | the mode is "parallel" exactly when the flag is set (even for one query). Workers are `max_workers` if parallel, else 1. `queries_count = len(queries) = len(results)`. The results are the batch results and the summary is computed from them. The record is internally consistent |
| `Benchmark.BraveNoResultsIsSuccess` | search_latency_bench/engines/brave.py:36-37 | a 422 from Brave becomes a successful result with no URLs and no error |
| `Benchmark.BraveHttpErrorIsFailure` | search_latency_bench/engines/brave.py:39-40 | any other status than 200 and 422 becomes a failed result whose error is the message naming the query and the status |
| `Statistics.Sort` | search_latency_bench/benchmark.py:150 | the data `quantiles` works on is an ascending permutation of the latencies |
| `Statistics.Min` | search_latency_bench/benchmark.py:152 | `min` is a latency no larger than any other |
| `Statistics.Max` | search_latency_bench/benchmark.py:157 | `max` is a latency no smaller than any other |
| `Statistics.MeanBounds` | search_latency_bench/benchmark.py:158 | the exact mean lies between min and max |
| `Statistics.CutPosition` | search_latency_bench/benchmark.py:150 | `divmod(i*m, 100)` puts every cut i in 1..99 at a sample j with j+1 still in range |
| `Statistics.InclusiveCutBounds` | search_latency_bench/benchmark.py:150 | each inclusive cut point of sorted data lies between its first and last sample |
| `Statistics.InclusiveCutMonotone` | search_latency_bench/benchmark.py:150 | inclusive cut points never decrease as the cut index grows |
| `Statistics.Quantiles` | search_latency_bench/benchmark.py:150 | `quantiles(n=100)` yields 99 cut points, so indices 49, 89, 94, 98 exist |
| `Statistics.QuantilesOrdered` | search_latency_bench/benchmark.py:150-156 | the 99 quantiles ascend and lie between min and max |
| `Decimal.ParseIntText` | search_latency_bench/engines/brave.py:40 | the decimal text of a status code reads back as that status |
| `Brave.HttpErrorMessage` | search_latency_bench/engines/brave.py:40 | the error message is its fixed prefix, then the query, then the fixed infix, then text from which the status reads back |
| `Brave.UrlValues` | search_latency_bench/engines/brave.py:44 | the comprehension succeeds exactly when every entry is an object, and then gives one url value per entry, in order |
| `Brave.Search` | search_latency_bench/engines/brave.py:27-44 | 422 gives an empty list; any status but 200 and 422 raises the HTTP error message; on 200 a list comes back exactly when the body is usable |
| `Brave.SearchFailsExactly` | search_latency_bench/engines/brave.py:36-40 | the engine raises exactly for a status other than 200 and 422, or an unusable 200 body; 422 never raises because its check comes first |
| `Brave.SearchListsEveryEntry` | search_latency_bench/engines/brave.py:42-44 | a 200 body whose `web.results` is a list of objects gives one URL per entry in order, with "" where `url` is missing |
| `Brave.SearchMissingKeysYieldNothing` | search_latency_bench/engines/brave.py:43 | a 200 body without `web`, or whose `web` has no `results`, gives an empty list and no error |

## Left out

- Wall-clock time (`time.time`, `datetime.now`) is an input. Per-query latency and stamp come from `clock(i)`. The batch time and the final stamp are parameters of `RunBenchmark`. No relation such as "total time >= slowest query" is claimed, because the clock is not monotonic.
- `asyncio.Semaphore` and the scheduling of `asyncio.gather`, including the bound of `max_workers` queries in flight, are concurrency. The parallel path is modelled as an order-preserving map whose tasks run in submission order. The final counter value and advance count do not depend on the interleaving; the values shown while the batch runs do.
- Benchmark.ProcessBatchParallel: requires `max_workers >= 1`. The source does not check it: `Semaphore(0)` never admits a task, so the run hangs, and a negative value raises `ValueError` out of `run_benchmark`.
- Benchmark.ProcessBatch: requires `max_workers >= 1` when the parallel path is taken, for the same reason.
- Benchmark.RunBenchmark: requires `max_workers >= 1` when the parallel path is taken, for the same reason.
- The duration of `asyncio.sleep(0.1)` is not modelled. Only the number of pauses is counted, returned as `pauses`.
- The rich `Progress` display is left out: its description text ("N failed") and its rendering are not modelled. A present `(progress, task_id)` pair is a non-null `ProgressTask`; its advance count is modelled.
- Latencies are exact reals. Float rounding in `mean` and `quantiles`, NaN and infinities are not modelled.
- Only `Exception` subclasses are caught (benchmark.py:42). A `BaseException` raised in the engine call propagates out of the run; examples are `asyncio.CancelledError` and `KeyboardInterrupt`. The engine oracle models only `Exception`s.
- The engine is a deterministic function of `(query, num_results)`. A batch that repeats a query therefore gets the same outcome for every repetition, whereas a real engine may answer differently each time.
- The text of Python's own exceptions for malformed Brave bodies is not modelled. This covers invalid JSON, `.get` on a non-object, non-iterable `results`, and the result record rejecting a non-string url. `Brave.Describe` gives a fixed description per cause. The HTTP error message is modelled exactly.
- Brave: JSON numbers are one kind (no int/float distinction). A non-string `url` is reported by the Brave model itself; in the source, the `SearchResult` validation inside the executor's `try` rejects it. Both become a failed result.
- Brave: the lazily created HTTP client, its `__del__` cleanup, the API key lookup, transport errors and timeouts are left out. Transport errors and timeouts reach the executor as raised exceptions, which the engine oracle already covers.
- `run_benchmark` takes its API name from the five names of the source's `Literal`. At the executor level the name is any string, as in the source.
- `by_search_type` is never filled by the core. Its values (`Any` in the source) are modelled as text.
- The command-line interface, query loading and generation, dataset streaming, result printing and the Exa, Perplexity and Parallel engines are not part of this model. They are I/O, UI and vendor SDK wrappers.
