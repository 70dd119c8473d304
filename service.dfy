/**
 * What the two web services and the command-line run share: the outside
 * world they read from, the analysis request and result, and the ways an
 * analysis can fail.
 */
module Service {
  import opened Wrappers
  import Sentiment
  import Batching
  import Returns
  import Compositor
  import Benchmark
  import Performance

  type Symbol = string

  /**
   * Everything the pipeline obtains from outside: the rows `read_csv` parses
   * from a URL (None when it raises), the batch download for a list of
   * tickers and a date range, the single-ticker benchmark download, and the
   * numeric functions, left uninterpreted.
   */
  datatype World = World(
    readCsv: string -> Option<seq<Sentiment.Record>>,
    download: (seq<Symbol>, string, string) -> Batching.Fetch,
    downloadOne: (string, string, string) -> Batching.Fetch,
    ln: real -> real,
    sqrt: real -> real,
    exp: real -> real)

  /** The batch download for one date range. */
  function Fetcher(w: World, startDate: string, endDate: string): (f: seq<Symbol> -> Batching.Fetch)
    ensures forall b :: f(b) == w.download(b, startDate, endDate)
  {
    b => w.download(b, startDate, endDate)
  }

  /** The portfolio request; it is also the key of the result cache. */
  datatype PortfolioRequest = PortfolioRequest(
    sentimentUrl: string,
    startDate: string,
    endDate: string,
    topN: int,
    benchmarkTicker: string)

  /** What a successful analysis reports. */
  datatype Analysis = Analysis(
    summary: Performance.Summary,
    numberOfPeriods: nat,
    uniqueStocksAnalyzed: nat,
    composition: Sentiment.Composition,
    request: PortfolioRequest)

  /** Why an analysis stopped: the exception that escaped the computation. */
  datatype Cause =
    | ReadFailed                            // read_csv raised
    | Stage(stage: Sentiment.StageError)    // a timestamp pandas cannot hold
    | Http(status: int)                     // an HTTPException raised inside the handler
    | Batch(batch: Batching.BatchError)     // range() with a zero step
    | Select(select: Returns.SelectError)   // 'Adj Close' at neither level
    | Compose(compose: Compositor.ComposeError)
    | Bench(bench: Benchmark.BenchError)
    | Merge(merge: Performance.MergeError)
    | NotATable                             // `.columns` asked of a Series

  /** The handlers' blanket `except`: every failure leaves as an HTTP error with this status. */
  const InternalError: int := 500

  datatype ApiError = ApiError(status: int, cause: Cause)

  /** The handler's answer: the result, or its failure re-raised with status 500. */
  function Served<T>(a: Result<T, Cause>): (r: Result<T, ApiError>)
    ensures a.Success? <==> r.Success?
    ensures a.Success? ==> r.value == a.value
    ensures a.Failure? ==> r.error == ApiError(InternalError, a.error)
  {
    match a
    case Success(v) => Success(v)
    case Failure(c) => Failure(ApiError(InternalError, c))
  }

  /** The cache after a computed analysis: written only when it succeeded. */
  function Stored(cache: map<PortfolioRequest, Analysis>, key: PortfolioRequest, a: Result<Analysis, Cause>)
      : (c: map<PortfolioRequest, Analysis>)
    ensures a.Failure? ==> c == cache
    ensures a.Success? ==> c == cache[key := a.value]
  {
    if a.Success? then cache[key := a.value] else cache
  }
}
