/**
 * `ParallelPortfolioEngine`: the object the Ray service and the command-line
 * run drive. It owns the batch size and the sentiment processor it creates
 * for each run; the remote calls it issues are modelled as ordinary calls
 * whose results are collected in submission order.
 */
module Engine {
  import opened Wrappers
  import opened Frames
  import Sentiment
  import Batching
  import Returns
  import Compositor
  import Benchmark
  import opened Service

  /** `filter_top_stocks` is called without an argument, so its default applies. */
  const DefaultTopN: int := 5

  /**
   * The sentiment stage as a whole: a failing read, a date pandas cannot
   * hold, or the composition of the rows with the given cut.
   */
  function SentimentStage(csv: Option<seq<Sentiment.Record>>, topN: int): (r: Result<Sentiment.Composition, Cause>)
    ensures csv.None? ==> r == Failure(ReadFailed)
    ensures csv.Some? ==> (r.Success? <==> Sentiment.AllRepresentable(csv.value))
    ensures csv.Some? && r.Failure? ==> r.error == Stage(Sentiment.OutOfBoundsDatetime)
    ensures r.Success? ==> Sentiment.WellFormedComposition(r.value)
  {
    match csv
    case None => Failure(ReadFailed)
    case Some(rows) =>
      if !Sentiment.AllRepresentable(rows) then Failure(Stage(Sentiment.OutOfBoundsDatetime))
      else
        Sentiment.BuildCompositionWellFormed(rows, topN);
        Success(Sentiment.BuildComposition(rows, topN))
  }

  class ParallelPortfolioEngine {
    var batchSize: int
    var processor: Sentiment.SentimentProcessor?

    constructor(batchSize: int)
      ensures this.batchSize == batchSize && processor == null
    {
      this.batchSize := batchSize;
      processor := null;
    }

    /**
     * `process_sentiment_data_sync`: a fresh processor runs load, aggregate,
     * filter (with the default cut) and the dictionary build, in that order;
     * the first step that raises ends the run.
     */
    method ProcessSentimentDataSync(csv: Option<seq<Sentiment.Record>>) returns (r: Result<Sentiment.Composition, Cause>)
      modifies this
      ensures r == SentimentStage(csv, DefaultTopN)
      ensures batchSize == old(batchSize)
      ensures processor != null && fresh(processor)
    {
      var p := new Sentiment.SentimentProcessor();
      processor := p;
      if csv.None? {
        return Failure(ReadFailed);
      }
      var loaded := p.LoadSentimentData(csv.value);
      if loaded.Failure? {
        return Failure(Stage(loaded.error));
      }
      var aggregated := p.AggregateSentiment();
      var filtered := p.FilterTopStocks(DefaultTopN);
      var dates := p.GetPortfolioDates();
      r := Success(dates.value);
    }

    /** `download_stock_data_parallel`: exclude, batch by this engine's size, download, combine. */
    method DownloadStockDataParallel(fetch: seq<Symbol> -> Batching.Fetch, stocks: seq<Symbol>)
        returns (r: Result<Table, Batching.BatchError>)
      ensures r == Batching.DownloadParallel(fetch, stocks, batchSize)
      ensures batchSize > 0 ==> r.Success?
    {
      var kept := Batching.Exclude(stocks);
      var batches := Batching.Chunks(kept, batchSize);
      if batches.Failure? {
        return Failure(batches.error);
      }
      var results := Batching.DownloadAll(fetch, batches.value);
      r := Success(Batching.Combine(results));
    }

    /**
     * `calculate_portfolio_performance`: the guarded return preparation,
     * then the compositor over batches of five keys.
     */
    method CalculatePortfolioPerformance(prices: Table, comp: Sentiment.Composition, ln: real -> real)
        returns (r: Result<seq<Compositor.Obs>, Compositor.ComposeError>)
      ensures r == Compositor.BatchedCompose(Returns.CalculateReturnsBatch(prices, ln), comp)
    {
      var p := Returns.CalculateReturnsBatch(prices, ln);
      r := Compositor.ComposeInBatches(p, comp);
    }
  }
}
