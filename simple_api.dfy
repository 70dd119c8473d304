/**
 * The service without Ray: the handler recomputes the sentiment stage inline
 * with the request's own cut, drops the excluded symbols before a threaded
 * download in batches of fifteen, composes the windows in one sequential
 * loop, and keeps successful analyses in a module-level cache.
 */
module SimpleApi {
  import opened Wrappers
  import opened Frames
  import Seqs
  import Sentiment
  import Batching
  import Returns
  import Compositor
  import Benchmark
  import Performance
  import Stats
  import opened Service

  /** `parallel_stock_download_simple` is called with its default batch size. */
  const SimpleBatchSize: int := 15

  /**
   * `parallel_stock_download_simple`: the batches are consecutive chunks,
   * each result is collected in submission order when non-empty, and the
   * collected tables are joined (an empty table when there are none).
   */
  method ParallelStockDownloadSimple(fetch: seq<Symbol> -> Batching.Fetch, stocks: seq<Symbol>, batchSize: int)
      returns (r: Result<Table, Batching.BatchError>)
    ensures r == Batching.DownloadBatches(fetch, stocks, batchSize)
  {
    var chunks := Batching.Chunks(stocks, batchSize);
    if chunks.Failure? {
      return Failure(chunks.error);
    }
    var batches := chunks.value;
    var results: seq<Table> := [];
    for i := 0 to |batches|
      invariant results == Batching.NonEmpty(Batching.DownloadAll(fetch, batches[..i]))
    {
      var t := Batching.DownloadBatch(fetch, batches[i]);
      assert Batching.DownloadAll(fetch, batches[..i + 1]) == Batching.DownloadAll(fetch, batches[..i]) + [t];
      Batching.NonEmptySnoc(Batching.DownloadAll(fetch, batches[..i]), t);
      if !IsEmpty(t) {
        results := results + [t];
      }
    }
    assert batches[..|batches|] == batches;
    if |results| > 0 {
      r := Success(JoinAll(results));
    } else {
      r := Success(EmptyTable);
    }
  }

  /**
   * The computation of `analyze_portfolio`, as the first exception it
   * raises or the analysis it returns.
   */
  function SimpleAnalysis(w: World, req: PortfolioRequest): (r: Result<Analysis, Cause>)
    ensures w.readCsv(req.sentimentUrl).None? ==> r == Failure(ReadFailed)
    ensures r.Success? ==>
              && w.readCsv(req.sentimentUrl).Some?
              && Sentiment.AllRepresentable(w.readCsv(req.sentimentUrl).value)
              && r.value.composition == Sentiment.BuildComposition(w.readCsv(req.sentimentUrl).value, req.topN)
              && r.value.numberOfPeriods == |r.value.composition|
              && r.value.uniqueStocksAnalyzed == |Batching.Exclude(Stats.UniqueStocks(r.value.composition))|
              && r.value.request == req
  {
    match w.readCsv(req.sentimentUrl)
    case None => Failure(ReadFailed)
    case Some(rows) =>
      if !Sentiment.AllRepresentable(rows) then Failure(Stage(Sentiment.OutOfBoundsDatetime))
      else
        var comp := Sentiment.BuildComposition(rows, req.topN);
        var unique := Batching.Exclude(Stats.UniqueStocks(comp));
        match Batching.DownloadBatches(Fetcher(w, req.startDate, req.endDate), unique, SimpleBatchSize)
        case Failure(e) => Failure(Batch(e))
        case Success(prices) =>
          if IsEmpty(prices) then Failure(Http(InternalError))
          else
            match Returns.SelectAdjClose(prices)
            case Failure(e) => Failure(Select(e))
            case Success(sel) =>
              var p := Returns.Prepared(Returns.LogReturns(sel.table, w.ln), sel.series);
              match Compositor.SeriesOver(p, comp, Sentiment.Keys(comp))
              case Failure(e) => Failure(Compose(e))
              case Success(c) =>
                var ticker := req.benchmarkTicker;
                match Benchmark.GetBenchmarkData(w.downloadOne(ticker, req.startDate, req.endDate), ticker, w.ln)
                case Failure(e) => Failure(Bench(e))
                case Success(b) =>
                  match Performance.Summarize(c.rows, c.hasColumn, b, ticker, w.sqrt)
                  case Failure(e) => Failure(Merge(e))
                  case Success(s) => Success(Analysis(s, |comp|, |unique|, comp, req))
  }

  /**
   * A readable file whose composition is empty leaves nothing to download,
   * which is reported as the "no price data" error.
   */
  lemma EmptyCompositionNoPrices(w: World, req: PortfolioRequest)
    requires w.readCsv(req.sentimentUrl).Some? && Sentiment.AllRepresentable(w.readCsv(req.sentimentUrl).value)
    requires Sentiment.BuildComposition(w.readCsv(req.sentimentUrl).value, req.topN) == []
    ensures SimpleAnalysis(w, req) == Failure(Http(InternalError))
  {
    var comp := Sentiment.BuildComposition(w.readCsv(req.sentimentUrl).value, req.topN);
    assert Stats.Values(comp) == [];
    assert Stats.UniqueStocks(comp) == [];
    var fetch := Fetcher(w, req.startDate, req.endDate);
    assert Batching.ChunksOf<Symbol>([], 15) == [];
    assert Batching.DownloadAll(fetch, []) == [];
    assert Batching.NonEmpty([]) == [];
  }

  /** The handler's computation, step by step, with the loops of the source. */
  method ComputeAnalysis(w: World, req: PortfolioRequest) returns (r: Result<Analysis, Cause>)
    ensures r == SimpleAnalysis(w, req)
  {
    var csv := w.readCsv(req.sentimentUrl);
    if csv.None? {
      return Failure(ReadFailed);
    }
    var rows := csv.value;
    if !Sentiment.AllRepresentable(rows) {
      return Failure(Stage(Sentiment.OutOfBoundsDatetime));
    }
    var hs := Sentiment.Holdings(Sentiment.Selected(Sentiment.Aggregate(Sentiment.LoadRows(rows)), req.topN));
    Sentiment.HoldingYears(rows, req.topN);
    var comp := Sentiment.PortfolioDates(hs);
    var all := Stats.AllStocks(comp);
    var unique := Batching.Exclude(Seqs.Unique(all));
    var prices := ParallelStockDownloadSimple(Fetcher(w, req.startDate, req.endDate), unique, SimpleBatchSize);
    // a positive batch size cannot make range() fail
    if IsEmpty(prices.value) {
      return Failure(Http(InternalError));
    }
    var sel := Returns.SelectAdjClose(prices.value);
    if sel.Failure? {
      return Failure(Select(sel.error));
    }
    var p := Returns.Prepared(Returns.LogReturns(sel.value.table, w.ln), sel.value.series);
    var composed := Compositor.ComposeSequential(p, comp);
    if composed.Failure? {
      return Failure(Compose(composed.error));
    }
    var ticker := req.benchmarkTicker;
    var bench := Benchmark.GetBenchmarkData(w.downloadOne(ticker, req.startDate, req.endDate), ticker, w.ln);
    if bench.Failure? {
      return Failure(Bench(bench.error));
    }
    var summary := Performance.Summarize(composed.value.rows, composed.value.hasColumn, bench.value, ticker, w.sqrt);
    if summary.Failure? {
      return Failure(Merge(summary.error));
    }
    r := Success(Analysis(summary.value, |comp|, |unique|, comp, req));
  }

  /** The module-level state of the service: its result cache. */
  class SimpleService {
    var cache: map<PortfolioRequest, Analysis>

    constructor()
      ensures cache == map[]
    {
      cache := map[];
    }

    /** The size `/health` and `/status` report. */
    function CacheSize(): nat
      reads this
    {
      |cache|
    }

    /**
     * `analyze_portfolio`: a cached request is answered with the stored
     * analysis, unchanged and without recomputing; otherwise the analysis
     * is computed, stored only when it succeeds, and every failure leaves
     * with status 500.
     */
    method AnalyzePortfolio(w: World, req: PortfolioRequest) returns (r: Result<Analysis, ApiError>)
      modifies this
      ensures req in old(cache) ==> r == Success(old(cache)[req]) && cache == old(cache)
      ensures req !in old(cache) ==> r == Served(SimpleAnalysis(w, req)) && cache == Stored(old(cache), req, SimpleAnalysis(w, req))
      ensures r.Failure? ==> r.error.status == InternalError && cache == old(cache)
      ensures CacheSize() == old(CacheSize()) + (if req !in old(cache) && r.Success? then 1 else 0)
    {
      if req in cache {
        return Success(cache[req]);
      }
      var a := ComputeAnalysis(w, req);
      if a.Failure? {
        return Failure(ApiError(InternalError, a.error));
      }
      cache := cache[req := a.value];
      r := Success(a.value);
    }

    /** `clear_cache`: reports how many entries there were and leaves none. */
    method ClearCache() returns (removed: nat)
      modifies this
      ensures removed == old(CacheSize()) && cache == map[]
    {
      removed := |cache|;
      cache := map[];
    }
  }
}
