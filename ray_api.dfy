/**
 * The Ray service: a deployment object holding the engine and a result
 * cache. The portfolio analysis goes through the engine (default cut of
 * five, exclusion inside the download, compositor in batches of five); the
 * per-symbol analysis computes metrics for every column with returns.
 */
module RayApi {
  import opened Wrappers
  import opened Frames
  import Seqs
  import Sentiment
  import Batching
  import Returns
  import Compositor
  import Benchmark
  import Performance
  import Metrics
  import Stats
  import Engine
  import opened Service

  /** The deployment builds its engine with this batch size. */
  const EngineBatchSize: int := 15

  /** What the engine's pipeline yields: the summary, the composition and the number of distinct symbols. */
  datatype Outcome = Outcome(summary: Performance.Summary, composition: Sentiment.Composition, uniqueStocks: nat)

  /**
   * The computation of `analyze_portfolio` on an engine with the given batch
   * size, from the request fields it reads, as the first exception it raises
   * or what it computes.
   */
  function RayOutcome(w: World, url: string, startDate: string, endDate: string, ticker: string, batchSize: int)
      : (r: Result<Outcome, Cause>)
    ensures Engine.SentimentStage(w.readCsv(url), Engine.DefaultTopN).Failure? ==>
              r == Failure(Engine.SentimentStage(w.readCsv(url), Engine.DefaultTopN).error)
    ensures Engine.SentimentStage(w.readCsv(url), Engine.DefaultTopN) == Success([]) ==> r == Failure(Http(400))
    ensures r.Success? ==>
              && Engine.SentimentStage(w.readCsv(url), Engine.DefaultTopN) == Success(r.value.composition)
              && |r.value.composition| > 0
              && r.value.uniqueStocks == |Stats.UniqueStocks(r.value.composition)|
  {
    match Engine.SentimentStage(w.readCsv(url), Engine.DefaultTopN)
    case Failure(c) => Failure(c)
    case Success(comp) =>
      if |comp| == 0 then Failure(Http(400))
      else
        var unique := Stats.UniqueStocks(comp);
        match Batching.DownloadParallel(Fetcher(w, startDate, endDate), unique, batchSize)
        case Failure(e) => Failure(Batch(e))
        case Success(prices) =>
          if IsEmpty(prices) then Failure(Http(InternalError))
          else
            match Compositor.BatchedCompose(Returns.CalculateReturnsBatch(prices, w.ln), comp)
            case Failure(e) => Failure(Compose(e))
            case Success(rows) =>
              match Benchmark.GetBenchmarkData(w.downloadOne(ticker, startDate, endDate), ticker, w.ln)
              case Failure(e) => Failure(Bench(e))
              case Success(b) =>
                match Performance.Summarize(rows, true, b, ticker, w.sqrt)
                case Failure(e) => Failure(Merge(e))
                case Success(s) => Success(Outcome(s, comp, |unique|))
  }

  /** The analysis `analyze_portfolio` reports for a request. */
  function RayAnalysis(w: World, req: PortfolioRequest, batchSize: int): (r: Result<Analysis, Cause>)
    ensures Engine.SentimentStage(w.readCsv(req.sentimentUrl), Engine.DefaultTopN) == Success([]) ==> r == Failure(Http(400))
    ensures r.Success? ==>
              && Engine.SentimentStage(w.readCsv(req.sentimentUrl), Engine.DefaultTopN) == Success(r.value.composition)
              && |r.value.composition| > 0
              && r.value.numberOfPeriods == |r.value.composition|
              && r.value.uniqueStocksAnalyzed == |Stats.UniqueStocks(r.value.composition)|
              && r.value.request == req
  {
    match RayOutcome(w, req.sentimentUrl, req.startDate, req.endDate, req.benchmarkTicker, batchSize)
    case Failure(c) => Failure(c)
    case Success(o) => Success(Analysis(o.summary, |o.composition|, o.uniqueStocks, o.composition, req))
  }

  /**
   * The requested number of stocks never reaches the engine: two requests
   * that differ only in it get the same analysis (though they are cached
   * under different keys).
   */
  lemma TopNIgnored(w: World, req: PortfolioRequest, topN: int, batchSize: int)
    ensures var other := req.(topN := topN);
            && (RayAnalysis(w, other, batchSize).Success? <==> RayAnalysis(w, req, batchSize).Success?)
            && (RayAnalysis(w, req, batchSize).Failure? ==> RayAnalysis(w, other, batchSize) == RayAnalysis(w, req, batchSize))
            && (RayAnalysis(w, req, batchSize).Success? ==>
                  RayAnalysis(w, other, batchSize).value == RayAnalysis(w, req, batchSize).value.(request := other))
  {
  }

  /** One symbol's entry in `analyze_stocks`. */
  datatype StockMetrics = StockMetrics(totalReturn: real, volatility: Option<real>, sharpe: real, dataPoints: nat)

  /** What `analyze_stocks` reports. */
  datatype StocksReport = StocksReport(stocksAnalyzed: nat, metrics: map<Label, StockMetrics>)

  /** `dropna()` on one column: its present values, in order. */
  function Present(cells: seq<Cell>): (xs: seq<real>)
    ensures |xs| <= |cells|
    ensures (forall k :: 0 <= k < |cells| ==> cells[k].Some?) ==>
              |xs| == |cells| && forall k :: 0 <= k < |cells| ==> xs[k] == cells[k].value
  {
    if |cells| == 0 then []
    else (if cells[0].Some? then [cells[0].value] else []) + Present(cells[1..])
  }

  /** The metrics of one symbol's returns; the total compounds through `exp` of the summed log returns. */
  function MetricsOf(xs: seq<real>, w: World): (m: StockMetrics)
    ensures m.dataPoints == |xs|
    ensures m.sharpe != 0.0 ==> Metrics.PositiveVol(m.volatility)
    ensures m.volatility.None? <==> |xs| < 2
  {
    StockMetrics(w.exp(Metrics.Sum(xs)) - 1.0, Metrics.Volatility(xs, w.sqrt), Metrics.Sharpe(xs, w.sqrt), |xs|)
  }

  /** The dictionary after the loop has visited the first n columns. */
  function MetricsUpTo(t: Table, n: nat, w: World): map<Label, StockMetrics>
    requires n <= |t.labels|
  {
    if n == 0 then map[]
    else
      var m := MetricsUpTo(t, n - 1, w);
      var xs := Present(Returns.Column(t, n - 1));
      if |xs| > 0 then m[t.labels[n - 1] := MetricsOf(xs, w)] else m
  }

  /**
   * On a table of returns with no missing value (as `dropna()` leaves it),
   * the dictionary has an entry for every column exactly when there is at
   * least one row, each entry counts every row, and each is the metrics of
   * some column carrying that label.
   */
  lemma {:induction false} MetricsUpToEntries(t: Table, n: nat, w: World)
    requires n <= |t.labels|
    requires forall k :: 0 <= k < |t.rows| ==> Returns.Complete(t.rows[k])
    ensures forall l :: l in MetricsUpTo(t, n, w) <==> l in t.labels[..n] && |t.rows| > 0
    ensures forall l :: l in MetricsUpTo(t, n, w) ==> MetricsUpTo(t, n, w)[l].dataPoints == |t.rows|
    ensures forall l :: l in MetricsUpTo(t, n, w) ==>
              exists j :: 0 <= j < n && t.labels[j] == l && MetricsUpTo(t, n, w)[l] == MetricsOf(Present(Returns.Column(t, j)), w)
  {
    if n > 0 {
      MetricsUpToEntries(t, n - 1, w);
      var col := Returns.Column(t, n - 1);
      forall k | 0 <= k < |col| ensures col[k].Some? {
        assert col[k] == t.rows[k][n - 1];
      }
      assert t.labels[..n] == t.labels[..n - 1] + [t.labels[n - 1]];
    }
  }

  /** The returns `analyze_stocks` measures: the selection failing, a Series, or the cleaned table. */
  function StockReturns(prices: Table, ln: real -> real): (r: Result<Table, Cause>)
    ensures r.Success? <==> Returns.SelectAdjClose(prices).Success? && !Returns.SelectAdjClose(prices).value.series
    ensures r.Success? ==> r.value == Returns.LogReturns(Returns.SelectAdjClose(prices).value.table, ln)
    ensures r.Success? ==> forall k :: 0 <= k < |r.value.rows| ==> Returns.Complete(r.value.rows[k])
  {
    match Returns.SelectAdjClose(prices)
    case Failure(e) => Failure(Select(e))
    case Success(sel) =>
      if sel.series then Failure(NotATable)
      else Success(Returns.LogReturns(sel.table, ln))
  }

  /** The computation of `analyze_stocks` on an engine with the given batch size. */
  function StocksAnalysis(w: World, symbols: seq<Symbol>, startDate: string, endDate: string, batchSize: int)
      : (r: Result<StocksReport, Cause>)
    ensures r.Success? ==> r.value.stocksAnalyzed == |r.value.metrics|
  {
    match Batching.DownloadParallel(Fetcher(w, startDate, endDate), symbols, batchSize)
    case Failure(e) => Failure(Batch(e))
    case Success(prices) =>
      if IsEmpty(prices) then Failure(Http(InternalError))
      else
        match StockReturns(prices, w.ln)
        case Failure(c) => Failure(c)
        case Success(t) =>
          var m := MetricsUpTo(t, |t.labels|, w);
          Success(StocksReport(|m|, m))
  }

  /**
   * On a complete table of returns, a label gets an entry exactly when it is
   * a column and there is at least one row; an entry counts every row.
   */
  lemma TableMetrics(t: Table, w: World, l: Label)
    requires forall k :: 0 <= k < |t.rows| ==> Returns.Complete(t.rows[k])
    ensures var m := MetricsUpTo(t, |t.labels|, w);
            && (l in m <==> l in t.labels && |t.rows| > 0)
            && (l in m ==> m[l].dataPoints == |t.rows| && (m[l].sharpe != 0.0 ==> Metrics.PositiveVol(m[l].volatility)))
  {
    MetricsUpToEntries(t, |t.labels|, w);
    assert t.labels[..|t.labels|] == t.labels;
    var m := MetricsUpTo(t, |t.labels|, w);
    if l in m {
      var j :| 0 <= j < |t.labels| && t.labels[j] == l && m[l] == MetricsOf(Present(Returns.Column(t, j)), w);
    }
  }

  /**
   * A symbol gets an entry exactly when its column is among the returns and
   * there is at least one return; its data points are the number of returns.
   */
  lemma StocksAnalysisEntries(w: World, symbols: seq<Symbol>, startDate: string, endDate: string, batchSize: int, l: Label)
    requires StocksAnalysis(w, symbols, startDate, endDate, batchSize).Success?
    ensures var prices := Batching.DownloadParallel(Fetcher(w, startDate, endDate), symbols, batchSize).value;
            var t := StockReturns(prices, w.ln).value;
            var m := StocksAnalysis(w, symbols, startDate, endDate, batchSize).value.metrics;
            && (l in m <==> l in t.labels && |t.rows| > 0)
            && (l in m ==> m[l].dataPoints == |t.rows| && (m[l].sharpe != 0.0 ==> Metrics.PositiveVol(m[l].volatility)))
  {
    var prices := Batching.DownloadParallel(Fetcher(w, startDate, endDate), symbols, batchSize).value;
    var t := StockReturns(prices, w.ln).value;
    assert StocksAnalysis(w, symbols, startDate, endDate, batchSize).value.metrics == MetricsUpTo(t, |t.labels|, w);
    TableMetrics(t, w, l);
  }

  /** The loop of `analyze_stocks` over the return columns, filling the dictionary. */
  method StockMetricsLoop(t: Table, w: World) returns (metrics: map<Label, StockMetrics>)
    ensures metrics == MetricsUpTo(t, |t.labels|, w)
  {
    metrics := map[];
    for j := 0 to |t.labels|
      invariant metrics == MetricsUpTo(t, j, w)
    {
      var stockReturns := Present(Returns.Column(t, j));
      if |stockReturns| > 0 {
        metrics := metrics[t.labels[j] := MetricsOf(stockReturns, w)];
      }
    }
  }

  /** The deployment: the engine it was built with and its result cache. */
  class PortfolioApi {
    const engine: Engine.ParallelPortfolioEngine
    var cache: map<PortfolioRequest, Analysis>

    constructor()
      ensures fresh(engine) && engine.batchSize == EngineBatchSize && cache == map[]
    {
      engine := new Engine.ParallelPortfolioEngine(EngineBatchSize);
      cache := map[];
    }

    /** The size `/health` and `/status` report. */
    function CacheSize(): nat
      reads this
    {
      |cache|
    }

    /**
     * `analyze_portfolio`: a cached request is answered with the stored
     * analysis, unchanged; otherwise the engine computes it, it is stored
     * only when it succeeds, and every failure, the 400 for an empty
     * composition included, leaves with status 500.
     */
    method AnalyzePortfolio(w: World, req: PortfolioRequest) returns (r: Result<Analysis, ApiError>)
      modifies this, engine
      ensures engine.batchSize == old(engine.batchSize)
      ensures req in old(cache) ==> r == Success(old(cache)[req]) && cache == old(cache)
      ensures req !in old(cache) ==>
                && r == Served(RayAnalysis(w, req, old(engine.batchSize)))
                && cache == Stored(old(cache), req, RayAnalysis(w, req, old(engine.batchSize)))
      ensures r.Failure? ==> r.error.status == InternalError && cache == old(cache)
      ensures CacheSize() == old(CacheSize()) + (if req !in old(cache) && r.Success? then 1 else 0)
    {
      if req in cache {
        return Success(cache[req]);
      }
      var comp := engine.ProcessSentimentDataSync(w.readCsv(req.sentimentUrl));
      if comp.Failure? {
        return Failure(ApiError(InternalError, comp.error));
      }
      if |comp.value| == 0 {
        return Failure(ApiError(InternalError, Http(400)));
      }
      var all := Stats.AllStocks(comp.value);
      var unique := Seqs.Unique(all);
      var prices := engine.DownloadStockDataParallel(Fetcher(w, req.startDate, req.endDate), unique);
      if prices.Failure? {
        return Failure(ApiError(InternalError, Batch(prices.error)));
      }
      if IsEmpty(prices.value) {
        return Failure(ApiError(InternalError, Http(InternalError)));
      }
      var perf := engine.CalculatePortfolioPerformance(prices.value, comp.value, w.ln);
      if perf.Failure? {
        return Failure(ApiError(InternalError, Compose(perf.error)));
      }
      var ticker := req.benchmarkTicker;
      var bench := Benchmark.GetBenchmarkData(w.downloadOne(ticker, req.startDate, req.endDate), ticker, w.ln);
      if bench.Failure? {
        return Failure(ApiError(InternalError, Bench(bench.error)));
      }
      var summary := Performance.Summarize(perf.value, true, bench.value, ticker, w.sqrt);
      if summary.Failure? {
        return Failure(ApiError(InternalError, Merge(summary.error)));
      }
      var a := Analysis(summary.value, |comp.value|, |unique|, comp.value, req);
      cache := cache[req := a];
      r := Success(a);
    }

    /**
     * `analyze_stocks`: download through the engine, take the returns, and
     * fill the dictionary one column at a time.
     */
    method AnalyzeStocks(w: World, symbols: seq<Symbol>, startDate: string, endDate: string)
        returns (r: Result<StocksReport, ApiError>)
      ensures r == Served(StocksAnalysis(w, symbols, startDate, endDate, engine.batchSize))
    {
      var prices := engine.DownloadStockDataParallel(Fetcher(w, startDate, endDate), symbols);
      if prices.Failure? {
        return Failure(ApiError(InternalError, Batch(prices.error)));
      }
      if IsEmpty(prices.value) {
        return Failure(ApiError(InternalError, Http(InternalError)));
      }
      var cleaned := StockReturns(prices.value, w.ln);
      if cleaned.Failure? {
        return Failure(ApiError(InternalError, cleaned.error));
      }
      var metrics := StockMetricsLoop(cleaned.value, w);
      r := Success(StocksReport(|metrics|, metrics));
    }

    /** `clear_cache`: reports how many entries there were and leaves none. */
    method ClearCache() returns (removed: nat)
      modifies this
      ensures removed == old(CacheSize()) && cache == map[]
    {
      removed := |cache|;
      cache := map[];
    }
  }
}
