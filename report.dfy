/**
 * The command-line run: the engine pipeline with fixed settings, returning
 * nothing when there is no composition or no price data, and adding the
 * composition statistics the run lists (symbol frequencies, the ten most
 * frequent symbols and the last five composition dates).
 */
module Report {
  import opened Wrappers
  import opened Frames
  import Seqs
  import Lex
  import Sentiment
  import Batching
  import Returns
  import Compositor
  import Benchmark
  import Performance
  import Stats
  import Sorting
  import Engine
  import opened Service

  const SentimentUrl: string := "https://raw.githubusercontent.com/SalomeAc/Infraestructuras-proyecto/refs/heads/main/sentiment_data.csv"
  const StartDate: string := "2021-01-01"
  const EndDate: string := "2023-03-01"
  const Ticker: string := "QQQ"
  const RunBatchSize: int := 15

  /** What the run reports. */
  datatype Report = Report(
    summary: Performance.Summary,
    numberOfPeriods: nat,
    uniqueStocks: nat,
    composition: Sentiment.Composition,
    topStocks: seq<Stats.Freq>,
    lastFive: seq<string>)

  /**
   * `run_portfolio_analysis`: an exception propagates; an empty composition
   * or an empty price table ends the run with nothing; otherwise the report.
   */
  function RunAnalysis(w: World): (r: Result<Option<Report>, Cause>)
    ensures Engine.SentimentStage(w.readCsv(SentimentUrl), Engine.DefaultTopN) == Success([]) ==> r == Success(None)
    ensures var st := Engine.SentimentStage(w.readCsv(SentimentUrl), Engine.DefaultTopN);
            st.Success? && |st.value| > 0 ==>
              var prices := Batching.DownloadParallel(Fetcher(w, StartDate, EndDate), Stats.UniqueStocks(st.value), RunBatchSize);
              prices.Success? && IsEmpty(prices.value) ==> r == Success(None)
    ensures r == Success(None) ==>
              var st := Engine.SentimentStage(w.readCsv(SentimentUrl), Engine.DefaultTopN);
              && st.Success?
              && (|st.value| == 0
                  || var prices := Batching.DownloadParallel(Fetcher(w, StartDate, EndDate), Stats.UniqueStocks(st.value), RunBatchSize);
                     prices.Success? && IsEmpty(prices.value))
    ensures r.Success? && r.value.Some? ==>
              var rep := r.value.value;
              && Engine.SentimentStage(w.readCsv(SentimentUrl), Engine.DefaultTopN) == Success(rep.composition)
              && rep.numberOfPeriods == |rep.composition| > 0
              && rep.uniqueStocks == |Stats.UniqueStocks(rep.composition)|
              && rep.topStocks == Sorting.TopStocks(Stats.Tally(Stats.AllStocksOf(rep.composition)))
              && rep.lastFive == Sorting.LastFive(Sentiment.Keys(rep.composition))
  {
    match Engine.SentimentStage(w.readCsv(SentimentUrl), Engine.DefaultTopN)
    case Failure(c) => Failure(c)
    case Success(comp) =>
      if |comp| == 0 then Success(None)
      else
        var unique := Stats.UniqueStocks(comp);
        match Batching.DownloadParallel(Fetcher(w, StartDate, EndDate), unique, RunBatchSize)
        case Failure(e) => Failure(Batch(e))
        case Success(prices) =>
          if IsEmpty(prices) then Success(None)
          else
            match Compositor.BatchedCompose(Returns.CalculateReturnsBatch(prices, w.ln), comp)
            case Failure(e) => Failure(Compose(e))
            case Success(rows) =>
              match Benchmark.GetBenchmarkData(w.downloadOne(Ticker, StartDate, EndDate), Ticker, w.ln)
              case Failure(e) => Failure(Bench(e))
              case Success(b) =>
                match Performance.Summarize(rows, true, b, Ticker, w.sqrt)
                case Failure(e) => Failure(Merge(e))
                case Success(s) =>
                  var freq := Stats.Tally(Stats.AllStocksOf(comp));
                  Success(Some(Report(s, |comp|, |unique|, comp, Sorting.TopStocks(freq), Sorting.LastFive(Sentiment.Keys(comp)))))
  }

  /** The benchmark column the run reads is the one the benchmark stage names. */
  lemma QqqColumn()
    ensures Benchmark.ReturnColumn(Ticker) == "qqq_return"
  {
    assert Benchmark.Lower("QQQ") == "qqq" by {
      assert "QQQ"[1..] == "QQ" && "QQ"[1..] == "Q" && "Q"[1..] == "";
    }
  }

  /**
   * The keys of a composition are already in ascending order, so the
   * last-five listing is the last five composition keys.
   */
  lemma LastFiveOfComposition(c: Sentiment.Composition)
    requires Sentiment.WellFormedComposition(c)
    ensures Sorting.LastFive(Sentiment.Keys(c)) == Sentiment.Keys(c)[if |c| > 5 then |c| - 5 else 0..]
  {
    var ks := Sentiment.Keys(c);
    assert Lex.StrictlyAscending(ks) by {
      forall i, j | 0 <= i < j < |ks| ensures Lex.Less(ks[i], ks[j]) {
        assert ks[i] == c[i].start && ks[j] == c[j].start;
      }
    }
    Sorting.SortAscIdentity(ks);
  }

  /**
   * What the run lists about a composition: the counts are the occurrences
   * of each symbol across the composition and sum to the number of listed
   * holdings; the top list has at most ten entries from the dictionary, in
   * non-increasing count order, above any entry left out; the last-five
   * listing is the last five composition keys.
   */
  lemma CompositionListings(c: Sentiment.Composition, s: Stats.Symbol, x: Stats.Freq)
    requires Sentiment.WellFormedComposition(c)
    ensures var freq := Stats.Tally(Stats.AllStocksOf(c));
            var top := Sorting.TopStocks(freq);
            && Stats.CountOf(freq, s) == Seqs.Occurrences(Stats.AllStocksOf(c), s)
            && Stats.CountSum(freq) == Seqs.TotalLength(Stats.Values(c))
            && |top| == (if |freq| < 10 then |freq| else 10)
            && top == Sorting.SortDesc(freq)[..|top|]
            && Sorting.NonIncreasing(top)
            && (forall i :: 0 <= i < |top| ==> top[i] in freq)
            && (x in freq ==> x in top || forall i :: 0 <= i < |top| ==> top[i].count >= x.count)
            && Sorting.LastFive(Sentiment.Keys(c)) == Sentiment.Keys(c)[if |c| > 5 then |c| - 5 else 0..]
  {
    var freq := Stats.Tally(Stats.AllStocksOf(c));
    Stats.FrequencyOfComposition(c, s);
    if x in freq {
      Sorting.TopStocksAreLargest(freq, x);
    } else if |freq| > 0 {
      Sorting.TopStocksAreLargest(freq, freq[0]);
    }
    LastFiveOfComposition(c);
  }

  /** A report's listings have the properties of its composition's listings. */
  lemma ReportListings(w: World, s: Stats.Symbol, x: Stats.Freq)
    requires RunAnalysis(w).Success? && RunAnalysis(w).value.Some?
    ensures var rep := RunAnalysis(w).value.value;
            var freq := Stats.Tally(Stats.AllStocksOf(rep.composition));
            && |rep.topStocks| == (if |freq| < 10 then |freq| else 10)
            && rep.topStocks == Sorting.SortDesc(freq)[..|rep.topStocks|]
            && Sorting.NonIncreasing(rep.topStocks)
            && (forall i :: 0 <= i < |rep.topStocks| ==> rep.topStocks[i] in freq)
            && rep.lastFive == Sentiment.Keys(rep.composition)[if |rep.composition| > 5 then |rep.composition| - 5 else 0..]
  {
    var rep := RunAnalysis(w).value.value;
    CompositionListings(rep.composition, s, x);
  }

  /** The run step by step, with the loops of the source. */
  method RunPortfolioAnalysis(w: World) returns (r: Result<Option<Report>, Cause>)
    ensures r == RunAnalysis(w)
  {
    var engine := new Engine.ParallelPortfolioEngine(RunBatchSize);
    var comp := engine.ProcessSentimentDataSync(w.readCsv(SentimentUrl));
    if comp.Failure? {
      return Failure(comp.error);
    }
    if |comp.value| == 0 {
      return Success(None);
    }
    var all := Stats.AllStocks(comp.value);
    var unique := Seqs.Unique(all);
    var prices := engine.DownloadStockDataParallel(Fetcher(w, StartDate, EndDate), unique);
    if IsEmpty(prices.value) {
      return Success(None);
    }
    var perf := engine.CalculatePortfolioPerformance(prices.value, comp.value, w.ln);
    if perf.Failure? {
      return Failure(Compose(perf.error));
    }
    var bench := Benchmark.GetBenchmarkData(w.downloadOne(Ticker, StartDate, EndDate), Ticker, w.ln);
    if bench.Failure? {
      return Failure(Bench(bench.error));
    }
    var summary := Performance.Summarize(perf.value, true, bench.value, Ticker, w.sqrt);
    if summary.Failure? {
      return Failure(Merge(summary.error));
    }
    var freq := Stats.StockFrequency(comp.value);
    var top := Sorting.TopStocks(freq);
    var lastFive := Sorting.LastFive(Sentiment.Keys(comp.value));
    r := Success(Some(Report(summary.value, |comp.value|, |unique|, comp.value, top, lastFive)));
  }
}
