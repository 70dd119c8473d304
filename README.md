# Sentiment portfolio optimisation — a Dafny model

The system builds a monthly stock portfolio from social-media sentiment and
compares how it performs against a benchmark ETF.

**Building the portfolio.** The sentiment rows (date, symbol, Twitter likes and
comments) are filtered to rows with more than 20 likes and more than 10
comments. Each surviving row gets an engagement ratio (comments / likes). The
ratios are averaged per calendar month and symbol, and ranked within each
month by average rank, descending. A symbol is kept when its rank is below
`top_n + 1`. The kept holdings are shifted from the month-end label to the
first day of the next month, which gives a composition: a dictionary from
ISO start dates to symbol lists.

**Measuring it.** The symbols are downloaded in batches of fifteen, with
'MRO' and 'ATVI' excluded. From the prices the system takes the
'Adj Close' log returns. Each start date's window (start to month end)
contributes the per-day mean of the held symbols' returns. That series is
merged with the benchmark returns and summarised: total return, excess
return, volatility and Sharpe ratio.

Three front ends drive this pipeline. Each is modelled:

- `src/api_simple.py`, a FastAPI service without Ray (module `SimpleApi`):
  - it recomputes the sentiment stage inline with the request's `top_n_stocks`;
  - it runs one sequential window loop;
  - it keeps a module-level cache of successful analyses.
- `src/api.py`, a Ray Serve deployment (module `RayApi`):
  - it drives the `ParallelPortfolioEngine` of `src/data_processor.py`
    (module `Engine`) and has a per-object cache;
  - it adds a per-stock metrics endpoint.
- `main.py`, the command-line run (module `Report`):
  - it uses fixed settings and the QQQ benchmark;
  - it adds the symbol frequency table, the ten most frequent symbols and
    the last five composition dates.

The shared pieces are:

| Module | What it holds |
|---|---|
| `Sentiment` | The `SentimentProcessor` class and the composition it builds |
| `Ranking` | The average-rank cut |
| `Calendar`, `IsoDate` | Dates, month ends, and the `YYYY-MM-DD` keys |
| `Frames` | Indexed tables and outer column joins |
| `Batching` | Exclusion, chunking and combining of the downloads |
| `Returns` | 'Adj Close' selection and log returns |
| `Compositor` | The per-window portfolio series |
| `Benchmark` | The benchmark series |
| `Performance`, `Metrics` | The summary and its formulas |
| `Stats`, `Sorting` | The command-line listings |
| `Service` | The request, result, failure and cache types the front ends share |

### How failures are modelled

Every exception is a `Cause`. Each handler's blanket `except` becomes
`Service.Served`, which turns any failure into `ApiError(500, cause)`. This
includes the explicit "no price data" 500 and the Ray service's 400 for an
empty composition. The cache key is the request value itself.

### Observations the proofs make precise

- In the Ray service, `top_n_stocks` is part of the cache key but never
  reaches the engine. The composition always uses the default cut of five
  (`RayApi.TopNIgnored`).
- Ties in the average rank can admit more or fewer than `top_n` symbols in
  a month:
  - `Ranking.TieAdmitsMore` and `Ranking.TieAdmitsFewer` show both cases;
  - `Sentiment.TieScenario` is a two-row file with equal ratios in which
    both symbols are kept at `top_n = 1`.
- The simple service reports `unique_stocks_analyzed` after the exclusion.
  The Ray service counts it before the exclusion, because there the
  exclusion happens inside the engine.
- An empty Ray composition gives a 400, which the blanket handler rewraps as
  a 500. In the simple service, an empty composition leaves nothing to
  download and ends in the "no price data" 500
  (`SimpleApi.EmptyCompositionNoPrices`).

## Model

| member | source | states |
|---|---|---|
| Sentiment.LoadRows | src/data_processor.py:30-44 | exactly the rows with likes > 20 and comments > 10 survive, each with ratio comments/likes, which is positive |
| Sentiment.LoadRowsKeeps | src/data_processor.py:36-43 | the loaded rows match the qualifying input rows one for one and in input order, duplicates included; each carries its row's date, symbol and comments/likes ratio |
| Sentiment.MeanPositive | src/data_processor.py:49-53 | a month-symbol group that has rows has a positive count and a positive mean ratio |
| Sentiment.GroupKeys | src/data_processor.py:49-53 | the groups are the distinct (month, symbol) pairs of the surviving rows, in ascending order |
| Sentiment.Grouped | src/data_processor.py:49-53 | one group per (month, symbol) key, carrying the mean ratio of that key's rows |
| Sentiment.Ranked | src/data_processor.py:55-58 | ranking keeps each group's month, symbol and mean, one score per group |
| Ranking.RankBounds | src/data_processor.py:55-58 | an average rank lies between 1 and the number of symbols in the month |
| Ranking.UpwardClosed | src/data_processor.py:55-58 | if a ratio passes the cut, every strictly larger ratio of the same month passes it |
| Ranking.DistinctKeepsTopN | src/data_processor.py:64 | with distinct ratios exactly min(top_n, n) symbols pass the cut (none when top_n <= 0) |
| Ranking.TieAdmitsMore | src/data_processor.py:64 | two tied ratios with top_n = 1 both pass: more than top_n |
| Ranking.TieAdmitsFewer | src/data_processor.py:64 | a three-way tie straddling top_n = 2 admits only one symbol: fewer than top_n |
| Sentiment.Selected | src/data_processor.py:64 | a score is selected iff its rank is below top_n + 1 |
| Sentiment.SelectionUpwardClosed | src/data_processor.py:55-64 | within a month, a symbol with a strictly larger mean than a selected one is selected |
| Sentiment.DistinctMeansKeepTopN | src/data_processor.py:55-64 | with distinct monthly means a month keeps exactly min(top_n, n) symbols |
| Sentiment.Holdings | src/data_processor.py:65-67 | each selected score becomes a holding starting the day after its month-end label |
| Calendar.NextDayIsSuccessor | src/data_processor.py:66 | the shifted date is the next calendar day: nothing lies strictly between |
| Calendar.MonthEndPlusOneDay | src/data_processor.py:66 | a month end plus one day is the first of the next month, December rolling into January |
| Sentiment.SymbolsOn | src/data_processor.py:76 | the symbols listed for a date are exactly those held from that date |
| Sentiment.CompositionOf | src/data_processor.py:70-78 | one entry per distinct start date, in order, keyed by the ISO date and listing its symbols |
| Sentiment.PortfolioDates | src/data_processor.py:72-77 | the dictionary-filling loop yields the composition of the holdings |
| Sentiment.Lookup | src/data_processor.py:124-128 | a key is absent iff it is not among the composition keys; a present key returns its own entry's list |
| Sentiment.Put | src/data_processor.py:75 | writing a key not yet present appends it at the end, keeping insertion order |
| Sentiment.PutSets | src/data_processor.py:75 | after writing a key, looking it up gives the written symbols |
| Sentiment.PutKeeps | src/data_processor.py:75 | writing a key leaves the lookup of every other key unchanged |
| Sentiment.BuildCompositionWellFormed | src/data_processor.py:49-78 | keys are strictly ascending ISO dates on the first of a month following a qualifying row's month; each list is non-empty and strictly ascending (duplicate-free) |
| Sentiment.CompositionMembership | src/data_processor.py:49-78 | a symbol is listed under a key iff its monthly score passed the cut and the month end plus one day formats as that key |
| Sentiment.EntrySize | src/data_processor.py:64-77 | an entry lists as many symbols as the month's ratios let pass the cut |
| Sentiment.TieScenario | src/data_processor.py:36-77 | two rows with equal ratios in January 2021 and top_n = 1 give {"2021-02-01": ["A", "B"]} |
| Sentiment.SentimentProcessor.constructor | src/data_processor.py:25-28 | a new processor has no loaded, aggregated or filtered data |
| Sentiment.SentimentProcessor.LoadSentimentData | src/data_processor.py:30-44 | loading sets the filtered rows, or fails on a date the timestamp type cannot hold, and leaves the later stages untouched |
| Sentiment.SentimentProcessor.AggregateSentiment | src/data_processor.py:46-59 | aggregation needs loaded data and stores the ranked monthly scores, touching nothing else |
| Sentiment.SentimentProcessor.FilterTopStocks | src/data_processor.py:61-68 | filtering needs aggregated data and stores the shifted holdings that passed the cut, touching nothing else |
| Sentiment.SentimentProcessor.GetPortfolioDates | src/data_processor.py:70-78 | the composition of the stored holdings, or a failure when filtering has not run |
| IsoDate.ParseFormat | src/data_processor.py:75 | parsing a formatted date gives the date back |
| IsoDate.FormatParse | src/data_processor.py:127 | formatting a parsed key gives the key back |
| IsoDate.FormatInjective | src/data_processor.py:75 | distinct dates give distinct keys |
| IsoDate.FormatOrder | src/data_processor.py:75 | string order of the keys agrees with chronological order |
| Batching.Exclude | src/data_processor.py:186-187 | keeps exactly the symbols other than 'MRO' and 'ATVI' |
| Batching.ExcludeAppend | src/data_processor.py:187 | exclusion distributes over concatenation, so relative order is kept |
| Batching.ExcludeIdempotent | src/data_processor.py:187 | excluding twice is excluding once |
| Batching.ExcludeAll | src/data_processor.py:187 | a list without excluded symbols is unchanged |
| Batching.Chunks | src/data_processor.py:190-191 | a zero batch size is the range() error; a negative one yields no batches |
| Batching.ChunksFlatten | src/data_processor.py:190-191 | the batches concatenate back to the list |
| Batching.ChunksSizes | src/data_processor.py:190-191 | every batch is non-empty and at most batch_size long, and all but the last are full |
| Batching.ChunksCount | src/data_processor.py:190-191 | there are ceil(n / batch_size) batches |
| Batching.ChunksBounds | src/data_processor.py:190-191 | the batches cover the list and no batch is spare; no symbols gives no batches |
| Batching.NonEmpty | src/data_processor.py:203 | keeps exactly the non-empty results |
| Batching.NonEmptySnoc | src/api_simple.py:83-84 | appending one result extends the kept results by it exactly when it is non-empty |
| Batching.Combine | src/data_processor.py:203-211 | no non-empty result gives the empty table; otherwise the outer column join of the non-empty ones |
| Batching.DownloadParallelResult | src/data_processor.py:179-211 | with a positive batch size the download never fails; its columns are those of the non-empty batches; no symbols gives the empty table |
| Batching.SeventeenInBatchesOfFifteen | src/data_processor.py:84-96 | seventeen symbols make batches of 15 and 2; if the second raises, the result is the first batch's table |
| Frames.Join | src/data_processor.py:206 | columns are concatenated, the index is the union, and each row holds both tables' cells or missing ones |
| Frames.JoinAll | src/data_processor.py:206 | joining several tables has all their labels, the union of their dates, and each table's cells for each date |
| Frames.MergeDates | src/data_processor.py:206 | merging two ascending indexes gives an ascending index of exactly their dates |
| Engine.ParallelPortfolioEngine.constructor | src/data_processor.py:141-143 | the engine stores its batch size and has no processor yet |
| Engine.SentimentStage | src/data_processor.py:162-177 | a failed read or an unrepresentable date is the error; otherwise a well-formed composition |
| Engine.ParallelPortfolioEngine.ProcessSentimentDataSync | src/data_processor.py:162-177 | a fresh processor runs the four stages in order with the default cut of five; the result is the sentiment stage |
| Engine.ParallelPortfolioEngine.DownloadStockDataParallel | src/data_processor.py:179-211 | excludes, chunks by the engine's batch size, downloads and combines; succeeds for a positive batch size |
| Returns.SelectAdjClose | src/data_processor.py:102-108 | 'Adj Close' from level 0, else level 1, else a failure for multi-level columns; for flat columns the 'Adj Close' column as a series, or the whole table; the index is kept |
| Returns.CrossSectionSound | src/data_processor.py:104 | every column of a cross-section is a matching column of the table, with the other level as label |
| Returns.CrossSectionComplete | src/data_processor.py:104 | every matching column of the table appears in the cross-section |
| Returns.ReturnsKeep | src/data_processor.py:110 | with at least one symbol, a date survives iff it has a predecessor and every symbol is priced on both days |
| Returns.FirstRowDropped | src/data_processor.py:110 | the first date never has a return |
| Returns.ReturnsAreDifferences | src/data_processor.py:110 | each return is ln(price) minus ln(previous price) of the same symbol |
| Returns.DropNaKeeps | src/data_processor.py:110 | dropna keeps a row iff it has no missing cell |
| Returns.ConstantPriceZeroReturn | src/data_processor.py:110 | a constant price column gives zero returns throughout |
| Returns.CalculateReturnsBatch | src/data_processor.py:98-114 | a selection error gives the empty table; otherwise the log returns of the selected table (row-to-row log differences, then the complete rows only), under the selected labels |
| Compositor.MeanSkipNa | src/data_processor.py:132-133 | no present cell gives no value; otherwise the mean of the present cells |
| Compositor.MeanOfConstant | src/data_processor.py:133 | the mean of equal present values is that value |
| Compositor.ValidCols | src/data_processor.py:129 | exactly the held symbols that are return columns |
| Compositor.WindowRows | src/data_processor.py:132-133 | window rows lie inside the month window, in strictly increasing date order |
| Compositor.WindowRowsComplete | src/data_processor.py:132-133 | every return date inside the window gives a row with the mean of the valid columns |
| Compositor.WindowRowsSound | src/data_processor.py:132-133 | every window row is some return date with the mean of the valid columns |
| Calendar.RollMonthEnd | src/data_processor.py:127 | the rolled date is a month end strictly after the start |
| Calendar.WindowIsMonth | src/data_processor.py:127-132 | from a first of month, the inclusive window holds exactly the dates of that month |
| Calendar.WindowsDisjoint | src/data_processor.py:127-132 | windows of successive start dates do not overlap |
| Compositor.KeyRows | src/data_processor.py:124-125 | a key absent from the composition contributes nothing |
| Compositor.KeyRowsWindow | src/data_processor.py:127-134 | a key with no valid symbols contributes nothing; otherwise exactly its window's rows |
| Compositor.CalculatePortfolioReturnsBatch | src/data_processor.py:116-136 | the loop over a batch of keys yields the series over those keys |
| Compositor.SeriesOverAppend | src/data_processor.py:123-134 | the series over two key lists in sequence is the first followed by the second |
| Compositor.FailureStays | src/data_processor.py:123-134 | once a key raises, the loop over the whole batch raises the same error |
| Compositor.BatchResults | src/data_processor.py:227-232 | one result per batch, in batch order |
| Compositor.GatherFlatten | src/data_processor.py:232-235 | gathering the batch results equals one pass over the concatenated batches |
| Compositor.BatchedEqualsSequential | src/data_processor.py:223-235 | batches of five give the same rows as one pass; when no window yields rows, concat raises |
| Compositor.ComposeInBatches | src/data_processor.py:223-235 | the batched loop computes the batched composition |
| Engine.ParallelPortfolioEngine.CalculatePortfolioPerformance | src/data_processor.py:213-238 | the guarded return preparation followed by the batched composition |
| Benchmark.GetBenchmarkData | src/data_processor.py:240-259 | a raising download is an error; a table result has the single column '<ticker>_return' on the downloaded dates |
| Benchmark.BenchmarkReturns | src/data_processor.py:252-257 | each benchmark return is the log step from the previous day's adjusted close; the first is missing |
| Benchmark.MissingAdjClose | src/data_processor.py:252 | multi-level columns without 'Adj Close' at level 0 give a KeyError |
| Metrics.Cumulative | src/api_simple.py:241-242 | the i-th cumulative value is the product of (1 + r) up to i, minus one |
| Metrics.TotalIsGrowth | src/api_simple.py:245-246 | the total is the last cumulative value, which is the growth minus one, and 0 when empty |
| Metrics.GrowthAppend | src/api_simple.py:241 | growth over two spans is the product of the growths |
| Metrics.CumulativeStep | src/api_simple.py:241 | each cumulative value compounds the previous one by one more return |
| Metrics.ZeroCumulative | src/api_simple.py:241 | zero returns keep every cumulative value at zero |
| Metrics.SampleVariance | src/api_simple.py:248 | the sample variance is non-negative |
| Metrics.ConstantVariance | src/api_simple.py:248 | constant returns have that mean and zero variance |
| Metrics.Volatility | src/api_simple.py:248-249 | undefined (NaN) exactly when there are fewer than two returns |
| Metrics.Sharpe | src/api_simple.py:251 | a non-zero Sharpe ratio needs a positive volatility |
| Metrics.SharpeDefinedByVol | src/api_simple.py:251 | when the volatility is positive, Sharpe times volatility is the annualised mean |
| Metrics.SharpeOfConstant | src/api_simple.py:248-251 | constant returns give zero volatility and a zero Sharpe ratio |
| Performance.Measure | src/api_simple.py:241-261 | the cumulative series are the running compounded growth of each return series; totals are growth minus one (0 when empty) and excess is their difference; the volatilities and Sharpe ratio are those of the returns (a non-zero Sharpe needs positive volatility); the dates are passed through |
| Performance.Summarize | src/api_simple.py:231-251 | a missing portfolio or benchmark column is a KeyError; otherwise the measures of the present portfolio values and benchmark values |
| Performance.BenchmarkValuesOfPresent | src/api_simple.py:232-238 | for any benchmark column, the benchmark values are those of the portfolio rows that have one, one for one and in row order; rows without a benchmark value are dropped |
| Service.Served | src/api_simple.py:287-289 | success passes through; every failure becomes status 500 carrying its cause |
| Service.Stored | src/api_simple.py:282 | the cache is written only for a successful analysis |
| SimpleApi.ParallelStockDownloadSimple | src/api_simple.py:68-94 | the loop collects the non-empty batch results in submission order and combines them like the engine |
| SimpleApi.SimpleAnalysis | src/api_simple.py:147-279 | on success: the composition with the request's own cut, one period per key, and the unique symbols counted after exclusion |
| SimpleApi.EmptyCompositionNoPrices | src/api_simple.py:188-191 | an empty composition ends in the "no price data" error |
| SimpleApi.ComputeAnalysis | src/api_simple.py:147-279 | the handler's steps and loops compute the analysis |
| SimpleApi.SimpleService.constructor | src/api_simple.py:49-50 | the cache starts empty |
| SimpleApi.SimpleService.AnalyzePortfolio | src/api_simple.py:131-289 | a hit returns the stored analysis and leaves the cache alone; a miss serves the computation and stores only a success; failures are 500; the size grows by one exactly on a new success |
| SimpleApi.SimpleService.ClearCache | src/api_simple.py:291-301 | reports the size before clearing and leaves the cache empty |
| RayApi.RayOutcome | src/api.py:131-182 | a sentiment failure propagates; an empty composition is a 400; on success the composition is non-empty and the unique count is taken before exclusion |
| RayApi.RayAnalysis | src/api.py:128-209 | on success: the default-cut composition, one period per key, unique symbols before exclusion, and the request echoed |
| RayApi.TopNIgnored | src/api.py:131 | changing top_n_stocks changes nothing but the echoed request |
| RayApi.PortfolioApi.constructor | src/api.py:62-65 | a new engine with batch size 15 and an empty cache |
| RayApi.PortfolioApi.AnalyzePortfolio | src/api.py:114-219 | a hit returns the stored analysis unchanged; a miss serves the computation and stores only a success; failures are 500; the size grows by one exactly on a new success |
| RayApi.Present | src/api.py:249 | with no missing cell the present values are the column itself |
| RayApi.MetricsOf | src/api.py:251-259 | data_points is the return count; volatility is undefined below two returns; a non-zero Sharpe needs positive volatility |
| RayApi.StockReturns | src/api.py:236-244 | succeeds exactly when the 'Adj Close' selection is a table (not a Series); the result is then the log returns of that table |
| RayApi.MetricsUpToEntries | src/api.py:247-260 | after n columns, exactly those labels with at least one return have metrics, each from its own column |
| RayApi.StocksAnalysis | src/api.py:262-265 | stocks_analyzed is the number of entries |
| RayApi.StockMetricsLoop | src/api.py:247-260 | the loop over the return columns fills the dictionary the column-by-column definition describes |
| RayApi.TableMetrics | src/api.py:247-260 | on a table without missing returns, a column gets metrics iff there is a row; data_points counts every row; the Sharpe guard holds |
| RayApi.StocksAnalysisEntries | src/api.py:247-265 | a symbol has metrics iff it is a return column and there is a return; data_points is the return count; the Sharpe guard holds |
| RayApi.PortfolioApi.AnalyzeStocks | src/api.py:221-272 | the loop fills the metrics of the stock analysis, with failures as 500 |
| RayApi.PortfolioApi.ClearCache | src/api.py:274-283 | reports the size before clearing and leaves the cache empty |
| Stats.Values | main.py:49 | the composition's symbol lists in key order |
| Stats.AllStocks | main.py:48-50 | the loop concatenates every list in key order |
| Seqs.Unique | main.py:51 | duplicate-free, and containing exactly the elements of the input |
| Stats.UniqueStocksExact | main.py:48-51 | each composition symbol occurs exactly once, and nothing else occurs |
| Stats.StockFrequency | main.py:121-124 | the nested loop builds the frequency table |
| Stats.CountMonth | main.py:122-124 | counting one month's symbols extends the table to the symbols seen so far plus that month's |
| Stats.TallyCount | main.py:121-124 | each symbol's count is its number of occurrences |
| Stats.TallySum | main.py:121-124 | the counts sum to the number of entries |
| Stats.TallySymbols | main.py:121-124 | the table's symbols are the unique symbols in first-seen order |
| Stats.FrequencyOfComposition | main.py:121-124 | counts are the occurrences across all lists, and sum to the total list length |
| Sorting.SortDescSorted | main.py:126 | the sort is non-increasing in count |
| Sorting.SortDescPermutes | main.py:126 | the sort is a permutation of the frequency pairs |
| Sorting.SortDescStable | main.py:126 | the sort is stable: equal counts keep their order |
| Sorting.TopStocks | main.py:126 | min(10, n) pairs, the leading pairs of the stable descending sort |
| Sorting.TopStocksAreLargest | main.py:126 | the top list has min(10, n) pairs, is non-increasing, is drawn from the table, and any pair left out counts no more than every listed one |
| Sorting.LastFive | main.py:132 | at most five keys |
| Sorting.LastFiveAreGreatest | main.py:132 | the listing is ascending, drawn from the keys, and any key left out is below every listed one |
| Sorting.SortAscPermutes | main.py:132 | the key sort is a permutation of the keys |
| Sorting.SortAscIdentity | main.py:132 | sorting already ascending keys changes nothing |
| Report.RunAnalysis | main.py:21-164 | an empty composition, or an empty price download for a non-empty one, returns nothing, and nothing is returned only in those two cases; a report has the default-cut composition, a positive number of periods, the unique count, the top-ten and the last five keys |
| Report.QqqColumn | main.py:85 | the QQQ benchmark column is named 'qqq_return' |
| Report.LastFiveOfComposition | main.py:132 | the last five listing is the last five composition keys |
| Report.CompositionListings | main.py:121-132 | frequency counts and their sum; the top list is the first min(10, n) pairs of the stable descending sort, non-increasing, drawn from the counts and maximal; the last five keys, for any composition |
| Report.ReportListings | main.py:121-132 | a report's top list is the first min(10, n) pairs of the stable descending sort of its composition's counts, with the same order, origin and maximality, and its last five are the last five keys |
| Report.RunPortfolioAnalysis | main.py:21-164 | the run's steps and loops compute the report |

## Left out

- Ray is run as ordinary sequential calls, with results in submission order: remote functions, actors, `ray.get` and the Serve deployment. The same goes for `ThreadPoolExecutor` and `asyncio`. The asynchronous `process_sentiment_data` (src/data_processor.py:145-160) is the same sequence as the synchronous one, and `Report` uses the synchronous one.
- Inputs are parameters of `Service.World`: the yfinance downloads, `pd.read_csv`, and `log`, `exp` and `sqrt`. A download that raises is a `Raised` fetch.
- Floating point is not modelled. Numbers are reals, the numeric functions are uninterpreted, and `exp(cumsum(log1p))` is modelled as a product of (1 + r).
- The cache key is the request value, not its per-process string hash.
- Left out because they carry no logic: timestamps, processing times, logging, the console output and JSON file of `main.py`, FastAPI and CORS setup, and `ray.init`/`shutdown`.
- The `/` root endpoints are not modelled; they return constant text.
- `/health` and `/status` are modelled only through the cache size they report (`CacheSize`).
- Exception messages are not modelled. A `Cause` records which step failed; `Http` keeps only the status.
- `list(set(...))` is modelled in first-seen order. Python's order is hash order, so only the count is compared with the source.
- `Sentiment.AllRepresentable`: the date bound of pandas timestamps is approximated by whole years (1678 to 2261).
- `Sentiment.LoadRows`: `pd.to_datetime` is modelled as dates already parsed; rows with missing or ill-typed fields are not modelled.
- `Returns.SelectAdjClose`: duplicate column labels, and multi-level columns mixed with flat ones, are not modelled.
- `Benchmark.Lower`: only ASCII letters are lower-cased.
- NaN in the JSON response is not modelled; an undefined volatility is `None` and the model reports success. FastAPI renders responses with `allow_nan=False`, so a NaN volatility makes the response fail with status 500: in `analyze_portfolio` this happens after the cache write (src/api_simple.py:282, src/api.py:212), so the NaN result stays cached; in `analyze_stocks` a single symbol with only one return fails the whole response.
- When several window batches raise, the model reports the first failure in batch order, as `ray.get` over the list would. Which remote error wins in a real run is not modelled.
- Client scripts and the smoke test are not part of this model. They hold no pipeline logic.
