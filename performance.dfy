/**
 * The final stage shared by both services and the command-line run: the
 * portfolio series is left-merged with the benchmark on date, each column
 * is cleaned of missing values on its own, and the metrics are computed.
 */
module Performance {
  import opened Wrappers
  import opened Calendar
  import opened Frames
  import opened Metrics
  import Compositor
  import Benchmark

  /** Indexing the merged table by a column it lacks raises KeyError. */
  datatype MergeError = MissingColumn(name: string)

  datatype Summary = Summary(
    totalPortfolio: real,
    totalBenchmark: real,
    excess: real,
    volPortfolio: Option<real>,
    volBenchmark: Option<real>,
    sharpe: real,
    dates: seq<Date>,
    portfolioCumulative: seq<real>,
    benchmarkCumulative: seq<real>)

  const PortfolioColumn: string := "portfolio_return"

  /** The benchmark value the left merge puts next to date d; missing when the benchmark lacks d. */
  function BenchAt(b: Table, d: Date): Cell
    requires |b.labels| == 1
  {
    RowAt(b, d)[0]
  }

  /** `dropna()` on the portfolio column: the dates of the present values. */
  function PresentDates(rows: seq<Compositor.Obs>): (ds: seq<Date>)
    ensures |ds| <= |rows|
    ensures forall d :: d in ds <==> exists i :: 0 <= i < |rows| && rows[i].date == d && rows[i].value.Some?
  {
    if |rows| == 0 then []
    else
      var rest := PresentDates(rows[1..]);
      assert forall i :: 1 <= i < |rows| ==> rows[i] == rows[1..][i - 1];
      (if rows[0].value.Some? then [rows[0].date] else []) + rest
  }

  /** `dropna()` on the portfolio column: the present values, in order. */
  function PresentValues(rows: seq<Compositor.Obs>): (vs: seq<real>)
    ensures |vs| == |PresentDates(rows)|
  {
    if |rows| == 0 then []
    else (if rows[0].value.Some? then [rows[0].value.value] else []) + PresentValues(rows[1..])
  }

  /** `dropna()` on the merged benchmark column: the present benchmark values at the portfolio dates. */
  function BenchmarkValues(rows: seq<Compositor.Obs>, b: Table): (vs: seq<real>)
    requires |b.labels| == 1
    ensures |vs| <= |rows|
  {
    if |rows| == 0 then []
    else
      var c := BenchAt(b, rows[0].date);
      (if c.Some? then [c.value] else []) + BenchmarkValues(rows[1..], b)
  }

  /** The metrics of two cleaned series. */
  function Measure(dates: seq<Date>, pv: seq<real>, bv: seq<real>, sqrt: real -> real): (s: Summary)
    ensures s.totalPortfolio == Growth(pv) - 1.0 && s.totalBenchmark == Growth(bv) - 1.0
    ensures s.excess == s.totalPortfolio - s.totalBenchmark
    ensures s.sharpe != 0.0 ==> PositiveVol(s.volPortfolio)
    ensures s.portfolioCumulative == Cumulative(pv) && s.benchmarkCumulative == Cumulative(bv)
    ensures s.volPortfolio == Volatility(pv, sqrt) && s.volBenchmark == Volatility(bv, sqrt)
    ensures s.sharpe == Sharpe(pv, sqrt) && s.dates == dates
  {
    TotalIsGrowth(pv);
    TotalIsGrowth(bv);
    var pc, bc := Cumulative(pv), Cumulative(bv);
    var tp, tb := Total(pc), Total(bc);
    Summary(tp, tb, tp - tb, Volatility(pv, sqrt), Volatility(bv, sqrt), Sharpe(pv, sqrt), dates, pc, bc)
  }

  /**
   * Merge and measure. Without any concatenated window there is no portfolio
   * column; a benchmark Series keeps the name 'Adj Close'; a ticker whose
   * return column is also called `portfolio_return` makes the merge suffix
   * both columns. Each of these fails with KeyError.
   */
  function Summarize(rows: seq<Compositor.Obs>, hasColumn: bool, bench: Benchmark.Bench, ticker: string, sqrt: real -> real)
      : (r: Result<Summary, MergeError>)
    ensures !hasColumn ==> r == Failure(MissingColumn(PortfolioColumn))
    ensures hasColumn && bench.BenchSeries? ==> r == Failure(MissingColumn(Benchmark.ReturnColumn(ticker)))
    ensures bench.BenchTable? && Benchmark.ReturnColumn(ticker) == PortfolioColumn ==> r.Failure?
    ensures r.Success? ==> bench.BenchTable? && |bench.table.labels| == 1 && hasColumn
    ensures r.Success? ==> r.value == Measure(PresentDates(rows), PresentValues(rows), BenchmarkValues(rows, bench.table), sqrt)
  {
    if !hasColumn then Failure(MissingColumn(PortfolioColumn))
    else match bench
      case BenchSeries(_) => Failure(MissingColumn(Benchmark.ReturnColumn(ticker)))
      case BenchTable(b) =>
        if Benchmark.ReturnColumn(ticker) == PortfolioColumn || |b.labels| != 1 then Failure(MissingColumn(PortfolioColumn))
        else Success(Measure(PresentDates(rows), PresentValues(rows), BenchmarkValues(rows, b), sqrt))
  }

  /** The merged row i has a benchmark value: the benchmark has row i's date. */
  predicate HasBench(rows: seq<Compositor.Obs>, b: Table, i: nat)
  {
    i < |rows| && |b.labels| == 1 && BenchAt(b, rows[i].date).Some?
  }

  /**
   * `vs` is the benchmark column after `dropna()`, taken through the row
   * positions `ks`: one value per row with a benchmark value, in row order,
   * and every such row used.
   */
  ghost predicate BenchFilteredAt(rows: seq<Compositor.Obs>, b: Table, vs: seq<real>, ks: seq<nat>)
  {
    && |ks| == |vs|
    && (forall j :: 0 <= j < |ks| ==> HasBench(rows, b, ks[j]) && vs[j] == BenchAt(b, rows[ks[j]].date).value)
    && (forall j, j' :: 0 <= j < j' < |ks| ==> ks[j] < ks[j'])
    && (forall i: nat :: HasBench(rows, b, i) ==> i in ks)
  }

  function Shifted(ks: seq<nat>): (r: seq<nat>)
    ensures |r| == |ks| && forall j :: 0 <= j < |ks| ==> r[j] == ks[j] + 1
  {
    seq(|ks|, j requires 0 <= j < |ks| => ks[j] + 1)
  }

  lemma ShiftHasBench(rows: seq<Compositor.Obs>, b: Table, k: nat)
    requires |rows| > 0
    ensures HasBench(rows[1..], b, k) <==> HasBench(rows, b, k + 1)
    ensures k < |rows| - 1 ==> rows[1..][k] == rows[k + 1]
  {
  }

  /** Row positions of the tail's benchmark values, shifted by one, are positions of `rows`. */
  lemma ShiftedBenchValues(rows: seq<Compositor.Obs>, b: Table, vs: seq<real>, tail: seq<nat>)
    requires |rows| > 0 && |tail| == |vs|
    requires forall j :: 0 <= j < |tail| ==> HasBench(rows[1..], b, tail[j]) && vs[j] == BenchAt(b, rows[1..][tail[j]].date).value
    ensures forall j :: 0 <= j < |tail| ==>
              1 <= Shifted(tail)[j] && HasBench(rows, b, Shifted(tail)[j]) && vs[j] == BenchAt(b, rows[Shifted(tail)[j]].date).value
  {
    forall j | 0 <= j < |tail| ensures HasBench(rows, b, Shifted(tail)[j]) && vs[j] == BenchAt(b, rows[Shifted(tail)[j]].date).value {
      ShiftHasBench(rows, b, tail[j]);
    }
  }

  lemma ShiftedBenchIncreasing(tail: seq<nat>)
    requires forall j, j' :: 0 <= j < j' < |tail| ==> tail[j] < tail[j']
    ensures forall j, j' :: 0 <= j < j' < |tail| ==> Shifted(tail)[j] < Shifted(tail)[j']
  {
  }

  lemma ShiftedBenchCovers(rows: seq<Compositor.Obs>, b: Table, tail: seq<nat>)
    requires |rows| > 0
    requires forall i: nat :: HasBench(rows[1..], b, i) ==> i in tail
    ensures forall i: nat :: 1 <= i && HasBench(rows, b, i) ==> i in Shifted(tail)
  {
    var sh := Shifted(tail);
    forall i: nat | 1 <= i && HasBench(rows, b, i) ensures i in sh {
      ShiftHasBench(rows, b, i - 1);
      var j :| 0 <= j < |tail| && tail[j] == i - 1;
      assert sh[j] == i;
    }
  }

  /** BenchFilteredAt restricted to the rows from position 1 on. */
  ghost predicate BenchAfterFirst(rows: seq<Compositor.Obs>, b: Table, vs: seq<real>, ks: seq<nat>)
  {
    && |ks| == |vs|
    && (forall j :: 0 <= j < |ks| ==> 1 <= ks[j] && HasBench(rows, b, ks[j]) && vs[j] == BenchAt(b, rows[ks[j]].date).value)
    && (forall j, j' :: 0 <= j < j' < |ks| ==> ks[j] < ks[j'])
    && (forall i: nat :: 1 <= i && HasBench(rows, b, i) ==> i in ks)
  }

  /** The tail's benchmark values, through shifted positions, cover `rows` from position 1 on. */
  lemma ShiftedBench(rows: seq<Compositor.Obs>, b: Table, vs: seq<real>, tail: seq<nat>)
    requires |rows| > 0 && BenchFilteredAt(rows[1..], b, vs, tail)
    ensures BenchAfterFirst(rows, b, vs, Shifted(tail))
  {
    ShiftedBenchValues(rows, b, vs, tail);
    ShiftedBenchIncreasing(tail);
    ShiftedBenchCovers(rows, b, tail);
  }

  /** A first row without a benchmark value is dropped. */
  lemma SkipBench(rows: seq<Compositor.Obs>, b: Table, vs: seq<real>, ks: seq<nat>)
    requires |rows| > 0 && !HasBench(rows, b, 0) && BenchAfterFirst(rows, b, vs, ks)
    ensures BenchFilteredAt(rows, b, vs, ks)
  {
  }

  /** The first row's benchmark value, when present, goes in front. */
  lemma PrependBench(rows: seq<Compositor.Obs>, b: Table, vs: seq<real>, ks: seq<nat>)
    requires |rows| > 0 && HasBench(rows, b, 0) && BenchAfterFirst(rows, b, vs, ks)
    ensures BenchFilteredAt(rows, b, [BenchAt(b, rows[0].date).value] + vs, [0] + ks)
  {
    PrependBenchValues(rows, b, vs, ks);
    PrependBenchIncreasing(ks);
    PrependBenchCovers(rows, b, ks);
  }

  lemma PrependBenchValues(rows: seq<Compositor.Obs>, b: Table, vs: seq<real>, ks: seq<nat>)
    requires |rows| > 0 && HasBench(rows, b, 0) && |ks| == |vs|
    requires forall j :: 0 <= j < |ks| ==> HasBench(rows, b, ks[j]) && vs[j] == BenchAt(b, rows[ks[j]].date).value
    ensures var vs' := [BenchAt(b, rows[0].date).value] + vs;
            forall j :: 0 <= j < |ks| + 1 ==> HasBench(rows, b, ([0] + ks)[j]) && vs'[j] == BenchAt(b, rows[([0] + ks)[j]].date).value
  {
    var ks', vs' := [0] + ks, [BenchAt(b, rows[0].date).value] + vs;
    forall j | 0 <= j < |ks'| ensures HasBench(rows, b, ks'[j]) && vs'[j] == BenchAt(b, rows[ks'[j]].date).value {
      if j > 0 {
        assert ks'[j] == ks[j - 1] && vs'[j] == vs[j - 1];
      }
    }
  }

  lemma PrependBenchIncreasing(ks: seq<nat>)
    requires forall j :: 0 <= j < |ks| ==> 1 <= ks[j]
    requires forall j, j' :: 0 <= j < j' < |ks| ==> ks[j] < ks[j']
    ensures forall j, j' :: 0 <= j < j' < |ks| + 1 ==> ([0] + ks)[j] < ([0] + ks)[j']
  {
    var ks' := [0] + ks;
    forall j, j' | 0 <= j < j' < |ks'| ensures ks'[j] < ks'[j'] {
      assert ks'[j'] == ks[j' - 1];
      if j > 0 {
        assert ks'[j] == ks[j - 1];
      }
    }
  }

  lemma PrependBenchCovers(rows: seq<Compositor.Obs>, b: Table, ks: seq<nat>)
    requires forall i: nat :: 1 <= i && HasBench(rows, b, i) ==> i in ks
    ensures forall i: nat :: HasBench(rows, b, i) ==> i in [0] + ks
  {
    forall i: nat | HasBench(rows, b, i) ensures i in [0] + ks {
      if i > 0 {
        var j :| 0 <= j < |ks| && ks[j] == i;
        assert ([0] + ks)[j + 1] == i;
      }
    }
  }

  /**
   * The left merge followed by `dropna()` on the benchmark column: the
   * benchmark values correspond, in row order and one for one, to the
   * portfolio rows whose date the benchmark has; rows whose date it lacks
   * are dropped from the benchmark series only.
   */
  lemma {:induction false} BenchmarkValuesOfPresent(rows: seq<Compositor.Obs>, b: Table) returns (ks: seq<nat>)
    requires |b.labels| == 1
    ensures BenchFilteredAt(rows, b, BenchmarkValues(rows, b), ks)
  {
    if |rows| == 0 {
      ks := [];
    } else {
      var tail := BenchmarkValuesOfPresent(rows[1..], b);
      var vs := BenchmarkValues(rows[1..], b);
      ShiftedBench(rows, b, vs, tail);
      var c := BenchAt(b, rows[0].date);
      assert BenchmarkValues(rows, b) == (if c.Some? then [c.value] else []) + vs;
      if HasBench(rows, b, 0) {
        PrependBench(rows, b, vs, Shifted(tail));
        ks := [0] + Shifted(tail);
      } else {
        assert BenchmarkValues(rows, b) == vs;
        SkipBench(rows, b, vs, Shifted(tail));
        ks := Shifted(tail);
      }
    }
  }
}
