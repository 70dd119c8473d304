/**
 * The benchmark series: the 'Adj Close' prices of one ticker, turned into
 * log returns (the first one missing) under the column `<ticker>_return`.
 */
module Benchmark {
  import opened Wrappers
  import opened Frames
  import Batching
  import Returns

  /**
   * Failures: the download raising, a missing 'Adj Close' key, and assigning
   * one column name to a table of another width.
   */
  datatype BenchError = DownloadRaised | KeyError(key: string) | LengthMismatch(width: nat)

  /**
   * A benchmark table carries the named return column; a flat download
   * yields a Series instead, which keeps its own name 'Adj Close'.
   */
  datatype Bench = BenchTable(table: Table) | BenchSeries(series: Table)

  /** ASCII lower-casing. */
  function LowerChar(c: char): (d: char)
    ensures 'A' <= c <= 'Z' ==> 'a' <= d <= 'z'
    ensures !('A' <= c <= 'Z') ==> d == c
  {
    if 'A' <= c <= 'Z' then (c as int + 32) as char else c
  }

  function Lower(s: string): (r: string)
    ensures |r| == |s| && forall i :: 0 <= i < |s| ==> r[i] == LowerChar(s[i])
  {
    seq(|s|, i requires 0 <= i < |s| => LowerChar(s[i]))
  }

  /** The benchmark's column name. */
  function ReturnColumn(ticker: string): string
  {
    Lower(ticker) + "_return"
  }

  /**
   * `get_benchmark_data`: a download that raises propagates; on a two-level
   * index `['Adj Close']` selects the level-0 group, which must be exactly one
   * column to take the new name; on a flat index it is a Series.
   */
  function GetBenchmarkData(fetched: Batching.Fetch, ticker: string, ln: real -> real): (r: Result<Bench, BenchError>)
    ensures fetched.Raised? ==> r == Failure(DownloadRaised)
    ensures r.Success? && r.value.BenchTable? ==>
              r.value.table.labels == [Flat(ReturnColumn(ticker))] && r.value.table.index == fetched.table.index
    ensures r.Success? && r.value.BenchSeries? ==> r.value.series.labels == [Flat(Returns.AdjClose)]
  {
    match fetched
    case Raised => Failure(DownloadRaised)
    case Fetched(t) =>
      if IsMulti(t) then
        var x := Returns.CrossSection(t, 0, Returns.AdjClose);
        if |x.labels| == 0 then Failure(KeyError(Returns.AdjClose))
        else if |x.labels| != 1 then Failure(LengthMismatch(|x.labels|))
        else
          var d := Returns.LogDiff(x, ln);
          Success(BenchTable(Frame(d.index, [Flat(ReturnColumn(ticker))], d.rows)))
      else if Flat(Returns.AdjClose) in t.labels then
        var j := Returns.FirstFlat(t.labels, Returns.AdjClose);
        Success(BenchSeries(Returns.LogDiff(Returns.Project(t, [j], [Flat(Returns.AdjClose)]), ln)))
      else Failure(KeyError(Returns.AdjClose))
  }

  /**
   * On a two-level download with exactly one 'Adj Close' column the
   * benchmark is that column's log-price difference: missing on the first
   * date and wherever either price is missing.
   */
  lemma BenchmarkReturns(t: Table, ticker: string, ln: real -> real, j: nat, k: nat)
    requires IsMulti(t) && j < |t.labels| && Returns.AtLevel(t.labels[j], 0, Returns.AdjClose)
    requires forall j' :: 0 <= j' < |t.labels| && Returns.AtLevel(t.labels[j'], 0, Returns.AdjClose) ==> j' == j
    requires k < |t.index|
    ensures GetBenchmarkData(Batching.Fetched(t), ticker, ln).Success?
    ensures GetBenchmarkData(Batching.Fetched(t), ticker, ln).value.BenchTable?
    ensures GetBenchmarkData(Batching.Fetched(t), ticker, ln).value.table.rows[k][0] ==
            (if k == 0 then None else Returns.Step(t.rows[k - 1][j], t.rows[k][j], ln))
  {
    var x := Returns.CrossSection(t, 0, Returns.AdjClose);
    SingleAdjClose(t, j);
    BenchmarkOfSingle(t, ticker, ln);
    CopiedColumnStep(t, x, j, ln, k);
  }

  /** The log difference of a copy of column j steps along column j. */
  lemma CopiedColumnStep(t: Table, x: Table, j: nat, ln: real -> real, k: nat)
    requires j < |t.labels| && |x.labels| == 1 && k < |t.index| && x.index == t.index
    requires Returns.Column(x, 0) == Returns.Column(t, j)
    ensures Returns.LogDiff(x, ln).rows[k][0] == (if k == 0 then None else Returns.Step(t.rows[k - 1][j], t.rows[k][j], ln))
  {
    assert x.rows[k][0] == Returns.Column(x, 0)[k] == t.rows[k][j];
    if k > 0 {
      assert x.rows[k - 1][0] == Returns.Column(x, 0)[k - 1] == t.rows[k - 1][j];
    }
    Returns.LogDiffAt(x, ln, k, 0);
  }

  /** With a single 'Adj Close' column the benchmark is its log difference, renamed. */
  lemma BenchmarkOfSingle(t: Table, ticker: string, ln: real -> real)
    requires IsMulti(t) && |Returns.CrossSection(t, 0, Returns.AdjClose).labels| == 1
    ensures var d := Returns.LogDiff(Returns.CrossSection(t, 0, Returns.AdjClose), ln);
            GetBenchmarkData(Batching.Fetched(t), ticker, ln) == Success(BenchTable(Frame(d.index, [Flat(ReturnColumn(ticker))], d.rows)))
  {
  }

  /** The only 'Adj Close' column of a two-level download is the whole cross-section. */
  lemma SingleAdjClose(t: Table, j: nat)
    requires IsMulti(t) && j < |t.labels| && Returns.AtLevel(t.labels[j], 0, Returns.AdjClose)
    requires forall j' :: 0 <= j' < |t.labels| && Returns.AtLevel(t.labels[j'], 0, Returns.AdjClose) ==> j' == j
    ensures |Returns.CrossSection(t, 0, Returns.AdjClose).labels| == 1
    ensures Returns.Column(Returns.CrossSection(t, 0, Returns.AdjClose), 0) == Returns.Column(t, j)
  {
    var ps := Returns.Positions(t.labels, 0, Returns.AdjClose, 0);
    assert j in ps;
    SinglePosition(ps, j);
  }

  /** The last of n strictly increasing naturals exceeds the first by at least n - 1. */
  lemma {:induction false} Spread(ps: seq<nat>)
    requires |ps| > 0 && forall i, k :: 0 <= i < k < |ps| ==> ps[i] < ps[k]
    ensures ps[|ps| - 1] - ps[0] >= |ps| - 1
  {
    if |ps| > 1 {
      Spread(ps[..|ps| - 1]);
      assert ps[|ps| - 2] < ps[|ps| - 1];
    }
  }

  /** A strictly increasing list of positions that all equal j is [j] or empty. */
  lemma SinglePosition(ps: seq<nat>, j: nat)
    requires forall i, k :: 0 <= i < k < |ps| ==> ps[i] < ps[k]
    requires forall i :: 0 <= i < |ps| ==> ps[i] == j
    requires j in ps
    ensures ps == [j]
  {
    var n := |ps|;
    Spread(ps);
    assert ps[0] == j && ps[n - 1] == j;
  }

  /** A two-level download without an 'Adj Close' group fails with KeyError. */
  lemma MissingAdjClose(t: Table, ticker: string, ln: real -> real)
    requires IsMulti(t) && !Returns.HasAtLevel(t, 0, Returns.AdjClose)
    ensures GetBenchmarkData(Batching.Fetched(t), ticker, ln) == Failure(KeyError(Returns.AdjClose))
  {
    Returns.CrossSectionNeedsMatch(t, 0, Returns.AdjClose);
  }
}
