/**
 * The portfolio window compositor: for each holding-start key of a
 * composition, the returns dated from the start to its rolled month end are
 * averaged across the held symbols that exist as return columns. A
 * sequential loop and a version over batches of five keys compute it.
 */
module Compositor {
  import opened Wrappers
  import opened Calendar
  import opened Frames
  import IsoDate
  import Seqs
  import Batching
  import Returns
  import Sentiment

  type Symbol = string

  /** One row of the `portfolio_return` column; None is a NaN mean. */
  datatype Obs = Obs(date: Date, value: Option<real>)

  /**
   * Failures of the computation: a key `to_datetime` rejects, a `columns`
   * lookup on a Series (AttributeError), and concatenating no frames.
   */
  datatype ComposeError = BadDate(key: string) | NoColumns | NoObjects

  /**
   * What a run of the loop has built: the rows, and whether any window was
   * concatenated at all, so that the frame has a `portfolio_return` column
   * (possibly with no rows).
   */
  datatype Composed = Composed(rows: seq<Obs>, hasColumn: bool)

  function PresentSum(cells: seq<Cell>): real
  {
    if |cells| == 0 then 0.0
    else (if cells[0].Some? then cells[0].value else 0.0) + PresentSum(cells[1..])
  }

  function PresentCount(cells: seq<Cell>): nat
  {
    if |cells| == 0 then 0
    else (if cells[0].Some? then 1 else 0) + PresentCount(cells[1..])
  }

  /** A row mean that skips missing cells; missing when every cell is. */
  function MeanSkipNa(cells: seq<Cell>): (m: Option<real>)
    ensures m.None? <==> PresentCount(cells) == 0
    ensures m.Some? ==> m.value * (PresentCount(cells) as real) == PresentSum(cells)
  {
    var n := PresentCount(cells);
    if n == 0 then None else Some(PresentSum(cells) / n as real)
  }

  /** When every present cell holds v, the sum is v times the count. */
  lemma {:induction false} SumOfConstant(cells: seq<Cell>, v: real)
    requires forall j :: 0 <= j < |cells| && cells[j].Some? ==> cells[j].value == v
    ensures PresentSum(cells) == v * (PresentCount(cells) as real)
  {
    if |cells| > 0 {
      SumOfConstant(cells[1..], v);
    }
  }

  /** Averaging equal returns gives that return back. */
  lemma MeanOfConstant(cells: seq<Cell>, v: real)
    requires forall j :: 0 <= j < |cells| && cells[j].Some? ==> cells[j].value == v
    requires PresentCount(cells) > 0
    ensures MeanSkipNa(cells) == Some(v)
  {
    SumOfConstant(cells, v);
    var n := PresentCount(cells) as real;
    assert n > 0.0;
    assert MeanSkipNa(cells) == Some(PresentSum(cells) / n);
    assert PresentSum(cells) / n == v * n / n == v;
  }

  /** The held symbols that exist as return columns, in holding order. */
  function ValidCols(t: Table, cols: seq<Symbol>): (v: seq<Symbol>)
    ensures forall c :: c in v <==> c in cols && Flat(c) in t.labels
    ensures |v| <= |cols|
  {
    if |cols| == 0 then []
    else (if Flat(cols[0]) in t.labels then [cols[0]] else []) + ValidCols(t, cols[1..])
  }

  /** The cells of row k under the given symbols' columns. */
  function CellsOf(t: Table, k: nat, cols: seq<Symbol>): (cs: seq<Cell>)
    requires k < |t.index| && forall c :: c in cols ==> Flat(c) in t.labels
    ensures |cs| == |cols|
  {
    seq(|cols|, i requires 0 <= i < |cols| => t.rows[k][Returns.FirstFlat(t.labels, cols[i])])
  }

  /** `loc[start:end]` with both ends inclusive. */
  predicate InWindow(d: Date, start: Date)
  {
    AtOrBefore(start, d) && AtOrBefore(d, RollMonthEnd(start))
  }

  /** The window's rows from position `from` on, each the mean over `cols`. */
  function WindowRows(t: Table, start: Date, cols: seq<Symbol>, from: nat): (ws: seq<Obs>)
    requires from <= |t.index| && forall c :: c in cols ==> Flat(c) in t.labels
    ensures forall i :: 0 <= i < |ws| ==> InWindow(ws[i].date, start) && ws[i].date in t.index[from..]
    ensures forall i, j :: 0 <= i < j < |ws| ==> Before(ws[i].date, ws[j].date)
    decreases |t.index| - from
  {
    if from == |t.index| then []
    else
      var rest := WindowRows(t, start, cols, from + 1);
      assert forall i :: 0 <= i < |rest| ==> Before(t.index[from], rest[i].date) by {
        forall i | 0 <= i < |rest| ensures Before(t.index[from], rest[i].date) {
          var k :| from + 1 <= k < |t.index| && t.index[k] == rest[i].date;
        }
      }
      (if InWindow(t.index[from], start) then [Obs(t.index[from], MeanSkipNa(CellsOf(t, from, cols)))] else [])
      + rest
  }

  /** Every date of the table inside the window has a row, with the mean over the symbols. */
  lemma {:induction false} WindowRowsComplete(t: Table, start: Date, cols: seq<Symbol>, from: nat, k: nat)
    requires from <= k < |t.index| && forall c :: c in cols ==> Flat(c) in t.labels
    requires InWindow(t.index[k], start)
    ensures Obs(t.index[k], MeanSkipNa(CellsOf(t, k, cols))) in WindowRows(t, start, cols, from)
    decreases k - from
  {
    if from < k {
      WindowRowsComplete(t, start, cols, from + 1, k);
    }
  }

  /** Every row of the window is the mean over the symbols at a table date. */
  lemma {:induction false} WindowRowsSound(t: Table, start: Date, cols: seq<Symbol>, from: nat, o: Obs)
      returns (k: nat)
    requires from <= |t.index| && forall c :: c in cols ==> Flat(c) in t.labels
    requires o in WindowRows(t, start, cols, from)
    ensures from <= k < |t.index| && o == Obs(t.index[k], MeanSkipNa(CellsOf(t, k, cols)))
    decreases |t.index| - from
  {
    if InWindow(t.index[from], start) && o == Obs(t.index[from], MeanSkipNa(CellsOf(t, from, cols))) {
      k := from;
    } else {
      k := WindowRowsSound(t, start, cols, from + 1, o);
    }
  }

  /**
   * One key of the loop: nothing for a key the composition lacks; otherwise
   * the key must parse as a representable date; a Series has no columns to
   * test the held symbols against; no valid symbol adds nothing; else the
   * window's rows.
   */
  function KeyRows(p: Returns.Prepared, comp: Sentiment.Composition, key: string): (r: Result<Option<seq<Obs>>, ComposeError>)
    ensures Sentiment.Lookup(comp, key).None? ==> r == Success(None)
  {
    match Sentiment.Lookup(comp, key)
    case None => Success(None)
    case Some(cols) =>
      match IsoDate.Parse(key)
      case None => Failure(BadDate(key))
      case Some(start) =>
        if !Sentiment.Representable(start) then Failure(BadDate(key))
        else if |cols| > 0 && p.series then Failure(NoColumns)
        else
          var valid := ValidCols(p.table, cols);
          if |valid| == 0 then Success(None)
          else Success(Some(WindowRows(p.table, start, valid, 0)))
  }

  /** Appending what one key contributes to what the loop has built. */
  function Extend(acc: Composed, add: Option<seq<Obs>>): Composed
  {
    match add
    case None => acc
    case Some(ws) => Composed(acc.rows + ws, true)
  }

  /** One pass of the loop body: a failure so far or from this key stops the loop. */
  function Step(acc: Result<Composed, ComposeError>, add: Result<Option<seq<Obs>>, ComposeError>): Result<Composed, ComposeError>
  {
    match acc
    case Failure(e) => Failure(e)
    case Success(a) =>
      match add
      case Failure(e) => Failure(e)
      case Success(o) => Success(Extend(a, o))
  }

  /** The loop over `keys`, stopping at the first failure. */
  function SeriesOver(p: Returns.Prepared, comp: Sentiment.Composition, keys: seq<string>): Result<Composed, ComposeError>
    decreases |keys|
  {
    if |keys| == 0 then Success(Composed([], false))
    else Step(SeriesOver(p, comp, keys[..|keys| - 1]), KeyRows(p, comp, keys[|keys| - 1]))
  }

  /** Running the loop on a then on b: the first failure, or the two results concatenated. */
  function Then(x: Result<Composed, ComposeError>, y: Result<Composed, ComposeError>): Result<Composed, ComposeError>
  {
    if x.Failure? then x
    else if y.Failure? then y
    else Success(Composed(x.value.rows + y.value.rows, x.value.hasColumn || y.value.hasColumn))
  }

  /** Running one more key after two stretches of the loop. */
  lemma ThenStep(x: Result<Composed, ComposeError>, y: Result<Composed, ComposeError>, add: Result<Option<seq<Obs>>, ComposeError>)
    ensures Then(x, Step(y, add)) == Step(Then(x, y), add)
  {
    if x.Success? && y.Success? && add.Success? && add.value.Some? {
      assert x.value.rows + y.value.rows + add.value.value == x.value.rows + (y.value.rows + add.value.value);
    }
  }

  /** The loop over a + b is the loop over a followed by the loop over b. */
  lemma {:induction false} SeriesOverAppend(p: Returns.Prepared, comp: Sentiment.Composition, a: seq<string>, b: seq<string>)
    ensures SeriesOver(p, comp, a + b) == Then(SeriesOver(p, comp, a), SeriesOver(p, comp, b))
    decreases |b|
  {
    if |b| == 0 {
      assert a + b == a;
      if SeriesOver(p, comp, a).Success? {
        assert SeriesOver(p, comp, a).value.rows + [] == SeriesOver(p, comp, a).value.rows;
      }
    } else {
      var b' := b[..|b| - 1];
      assert (a + b)[..|a + b| - 1] == a + b';
      assert (a + b)[|a + b| - 1] == b[|b| - 1];
      SeriesOverAppend(p, comp, a, b');
      ThenStep(SeriesOver(p, comp, a), SeriesOver(p, comp, b'), KeyRows(p, comp, b[|b| - 1]));
    }
  }

  /** Once a prefix of the keys fails, the whole loop fails the same way. */
  lemma {:induction false} FailureStays(p: Returns.Prepared, comp: Sentiment.Composition, keys: seq<string>, i: nat)
    requires i <= |keys| && SeriesOver(p, comp, keys[..i]).Failure?
    ensures SeriesOver(p, comp, keys) == SeriesOver(p, comp, keys[..i])
    decreases |keys|
  {
    if i == |keys| {
      assert keys[..i] == keys;
    } else {
      var init := keys[..|keys| - 1];
      assert init[..i] == keys[..i];
      FailureStays(p, comp, init, i);
    }
  }

  /** `calculate_portfolio_returns_batch`: the loop over one batch of keys. */
  method CalculatePortfolioReturnsBatch(p: Returns.Prepared, comp: Sentiment.Composition, batch: seq<string>)
      returns (r: Result<Composed, ComposeError>)
    ensures r == SeriesOver(p, comp, batch)
  {
    var acc := Composed([], false);
    for i := 0 to |batch|
      invariant SeriesOver(p, comp, batch[..i]) == Success(acc)
    {
      assert batch[..i + 1][..i] == batch[..i];
      var add := KeyRows(p, comp, batch[i]);
      if add.Failure? {
        FailureStays(p, comp, batch, i + 1);
        return Failure(add.error);
      }
      acc := Extend(acc, add.value);
    }
    assert batch[..|batch|] == batch;
    return Success(acc);
  }

  /**
   * Gathering the per-batch results in batch order: the first failure, or
   * the rows of all batches (empty frames being dropped adds no rows).
   */
  function Gather(results: seq<Result<Composed, ComposeError>>): Result<seq<Obs>, ComposeError>
  {
    if |results| == 0 then Success([])
    else if results[0].Failure? then Failure(results[0].error)
    else
      match Gather(results[1..])
      case Failure(e) => Failure(e)
      case Success(rest) => Success(results[0].value.rows + rest)
  }

  function BatchResults(p: Returns.Prepared, comp: Sentiment.Composition, batches: seq<seq<string>>): (rs: seq<Result<Composed, ComposeError>>)
    ensures |rs| == |batches| && forall i :: 0 <= i < |rs| ==> rs[i] == SeriesOver(p, comp, batches[i])
  {
    seq(|batches|, i requires 0 <= i < |batches| => SeriesOver(p, comp, batches[i]))
  }

  /** The concatenation step: no rows at all means no frame to concatenate. */
  function ConcatRows(r: Result<seq<Obs>, ComposeError>): Result<seq<Obs>, ComposeError>
  {
    match r
    case Failure(e) => Failure(e)
    case Success(rows) => if |rows| == 0 then Failure(NoObjects) else Success(rows)
  }

  /** The compositor over batches of five keys. */
  function BatchedCompose(p: Returns.Prepared, comp: Sentiment.Composition): Result<seq<Obs>, ComposeError>
  {
    ConcatRows(Gather(BatchResults(p, comp, Batching.ChunksOf(Sentiment.Keys(comp), 5))))
  }

  /** The loop over the flattened batches is the gathered per-batch loops. */
  lemma {:induction false} GatherFlatten(p: Returns.Prepared, comp: Sentiment.Composition, batches: seq<seq<string>>)
    ensures Gather(BatchResults(p, comp, batches)) ==
            match SeriesOver(p, comp, Seqs.Flatten(batches))
            case Failure(e) => Failure(e)
            case Success(c) => Success(c.rows)
  {
    if |batches| > 0 {
      GatherFlatten(p, comp, batches[1..]);
      assert BatchResults(p, comp, batches)[1..] == BatchResults(p, comp, batches[1..]);
      SeriesOverAppend(p, comp, batches[0], Seqs.Flatten(batches[1..]));
    }
  }

  /**
   * Splitting the keys into batches of five and concatenating the non-empty
   * batch results in order gives the same rows as one pass over all keys;
   * when no key yields a row the concatenation fails.
   */
  lemma BatchedEqualsSequential(p: Returns.Prepared, comp: Sentiment.Composition)
    ensures BatchedCompose(p, comp) ==
            match SeriesOver(p, comp, Sentiment.Keys(comp))
            case Failure(e) => Failure(e)
            case Success(c) => if |c.rows| == 0 then Failure(NoObjects) else Success(c.rows)
  {
    var keys := Sentiment.Keys(comp);
    GatherFlatten(p, comp, Batching.ChunksOf(keys, 5));
    Batching.ChunksFlatten(keys, 5);
  }

  /** The batched loop of `calculate_portfolio_performance`, once the returns are prepared. */
  method ComposeInBatches(p: Returns.Prepared, comp: Sentiment.Composition)
      returns (r: Result<seq<Obs>, ComposeError>)
    ensures r == BatchedCompose(p, comp)
  {
    var keys := Sentiment.Keys(comp);
    var batches := Batching.ChunksOf(keys, 5);
    var results: seq<Result<Composed, ComposeError>> := [];
    for i := 0 to |batches|
      invariant results == BatchResults(p, comp, batches[..i])
    {
      var one := CalculatePortfolioReturnsBatch(p, comp, batches[i]);
      results := results + [one];
    }
    assert batches[..|batches|] == batches;
    r := ConcatRows(Gather(results));
  }

  /** The sequential compositor: the loop over every key of the composition. */
  method ComposeSequential(p: Returns.Prepared, comp: Sentiment.Composition)
      returns (r: Result<Composed, ComposeError>)
    ensures r == SeriesOver(p, comp, Sentiment.Keys(comp))
  {
    r := CalculatePortfolioReturnsBatch(p, comp, Sentiment.Keys(comp));
  }

  /**
   * A present key whose start parses contributes exactly the table's dates
   * in [start, month-end(start)], each with the mean over the held symbols
   * that exist as columns; with no such symbol it contributes nothing.
   */
  lemma KeyRowsWindow(p: Returns.Prepared, comp: Sentiment.Composition, key: string, cols: seq<Symbol>, start: Date)
    requires Sentiment.Lookup(comp, key) == Some(cols) && IsoDate.Parse(key) == Some(start)
    requires Sentiment.Representable(start) && !p.series
    ensures |ValidCols(p.table, cols)| == 0 ==> KeyRows(p, comp, key) == Success(None)
    ensures |ValidCols(p.table, cols)| > 0 ==>
              KeyRows(p, comp, key) == Success(Some(WindowRows(p.table, start, ValidCols(p.table, cols), 0)))
  {
  }
}
