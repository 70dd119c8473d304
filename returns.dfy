/**
 * Return-table preparation: the 'Adj Close' field is chosen from a flat or a
 * two-level column layout, the log prices are differenced row to row, and
 * every row holding a missing value is dropped.
 */
module Returns {
  import opened Wrappers
  import opened Calendar
  import opened Frames

  const AdjClose: string := "Adj Close"

  /** A column label lookup that fails raises KeyError. */
  datatype SelectError = KeyError(key: string)

  /**
   * The selected prices. `series` is set when a flat layout yields a single
   * column as a Series rather than a table; such a value has no `columns`.
   */
  datatype Prepared = Prepared(table: Table, series: bool)

  /** The cells of column j, top to bottom. */
  function Column(t: Table, j: nat): (c: seq<Cell>)
    requires j < |t.labels|
    ensures |c| == |t.index|
  {
    seq(|t.rows|, k requires 0 <= k < |t.rows| => t.rows[k][j])
  }

  /** Whether label l carries `name` at the given level of a two-level index. */
  predicate AtLevel(l: Label, level: nat, name: string)
  {
    l.Pair? && (if level == 0 then l.outer else l.inner) == name
  }

  /** The name a label keeps once the given level is taken away by a cross-section. */
  function OtherLevel(l: Label, level: nat): string
  {
    match l
    case Flat(n) => n
    case Pair(o, i) => if level == 0 then i else o
  }

  /** The ascending positions, from `from` on, of the labels naming `name` at `level`. */
  function Positions(labels: seq<Label>, level: nat, name: string, from: nat): (ps: seq<nat>)
    requires from <= |labels|
    ensures forall i :: 0 <= i < |ps| ==> from <= ps[i] < |labels| && AtLevel(labels[ps[i]], level, name)
    ensures forall j :: from <= j < |labels| && AtLevel(labels[j], level, name) ==> j in ps
    ensures forall i, j :: 0 <= i < j < |ps| ==> ps[i] < ps[j]
    decreases |labels| - from
  {
    if from == |labels| then []
    else (if AtLevel(labels[from], level, name) then [from] else []) + Positions(labels, level, name, from + 1)
  }

  /** The columns at the given positions, under new labels. */
  function Project(t: Table, ps: seq<nat>, newLabels: seq<Label>): (r: Table)
    requires |newLabels| == |ps| && forall i :: 0 <= i < |ps| ==> ps[i] < |t.labels|
    ensures r.index == t.index && r.labels == newLabels
    ensures forall i :: 0 <= i < |ps| ==> Column(r, i) == Column(t, ps[i])
  {
    var rows := seq(|t.rows|, k requires 0 <= k < |t.rows| =>
                  seq(|ps|, i requires 0 <= i < |ps| => t.rows[k][ps[i]]));
    Frame(t.index, newLabels, rows)
  }

  /** The labels a cross-section gives the chosen columns. */
  function Relabel(labels: seq<Label>, ps: seq<nat>, level: nat, name: string): (ls: seq<Label>)
    requires forall i :: 0 <= i < |ps| ==> ps[i] < |labels|
    ensures |ls| == |ps|
    ensures forall i :: 0 <= i < |ps| ==> ls[i] == Flat(OtherLevel(labels[ps[i]], level))
  {
    seq(|ps|, i requires 0 <= i < |ps| => Flat(OtherLevel(labels[ps[i]], level)))
  }

  /**
   * `xs(name, axis=1, level=level)`: the columns whose label has `name` at
   * `level`, in order, each labelled by its remaining level.
   */
  function CrossSection(t: Table, level: nat, name: string): (r: Table)
    ensures r.index == t.index
  {
    var ps := Positions(t.labels, level, name, 0);
    Project(t, ps, Relabel(t.labels, ps, level, name))
  }

  /** Every column of a cross-section is a matching column of the source, relabelled. */
  lemma CrossSectionSound(t: Table, level: nat, name: string, i: nat)
    requires i < |CrossSection(t, level, name).labels|
    ensures exists j :: 0 <= j < |t.labels| && AtLevel(t.labels[j], level, name)
              && CrossSection(t, level, name).labels[i] == Flat(OtherLevel(t.labels[j], level))
              && Column(CrossSection(t, level, name), i) == Column(t, j)
  {
    var ps := Positions(t.labels, level, name, 0);
    var j := ps[i];
    assert Column(CrossSection(t, level, name), i) == Column(t, j);
  }

  /** A non-empty cross-section needs a matching column in the source. */
  lemma CrossSectionNeedsMatch(t: Table, level: nat, name: string)
    ensures |CrossSection(t, level, name).labels| > 0 ==> HasAtLevel(t, level, name)
  {
    if |CrossSection(t, level, name).labels| > 0 {
      CrossSectionSound(t, level, name, 0);
    }
  }

  /** Every matching column of the source appears in the cross-section, relabelled. */
  lemma CrossSectionComplete(t: Table, level: nat, name: string, j: nat)
    requires j < |t.labels| && AtLevel(t.labels[j], level, name)
    ensures exists i :: 0 <= i < |CrossSection(t, level, name).labels|
              && CrossSection(t, level, name).labels[i] == Flat(OtherLevel(t.labels[j], level))
              && Column(CrossSection(t, level, name), i) == Column(t, j)
  {
    var ps := Positions(t.labels, level, name, 0);
    var i :| 0 <= i < |ps| && ps[i] == j;
    assert Column(CrossSection(t, level, name), i) == Column(t, j);
  }

  /** Whether some label names `name` at `level`. */
  predicate HasAtLevel(t: Table, level: nat, name: string)
  {
    exists j :: 0 <= j < |t.labels| && AtLevel(t.labels[j], level, name)
  }

  /** The first position of a flat label. */
  function FirstFlat(labels: seq<Label>, name: string): (j: nat)
    requires Flat(name) in labels
    ensures j < |labels| && labels[j] == Flat(name)
  {
    if labels[0] == Flat(name) then 0 else 1 + FirstFlat(labels[1..], name)
  }

  /**
   * Choosing 'Adj Close': on a two-level index the cross-section at level 0
   * when 'Adj Close' occurs there, otherwise the one at level 1 (which raises
   * KeyError when it occurs nowhere); on a flat index the 'Adj Close' column
   * as a Series, or else the whole table.
   */
  function SelectAdjClose(t: Table): (r: Result<Prepared, SelectError>)
    ensures r.Failure? <==> IsMulti(t) && !HasAtLevel(t, 0, AdjClose) && !HasAtLevel(t, 1, AdjClose)
    ensures IsMulti(t) && HasAtLevel(t, 0, AdjClose) ==> r == Success(Prepared(CrossSection(t, 0, AdjClose), false))
    ensures IsMulti(t) && !HasAtLevel(t, 0, AdjClose) && HasAtLevel(t, 1, AdjClose)
            ==> r == Success(Prepared(CrossSection(t, 1, AdjClose), false))
    ensures !IsMulti(t) && Flat(AdjClose) in t.labels ==>
              r.Success? && r.value.series && r.value.table.labels == [Flat(AdjClose)]
              && Column(r.value.table, 0) == Column(t, FirstFlat(t.labels, AdjClose))
    ensures !IsMulti(t) && Flat(AdjClose) !in t.labels ==> r == Success(Prepared(t, false))
    ensures r.Success? ==> r.value.table.index == t.index
  {
    if IsMulti(t) then
      if HasAtLevel(t, 0, AdjClose) then Success(Prepared(CrossSection(t, 0, AdjClose), false))
      else if HasAtLevel(t, 1, AdjClose) then Success(Prepared(CrossSection(t, 1, AdjClose), false))
      else Failure(KeyError(AdjClose))
    else if Flat(AdjClose) in t.labels then
      var j := FirstFlat(t.labels, AdjClose);
      Success(Prepared(Project(t, [j], [Flat(AdjClose)]), true))
    else Success(Prepared(t, false))
  }

  /** One difference step of the log prices; missing when either price is. */
  function Step(prev: Cell, cur: Cell, ln: real -> real): Cell
  {
    if prev.Some? && cur.Some? then Some(ln(cur.value) - ln(prev.value)) else None
  }

  /** `log(t).diff()`: the first row is all missing. */
  function LogDiff(t: Table, ln: real -> real): (d: Table)
    ensures d.index == t.index && d.labels == t.labels
  {
    var w := |t.labels|;
    var rows := seq(|t.rows|, k requires 0 <= k < |t.rows| =>
                  seq(w, j requires 0 <= j < w => if k == 0 then None else Step(t.rows[k - 1][j], t.rows[k][j], ln)));
    Frame(t.index, t.labels, rows)
  }

  /** A row without missing cells. */
  predicate Complete(row: seq<Cell>)
  {
    forall j :: 0 <= j < |row| ==> row[j].Some?
  }

  /** The ascending positions, from `from` on, of the complete rows. */
  function CompletePositions(rows: seq<seq<Cell>>, from: nat): (ps: seq<nat>)
    requires from <= |rows|
    ensures forall i :: 0 <= i < |ps| ==> from <= ps[i] < |rows| && Complete(rows[ps[i]])
    ensures forall i, j :: 0 <= i < j < |ps| ==> ps[i] < ps[j]
    ensures forall k :: from <= k < |rows| && Complete(rows[k]) ==> k in ps
    decreases |rows| - from
  {
    if from == |rows| then []
    else (if Complete(rows[from]) then [from] else []) + CompletePositions(rows, from + 1)
  }

  /** The rows at the given strictly increasing positions. */
  function Pick(t: Table, ps: seq<nat>): (r: Table)
    requires forall i :: 0 <= i < |ps| ==> ps[i] < |t.rows|
    requires forall i, j :: 0 <= i < j < |ps| ==> ps[i] < ps[j]
    ensures r.labels == t.labels && |r.index| == |ps|
    ensures forall i :: 0 <= i < |ps| ==> r.index[i] == t.index[ps[i]] && r.rows[i] == t.rows[ps[i]]
  {
    var index := seq(|ps|, i requires 0 <= i < |ps| => t.index[ps[i]]);
    var rows := seq(|ps|, i requires 0 <= i < |ps| => t.rows[ps[i]]);
    assert Ascending(index) by {
      forall i, j | 0 <= i < j < |ps| ensures Before(index[i], index[j]) {
        assert ps[i] < ps[j];
      }
    }
    Frame(index, t.labels, rows)
  }

  /** The cell of `log(t).diff()` at row k, column j. */
  lemma LogDiffAt(t: Table, ln: real -> real, k: nat, j: nat)
    requires k < |t.index| && j < |t.labels|
    ensures LogDiff(t, ln).rows[k][j] == (if k == 0 then None else Step(t.rows[k - 1][j], t.rows[k][j], ln))
  {
  }

  /** `dropna()`: the complete rows, in order. */
  function DropNa(t: Table): (r: Table)
    ensures r.labels == t.labels
    ensures forall i :: 0 <= i < |r.rows| ==> Complete(r.rows[i])
  {
    Pick(t, CompletePositions(t.rows, 0))
  }

  /** Each row kept by `dropna()` is a row of the source at the same date. */
  lemma DropNaFrom(t: Table, i: nat) returns (k: nat)
    requires i < |DropNa(t).index|
    ensures k < |t.index| && t.index[k] == DropNa(t).index[i] && t.rows[k] == DropNa(t).rows[i]
  {
    k := CompletePositions(t.rows, 0)[i];
  }

  /** A date survives `dropna()` exactly when its row is complete. */
  lemma DropNaKeeps(t: Table, k: nat)
    requires k < |t.index|
    ensures t.index[k] in DropNa(t).index <==> Complete(t.rows[k])
  {
    var ps := CompletePositions(t.rows, 0);
    var r := Pick(t, ps);
    if t.index[k] in r.index {
      var i :| 0 <= i < |r.index| && r.index[i] == t.index[k];
      assert t.index[ps[i]] == t.index[k];
      AscendingInjective(t.index, ps[i], k);
    }
    if Complete(t.rows[k]) {
      var i :| 0 <= i < |ps| && ps[i] == k;
      assert r.index[i] == t.index[k];
    }
  }

  /** `log(t).diff().dropna()`. */
  function LogReturns(t: Table, ln: real -> real): Table
  {
    DropNa(LogDiff(t, ln))
  }

  /**
   * Whether the return at row k survives: every column has a price there and
   * on the previous row (a table without columns keeps every row).
   */
  predicate Priced(t: Table, k: nat)
    requires k < |t.index|
  {
    |t.labels| == 0 || (k >= 1 && forall j :: 0 <= j < |t.labels| ==> t.rows[k][j].Some? && t.rows[k - 1][j].Some?)
  }

  /** A date appears in the returns exactly when its row is priced. */
  lemma ReturnsKeep(t: Table, ln: real -> real, k: nat)
    requires k < |t.index|
    ensures t.index[k] in LogReturns(t, ln).index <==> Priced(t, k)
  {
    var d := LogDiff(t, ln);
    DropNaKeeps(d, k);
    if k == 0 {
      if |t.labels| > 0 {
        LogDiffAt(t, ln, 0, 0);
      }
    } else {
      if Complete(d.rows[k]) {
        forall j | 0 <= j < |t.labels| ensures t.rows[k][j].Some? && t.rows[k - 1][j].Some? {
          LogDiffAt(t, ln, k, j);
        }
      }
      if Priced(t, k) {
        forall j | 0 <= j < |d.rows[k]| ensures d.rows[k][j].Some? {
          LogDiffAt(t, ln, k, j);
        }
      }
    }
  }

  /** Whenever there is a column, the first date never has a return. */
  lemma FirstRowDropped(t: Table, ln: real -> real)
    requires |t.index| > 0 && |t.labels| > 0
    ensures t.index[0] !in LogReturns(t, ln).index
  {
    ReturnsKeep(t, ln, 0);
  }

  /** Every surviving return is the log-price difference from the previous row. */
  lemma ReturnsAreDifferences(t: Table, ln: real -> real, i: nat, j: nat) returns (k: nat)
    requires i < |LogReturns(t, ln).index| && j < |t.labels|
    ensures 1 <= k < |t.index| && t.index[k] == LogReturns(t, ln).index[i]
    ensures t.rows[k][j].Some? && t.rows[k - 1][j].Some?
    ensures LogReturns(t, ln).rows[i][j] == Some(ln(t.rows[k][j].value) - ln(t.rows[k - 1][j].value))
  {
    var d := LogDiff(t, ln);
    var r := LogReturns(t, ln);
    k := DropNaFrom(d, i);
    assert r.rows[i][j].Some?;
    LogDiffAt(t, ln, k, j);
  }

  /** A column holding one constant price yields a zero return on every kept row. */
  lemma ConstantPriceZeroReturn(t: Table, ln: real -> real, j: nat, p: real)
    requires j < |t.labels|
    requires forall k :: 0 <= k < |t.rows| ==> t.rows[k][j] == Some(p)
    ensures forall i :: 0 <= i < |LogReturns(t, ln).rows| ==> LogReturns(t, ln).rows[i][j] == Some(0.0)
  {
    var r := LogReturns(t, ln);
    forall i | 0 <= i < |r.rows| ensures r.rows[i][j] == Some(0.0) {
      var k := ReturnsAreDifferences(t, ln, i, j);
      assert t.rows[k][j] == Some(p) && t.rows[k - 1][j] == Some(p);
    }
  }

  /**
   * The guarded preparation: any failure of the selection yields an empty
   * table; otherwise the returns of the selected prices.
   */
  function CalculateReturnsBatch(prices: Table, ln: real -> real): (r: Prepared)
    ensures SelectAdjClose(prices).Failure? ==> r == Prepared(EmptyTable, false)
    ensures SelectAdjClose(prices).Success? ==>
              r.series == SelectAdjClose(prices).value.series
              && r.table == LogReturns(SelectAdjClose(prices).value.table, ln)
              && r.table.labels == SelectAdjClose(prices).value.table.labels
              && forall i :: 0 <= i < |r.table.rows| ==> Complete(r.table.rows[i])
  {
    match SelectAdjClose(prices)
    case Failure(_) => Prepared(EmptyTable, false)
    case Success(p) => Prepared(LogReturns(p.table, ln), p.series)
  }
}
