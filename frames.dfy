/**
 * Date-indexed tables: a strictly ascending date index, column labels (flat
 * names or two-level (outer, inner) pairs) and one row of cells per date,
 * where a missing cell stands for a NaN.
 */
module Frames {
  import opened Calendar
  import opened Wrappers
  import Seqs

  datatype Label = Flat(name: string) | Pair(outer: string, inner: string)

  /** A cell; None is a missing value. */
  type Cell = Option<real>

  datatype Frame = Frame(index: seq<Date>, labels: seq<Label>, rows: seq<seq<Cell>>)

  predicate Ascending(ds: seq<Date>)
  {
    forall i, j :: 0 <= i < j < |ds| ==> Before(ds[i], ds[j])
  }

  predicate WellFormed(f: Frame)
  {
    && |f.rows| == |f.index|
    && (forall k :: 0 <= k < |f.rows| ==> |f.rows[k]| == |f.labels|)
    && Ascending(f.index)
  }

  /** An ascending index holds each date at one position only. */
  lemma AscendingInjective(ds: seq<Date>, i: nat, j: nat)
    requires Ascending(ds) && i < |ds| && j < |ds| && ds[i] == ds[j]
    ensures i == j
  {
  }

  type Table = f: Frame | WellFormed(f) witness Frame([], [], [])

  const EmptyTable: Table := Frame([], [], [])

  /** pandas' `empty`: no rows or no columns. */
  predicate IsEmpty(t: Table)
  {
    |t.index| == 0 || |t.labels| == 0
  }

  /** A two-level column index: every label is an (outer, inner) pair. */
  predicate IsMulti(t: Table)
  {
    |t.labels| > 0 && forall j :: 0 <= j < |t.labels| ==> t.labels[j].Pair?
  }

  function Missing(n: nat): (r: seq<Cell>)
    ensures |r| == n && forall j :: 0 <= j < n ==> r[j].None?
  {
    seq(n, _ => None)
  }

  /** Position of d in an ascending index. */
  function Find(ds: seq<Date>, d: Date): (r: Option<nat>)
    ensures r.Some? ==> r.value < |ds| && ds[r.value] == d
    ensures r.None? ==> d !in ds
  {
    if |ds| == 0 then None
    else if ds[0] == d then Some(0)
    else match Find(ds[1..], d)
      case None => None
      case Some(k) => Some(k + 1)
  }

  /** The row of t at date d, or a row of missing cells when t has no such date. */
  function RowAt(t: Table, d: Date): (r: seq<Cell>)
    ensures |r| == |t.labels|
    ensures d !in t.index ==> r == Missing(|t.labels|)
    ensures forall k :: 0 <= k < |t.index| && t.index[k] == d ==> r == t.rows[k]
  {
    match Find(t.index, d)
    case None => Missing(|t.labels|)
    case Some(k) =>
      assert forall k' :: 0 <= k' < |t.index| && t.index[k'] == d ==> k' == k;
      t.rows[k]
  }

  /** The sorted union of two ascending date lists. */
  function MergeDates(a: seq<Date>, b: seq<Date>): (r: seq<Date>)
    requires Ascending(a) && Ascending(b)
    ensures Ascending(r)
    ensures forall d :: d in r <==> d in a || d in b
    decreases |a| + |b|
  {
    if |a| == 0 then b
    else if |b| == 0 then a
    else if Before(a[0], b[0]) then
      var rest := MergeDates(a[1..], b);
      LeadsAll(a[0], a[1..], b, rest);
      [a[0]] + rest
    else if Before(b[0], a[0]) then
      var rest := MergeDates(a, b[1..]);
      LeadsAll(b[0], a, b[1..], rest);
      [b[0]] + rest
    else
      KeyInjective(a[0], b[0]);
      var rest := MergeDates(a[1..], b[1..]);
      LeadsAll(a[0], a[1..], b[1..], rest);
      [a[0]] + rest
  }

  lemma LeadsAll(d: Date, a: seq<Date>, b: seq<Date>, r: seq<Date>)
    requires forall x :: x in r ==> x in a || x in b
    requires forall x :: x in a ==> Before(d, x)
    requires forall x :: x in b ==> Before(d, x)
    requires Ascending(r)
    ensures Ascending([d] + r)
  {
    var s := [d] + r;
    forall i, j | 0 <= i < j < |s| ensures Before(s[i], s[j]) {
      if i > 0 {
        assert s[i] == r[i - 1] && s[j] == r[j - 1];
      } else {
        assert s[j] in r;
      }
    }
  }

  /**
   * Column-wise concatenation (an outer join on dates): the union of both
   * indexes, the labels of a then those of b, and at each date a's row
   * followed by b's row, with missing cells where a table lacks the date.
   */
  function Join(a: Table, b: Table): (r: Table)
    ensures r.labels == a.labels + b.labels
    ensures forall d :: d in r.index <==> d in a.index || d in b.index
    ensures forall k :: 0 <= k < |r.index| ==> r.rows[k] == RowAt(a, r.index[k]) + RowAt(b, r.index[k])
  {
    var ds := MergeDates(a.index, b.index);
    Frame(ds, a.labels + b.labels, seq(|ds|, k requires 0 <= k < |ds| => RowAt(a, ds[k]) + RowAt(b, ds[k])))
  }

  lemma RowAtJoin(a: Table, b: Table, d: Date)
    ensures RowAt(Join(a, b), d) == RowAt(a, d) + RowAt(b, d)
  {
    var r := Join(a, b);
    if d !in r.index {
      assert Missing(|a.labels| + |b.labels|) == Missing(|a.labels|) + Missing(|b.labels|);
    }
  }

  /** The labels of several tables, in order. */
  function AllLabels(ts: seq<Table>): seq<Label>
  {
    if |ts| == 0 then [] else AllLabels(ts[..|ts| - 1]) + ts[|ts| - 1].labels
  }

  /** The rows of several tables at date d, side by side. */
  function RowsAt(ts: seq<Table>, d: Date): seq<Cell>
  {
    if |ts| == 0 then [] else RowsAt(ts[..|ts| - 1], d) + RowAt(ts[|ts| - 1], d)
  }

  predicate InSome(ts: seq<Table>, d: Date)
  {
    exists i :: 0 <= i < |ts| && d in ts[i].index
  }

  lemma InSomeSplit(ts: seq<Table>)
    requires |ts| > 0
    ensures forall d :: InSome(ts, d) <==> InSome(ts[..|ts| - 1], d) || d in ts[|ts| - 1].index
  {
    var init := ts[..|ts| - 1];
    forall d ensures InSome(ts, d) <==> InSome(init, d) || d in ts[|ts| - 1].index {
      if InSome(init, d) {
        var i :| 0 <= i < |init| && d in init[i].index;
        assert ts[i] == init[i];
      }
      if InSome(ts, d) && d !in ts[|ts| - 1].index {
        var i :| 0 <= i < |ts| && d in ts[i].index;
        assert init[i] == ts[i];
      }
    }
  }

  lemma JoinOne(t: Table)
    ensures AllLabels([t]) == t.labels
    ensures forall d :: RowsAt([t], d) == RowAt(t, d)
    ensures forall d :: d in t.index <==> InSome([t], d)
  {
    assert [t][..0] == [];
  }

  /**
   * Concatenating several tables column-wise: the labels of all tables in
   * order, the union of their indexes, and each date's rows side by side.
   */
  function JoinAll(ts: seq<Table>): (r: Table)
    requires |ts| > 0
    ensures r.labels == AllLabels(ts)
    ensures forall d :: d in r.index <==> InSome(ts, d)
    ensures forall d :: RowAt(r, d) == RowsAt(ts, d)
    ensures |ts| == 1 ==> r == ts[0]
  {
    if |ts| == 1 then
      JoinOne(ts[0]);
      assert ts == [ts[0]];
      ts[0]
    else
      var left := JoinAll(ts[..|ts| - 1]);
      var r := Join(left, ts[|ts| - 1]);
      InSomeSplit(ts);
      assert forall d :: RowAt(r, d) == RowsAt(ts, d) by {
        forall d ensures RowAt(r, d) == RowsAt(ts, d) {
          RowAtJoin(left, ts[|ts| - 1], d);
        }
      }
      r
  }
}
