/**
 * Sentiment aggregation: engagement records are filtered, averaged per
 * (calendar month, symbol), ranked within the month, cut at top_n, shifted to
 * the next month's first day and grouped into the portfolio composition
 * (holding-start date -> symbols held from that date).
 */
module Sentiment {
  import opened Calendar
  import opened Wrappers
  import Lex
  import Seqs
  import Ranking
  import IsoDate

  type Symbol = string

  /** One row of the sentiment dataset. */
  datatype Record = Record(date: Date, symbol: Symbol, likes: nat, comments: nat)

  /** Enough engagement to take part: more than 20 likes and more than 10 comments. */
  predicate Qualifies(r: Record)
  {
    r.likes > 20 && r.comments > 10
  }

  function EngagementRatio(r: Record): real
    requires r.likes > 0
  {
    r.comments as real / r.likes as real
  }

  /** A loaded row with its engagement ratio. */
  datatype Scored = Scored(row: Record, ratio: real)

  /** Loading: ratio = comments / likes, keeping only qualifying rows, in order. */
  function LoadRows(rows: seq<Record>): (s: seq<Scored>)
    ensures |s| <= |rows|
    ensures forall k :: 0 <= k < |s| ==>
              s[k].row in rows && Qualifies(s[k].row)
              && s[k].ratio == EngagementRatio(s[k].row) && s[k].ratio > 0.0
    ensures forall i :: 0 <= i < |rows| && Qualifies(rows[i]) ==>
              Scored(rows[i], EngagementRatio(rows[i])) in s
  {
    if |rows| == 0 then []
    else
      var rest := LoadRows(rows[1..]);
      assert forall i :: 1 <= i < |rows| ==> rows[i] == rows[1..][i - 1];
      if Qualifies(rows[0]) then [Scored(rows[0], EngagementRatio(rows[0]))] + rest else rest
  }

  /** Position k of `rows` qualifies. */
  predicate QualifiesAt(rows: seq<Record>, k: nat)
  {
    k < |rows| && Qualifies(rows[k])
  }

  /** Position k of `rows` qualifies and x is its scored row. */
  predicate KeptAs(rows: seq<Record>, k: nat, x: Scored)
  {
    QualifiesAt(rows, k) && x == Scored(rows[k], EngagementRatio(rows[k]))
  }

  /**
   * `loaded` is the filter of `rows` through the positions `ks`: one scored
   * row per qualifying position, in increasing position order, and every
   * qualifying position used.
   */
  ghost predicate FilteredAt(rows: seq<Record>, loaded: seq<Scored>, ks: seq<nat>)
  {
    && |ks| == |loaded|
    && (forall j :: 0 <= j < |ks| ==> KeptAs(rows, ks[j], loaded[j]))
    && (forall j, j' :: 0 <= j < j' < |ks| ==> ks[j] < ks[j'])
    && (forall i: nat :: QualifiesAt(rows, i) ==> i in ks)
  }

  function Shifted(ks: seq<nat>): (r: seq<nat>)
    ensures |r| == |ks| && forall j :: 0 <= j < |ks| ==> r[j] == ks[j] + 1
  {
    seq(|ks|, j requires 0 <= j < |ks| => ks[j] + 1)
  }

  /** FilteredAt restricted to the positions from 1 on. */
  ghost predicate FilteredAfterFirst(rows: seq<Record>, loaded: seq<Scored>, ks: seq<nat>)
  {
    && |ks| == |loaded|
    && (forall j :: 0 <= j < |ks| ==> 1 <= ks[j] && KeptAs(rows, ks[j], loaded[j]))
    && (forall j, j' :: 0 <= j < j' < |ks| ==> ks[j] < ks[j'])
    && (forall i: nat :: 1 <= i && QualifiesAt(rows, i) ==> i in ks)
  }

  /** Positions of the tail are the positions of `rows` shifted by one. */
  lemma ShiftQualifies(rows: seq<Record>, k: nat)
    requires |rows| > 0
    ensures QualifiesAt(rows[1..], k) <==> QualifiesAt(rows, k + 1)
  {
    if k < |rows| - 1 {
      assert rows[1..][k] == rows[k + 1];
    }
  }

  lemma ShiftKept(rows: seq<Record>, k: nat, x: Scored)
    requires |rows| > 0
    ensures KeptAs(rows[1..], k, x) <==> KeptAs(rows, k + 1, x)
  {
    ShiftQualifies(rows, k);
    if k < |rows| - 1 {
      assert rows[1..][k] == rows[k + 1];
    }
  }

  /** Shifted positions of the tail's kept rows are kept rows of `rows`. */
  lemma ShiftedKept(rows: seq<Record>, loaded: seq<Scored>, tail: seq<nat>)
    requires |rows| > 0 && |tail| == |loaded|
    requires forall j :: 0 <= j < |tail| ==> KeptAs(rows[1..], tail[j], loaded[j])
    ensures forall j :: 0 <= j < |tail| ==> 1 <= Shifted(tail)[j] && KeptAs(rows, Shifted(tail)[j], loaded[j])
  {
    forall j | 0 <= j < |tail| ensures KeptAs(rows, Shifted(tail)[j], loaded[j]) {
      ShiftKept(rows, tail[j], loaded[j]);
    }
  }

  /** Shifting keeps positions increasing. */
  lemma ShiftedIncreasing(tail: seq<nat>)
    requires forall j, j' :: 0 <= j < j' < |tail| ==> tail[j] < tail[j']
    ensures forall j, j' :: 0 <= j < j' < |tail| ==> Shifted(tail)[j] < Shifted(tail)[j']
  {
  }

  /** Every qualifying position after the first is a shifted position of the tail. */
  lemma ShiftedCovers(rows: seq<Record>, tail: seq<nat>)
    requires |rows| > 0
    requires forall i: nat :: QualifiesAt(rows[1..], i) ==> i in tail
    ensures forall i: nat :: 1 <= i && QualifiesAt(rows, i) ==> i in Shifted(tail)
  {
    var sh := Shifted(tail);
    forall i: nat | 1 <= i && QualifiesAt(rows, i) ensures i in sh {
      ShiftQualifies(rows, i - 1);
      var j :| 0 <= j < |tail| && tail[j] == i - 1;
      assert sh[j] == i;
    }
  }

  /** The filter of the tail, shifted by one, filters `rows` from position 1 on. */
  lemma ShiftedFilter(rows: seq<Record>, loaded: seq<Scored>, tail: seq<nat>)
    requires |rows| > 0 && FilteredAt(rows[1..], loaded, tail)
    ensures FilteredAfterFirst(rows, loaded, Shifted(tail))
  {
    ShiftedKept(rows, loaded, tail);
    ShiftedIncreasing(tail);
    ShiftedCovers(rows, tail);
  }

  /** A non-qualifying first row is skipped. */
  lemma FilteredSkip(rows: seq<Record>, loaded: seq<Scored>, ks: seq<nat>)
    requires |rows| > 0 && !Qualifies(rows[0]) && FilteredAfterFirst(rows, loaded, ks)
    ensures FilteredAt(rows, loaded, ks)
  {
  }

  /** A qualifying first row is kept in front. */
  lemma FilteredKeep(rows: seq<Record>, loaded: seq<Scored>, ks: seq<nat>)
    requires |rows| > 0 && Qualifies(rows[0]) && FilteredAfterFirst(rows, loaded, ks)
    ensures FilteredAt(rows, [Scored(rows[0], EngagementRatio(rows[0]))] + loaded, [0] + ks)
  {
    PrependKept(rows, loaded, ks);
    PrependIncreasing(ks);
    PrependCovers(rows, ks);
  }

  lemma PrependKept(rows: seq<Record>, loaded: seq<Scored>, ks: seq<nat>)
    requires |rows| > 0 && Qualifies(rows[0]) && |ks| == |loaded|
    requires forall j :: 0 <= j < |ks| ==> KeptAs(rows, ks[j], loaded[j])
    ensures var l := [Scored(rows[0], EngagementRatio(rows[0]))] + loaded;
            forall j :: 0 <= j < |ks| + 1 ==> KeptAs(rows, ([0] + ks)[j], l[j])
  {
    var l := [Scored(rows[0], EngagementRatio(rows[0]))] + loaded;
    forall j | 0 <= j < |ks| + 1 ensures KeptAs(rows, ([0] + ks)[j], l[j]) {
      if j > 0 {
        assert ([0] + ks)[j] == ks[j - 1] && l[j] == loaded[j - 1];
      }
    }
  }

  lemma PrependIncreasing(ks: seq<nat>)
    requires forall j :: 0 <= j < |ks| ==> 1 <= ks[j]
    requires forall j, j' :: 0 <= j < j' < |ks| ==> ks[j] < ks[j']
    ensures forall j, j' :: 0 <= j < j' < |ks| + 1 ==> ([0] + ks)[j] < ([0] + ks)[j']
  {
    var ks' := [0] + ks;
    forall j, j' | 0 <= j < j' < |ks'| ensures ks'[j] < ks'[j'] {
      assert ks'[j'] == ks[j' - 1];
      if j > 0 {
        assert ks'[j] == ks[j - 1];
      }
    }
  }

  lemma PrependCovers(rows: seq<Record>, ks: seq<nat>)
    requires forall i: nat :: 1 <= i && QualifiesAt(rows, i) ==> i in ks
    ensures forall i: nat :: QualifiesAt(rows, i) ==> i in [0] + ks
  {
    forall i: nat | QualifiesAt(rows, i) ensures i in [0] + ks {
      if i > 0 {
        var j :| 0 <= j < |ks| && ks[j] == i;
        assert ([0] + ks)[j + 1] == i;
      }
    }
  }

  /**
   * Loading is a filter: the loaded rows correspond, in order and one for
   * one, to the positions of the qualifying rows, duplicates included.
   */
  lemma {:induction false} LoadRowsKeeps(rows: seq<Record>) returns (ks: seq<nat>)
    ensures FilteredAt(rows, LoadRows(rows), ks)
  {
    if |rows| == 0 {
      ks := [];
    } else {
      var tail := LoadRowsKeeps(rows[1..]);
      ShiftedFilter(rows, LoadRows(rows[1..]), tail);
      if Qualifies(rows[0]) {
        FilteredKeep(rows, LoadRows(rows[1..]), Shifted(tail));
        ks := [0] + Shifted(tail);
      } else {
        FilteredSkip(rows, LoadRows(rows[1..]), Shifted(tail));
        ks := Shifted(tail);
      }
    }
  }

  // ---------------------------------------------------------------------------
  // Grouping by (month-end label, symbol)

  datatype GroupKey = GroupKey(month: Date, symbol: Symbol)

  function KeyOf(s: Scored): GroupKey
  {
    GroupKey(MonthEndOf(s.row.date), s.row.symbol)
  }

  /** The order of a grouped table's index: by month, then by symbol. */
  predicate PairLess(d1: Date, s1: Symbol, d2: Date, s2: Symbol)
  {
    Before(d1, d2) || (d1 == d2 && Lex.Less(s1, s2))
  }

  predicate KeyLess(a: GroupKey, b: GroupKey)
  {
    PairLess(a.month, a.symbol, b.month, b.symbol)
  }

  lemma PairTransitive(d1: Date, s1: Symbol, d2: Date, s2: Symbol, d3: Date, s3: Symbol)
    requires PairLess(d1, s1, d2, s2) && PairLess(d2, s2, d3, s3)
    ensures PairLess(d1, s1, d3, s3)
  {
    if d1 == d2 && d2 == d3 {
      Lex.Transitive(s1, s2, s3);
    }
  }

  lemma PairTotal(d1: Date, s1: Symbol, d2: Date, s2: Symbol)
    requires (d1, s1) != (d2, s2)
    ensures PairLess(d1, s1, d2, s2) || PairLess(d2, s2, d1, s1)
  {
    if DateKey(d1) == DateKey(d2) {
      KeyInjective(d1, d2);
      Lex.Total(s1, s2);
    }
  }

  lemma PairIrreflexive(d: Date, s: Symbol)
    ensures !PairLess(d, s, d, s)
  {
    Lex.Irreflexive(s);
  }

  predicate KeysSorted(ks: seq<GroupKey>)
  {
    forall i, j :: 0 <= i < j < |ks| ==> KeyLess(ks[i], ks[j])
  }

  /** Inserting a key into a sorted key list (no-op when already present). */
  function InsertKey(ks: seq<GroupKey>, k: GroupKey): (r: seq<GroupKey>)
    requires KeysSorted(ks)
    ensures KeysSorted(r)
    ensures forall x :: x in r <==> x in ks || x == k
  {
    if |ks| == 0 then [k]
    else if ks[0] == k then ks
    else if KeyLess(k, ks[0]) then
      assert forall j :: 0 <= j < |ks| ==> KeyLess(k, ks[j]) by {
        forall j | 0 <= j < |ks| ensures KeyLess(k, ks[j]) {
          if j > 0 {
            PairTransitive(k.month, k.symbol, ks[0].month, ks[0].symbol, ks[j].month, ks[j].symbol);
          }
        }
      }
      [k] + ks
    else
      PairTotal(k.month, k.symbol, ks[0].month, ks[0].symbol);
      var tail := InsertKey(ks[1..], k);
      assert forall x :: x in ks[1..] ==> KeyLess(ks[0], x);
      [ks[0]] + tail
  }

  /** The sorted, duplicate-free list of the (month, symbol) groups present in rows. */
  function GroupKeys(rows: seq<Scored>): (ks: seq<GroupKey>)
    ensures KeysSorted(ks)
    ensures forall k :: k in ks <==> exists i :: 0 <= i < |rows| && KeyOf(rows[i]) == k
  {
    if |rows| == 0 then []
    else
      var init := rows[..|rows| - 1];
      assert forall i :: 0 <= i < |init| ==> init[i] == rows[i];
      InsertKey(GroupKeys(init), KeyOf(rows[|rows| - 1]))
  }

  function CountIn(rows: seq<Scored>, k: GroupKey): nat
  {
    if |rows| == 0 then 0 else (if KeyOf(rows[0]) == k then 1 else 0) + CountIn(rows[1..], k)
  }

  function SumIn(rows: seq<Scored>, k: GroupKey): real
  {
    if |rows| == 0 then 0.0 else (if KeyOf(rows[0]) == k then rows[0].ratio else 0.0) + SumIn(rows[1..], k)
  }

  /** The mean engagement ratio of a group (0 for a group with no rows). */
  function MonthlyMean(rows: seq<Scored>, k: GroupKey): real
  {
    var n := CountIn(rows, k);
    if n == 0 then 0.0 else SumIn(rows, k) / n as real
  }

  lemma {:induction false} MeanPositive(rows: seq<Scored>, k: GroupKey)
    requires forall i :: 0 <= i < |rows| ==> rows[i].ratio > 0.0
    requires exists i :: 0 <= i < |rows| && KeyOf(rows[i]) == k
    ensures CountIn(rows, k) > 0 && MonthlyMean(rows, k) > 0.0
  {
    SumPositive(rows, k);
  }

  lemma {:induction false} SumPositive(rows: seq<Scored>, k: GroupKey)
    requires forall i :: 0 <= i < |rows| ==> rows[i].ratio > 0.0
    ensures SumIn(rows, k) >= 0.0
    ensures (exists i :: 0 <= i < |rows| && KeyOf(rows[i]) == k) ==> CountIn(rows, k) > 0 && SumIn(rows, k) > 0.0
  {
    if |rows| > 0 {
      SumPositive(rows[1..], k);
      if KeyOf(rows[0]) != k && exists i :: 0 <= i < |rows| && KeyOf(rows[i]) == k {
        var i :| 0 <= i < |rows| && KeyOf(rows[i]) == k;
        assert KeyOf(rows[1..][i - 1]) == k;
      }
    }
  }

  /** One row of the monthly table: a (month, symbol) group with its mean ratio. */
  datatype Group = Group(month: Date, symbol: Symbol, mean: real)

  function Grouped(rows: seq<Scored>): (gs: seq<Group>)
    ensures |gs| == |GroupKeys(rows)|
    ensures forall i :: 0 <= i < |gs| ==>
              GroupKey(gs[i].month, gs[i].symbol) == GroupKeys(rows)[i]
              && gs[i].mean == MonthlyMean(rows, GroupKeys(rows)[i])
  {
    var ks := GroupKeys(rows);
    seq(|ks|, i requires 0 <= i < |ks| => Group(ks[i].month, ks[i].symbol, MonthlyMean(rows, ks[i])))
  }

  // ---------------------------------------------------------------------------
  // Ranking within the month and the top-N cut

  /** The means of one month's groups, in table order. */
  function MonthMeans(gs: seq<Group>, m: Date): seq<real>
  {
    if |gs| == 0 then []
    else (if gs[0].month == m then [gs[0].mean] else []) + MonthMeans(gs[1..], m)
  }

  lemma {:induction false} MonthMeansContains(gs: seq<Group>, i: nat)
    requires i < |gs|
    ensures gs[i].mean in MonthMeans(gs, gs[i].month)
  {
    if i > 0 {
      MonthMeansContains(gs[1..], i - 1);
    }
  }

  /** A row of the ranked table. */
  datatype Score = Score(month: Date, symbol: Symbol, mean: real, rank: real)

  function Ranked(gs: seq<Group>): (ss: seq<Score>)
    ensures |ss| == |gs|
    ensures forall i :: 0 <= i < |ss| ==>
              ss[i].month == gs[i].month && ss[i].symbol == gs[i].symbol && ss[i].mean == gs[i].mean
  {
    seq(|gs|, i requires 0 <= i < |gs| =>
      Score(gs[i].month, gs[i].symbol, gs[i].mean,
            Ranking.AverageRank(MonthMeans(gs, gs[i].month), gs[i].mean)))
  }

  /** The monthly aggregation step: group, average and rank. */
  function Aggregate(rows: seq<Scored>): seq<Score>
  {
    Ranked(Grouped(rows))
  }

  /** The cut: keep the rows whose rank is below top_n + 1, in order. */
  function Selected(ss: seq<Score>, topN: int): (r: seq<Score>)
    ensures forall x :: x in r <==> x in ss && x.rank < (topN + 1) as real
  {
    if |ss| == 0 then []
    else
      (if ss[0].rank < (topN + 1) as real then [ss[0]] else []) + Selected(ss[1..], topN)
  }

  /** A symbol held from a holding-start date on. */
  datatype Holding = Holding(start: Date, symbol: Symbol)

  /** The one-day shift of every month-end label. */
  function Holdings(ss: seq<Score>): (hs: seq<Holding>)
    ensures |hs| == |ss|
    ensures forall i :: 0 <= i < |hs| ==> hs[i] == Holding(NextDay(ss[i].month), ss[i].symbol)
  {
    seq(|ss|, i requires 0 <= i < |ss| => Holding(NextDay(ss[i].month), ss[i].symbol))
  }

  // ---------------------------------------------------------------------------
  // The composition

  /** Dates pandas can hold as timestamps, taken as whole years. */
  predicate Representable(d: Date)
  {
    1678 <= d.year <= 2261
  }

  predicate AllRepresentable(rows: seq<Record>)
  {
    forall i :: 0 <= i < |rows| ==> Representable(rows[i].date)
  }

  /** Every holding-start date has a four-digit year, so it formats as YYYY-MM-DD. */
  predicate YearsInRange(hs: seq<Holding>)
  {
    forall i :: 0 <= i < |hs| ==> 0 <= hs[i].start.year < 10000
  }

  /** One composition entry: an ISO 8601 holding-start date and the symbols held from it. */
  datatype Entry = Entry(start: string, symbols: seq<Symbol>)

  /** An insertion-ordered dictionary from holding-start date to symbols. */
  type Composition = seq<Entry>

  function Starts(hs: seq<Holding>): (ds: seq<Date>)
    ensures |ds| == |hs| && forall i :: 0 <= i < |hs| ==> ds[i] == hs[i].start
  {
    seq(|hs|, i requires 0 <= i < |hs| => hs[i].start)
  }

  /** The symbols held from d, in table order. */
  function SymbolsOn(hs: seq<Holding>, d: Date): (r: seq<Symbol>)
    ensures forall s :: s in r <==> Holding(d, s) in hs
  {
    if |hs| == 0 then []
    else (if hs[0].start == d then [hs[0].symbol] else []) + SymbolsOn(hs[1..], d)
  }

  /** The distinct holding-start dates, in order of first appearance. */
  function StartDates(hs: seq<Holding>): seq<Date>
  {
    Seqs.Unique(Starts(hs))
  }

  /** The composition a list of holdings describes: distinct dates in order, each with its symbols. */
  function CompositionOf(hs: seq<Holding>): (c: Composition)
    requires YearsInRange(hs)
    ensures |c| == |StartDates(hs)|
    ensures forall i :: 0 <= i < |c| ==>
              c[i] == Entry(IsoDate.Format(StartDates(hs)[i]), SymbolsOn(hs, StartDates(hs)[i]))
  {
    var ds := StartDates(hs);
    assert forall i :: 0 <= i < |ds| ==> 0 <= ds[i].year < 10000 by {
      forall i | 0 <= i < |ds| ensures 0 <= ds[i].year < 10000 {
        assert ds[i] in Starts(hs);
      }
    }
    seq(|ds|, i requires 0 <= i < |ds| => Entry(IsoDate.Format(ds[i]), SymbolsOn(hs, ds[i])))
  }

  function Keys(c: Composition): (ks: seq<string>)
    ensures |ks| == |c| && forall i :: 0 <= i < |c| ==> ks[i] == c[i].start
  {
    seq(|c|, i requires 0 <= i < |c| => c[i].start)
  }

  /** Dictionary lookup: the symbols stored under key k. */
  function Lookup(c: Composition, k: string): (r: Option<seq<Symbol>>)
    ensures r.None? <==> k !in Keys(c)
    ensures r.Some? ==> exists i :: 0 <= i < |c| && c[i] == Entry(k, r.value)
  {
    if |c| == 0 then None
    else if c[0].start == k then Some(c[0].symbols)
    else
      assert forall i :: 1 <= i < |c| ==> Keys(c)[i] == Keys(c[1..])[i - 1];
      Lookup(c[1..], k)
  }

  /** Looking up in a dictionary with one more entry in front. */
  lemma LookupCons(e: Entry, c: Composition, k: string)
    ensures Lookup([e] + c, k) == if e.start == k then Some(e.symbols) else Lookup(c, k)
  {
    assert ([e] + c)[1..] == c;
  }

  /** Dictionary assignment: overwrite the value of an existing key in place, or append a new entry. */
  function Put(c: Composition, k: string, v: seq<Symbol>): (r: Composition)
    ensures k !in Keys(c) ==> r == c + [Entry(k, v)]
  {
    if |c| == 0 then [Entry(k, v)]
    else if c[0].start == k then [Entry(k, v)] + c[1..]
    else
      assert Keys(c) == [c[0].start] + Keys(c[1..]);
      [c[0]] + Put(c[1..], k, v)
  }

  /** After an assignment the key holds the assigned symbols. */
  lemma {:induction false} PutSets(c: Composition, k: string, v: seq<Symbol>)
    ensures Lookup(Put(c, k, v), k) == Some(v)
  {
    if |c| > 0 {
      if c[0].start == k {
        LookupCons(Entry(k, v), c[1..], k);
      } else {
        PutSets(c[1..], k, v);
        LookupCons(c[0], Put(c[1..], k, v), k);
      }
    }
  }

  /** An assignment leaves every other key as it was. */
  lemma {:induction false} PutKeeps(c: Composition, k: string, v: seq<Symbol>, k': string)
    requires k' != k
    ensures Lookup(Put(c, k, v), k') == Lookup(c, k')
  {
    if |c| > 0 {
      assert [c[0]] + c[1..] == c;
      LookupCons(c[0], c[1..], k');
      if c[0].start == k {
        LookupCons(Entry(k, v), c[1..], k');
      } else {
        PutKeeps(c[1..], k, v, k');
        LookupCons(c[0], Put(c[1..], k, v), k');
      }
    }
  }

  /** The whole aggregation from raw rows to the composition. */
  function BuildComposition(rows: seq<Record>, topN: int): Composition
    requires AllRepresentable(rows)
  {
    var hs := Holdings(Selected(Aggregate(LoadRows(rows)), topN));
    HoldingYears(rows, topN);
    CompositionOf(hs)
  }

  /**
   * The shape every composition has: keys are ISO dates of 1st-of-month days
   * in strictly ascending order, and each maps to a non-empty, strictly
   * ascending (hence duplicate-free) list of symbols.
   */
  predicate WellFormedComposition(c: Composition)
  {
    && (forall i, j :: 0 <= i < j < |c| ==> Lex.Less(c[i].start, c[j].start))
    && (forall i :: 0 <= i < |c| ==> IsoDate.Parse(c[i].start).Some? && IsoDate.Parse(c[i].start).value.day == 1)
    && (forall i :: 0 <= i < |c| ==> |c[i].symbols| > 0 && Lex.StrictlyAscending(c[i].symbols))
  }

  predicate ScoresSorted(ss: seq<Score>)
  {
    forall i, j :: 0 <= i < j < |ss| ==> PairLess(ss[i].month, ss[i].symbol, ss[j].month, ss[j].symbol)
  }

  predicate HoldingsSorted(hs: seq<Holding>)
  {
    forall i, j :: 0 <= i < j < |hs| ==> PairLess(hs[i].start, hs[i].symbol, hs[j].start, hs[j].symbol)
  }

  lemma AggregateSorted(rows: seq<Scored>)
    ensures ScoresSorted(Aggregate(rows))
  {
    var ks := GroupKeys(rows);
    var gs := Grouped(rows);
    var ss := Aggregate(rows);
    forall i, j | 0 <= i < j < |ss|
      ensures PairLess(ss[i].month, ss[i].symbol, ss[j].month, ss[j].symbol)
    {
      assert KeyLess(ks[i], ks[j]);
    }
  }

  lemma {:induction false} SelectedSorted(ss: seq<Score>, topN: int)
    requires ScoresSorted(ss)
    ensures ScoresSorted(Selected(ss, topN))
  {
    if |ss| > 0 {
      SelectedSorted(ss[1..], topN);
      var tail := Selected(ss[1..], topN);
      forall x | x in tail ensures PairLess(ss[0].month, ss[0].symbol, x.month, x.symbol) {
        var k :| 0 <= k < |ss[1..]| && ss[1..][k] == x;
        assert ss[k + 1] == x;
      }
    }
  }

  lemma HoldingsSortedFromScores(ss: seq<Score>)
    requires ScoresSorted(ss)
    ensures HoldingsSorted(Holdings(ss))
  {
    var hs := Holdings(ss);
    forall i, j | 0 <= i < j < |hs|
      ensures PairLess(hs[i].start, hs[i].symbol, hs[j].start, hs[j].symbol)
    {
      if Before(ss[i].month, ss[j].month) {
        NextDayMonotone(ss[i].month, ss[j].month);
      }
    }
  }

  /** Among sorted holdings, the symbols held from one date come in ascending order. */
  lemma {:induction false} SymbolsOnAscending(hs: seq<Holding>, d: Date)
    requires HoldingsSorted(hs)
    ensures Lex.StrictlyAscending(SymbolsOn(hs, d))
  {
    if |hs| > 0 {
      var tail := SymbolsOn(hs[1..], d);
      assert HoldingsSorted(hs[1..]);
      SymbolsOnAscending(hs[1..], d);
      if hs[0].start == d {
        forall s | s in tail ensures Lex.Less(hs[0].symbol, s) {
          var k :| 0 <= k < |hs[1..]| && hs[1..][k] == Holding(d, s);
          assert hs[k + 1] == Holding(d, s);
          PairIrreflexive(d, s);
        }
        var r := SymbolsOn(hs, d);
        assert r == [hs[0].symbol] + tail;
        forall a, b | 0 <= a < b < |r| ensures Lex.Less(r[a], r[b]) {
          if a == 0 {
            assert r[b] == tail[b - 1];
          } else {
            assert r[a] == tail[a - 1] && r[b] == tail[b - 1];
          }
        }
      }
    }
  }

  /** De-duplicating dates that never go down yields strictly ascending dates. */
  lemma {:induction false} UniqueAscending(ds: seq<Date>)
    requires forall i, j :: 0 <= i < j < |ds| ==> AtOrBefore(ds[i], ds[j])
    ensures forall i, j :: 0 <= i < j < |Seqs.Unique(ds)| ==>
              Before(Seqs.Unique(ds)[i], Seqs.Unique(ds)[j])
  {
    if |ds| > 0 {
      var init := ds[..|ds| - 1];
      var last := ds[|ds| - 1];
      UniqueAscending(init);
      var u := Seqs.Unique(init);
      if last !in u {
        forall i | 0 <= i < |u| ensures Before(u[i], last) {
          assert u[i] in init;
          var k :| 0 <= k < |init| && init[k] == u[i];
          assert AtOrBefore(ds[k], last);
          if DateKey(u[i]) == DateKey(last) {
            KeyInjective(u[i], last);
          }
        }
      }
    }
  }

  lemma CompositionOfWellFormed(hs: seq<Holding>)
    requires YearsInRange(hs)
    requires HoldingsSorted(hs)
    requires forall i :: 0 <= i < |hs| ==> hs[i].start.day == 1
    ensures WellFormedComposition(CompositionOf(hs))
  {
    var u := StartDates(hs);
    var c := CompositionOf(hs);
    UniqueAscending(Starts(hs));
    forall i, j | 0 <= i < j < |c| ensures Lex.Less(c[i].start, c[j].start) {
      var _ := StartDateOfMonth(hs, i);
      var _ := StartDateOfMonth(hs, j);
      IsoDate.FormatOrder(u[i], u[j]);
    }
    forall i | 0 <= i < |c|
      ensures IsoDate.Parse(c[i].start).Some? && IsoDate.Parse(c[i].start).value.day == 1
      ensures |c[i].symbols| > 0 && Lex.StrictlyAscending(c[i].symbols)
    {
      EntryWellFormed(hs, i);
    }
  }

  /** A distinct start date has a four-digit year and is the first of a month, and some holding starts on it. */
  lemma StartDateOfMonth(hs: seq<Holding>, i: nat) returns (k: nat)
    requires YearsInRange(hs)
    requires forall i :: 0 <= i < |hs| ==> hs[i].start.day == 1
    requires i < |StartDates(hs)|
    ensures k < |hs| && hs[k].start == StartDates(hs)[i]
    ensures 0 <= StartDates(hs)[i].year < 10000 && StartDates(hs)[i].day == 1
  {
    var ds := Starts(hs);
    assert StartDates(hs)[i] in ds;
    k :| 0 <= k < |ds| && ds[k] == StartDates(hs)[i];
  }

  /** Each entry's key parses to a first of month and its symbol list is non-empty and ascending. */
  lemma EntryWellFormed(hs: seq<Holding>, i: nat)
    requires YearsInRange(hs)
    requires HoldingsSorted(hs)
    requires forall i :: 0 <= i < |hs| ==> hs[i].start.day == 1
    requires i < |CompositionOf(hs)|
    ensures IsoDate.Parse(CompositionOf(hs)[i].start).Some? && IsoDate.Parse(CompositionOf(hs)[i].start).value.day == 1
    ensures |CompositionOf(hs)[i].symbols| > 0 && Lex.StrictlyAscending(CompositionOf(hs)[i].symbols)
  {
    var d := StartDates(hs)[i];
    var k := StartDateOfMonth(hs, i);
    IsoDate.ParseFormat(d);
    assert Holding(d, hs[k].symbol) in hs;
    SymbolsOnAscending(hs, d);
  }

  /** Every aggregated month is a month-end label of one of the loaded rows. */
  lemma AggregateMonths(loaded: seq<Scored>)
    ensures forall x :: x in Aggregate(loaded) ==>
              exists i :: 0 <= i < |loaded| && x.month == MonthEndOf(loaded[i].row.date)
  {
    var agg := Aggregate(loaded);
    var ks := GroupKeys(loaded);
    forall x | x in agg
      ensures exists i :: 0 <= i < |loaded| && x.month == MonthEndOf(loaded[i].row.date)
    {
      var j :| 0 <= j < |agg| && agg[j] == x;
      assert ks[j] in ks;
      var i :| 0 <= i < |loaded| && KeyOf(loaded[i]) == ks[j];
    }
  }

  /** Every aggregated month is the month-end label of some qualifying record. */
  lemma AggregateMonthsFromRows(rows: seq<Record>)
    ensures forall x :: x in Aggregate(LoadRows(rows)) ==>
              exists r :: r in rows && Qualifies(r) && x.month == MonthEndOf(r.date)
  {
    var loaded := LoadRows(rows);
    AggregateMonths(loaded);
    forall x | x in Aggregate(loaded)
      ensures exists r :: r in rows && Qualifies(r) && x.month == MonthEndOf(r.date)
    {
      var i :| 0 <= i < |loaded| && x.month == MonthEndOf(loaded[i].row.date);
      assert loaded[i] in loaded;
    }
  }

  lemma HoldingStarts(rows: seq<Record>, topN: int)
    ensures forall h :: h in Holdings(Selected(Aggregate(LoadRows(rows)), topN)) ==>
              h.start.day == 1 && exists r :: r in rows && Qualifies(r) && h.start == FirstOfNextMonth(r.date)
  {
    var sel := Selected(Aggregate(LoadRows(rows)), topN);
    var hs := Holdings(sel);
    AggregateMonthsFromRows(rows);
    forall h | h in hs
      ensures h.start.day == 1
      ensures exists r :: r in rows && Qualifies(r) && h.start == FirstOfNextMonth(r.date)
    {
      var k :| 0 <= k < |hs| && hs[k] == h;
      assert sel[k] in sel;
      var r :| r in rows && Qualifies(r) && sel[k].month == MonthEndOf(r.date);
      MonthEndPlusOneDay(r.date);
    }
  }

  lemma HoldingYears(rows: seq<Record>, topN: int)
    requires AllRepresentable(rows)
    ensures YearsInRange(Holdings(Selected(Aggregate(LoadRows(rows)), topN)))
  {
    var hs := Holdings(Selected(Aggregate(LoadRows(rows)), topN));
    HoldingStarts(rows, topN);
    forall i | 0 <= i < |hs| ensures 0 <= hs[i].start.year < 10000 {
      assert hs[i] in hs;
      var r :| r in rows && Qualifies(r) && hs[i].start == FirstOfNextMonth(r.date);
      var k :| 0 <= k < |rows| && rows[k] == r;
    }
  }

  lemma HoldingsOrdered(rows: seq<Record>, topN: int)
    ensures HoldingsSorted(Holdings(Selected(Aggregate(LoadRows(rows)), topN)))
  {
    var agg := Aggregate(LoadRows(rows));
    AggregateSorted(LoadRows(rows));
    SelectedSorted(agg, topN);
    HoldingsSortedFromScores(Selected(agg, topN));
  }

  /** The i-th key is the ISO form of the start of some holding. */
  lemma KeyFromHolding(hs: seq<Holding>, i: nat) returns (k: nat)
    requires YearsInRange(hs) && i < |CompositionOf(hs)|
    ensures k < |hs| && CompositionOf(hs)[i].start == IsoDate.Format(hs[k].start)
  {
    var u := StartDates(hs);
    var ds := Starts(hs);
    assert u[i] in ds;
    k :| 0 <= k < |ds| && ds[k] == u[i];
  }

  /** Every key of CompositionOf(hs) is the ISO form of some holding's start. */
  lemma CompositionKeysFromHoldings(hs: seq<Holding>)
    requires YearsInRange(hs)
    ensures forall e :: e in CompositionOf(hs) ==>
              exists h :: h in hs && 0 <= h.start.year < 10000 && e.start == IsoDate.Format(h.start)
  {
    var c := CompositionOf(hs);
    forall e | e in c
      ensures exists h :: h in hs && 0 <= h.start.year < 10000 && e.start == IsoDate.Format(h.start)
    {
      var i :| 0 <= i < |c| && c[i] == e;
      var k := KeyFromHolding(hs, i);
      assert hs[k] in hs;
    }
  }

  /**
   * The composition is well formed, and every key is the ISO form of a
   * qualifying record's month-end label moved forward one day: the 1st of the
   * following month.
   */
  lemma BuildCompositionWellFormed(rows: seq<Record>, topN: int)
    requires AllRepresentable(rows)
    ensures WellFormedComposition(BuildComposition(rows, topN))
    ensures forall e :: e in BuildComposition(rows, topN) ==>
              exists r :: r in rows && Qualifies(r) && e.start == IsoDate.Format(FirstOfNextMonth(r.date))
  {
    var hs := Holdings(Selected(Aggregate(LoadRows(rows)), topN));
    HoldingStarts(rows, topN);
    HoldingsOrdered(rows, topN);
    HoldingYears(rows, topN);
    assert forall i :: 0 <= i < |hs| ==> hs[i] in hs;
    CompositionOfWellFormed(hs);
    CompositionKeysFromHoldings(hs);
  }

  /** A holding of s from a date whose ISO form is k puts s under key k. */
  lemma CompositionOfHas(hs: seq<Holding>, j: nat)
    requires YearsInRange(hs) && j < |hs|
    ensures Lists(CompositionOf(hs), IsoDate.Format(hs[j].start), hs[j].symbol)
  {
    var c := CompositionOf(hs);
    var u := StartDates(hs);
    assert Starts(hs)[j] == hs[j].start;
    var i :| 0 <= i < |u| && u[i] == hs[j].start;
    assert c[i] == Entry(IsoDate.Format(u[i]), SymbolsOn(hs, u[i]));
    assert Holding(u[i], hs[j].symbol) in hs;
  }

  /** Every symbol listed under a key comes from a holding whose start has that ISO form. */
  lemma CompositionOfFrom(hs: seq<Holding>, i: nat, s: Symbol) returns (j: nat)
    requires YearsInRange(hs) && i < |CompositionOf(hs)|
    requires s in CompositionOf(hs)[i].symbols
    ensures j < |hs| && IsoDate.Format(hs[j].start) == CompositionOf(hs)[i].start && hs[j].symbol == s
  {
    var u := StartDates(hs);
    assert Holding(u[i], s) in hs;
    j :| 0 <= j < |hs| && hs[j] == Holding(u[i], s);
    assert u[i] in Starts(hs);
  }

  /** The holdings contain (d, s) exactly when a row for s labelled the day before d passed the cut. */
  lemma HoldingsMembership(ss: seq<Score>, topN: int, h: Holding)
    ensures h in Holdings(Selected(ss, topN))
            <==> (exists x :: x in ss && NextDay(x.month) == h.start && x.symbol == h.symbol
                                && x.rank < (topN + 1) as real)
  {
    var sel := Selected(ss, topN);
    var hs := Holdings(sel);
    if exists x :: x in ss && NextDay(x.month) == h.start && x.symbol == h.symbol && x.rank < (topN + 1) as real {
      var x :| x in ss && NextDay(x.month) == h.start && x.symbol == h.symbol && x.rank < (topN + 1) as real;
      assert x in sel;
      var k :| 0 <= k < |sel| && sel[k] == x;
      assert hs[k] == h;
    }
    if h in hs {
      var k :| 0 <= k < |hs| && hs[k] == h;
      assert sel[k] in sel;
    }
  }

  /** The composition lists s under key k. */
  predicate Lists(c: Composition, k: string, s: Symbol)
  {
    exists i :: 0 <= i < |c| && c[i].start == k && s in c[i].symbols
  }

  /** Some monthly row for s passed the rank cut and the day after its label has ISO form k. */
  predicate PassedCut(agg: seq<Score>, topN: int, k: string, s: Symbol)
  {
    exists x :: x in agg && x.symbol == s && x.rank < (topN + 1) as real
                && 0 <= NextDay(x.month).year < 10000 && IsoDate.Format(NextDay(x.month)) == k
  }

  lemma CompositionToSelection(agg: seq<Score>, topN: int, k: string, s: Symbol)
    requires YearsInRange(Holdings(Selected(agg, topN)))
    requires Lists(CompositionOf(Holdings(Selected(agg, topN))), k, s)
    ensures PassedCut(agg, topN, k, s)
  {
    var hs := Holdings(Selected(agg, topN));
    var c := CompositionOf(hs);
    var i :| 0 <= i < |c| && c[i].start == k && s in c[i].symbols;
    var j := CompositionOfFrom(hs, i, s);
    var h := hs[j];
    assert h in hs && 0 <= h.start.year < 10000;
    HoldingsMembership(agg, topN, h);
    var x :| x in agg && NextDay(x.month) == h.start && x.symbol == h.symbol && x.rank < (topN + 1) as real;
    assert IsoDate.Format(NextDay(x.month)) == k;
  }

  lemma SelectionToComposition(agg: seq<Score>, topN: int, k: string, s: Symbol)
    requires YearsInRange(Holdings(Selected(agg, topN)))
    requires PassedCut(agg, topN, k, s)
    ensures Lists(CompositionOf(Holdings(Selected(agg, topN))), k, s)
  {
    var hs := Holdings(Selected(agg, topN));
    var x :| x in agg && x.symbol == s && x.rank < (topN + 1) as real
             && 0 <= NextDay(x.month).year < 10000 && IsoDate.Format(NextDay(x.month)) == k;
    var h := Holding(NextDay(x.month), s);
    HoldingsMembership(agg, topN, h);
    var j :| 0 <= j < |hs| && hs[j] == h;
    CompositionOfHas(hs, j);
  }

  /**
   * Single-period lag: s is listed under key k exactly when a month-end label
   * for s passed the rank cut and k is the ISO form of the day after it.
   */
  lemma CompositionMembership(rows: seq<Record>, topN: int, k: string, s: Symbol)
    requires AllRepresentable(rows)
    ensures Lists(BuildComposition(rows, topN), k, s) <==> PassedCut(Aggregate(LoadRows(rows)), topN, k, s)
  {
    var agg := Aggregate(LoadRows(rows));
    HoldingYears(rows, topN);
    assert BuildComposition(rows, topN) == CompositionOf(Holdings(Selected(agg, topN)));
    if Lists(BuildComposition(rows, topN), k, s) {
      CompositionToSelection(agg, topN, k, s);
    }
    if PassedCut(agg, topN, k, s) {
      SelectionToComposition(agg, topN, k, s);
    }
  }

  // ---------------------------------------------------------------------------
  // How many symbols a month contributes

  /** The number of rows labelled with month m. */
  function CountMonth(ss: seq<Score>, m: Date): nat
  {
    if |ss| == 0 then 0 else (if ss[0].month == m then 1 else 0) + CountMonth(ss[1..], m)
  }

  lemma {:induction false} SelectedSuffix(gs: seq<Group>, topN: int, m: Date, j: nat)
    requires j <= |gs|
    ensures CountMonth(Selected(Ranked(gs)[j..], topN), m)
            == Ranking.CountKept(MonthMeans(gs[j..], m), MonthMeans(gs, m), topN)
    decreases |gs| - j
  {
    var ss := Ranked(gs);
    var vs := MonthMeans(gs, m);
    if j < |gs| {
      SelectedSuffix(gs, topN, m, j + 1);
      assert ss[j..][0] == ss[j] && ss[j..][1..] == ss[j + 1..];
      assert gs[j..][0] == gs[j] && gs[j..][1..] == gs[j + 1..];
      var head := if ss[j].rank < (topN + 1) as real then [ss[j]] else [];
      var tail := Selected(ss[j + 1..], topN);
      assert Selected(ss[j..], topN) == head + tail;
      if head == [] {
        assert head + tail == tail;
      } else {
        assert (head + tail)[0] == ss[j] && (head + tail)[1..] == tail;
      }
      var mhead := if gs[j].month == m then [gs[j].mean] else [];
      assert MonthMeans(gs[j..], m) == mhead + MonthMeans(gs[j + 1..], m);
      Ranking.CountKeptAppend(mhead, MonthMeans(gs[j + 1..], m), vs, topN);
    } else {
      assert ss[j..] == [];
      assert gs[j..] == [];
    }
  }

  /** The cut keeps, in month m, as many rows as the ranking of m's means keeps. */
  lemma SelectedPerMonth(gs: seq<Group>, topN: int, m: Date)
    ensures CountMonth(Selected(Ranked(gs), topN), m)
            == Ranking.CountKept(MonthMeans(gs, m), MonthMeans(gs, m), topN)
  {
    SelectedSuffix(gs, topN, m, 0);
    assert Ranked(gs)[0..] == Ranked(gs) && gs[0..] == gs;
  }

  /** With pairwise distinct means in month m, exactly min(top_n, n) of its rows pass the cut. */
  lemma DistinctMeansKeepTopN(gs: seq<Group>, topN: int, m: Date)
    requires Seqs.Distinct(MonthMeans(gs, m))
    ensures var n := |MonthMeans(gs, m)|;
            CountMonth(Selected(Ranked(gs), topN), m) == if topN <= 0 then 0 else if topN < n then topN else n
  {
    SelectedPerMonth(gs, topN, m);
    Ranking.DistinctKeepsTopN(MonthMeans(gs, m), topN);
  }

  /** Within a month, a row with a strictly larger mean than a kept row is kept too. */
  lemma SelectionUpwardClosed(gs: seq<Group>, topN: int, i: nat, j: nat)
    requires i < |gs| && j < |gs|
    requires gs[i].month == gs[j].month && gs[j].mean > gs[i].mean
    requires Ranked(gs)[i] in Selected(Ranked(gs), topN)
    ensures Ranked(gs)[j] in Selected(Ranked(gs), topN)
  {
    MonthMeansContains(gs, i);
    MonthMeansContains(gs, j);
    Ranking.UpwardClosed(MonthMeans(gs, gs[i].month), gs[i].mean, gs[j].mean, topN);
  }

  /** The symbols held from the day after label m are the rows labelled m, one each. */
  lemma {:induction false} SymbolsOnCount(ss: seq<Score>, m: Date)
    ensures |SymbolsOn(Holdings(ss), NextDay(m))| == CountMonth(ss, m)
  {
    if |ss| > 0 {
      assert Holdings(ss)[1..] == Holdings(ss[1..]);
      SymbolsOnCount(ss[1..], m);
      if ss[0].month != m && NextDay(ss[0].month) == NextDay(m) {
        NextDayInjective(ss[0].month, m);
      }
    }
  }

  /**
   * The list under the key of month m's holding start has one symbol per row
   * of m that passed the cut.
   */
  lemma EntrySize(rows: seq<Record>, topN: int, m: Date, i: nat)
    requires AllRepresentable(rows) && 0 <= m.year < 9999
    requires i < |BuildComposition(rows, topN)|
    requires BuildComposition(rows, topN)[i].start == IsoDate.Format(NextDay(m))
    ensures |BuildComposition(rows, topN)[i].symbols|
            == Ranking.CountKept(MonthMeans(Grouped(LoadRows(rows)), m), MonthMeans(Grouped(LoadRows(rows)), m), topN)
  {
    var sel := Selected(Aggregate(LoadRows(rows)), topN);
    var hs := Holdings(sel);
    HoldingYears(rows, topN);
    var u := StartDates(hs);
    assert u[i] in Starts(hs);
    IsoDate.FormatInjective(u[i], NextDay(m));
    SymbolsOnCount(sel, m);
    SelectedPerMonth(Grouped(LoadRows(rows)), topN, m);
  }

  const TieA := Record(Ymd(2021, 1, 10), "A", 100, 30)
  const TieB := Record(Ymd(2021, 1, 20), "B", 50, 15)
  const January: Date := Ymd(2021, 1, 31)
  const February: Date := Ymd(2021, 2, 1)

  lemma TieLoaded()
    ensures LoadRows([TieA, TieB]) == [Scored(TieA, 0.3), Scored(TieB, 0.3)]
  {
    assert [TieA, TieB][1..] == [TieB];
    assert [TieB][1..] == [];
  }

  lemma TieGrouped()
    ensures Grouped([Scored(TieA, 0.3), Scored(TieB, 0.3)]) == [Group(January, "A", 0.3), Group(January, "B", 0.3)]
  {
    var loaded := [Scored(TieA, 0.3), Scored(TieB, 0.3)];
    var ka := GroupKey(January, "A");
    var kb := GroupKey(January, "B");
    assert KeyOf(loaded[0]) == ka && KeyOf(loaded[1]) == kb;
    assert Lex.Less("A", "B") && !Lex.Less("B", "A");
    assert InsertKey([ka], kb) == [ka, kb] by {
      assert !KeyLess(kb, ka);
      assert [ka][1..] == [];
    }
    assert loaded[..1] == [Scored(TieA, 0.3)] && loaded[..1][..0] == [];
    assert GroupKeys(loaded[..1]) == [ka];
    assert GroupKeys(loaded) == [ka, kb];
    var tail := loaded[1..];
    assert tail == [Scored(TieB, 0.3)] && tail[1..] == [];
    assert ka != kb;
    assert CountIn(tail, ka) == 0 && SumIn(tail, ka) == 0.0;
    assert CountIn(tail, kb) == 1 && SumIn(tail, kb) == 0.3;
    assert MonthlyMean(loaded, ka) == 0.3;
    assert MonthlyMean(loaded, kb) == 0.3;
  }

  lemma TieRanked()
    ensures var gs := [Group(January, "A", 0.3), Group(January, "B", 0.3)];
            Selected(Ranked(gs), 1) == [Score(January, "A", 0.3, 1.5), Score(January, "B", 0.3, 1.5)]
  {
    var gs := [Group(January, "A", 0.3), Group(January, "B", 0.3)];
    assert gs[1..] == [Group(January, "B", 0.3)] && gs[1..][1..] == [];
    assert MonthMeans(gs[1..], January) == [0.3];
    assert MonthMeans(gs, January) == [0.3, 0.3];
    assert Ranking.AverageRank([0.3, 0.3], 0.3) == 1.5 by {
      assert [0.3, 0.3][1..] == [0.3] && [0.3][1..] == [];
    }
    var ss := Ranked(gs);
    assert ss == [Score(January, "A", 0.3, 1.5), Score(January, "B", 0.3, 1.5)];
    assert ss[1..] == [ss[1]] && ss[1..][1..] == [];
    assert Selected(ss[1..], 1) == [ss[1]];
  }

  lemma YearDigits()
    ensures IsoDate.Pad(2021, 4) == "2021"
  {
    assert IsoDate.DigitChar(2) == '2' && IsoDate.DigitChar(0) == '0' && IsoDate.DigitChar(1) == '1';
    assert IsoDate.Pad(0, 0) == "";
    assert IsoDate.Pad(2, 1) == "2";
    assert IsoDate.Pad(20, 2) == "20";
    assert IsoDate.Pad(202, 3) == "202";
  }

  lemma MonthDayDigits()
    ensures IsoDate.Pad(2, 2) == "02" && IsoDate.Pad(1, 2) == "01"
  {
    assert IsoDate.DigitChar(2) == '2' && IsoDate.DigitChar(0) == '0' && IsoDate.DigitChar(1) == '1';
    assert IsoDate.Pad(0, 0) == "" && IsoDate.Pad(0, 1) == "0";
  }

  lemma FebruaryKey()
    ensures IsoDate.Format(February) == "2021-02-01"
  {
    YearDigits();
    MonthDayDigits();
    assert IsoDate.Format(February) == IsoDate.Pad(2021, 4) + "-" + IsoDate.Pad(2, 2) + "-" + IsoDate.Pad(1, 2);
  }

  lemma TieHeld()
    ensures Holdings([Score(January, "A", 0.3, 1.5), Score(January, "B", 0.3, 1.5)])
            == [Holding(February, "A"), Holding(February, "B")]
  {
  }

  lemma TieDates()
    ensures var hs := [Holding(February, "A"), Holding(February, "B")];
            StartDates(hs) == [February] && SymbolsOn(hs, February) == ["A", "B"]
  {
    var hs := [Holding(February, "A"), Holding(February, "B")];
    assert Starts(hs) == [February, February];
    assert Starts(hs)[..1] == [February] && Starts(hs)[..1][..0] == [];
    assert Seqs.Unique(Starts(hs)[..1]) == [February];
    assert hs[1..] == [Holding(February, "B")] && hs[1..][1..] == [];
    assert SymbolsOn(hs[1..], February) == ["B"];
  }

  lemma TieComposed()
    ensures var hs := Holdings([Score(January, "A", 0.3, 1.5), Score(January, "B", 0.3, 1.5)]);
            YearsInRange(hs) && CompositionOf(hs) == [Entry("2021-02-01", ["A", "B"])]
  {
    TieHeld();
    TieDates();
    FebruaryKey();
    var hs := [Holding(February, "A"), Holding(February, "B")];
    assert YearsInRange(hs);
    assert CompositionOf(hs)[0] == Entry(IsoDate.Format(February), SymbolsOn(hs, February));
  }

  /**
   * Two symbols of one month with equal ratios 30/100 and 15/50 and top_n = 1:
   * both share rank 1.5, so both are kept.
   */
  lemma TieScenario()
    ensures BuildComposition([TieA, TieB], 1) == [Entry("2021-02-01", ["A", "B"])]
  {
    TieLoaded();
    TieGrouped();
    TieRanked();
    TieComposed();
  }

  // ---------------------------------------------------------------------------
  // Building the dictionary

  /** The i-th distinct date's key is not yet among the first i keys. */
  lemma KeyFresh(hs: seq<Holding>, i: nat)
    requires YearsInRange(hs) && i < |StartDates(hs)|
    ensures IsoDate.Format(StartDates(hs)[i]) !in Keys(CompositionOf(hs)[..i])
  {
    var u := StartDates(hs);
    var c := CompositionOf(hs);
    var key := IsoDate.Format(u[i]);
    forall j | 0 <= j < i ensures c[j].start != key {
      if c[j].start == key {
        IsoDate.FormatInjective(u[j], u[i]);
      }
    }
  }

  /** Assigning the i-th date's symbols to the first i entries gives the first i + 1. */
  lemma PutNextKey(hs: seq<Holding>, i: nat)
    requires YearsInRange(hs) && i < |StartDates(hs)|
    ensures Put(CompositionOf(hs)[..i], IsoDate.Format(StartDates(hs)[i]), SymbolsOn(hs, StartDates(hs)[i]))
            == CompositionOf(hs)[..i + 1]
  {
    var c := CompositionOf(hs);
    KeyFresh(hs, i);
    assert c[..i + 1] == c[..i] + [c[i]];
  }

  /** The dictionary of holding-start dates, filled one distinct date at a time. */
  method PortfolioDates(hs: seq<Holding>) returns (c: Composition)
    requires YearsInRange(hs)
    ensures c == CompositionOf(hs)
  {
    var dates := StartDates(hs);
    ghost var target := CompositionOf(hs);
    c := [];
    for i := 0 to |dates|
      invariant c == target[..i]
    {
      PutNextKey(hs, i);
      c := Put(c, IsoDate.Format(dates[i]), SymbolsOn(hs, dates[i]));
    }
    assert target[..|dates|] == target;
  }

  // ---------------------------------------------------------------------------
  // The stateful processor

  datatype StageError =
    | OutOfBoundsDatetime  // a date pandas cannot hold as a timestamp
    | StageNotRun          // the step's input field is still unset

  /**
   * The aggregation as an object whose steps overwrite one field each; a step
   * fails when the field it reads has not been produced yet.
   */
  class SentimentProcessor {
    var sentiment: Option<seq<Scored>>
    var aggregated: Option<seq<Score>>
    var filtered: Option<seq<Holding>>

    /** Whatever the fields hold, their dates have four-digit years. */
    ghost predicate Valid()
      reads this
    {
      && (sentiment.Some? ==> forall i :: 0 <= i < |sentiment.value| ==> Representable(sentiment.value[i].row.date))
      && (aggregated.Some? ==> forall i :: 0 <= i < |aggregated.value| ==> Representable(aggregated.value[i].month))
      && (filtered.Some? ==> YearsInRange(filtered.value))
    }

    constructor()
      ensures Valid()
      ensures sentiment == None && aggregated == None && filtered == None
    {
      sentiment := None;
      aggregated := None;
      filtered := None;
    }

    /**
     * Load rows: compute ratios and keep the qualifying ones; an unrepresentable date fails.
     * On that failure the source has already stored the raw CSV frame in `sentiment_df`
     * before the date conversion raises; the model leaves `sentiment` as None instead.
     * No later step reads the field after a failed load, so nothing observable differs.
     */
    method LoadSentimentData(rows: seq<Record>) returns (r: Result<bool, StageError>)
      requires Valid()
      modifies this
      ensures Valid()
      ensures AllRepresentable(rows) ==> r == Success(true) && sentiment == Some(LoadRows(rows))
      ensures !AllRepresentable(rows) ==> r == Failure(OutOfBoundsDatetime) && sentiment == None
      ensures aggregated == old(aggregated) && filtered == old(filtered)
    {
      if AllRepresentable(rows) {
        var loaded := LoadRows(rows);
        forall i | 0 <= i < |loaded| ensures Representable(loaded[i].row.date) {
          assert loaded[i].row in rows;
        }
        sentiment := Some(loaded);
        r := Success(true);
      } else {
        sentiment := None;
        r := Failure(OutOfBoundsDatetime);
      }
    }

    /** Group by month and symbol, average, and rank within each month. */
    method AggregateSentiment() returns (r: Result<bool, StageError>)
      requires Valid()
      modifies this
      ensures Valid()
      ensures old(sentiment).Some? ==> r == Success(true) && aggregated == Some(Aggregate(old(sentiment).value))
      ensures old(sentiment).None? ==> r == Failure(StageNotRun) && aggregated == old(aggregated)
      ensures sentiment == old(sentiment) && filtered == old(filtered)
    {
      if sentiment.None? {
        return Failure(StageNotRun);
      }
      var loaded := sentiment.value;
      var agg := Aggregate(loaded);
      AggregateMonths(loaded);
      forall i | 0 <= i < |agg| ensures Representable(agg[i].month) {
        assert agg[i] in agg;
      }
      aggregated := Some(agg);
      r := Success(true);
    }

    /** Keep rank < top_n + 1 and move each month-end label forward one day. */
    method FilterTopStocks(topN: int) returns (r: Result<bool, StageError>)
      requires Valid()
      modifies this
      ensures Valid()
      ensures old(aggregated).Some? ==> r == Success(true) && filtered == Some(Holdings(Selected(old(aggregated).value, topN)))
      ensures old(aggregated).None? ==> r == Failure(StageNotRun) && filtered == old(filtered)
      ensures sentiment == old(sentiment) && aggregated == old(aggregated)
    {
      if aggregated.None? {
        return Failure(StageNotRun);
      }
      var sel := Selected(aggregated.value, topN);
      var hs := Holdings(sel);
      forall i | 0 <= i < |hs| ensures 0 <= hs[i].start.year < 10000 {
        assert sel[i] in aggregated.value;
      }
      filtered := Some(hs);
      r := Success(true);
    }

    /** The composition dictionary of the filtered table. */
    method GetPortfolioDates() returns (r: Result<Composition, StageError>)
      requires Valid()
      ensures filtered.Some? ==> r == Success(CompositionOf(filtered.value))
      ensures filtered.None? ==> r == Failure(StageNotRun)
    {
      if filtered.None? {
        return Failure(StageNotRun);
      }
      var c := PortfolioDates(filtered.value);
      r := Success(c);
    }
  }
}
