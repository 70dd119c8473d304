/**
 * Statistics over a composition: every listed symbol in listing order, the
 * distinct symbols, and how many months each symbol is held, counted in a
 * dictionary that keeps first-seen order.
 */
module Stats {
  import Seqs
  import Sentiment

  type Symbol = string

  /** The symbol lists of a composition, in key order. */
  function Values(c: Sentiment.Composition): (vs: seq<seq<Symbol>>)
    ensures |vs| == |c| && forall i :: 0 <= i < |c| ==> vs[i] == c[i].symbols
  {
    seq(|c|, i requires 0 <= i < |c| => c[i].symbols)
  }

  /** Every listed symbol, list after list. */
  function AllStocksOf(c: Sentiment.Composition): seq<Symbol>
  {
    Seqs.Flatten(Values(c))
  }

  lemma FlattenSnoc(parts: seq<seq<Symbol>>, x: seq<Symbol>)
    ensures Seqs.Flatten(parts + [x]) == Seqs.Flatten(parts) + x
  {
    Seqs.FlattenAppend(parts, [x]);
    assert Seqs.Flatten([x]) == x + Seqs.Flatten([x][1..]);
    assert Seqs.Flatten([x][1..]) == [];
  }

  /** The loop extending `all_stocks` with each list. */
  method AllStocks(c: Sentiment.Composition) returns (all: seq<Symbol>)
    ensures all == AllStocksOf(c)
  {
    all := [];
    for i := 0 to |c|
      invariant all == Seqs.Flatten(Values(c)[..i])
    {
      assert Values(c)[..i + 1] == Values(c)[..i] + [c[i].symbols];
      FlattenSnoc(Values(c)[..i], c[i].symbols);
      all := all + c[i].symbols;
    }
    assert Values(c)[..|c|] == Values(c);
  }

  /** A symbol is listed exactly when some entry holds it; the listing has one slot per holding. */
  lemma AllStocksMembers(c: Sentiment.Composition, s: Symbol)
    ensures s in AllStocksOf(c) <==> exists i :: 0 <= i < |c| && s in c[i].symbols
    ensures |AllStocksOf(c)| == Seqs.TotalLength(Values(c))
  {
    Seqs.FlattenMember(Values(c), s);
    Seqs.FlattenLength(Values(c));
  }

  /** The distinct symbols of the composition (`list(set(all_stocks))`). */
  function UniqueStocks(c: Sentiment.Composition): seq<Symbol>
  {
    Seqs.Unique(AllStocksOf(c))
  }

  /** Each symbol of the composition appears exactly once among the unique stocks, and nothing else does. */
  lemma UniqueStocksExact(c: Sentiment.Composition, s: Symbol)
    ensures Seqs.Occurrences(UniqueStocks(c), s) == (if exists i :: 0 <= i < |c| && s in c[i].symbols then 1 else 0)
  {
    AllStocksMembers(c, s);
    Seqs.OccurrencesDistinct(UniqueStocks(c), s);
    assert s in UniqueStocks(c) <==> s in AllStocksOf(c);
  }

  /** One dictionary entry: a symbol and its count. */
  datatype Freq = Freq(symbol: Symbol, count: nat)

  function Symbols(f: seq<Freq>): (ss: seq<Symbol>)
    ensures |ss| == |f| && forall i :: 0 <= i < |f| ==> ss[i] == f[i].symbol
  {
    if |f| == 0 then [] else [f[0].symbol] + Symbols(f[1..])
  }

  /** `freq[x] = freq.get(x, 0) + 1` on an insertion-ordered dictionary. */
  function Bump(f: seq<Freq>, x: Symbol): (g: seq<Freq>)
  {
    if |f| == 0 then [Freq(x, 1)]
    else if f[0].symbol == x then [Freq(x, f[0].count + 1)] + f[1..]
    else [f[0]] + Bump(f[1..], x)
  }

  /** The dictionary after counting xs from left to right. */
  function Tally(xs: seq<Symbol>): seq<Freq>
  {
    if |xs| == 0 then [] else Bump(Tally(xs[..|xs| - 1]), xs[|xs| - 1])
  }

  /** `freq.get(s, 0)`. */
  function CountOf(f: seq<Freq>, s: Symbol): nat
  {
    if |f| == 0 then 0 else if f[0].symbol == s then f[0].count else CountOf(f[1..], s)
  }

  function CountSum(f: seq<Freq>): nat
  {
    if |f| == 0 then 0 else f[0].count + CountSum(f[1..])
  }

  lemma {:induction false} BumpSymbols(f: seq<Freq>, x: Symbol)
    ensures Symbols(Bump(f, x)) == if x in Symbols(f) then Symbols(f) else Symbols(f) + [x]
  {
    if |f| > 0 {
      var g := Bump(f, x);
      if f[0].symbol != x {
        BumpSymbols(f[1..], x);
        assert g[1..] == Bump(f[1..], x);
        assert x in Symbols(f) <==> x in Symbols(f[1..]);
      } else {
        assert g[1..] == f[1..];
      }
    } else {
      assert Symbols([Freq(x, 1)]) == [x] + Symbols([]);
    }
  }

  /** The dictionary's keys are the counted symbols in order of first appearance. */
  lemma {:induction false} TallySymbols(xs: seq<Symbol>)
    ensures Symbols(Tally(xs)) == Seqs.Unique(xs)
  {
    if |xs| > 0 {
      TallySymbols(xs[..|xs| - 1]);
      BumpSymbols(Tally(xs[..|xs| - 1]), xs[|xs| - 1]);
    }
  }

  lemma {:induction false} BumpCount(f: seq<Freq>, x: Symbol, s: Symbol)
    ensures CountOf(Bump(f, x), s) == CountOf(f, s) + (if s == x then 1 else 0)
  {
    if |f| > 0 && f[0].symbol != x {
      BumpCount(f[1..], x, s);
    }
  }

  /** Each count is the number of times the symbol was seen. */
  lemma {:induction false} TallyCount(xs: seq<Symbol>, s: Symbol)
    ensures CountOf(Tally(xs), s) == Seqs.Occurrences(xs, s)
  {
    if |xs| > 0 {
      TallyCount(xs[..|xs| - 1], s);
      BumpCount(Tally(xs[..|xs| - 1]), xs[|xs| - 1], s);
    }
  }

  lemma {:induction false} BumpSum(f: seq<Freq>, x: Symbol)
    ensures CountSum(Bump(f, x)) == CountSum(f) + 1
  {
    if |f| > 0 && f[0].symbol != x {
      BumpSum(f[1..], x);
    }
  }

  /** The counts add up to the number of symbols counted. */
  lemma {:induction false} TallySum(xs: seq<Symbol>)
    ensures CountSum(Tally(xs)) == |xs|
  {
    if |xs| > 0 {
      TallySum(xs[..|xs| - 1]);
      BumpSum(Tally(xs[..|xs| - 1]), xs[|xs| - 1]);
    }
  }

  /** Counting one more symbol bumps its entry. */
  lemma TallySnoc(xs: seq<Symbol>, x: Symbol)
    ensures Tally(xs + [x]) == Bump(Tally(xs), x)
  {
    assert (xs + [x])[..|xs|] == xs;
  }

  /** Counting the first j + 1 symbols of a month bumps the count of the first j. */
  lemma CountedOneMore(seen: seq<Symbol>, stocks: seq<Symbol>, j: nat)
    requires j < |stocks|
    ensures Tally(seen + stocks[..j + 1]) == Bump(Tally(seen + stocks[..j]), stocks[j])
  {
    assert seen + stocks[..j + 1] == (seen + stocks[..j]) + [stocks[j]];
    TallySnoc(seen + stocks[..j], stocks[j]);
  }

  /** The inner loop: counting one month's symbols into the dictionary. */
  method CountMonth(f: seq<Freq>, ghost seen: seq<Symbol>, stocks: seq<Symbol>) returns (g: seq<Freq>)
    requires f == Tally(seen)
    ensures g == Tally(seen + stocks)
  {
    g := f;
    assert seen + stocks[..0] == seen;
    for j := 0 to |stocks|
      invariant g == Tally(seen + stocks[..j])
    {
      CountedOneMore(seen, stocks, j);
      g := Bump(g, stocks[j]);
    }
    assert stocks[..|stocks|] == stocks;
  }

  /** The nested loop filling `stock_frequency`. */
  method StockFrequency(c: Sentiment.Composition) returns (f: seq<Freq>)
    ensures f == Tally(AllStocksOf(c))
  {
    f := [];
    for i := 0 to |c|
      invariant f == Tally(Seqs.Flatten(Values(c)[..i]))
    {
      f := CountMonth(f, Seqs.Flatten(Values(c)[..i]), c[i].symbols);
      ValuesPrefixStep(c, i);
    }
    assert Values(c)[..|c|] == Values(c);
  }

  /** The symbols of the first i + 1 months are those of the first i, then month i's. */
  lemma ValuesPrefixStep(c: Sentiment.Composition, i: nat)
    requires i < |c|
    ensures Seqs.Flatten(Values(c)[..i + 1]) == Seqs.Flatten(Values(c)[..i]) + c[i].symbols
  {
    assert Values(c)[..i + 1] == Values(c)[..i] + [c[i].symbols];
    FlattenSnoc(Values(c)[..i], c[i].symbols);
  }

  /**
   * The frequency dictionary of a composition: one entry per distinct
   * symbol in first-seen order, counting the months that list it, with the
   * counts summing to the number of listed holdings.
   */
  lemma FrequencyOfComposition(c: Sentiment.Composition, s: Symbol)
    ensures Symbols(Tally(AllStocksOf(c))) == UniqueStocks(c)
    ensures CountOf(Tally(AllStocksOf(c)), s) == Seqs.Occurrences(AllStocksOf(c), s)
    ensures CountSum(Tally(AllStocksOf(c))) == Seqs.TotalLength(Values(c))
  {
    TallySymbols(AllStocksOf(c));
    TallyCount(AllStocksOf(c), s);
    TallySum(AllStocksOf(c));
    Seqs.FlattenLength(Values(c));
  }
}
