/**
 * The two listings of the command-line report: the ten most frequent
 * symbols, by a stable sort on descending count, and the last five
 * composition keys in ascending string order.
 */
module Sorting {
  import Lex
  import Stats

  type Freq = Stats.Freq

  predicate NonIncreasing(s: seq<Freq>)
  {
    forall i, j :: 0 <= i < j < |s| ==> s[i].count >= s[j].count
  }

  /** Place x after every entry whose count is at least x's. */
  function InsertDesc(s: seq<Freq>, x: Freq): (r: seq<Freq>)
    ensures |r| == |s| + 1
  {
    if |s| == 0 then [x]
    else if s[0].count < x.count then [x] + s
    else [s[0]] + InsertDesc(s[1..], x)
  }

  /** `sorted(items, key=count, reverse=True)`, an insertion sort taking items in their original order. */
  function SortDesc(f: seq<Freq>): (r: seq<Freq>)
    ensures |r| == |f|
  {
    if |f| == 0 then [] else InsertDesc(SortDesc(f[..|f| - 1]), f[|f| - 1])
  }

  lemma {:induction false} InsertDescPermutes(s: seq<Freq>, x: Freq)
    ensures multiset(InsertDesc(s, x)) == multiset(s) + multiset{x}
  {
    if |s| > 0 && s[0].count >= x.count {
      InsertDescPermutes(s[1..], x);
      assert s == [s[0]] + s[1..];
    }
  }

  lemma SnocMultiset<T>(f: seq<T>)
    requires |f| > 0
    ensures multiset(f) == multiset(f[..|f| - 1]) + multiset{f[|f| - 1]}
  {
    assert f == f[..|f| - 1] + [f[|f| - 1]];
  }

  /** The sort is a permutation of its input. */
  lemma {:induction false} SortDescPermutes(f: seq<Freq>)
    ensures multiset(SortDesc(f)) == multiset(f)
  {
    if |f| > 0 {
      SortDescPermutes(f[..|f| - 1]);
      InsertDescPermutes(SortDesc(f[..|f| - 1]), f[|f| - 1]);
      SnocMultiset(f);
    }
  }

  /** Inserting under a bound keeps every count under it. */
  lemma {:induction false} InsertDescBounded(s: seq<Freq>, x: Freq, b: nat)
    requires x.count <= b && forall i :: 0 <= i < |s| ==> s[i].count <= b
    ensures forall i :: 0 <= i < |InsertDesc(s, x)| ==> InsertDesc(s, x)[i].count <= b
  {
    if |s| > 0 && s[0].count >= x.count {
      InsertDescBounded(s[1..], x, b);
    }
  }

  lemma {:induction false} InsertDescSorted(s: seq<Freq>, x: Freq)
    requires NonIncreasing(s)
    ensures NonIncreasing(InsertDesc(s, x))
  {
    if |s| > 0 && s[0].count >= x.count {
      InsertDescSorted(s[1..], x);
      InsertDescBounded(s[1..], x, s[0].count);
    }
  }

  /** The result is in non-increasing count order. */
  lemma {:induction false} SortDescSorted(f: seq<Freq>)
    ensures NonIncreasing(SortDesc(f))
  {
    if |f| > 0 {
      SortDescSorted(f[..|f| - 1]);
      InsertDescSorted(SortDesc(f[..|f| - 1]), f[|f| - 1]);
    }
  }

  /** The entries with count k, in order. */
  function WithCount(s: seq<Freq>, k: nat): seq<Freq>
  {
    if |s| == 0 then [] else (if s[0].count == k then [s[0]] else []) + WithCount(s[1..], k)
  }

  lemma {:induction false} WithCountAppend(a: seq<Freq>, b: seq<Freq>, k: nat)
    ensures WithCount(a + b, k) == WithCount(a, k) + WithCount(b, k)
  {
    if |a| > 0 {
      assert (a + b)[1..] == a[1..] + b;
      WithCountAppend(a[1..], b, k);
    } else {
      assert a + b == b;
    }
  }

  /** In a non-increasing list led by a count below k, no entry has count k. */
  lemma {:induction false} NoneWithCount(s: seq<Freq>, k: nat)
    requires NonIncreasing(s) && |s| > 0 && s[0].count < k
    ensures WithCount(s, k) == []
  {
    if |s| > 1 {
      NoneWithCount(s[1..], k);
    }
  }

  lemma {:induction false} InsertDescStable(s: seq<Freq>, x: Freq, k: nat)
    requires NonIncreasing(s)
    ensures WithCount(InsertDesc(s, x), k) == WithCount(s, k) + (if x.count == k then [x] else [])
  {
    if |s| == 0 {
    } else if s[0].count < x.count {
      if x.count == k {
        NoneWithCount(s, k);
      }
      assert ([x] + s)[1..] == s;
    } else {
      InsertDescStable(s[1..], x, k);
      assert ([s[0]] + InsertDesc(s[1..], x))[1..] == InsertDesc(s[1..], x);
    }
  }

  /** The sort is stable: entries of equal count keep their original relative order. */
  lemma {:induction false} SortDescStable(f: seq<Freq>, k: nat)
    ensures WithCount(SortDesc(f), k) == WithCount(f, k)
  {
    if |f| > 0 {
      var init, last := f[..|f| - 1], f[|f| - 1];
      assert f == init + [last];
      SortDescSorted(init);
      InsertDescStable(SortDesc(init), last, k);
      SortDescStable(init, k);
      WithCountAppend(init, [last], k);
      assert WithCount([last], k) == (if last.count == k then [last] else []) + WithCount([], k);
    }
  }

  /** `sorted(...)[:10]`. */
  function TopStocks(f: seq<Freq>): (top: seq<Freq>)
    ensures |top| == (if |f| < 10 then |f| else 10)
    ensures top == SortDesc(f)[..|top|]
  {
    var sorted := SortDesc(f);
    sorted[..if |sorted| < 10 then |sorted| else 10]
  }

  /**
   * At most ten entries, all from the dictionary, in non-increasing count
   * order, and every entry left out has a count no larger than any kept one.
   */
  lemma TopStocksAreLargest(f: seq<Freq>, x: Freq)
    requires x in f
    ensures |TopStocks(f)| == (if |f| < 10 then |f| else 10)
    ensures NonIncreasing(TopStocks(f))
    ensures forall i :: 0 <= i < |TopStocks(f)| ==> TopStocks(f)[i] in f
    ensures x in TopStocks(f) || forall i :: 0 <= i < |TopStocks(f)| ==> TopStocks(f)[i].count >= x.count
  {
    var sorted := SortDesc(f);
    SortDescSorted(f);
    SortDescPermutes(f);
    var top := TopStocks(f);
    forall i | 0 <= i < |top| ensures top[i] in f {
      assert top[i] in multiset(sorted);
    }
    assert x in multiset(sorted);
    var k :| 0 <= k < |sorted| && sorted[k] == x;
    if k >= |top| {
      forall i | 0 <= i < |top| ensures top[i].count >= x.count {
        assert top[i] == sorted[i];
      }
    }
  }

  /** Non-strict string order. */
  predicate LessEq(a: string, b: string)
  {
    a == b || Lex.Less(a, b)
  }

  predicate SortedAsc(s: seq<string>)
  {
    forall i, j :: 0 <= i < j < |s| ==> LessEq(s[i], s[j])
  }

  /** Place x before the first key greater than it. */
  function InsertAsc(s: seq<string>, x: string): (r: seq<string>)
    ensures |r| == |s| + 1
  {
    if |s| == 0 then [x]
    else if Lex.Less(x, s[0]) then [x] + s
    else [s[0]] + InsertAsc(s[1..], x)
  }

  /** `sorted(keys)`. */
  function SortAsc(ks: seq<string>): (r: seq<string>)
    ensures |r| == |ks|
  {
    if |ks| == 0 then [] else InsertAsc(SortAsc(ks[..|ks| - 1]), ks[|ks| - 1])
  }

  lemma {:induction false} InsertAscPermutes(s: seq<string>, x: string)
    ensures multiset(InsertAsc(s, x)) == multiset(s) + multiset{x}
  {
    if |s| > 0 && !Lex.Less(x, s[0]) {
      InsertAscPermutes(s[1..], x);
      assert s == [s[0]] + s[1..];
    }
  }

  /** The sort is a permutation of its input. */
  lemma {:induction false} SortAscPermutes(ks: seq<string>)
    ensures multiset(SortAsc(ks)) == multiset(ks)
  {
    if |ks| > 0 {
      SortAscPermutes(ks[..|ks| - 1]);
      InsertAscPermutes(SortAsc(ks[..|ks| - 1]), ks[|ks| - 1]);
      SnocMultiset(ks);
    }
  }

  lemma LessEqTransitive(a: string, b: string, c: string)
    requires LessEq(a, b) && LessEq(b, c)
    ensures LessEq(a, c)
  {
    if a != b && b != c {
      Lex.Transitive(a, b, c);
    }
  }

  /** Inserting above a lower bound keeps every key above it. */
  lemma {:induction false} InsertAscBounded(s: seq<string>, x: string, b: string)
    requires LessEq(b, x) && forall i :: 0 <= i < |s| ==> LessEq(b, s[i])
    ensures forall i :: 0 <= i < |InsertAsc(s, x)| ==> LessEq(b, InsertAsc(s, x)[i])
  {
    if |s| > 0 && !Lex.Less(x, s[0]) {
      InsertAscBounded(s[1..], x, b);
    }
  }

  lemma {:induction false} InsertAscSorted(s: seq<string>, x: string)
    requires SortedAsc(s)
    ensures SortedAsc(InsertAsc(s, x))
  {
    if |s| > 0 {
      if Lex.Less(x, s[0]) {
        var r := [x] + s;
        forall i, j | 0 <= i < j < |r| ensures LessEq(r[i], r[j]) {
          if i == 0 {
            LessEqTransitive(x, s[0], r[j]);
          }
        }
      } else {
        InsertAscSorted(s[1..], x);
        if x != s[0] {
          Lex.Total(x, s[0]);
        }
        InsertAscBounded(s[1..], x, s[0]);
      }
    }
  }

  /** The keys come out in ascending order. */
  lemma {:induction false} SortAscSorted(ks: seq<string>)
    ensures SortedAsc(SortAsc(ks))
  {
    if |ks| > 0 {
      SortAscSorted(ks[..|ks| - 1]);
      InsertAscSorted(SortAsc(ks[..|ks| - 1]), ks[|ks| - 1]);
    }
  }

  /** `sorted(keys)[-5:]`. */
  function LastFive(ks: seq<string>): (r: seq<string>)
    ensures |r| <= 5 && |r| <= |ks|
  {
    var sorted := SortAsc(ks);
    sorted[if |sorted| > 5 then |sorted| - 5 else 0..]
  }

  /**
   * The listing shows at most five keys, in ascending order, and every key
   * not shown sorts at or below each key shown.
   */
  lemma LastFiveAreGreatest(ks: seq<string>, x: string)
    requires x in ks
    ensures SortedAsc(LastFive(ks))
    ensures forall i :: 0 <= i < |LastFive(ks)| ==> LastFive(ks)[i] in ks
    ensures x in LastFive(ks) || forall i :: 0 <= i < |LastFive(ks)| ==> LessEq(x, LastFive(ks)[i])
  {
    var sorted := SortAsc(ks);
    SortAscSorted(ks);
    SortAscPermutes(ks);
    var lo := if |sorted| > 5 then |sorted| - 5 else 0;
    assert x in multiset(sorted);
    SortedSuffix(sorted, lo, x);
    SuffixMembers(sorted, ks, lo);
  }

  /** A suffix of a sorted list is sorted and holds what it leaves out at or below it. */
  lemma SortedSuffix(sorted: seq<string>, lo: nat, x: string)
    requires SortedAsc(sorted) && lo <= |sorted| && x in sorted
    ensures SortedAsc(sorted[lo..])
    ensures x in sorted[lo..] || forall i :: 0 <= i < |sorted[lo..]| ==> LessEq(x, sorted[lo..][i])
  {
    var last := sorted[lo..];
    var k :| 0 <= k < |sorted| && sorted[k] == x;
    if k < lo {
      forall i | 0 <= i < |last| ensures LessEq(x, last[i]) {
        assert last[i] == sorted[lo + i];
      }
    } else {
      assert last[k - lo] == x;
    }
  }

  /** Every entry of a suffix of a permutation of ks is in ks. */
  lemma SuffixMembers(sorted: seq<string>, ks: seq<string>, lo: nat)
    requires multiset(sorted) == multiset(ks) && lo <= |sorted|
    ensures forall i :: 0 <= i < |sorted[lo..]| ==> sorted[lo..][i] in ks
  {
    forall i | 0 <= i < |sorted[lo..]| ensures sorted[lo..][i] in ks {
      assert sorted[lo..][i] == sorted[lo + i];
      assert sorted[lo + i] in multiset(sorted);
    }
  }

  /** Keys already strictly ascending are left as they are. */
  lemma {:induction false} SortAscIdentity(ks: seq<string>)
    requires Lex.StrictlyAscending(ks)
    ensures SortAsc(ks) == ks
  {
    if |ks| > 0 {
      var init := ks[..|ks| - 1];
      SortAscIdentity(init);
      InsertAscLast(init, ks[|ks| - 1]);
      assert init + [ks[|ks| - 1]] == ks;
    }
  }

  lemma {:induction false} InsertAscLast(s: seq<string>, x: string)
    requires forall i :: 0 <= i < |s| ==> Lex.Less(s[i], x)
    ensures InsertAsc(s, x) == s + [x]
  {
    if |s| > 0 {
      Lex.Asymmetric(s[0], x);
      InsertAscLast(s[1..], x);
      assert InsertAsc(s, x) == [s[0]] + InsertAsc(s[1..], x);
      assert s + [x] == [s[0]] + (s[1..] + [x]);
    }
  }
}
