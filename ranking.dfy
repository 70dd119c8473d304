/**
 * Descending "average" ranking within one month: a score's rank is the number
 * of strictly greater scores plus (the number of equal scores + 1) / 2, and a
 * score is kept when its rank is below top_n + 1.
 */
module Ranking {
  import Seqs

  function CountGreater(vs: seq<real>, v: real): nat
  {
    if |vs| == 0 then 0 else (if vs[0] > v then 1 else 0) + CountGreater(vs[1..], v)
  }

  function CountEqual(vs: seq<real>, v: real): nat
  {
    if |vs| == 0 then 0 else (if vs[0] == v then 1 else 0) + CountEqual(vs[1..], v)
  }

  function CountLess(vs: seq<real>, v: real): nat
  {
    if |vs| == 0 then 0 else (if vs[0] < v then 1 else 0) + CountLess(vs[1..], v)
  }

  /**
   * The average of the 1-based descending positions a tied group occupies:
   * positions G+1 .. G+E average to G + (E+1)/2.
   */
  function AverageRank(vs: seq<real>, v: real): real
  {
    CountGreater(vs, v) as real + (CountEqual(vs, v) as real + 1.0) / 2.0
  }

  /** A score of the month has a rank between 1 and the number of scores. */
  lemma RankBounds(vs: seq<real>, v: real)
    requires v in vs
    ensures 1.0 <= AverageRank(vs, v) <= |vs| as real
  {
    CountsPartition(vs, v);
    CountEqualPositive(vs, v);
  }

  /** The selection rule: rank < top_n + 1. */
  predicate Kept(vs: seq<real>, v: real, topN: int)
  {
    AverageRank(vs, v) < (topN + 1) as real
  }

  /** How many of xs are kept when ranked among vs. */
  function CountKept(xs: seq<real>, vs: seq<real>, topN: int): nat
  {
    if |xs| == 0 then 0 else (if Kept(vs, xs[0], topN) then 1 else 0) + CountKept(xs[1..], vs, topN)
  }

  lemma {:induction false} CountsPartition(vs: seq<real>, v: real)
    ensures CountGreater(vs, v) + CountEqual(vs, v) + CountLess(vs, v) == |vs|
  {
    if |vs| > 0 {
      CountsPartition(vs[1..], v);
    }
  }

  lemma {:induction false} CountEqualPositive(vs: seq<real>, v: real)
    requires v in vs
    ensures CountEqual(vs, v) >= 1
  {
    if vs[0] != v {
      CountEqualPositive(vs[1..], v);
    }
  }

  /** Everything above or tied with a larger w is strictly above v. */
  lemma {:induction false} GreaterDominates(vs: seq<real>, v: real, w: real)
    requires w > v
    ensures CountGreater(vs, v) >= CountGreater(vs, w) + CountEqual(vs, w)
  {
    if |vs| > 0 {
      GreaterDominates(vs[1..], v, w);
    }
  }

  /**
   * Selection is upward closed: if v is kept, every score of the month that is
   * strictly larger is kept too.
   */
  lemma UpwardClosed(vs: seq<real>, v: real, w: real, topN: int)
    requires v in vs && w in vs && w > v
    requires Kept(vs, v, topN)
    ensures Kept(vs, w, topN)
  {
    GreaterDominates(vs, v, w);
    CountEqualPositive(vs, w);
    CountEqualPositive(vs, v);
    assert AverageRank(vs, w) < AverageRank(vs, v);
  }

  lemma {:induction false} CountGreaterAppend(a: seq<real>, b: seq<real>, v: real)
    ensures CountGreater(a + b, v) == CountGreater(a, v) + CountGreater(b, v)
  {
    if |a| == 0 {
      assert a + b == b;
    } else {
      assert (a + b)[1..] == a[1..] + b;
      CountGreaterAppend(a[1..], b, v);
    }
  }

  lemma {:induction false} CountEqualAppend(a: seq<real>, b: seq<real>, v: real)
    ensures CountEqual(a + b, v) == CountEqual(a, v) + CountEqual(b, v)
  {
    if |a| == 0 {
      assert a + b == b;
    } else {
      assert (a + b)[1..] == a[1..] + b;
      CountEqualAppend(a[1..], b, v);
    }
  }

  lemma {:induction false} CountKeptAppend(a: seq<real>, b: seq<real>, vs: seq<real>, topN: int)
    ensures CountKept(a + b, vs, topN) == CountKept(a, vs, topN) + CountKept(b, vs, topN)
  {
    if |a| == 0 {
      assert a + b == b;
    } else {
      assert (a + b)[1..] == a[1..] + b;
      CountKeptAppend(a[1..], b, vs, topN);
    }
  }

  /** Counting with two rankings that agree on every element gives the same count. */
  lemma {:induction false} CountKeptAgree(xs: seq<real>, vs: seq<real>, ws: seq<real>, topN: int)
    requires forall i :: 0 <= i < |xs| ==> (Kept(vs, xs[i], topN) <==> Kept(ws, xs[i], topN))
    ensures CountKept(xs, vs, topN) == CountKept(xs, ws, topN)
  {
    if |xs| > 0 {
      CountKeptAgree(xs[1..], vs, ws, topN);
    }
  }

  /** In a duplicate-free list every score occurs once. */
  lemma {:induction false} CountEqualDistinct(vs: seq<real>, v: real)
    requires Seqs.Distinct(vs) && v in vs
    ensures CountEqual(vs, v) == 1
  {
    if vs[0] == v {
      assert v !in vs[1..];
      CountEqualAbsent(vs[1..], v);
    } else {
      CountEqualDistinct(vs[1..], v);
    }
  }

  lemma {:induction false} CountEqualAbsent(vs: seq<real>, v: real)
    requires v !in vs
    ensures CountEqual(vs, v) == 0
  {
    if |vs| > 0 {
      CountEqualAbsent(vs[1..], v);
    }
  }

  lemma {:induction false} CountLessOfMin(vs: seq<real>, v: real)
    requires forall j :: 0 <= j < |vs| ==> v <= vs[j]
    ensures CountLess(vs, v) == 0
  {
    if |vs| > 0 {
      CountLessOfMin(vs[1..], v);
    }
  }

  function MinIndex(vs: seq<real>): (i: nat)
    requires |vs| > 0
    ensures i < |vs| && forall j :: 0 <= j < |vs| ==> vs[i] <= vs[j]
  {
    if |vs| == 1 then 0
    else
      var k := MinIndex(vs[1..]);
      if vs[0] <= vs[k + 1] then 0 else k + 1
  }

  /** Removing one position keeps the scores distinct and drops exactly that score. */
  lemma RemoveAtDistinct(vs: seq<real>, i: nat)
    requires Seqs.Distinct(vs) && i < |vs|
    ensures Seqs.Distinct(vs[..i] + vs[i + 1..])
    ensures vs[i] !in vs[..i] + vs[i + 1..]
  {
    var rest := vs[..i] + vs[i + 1..];
    forall a, b | 0 <= a < b < |rest|
      ensures rest[a] != rest[b]
    {
      var a' := if a < i then a else a + 1;
      var b' := if b < i then b else b + 1;
      assert rest[a] == vs[a'] && rest[b] == vs[b'];
    }
    forall k | 0 <= k < |rest| ensures rest[k] != vs[i] {
      var k' := if k < i then k else k + 1;
      assert rest[k] == vs[k'];
    }
  }

  /** Among distinct scores the minimum is ranked last. */
  lemma MinRankedLast(vs: seq<real>, i: nat)
    requires Seqs.Distinct(vs) && i < |vs|
    requires forall j :: 0 <= j < |vs| ==> vs[i] <= vs[j]
    ensures AverageRank(vs, vs[i]) == |vs| as real
  {
    CountsPartition(vs, vs[i]);
    CountEqualDistinct(vs, vs[i]);
    CountLessOfMin(vs, vs[i]);
  }

  /** Removing a smaller score leaves the rank of x unchanged. */
  lemma RankWithoutSmaller(vs: seq<real>, i: nat, x: real)
    requires i < |vs| && vs[i] < x
    ensures AverageRank(vs[..i] + vs[i + 1..], x) == AverageRank(vs, x)
  {
    var m := vs[i];
    assert vs == vs[..i] + [m] + vs[i + 1..];
    CountGreaterAppend(vs[..i] + [m], vs[i + 1..], x);
    CountGreaterAppend(vs[..i], [m], x);
    CountGreaterAppend(vs[..i], vs[i + 1..], x);
    CountEqualAppend(vs[..i] + [m], vs[i + 1..], x);
    CountEqualAppend(vs[..i], [m], x);
    CountEqualAppend(vs[..i], vs[i + 1..], x);
    assert CountGreater([m], x) == 0 && CountEqual([m], x) == 0;
  }

  /** Counting the kept scores of vs: those of vs without position i, plus position i itself. */
  lemma CountKeptRemoveAt(xs: seq<real>, i: nat, vs: seq<real>, topN: int)
    requires i < |xs|
    ensures CountKept(xs, vs, topN)
            == CountKept(xs[..i] + xs[i + 1..], vs, topN) + (if Kept(vs, xs[i], topN) then 1 else 0)
  {
    assert xs == xs[..i] + [xs[i]] + xs[i + 1..];
    CountKeptAppend(xs[..i] + [xs[i]], xs[i + 1..], vs, topN);
    CountKeptAppend(xs[..i], [xs[i]], vs, topN);
    CountKeptAppend(xs[..i], xs[i + 1..], vs, topN);
  }

  /**
   * With pairwise distinct scores the ranks are 1..n, so exactly
   * min(top_n, n) scores are kept (none when top_n <= 0).
   */
  lemma {:induction false} DistinctKeepsTopN(vs: seq<real>, topN: int)
    requires Seqs.Distinct(vs)
    ensures CountKept(vs, vs, topN) == if topN <= 0 then 0 else if topN < |vs| then topN else |vs|
    decreases |vs|
  {
    if |vs| > 0 {
      var i := MinIndex(vs);
      var rest := vs[..i] + vs[i + 1..];
      RemoveAtDistinct(vs, i);
      MinRankedLast(vs, i);
      forall k | 0 <= k < |rest|
        ensures Kept(vs, rest[k], topN) <==> Kept(rest, rest[k], topN)
      {
        var k' := if k < i then k else k + 1;
        assert rest[k] == vs[k'];
        RankWithoutSmaller(vs, i, rest[k]);
      }
      CountKeptAgree(rest, vs, rest, topN);
      CountKeptRemoveAt(vs, i, vs, topN);
      DistinctKeepsTopN(rest, topN);
    }
  }

  /** Ties straddling the cut can admit more than top_n: two equal scores, top_n = 1. */
  lemma TieAdmitsMore()
    ensures CountKept([0.3, 0.3], [0.3, 0.3], 1) == 2
  {
  }

  /** ... or fewer: one leader and three tied scores, top_n = 2, keeps only the leader. */
  lemma TieAdmitsFewer()
    ensures CountKept([0.9, 0.1, 0.1, 0.1], [0.9, 0.1, 0.1, 0.1], 2) == 1
  {
  }
}
