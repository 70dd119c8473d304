/** Sequence helpers shared by the pipeline: concatenation of parts, de-duplication, counting. */
module Seqs {

  /** The parts joined end to end, in order. */
  function Flatten<T>(parts: seq<seq<T>>): seq<T>
  {
    if |parts| == 0 then [] else parts[0] + Flatten(parts[1..])
  }

  lemma {:induction false} FlattenAppend<T>(a: seq<seq<T>>, b: seq<seq<T>>)
    ensures Flatten(a + b) == Flatten(a) + Flatten(b)
  {
    if |a| == 0 {
      assert a + b == b;
    } else {
      assert (a + b)[1..] == a[1..] + b;
      FlattenAppend(a[1..], b);
    }
  }

  predicate Distinct<T(==)>(s: seq<T>)
  {
    forall i, j :: 0 <= i < j < |s| ==> s[i] != s[j]
  }

  /** Each element once, in order of first occurrence. */
  function Unique<T(==)>(s: seq<T>): (u: seq<T>)
    ensures Distinct(u)
    ensures forall i :: 0 <= i < |u| ==> u[i] in s
    ensures forall i :: 0 <= i < |s| ==> s[i] in u
  {
    if |s| == 0 then []
    else
      var init := Unique(s[..|s| - 1]);
      assert forall i :: 0 <= i < |s| - 1 ==> s[i] == s[..|s| - 1][i];
      if s[|s| - 1] in init then init else init + [s[|s| - 1]]
  }

  /** Number of occurrences of x in s. */
  function Occurrences<T(==)>(s: seq<T>, x: T): nat
  {
    if |s| == 0 then 0
    else Occurrences(s[..|s| - 1], x) + (if s[|s| - 1] == x then 1 else 0)
  }

  lemma {:induction false} OccurrencesPositive<T>(s: seq<T>, x: T)
    ensures Occurrences(s, x) > 0 <==> x in s
  {
    if |s| > 0 {
      OccurrencesPositive(s[..|s| - 1], x);
      assert s == s[..|s| - 1] + [s[|s| - 1]];
    }
  }

  /** An element is in the joined parts exactly when it is in one of them. */
  lemma {:induction false} FlattenMember<T>(parts: seq<seq<T>>, x: T)
    ensures x in Flatten(parts) <==> exists i :: 0 <= i < |parts| && x in parts[i]
  {
    if |parts| > 0 {
      FlattenMember(parts[1..], x);
      if x in Flatten(parts[1..]) {
        var i :| 0 <= i < |parts[1..]| && x in parts[1..][i];
        assert x in parts[i + 1];
      }
      forall i | 1 <= i < |parts| && x in parts[i] ensures x in Flatten(parts[1..]) {
        assert parts[i] == parts[1..][i - 1];
      }
    }
  }

  /** The lengths of the parts add up to the length of the joined sequence. */
  function TotalLength<T>(parts: seq<seq<T>>): nat
  {
    if |parts| == 0 then 0 else |parts[0]| + TotalLength(parts[1..])
  }

  lemma {:induction false} FlattenLength<T>(parts: seq<seq<T>>)
    ensures |Flatten(parts)| == TotalLength(parts)
  {
    if |parts| > 0 {
      FlattenLength(parts[1..]);
    }
  }

  /** In a duplicate-free sequence every element occurs exactly once. */
  lemma {:induction false} OccurrencesDistinct<T>(u: seq<T>, x: T)
    requires Distinct(u)
    ensures Occurrences(u, x) == (if x in u then 1 else 0)
  {
    if |u| > 0 {
      var init := u[..|u| - 1];
      assert Distinct(init);
      OccurrencesDistinct(init, x);
      assert u == init + [u[|u| - 1]];
      if u[|u| - 1] == x {
        assert x !in init;
      }
    }
  }
}
