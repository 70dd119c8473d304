/**
 * The batched price download: excluded symbols are dropped, the rest is cut
 * into consecutive batches, each batch is fetched (a fetch that raises gives
 * an empty table), and the non-empty results are joined column-wise in batch
 * order.
 */
module Batching {
  import opened Wrappers
  import opened Frames
  import Seqs

  type Symbol = string

  /** Symbols that are never downloaded. */
  const Excluded: seq<Symbol> := ["MRO", "ATVI"]

  /** The symbols not in the exclusion list, in their original order. */
  function Exclude(xs: seq<Symbol>): (r: seq<Symbol>)
    ensures |r| <= |xs|
    ensures forall i :: 0 <= i < |r| ==> r[i] in xs && r[i] !in Excluded
    ensures forall i :: 0 <= i < |xs| && xs[i] !in Excluded ==> xs[i] in r
  {
    if |xs| == 0 then []
    else (if xs[0] in Excluded then [] else [xs[0]]) + Exclude(xs[1..])
  }

  /** Exclusion works element by element, so it keeps the relative order. */
  lemma {:induction false} ExcludeAppend(a: seq<Symbol>, b: seq<Symbol>)
    ensures Exclude(a + b) == Exclude(a) + Exclude(b)
  {
    if |a| > 0 {
      assert (a + b)[0] == a[0] && (a + b)[1..] == a[1..] + b;
      ExcludeAppend(a[1..], b);
    } else {
      assert a + b == b;
    }
  }

  lemma {:induction false} ExcludeIdempotent(xs: seq<Symbol>)
    ensures Exclude(Exclude(xs)) == Exclude(xs)
  {
    if |xs| > 0 {
      ExcludeIdempotent(xs[1..]);
      var head := if xs[0] in Excluded then [] else [xs[0]];
      ExcludeAppend(head, Exclude(xs[1..]));
      if head != [] {
        assert Exclude(head) == head by {
          assert head[1..] == [];
        }
      }
    }
  }

  /** `range(0, n, 0)` raises ValueError. */
  datatype BatchError = ZeroStep

  /** xs[i:i + size] for i in range(0, len(xs), size), for a positive size. */
  function ChunksOf<T>(xs: seq<T>, size: nat): (cs: seq<seq<T>>)
    requires size > 0
    decreases |xs|
  {
    if |xs| == 0 then []
    else if |xs| <= size then [xs]
    else [xs[..size]] + ChunksOf(xs[size..], size)
  }

  /** The batches concatenate back to the input. */
  lemma {:induction false} ChunksFlatten<T>(xs: seq<T>, size: nat)
    requires size > 0
    ensures Seqs.Flatten(ChunksOf(xs, size)) == xs
    decreases |xs|
  {
    if |xs| > size {
      ChunksFlatten(xs[size..], size);
      assert xs == xs[..size] + xs[size..];
    } else if |xs| > 0 {
      assert [xs][1..] == [];
    }
  }

  /** The batch count k satisfies (k - 1) * size < n <= k * size. */
  lemma {:induction false} ChunksBounds<T>(xs: seq<T>, size: nat)
    requires size > 0
    ensures |ChunksOf(xs, size)| * size >= |xs|
    ensures |xs| > 0 ==> (|ChunksOf(xs, size)| - 1) * size < |xs|
    ensures |xs| == 0 <==> |ChunksOf(xs, size)| == 0
    decreases |xs|
  {
    if |xs| > size {
      ChunksBounds(xs[size..], size);
      var k := |ChunksOf(xs[size..], size)|;
      assert |ChunksOf(xs, size)| == k + 1;
      assert (k + 1) * size == k * size + size;
    }
  }

  lemma {:induction false} MulMonotone(a: nat, b: nat, c: nat)
    requires a <= b
    ensures a * c <= b * c
    decreases b - a
  {
    if a < b {
      MulMonotone(a, b - 1, c);
      assert b * c == (b - 1) * c + c;
    }
  }

  /** Division is pinned down by a bracketing multiple. */
  lemma DivUnique(m: nat, size: nat, k: nat)
    requires size > 0
    requires k * size <= m < k * size + size
    ensures m / size == k
  {
    var q := m / size;
    var r := m % size;
    assert m == q * size + r && 0 <= r < size;
    assert (q + 1) * size == q * size + size;
    assert (k + 1) * size == k * size + size;
    if q < k {
      MulMonotone(q + 1, k, size);
    } else if q > k {
      MulMonotone(k + 1, q, size);
    }
  }

  /** The bounds above pin the count to ceil(n / size). */
  lemma CeilingOfBounds(n: nat, size: nat, k: nat)
    requires size > 0
    requires k * size >= n
    requires n > 0 ==> (k - 1) * size < n
    requires n == 0 <==> k == 0
    ensures k == (n + size - 1) / size
  {
    if n > 0 {
      assert (k - 1) * size == k * size - size;
      DivUnique(n + size - 1, size, k);
    } else {
      DivUnique(size - 1, size, 0);
    }
  }

  /** There are ceil(n / size) batches. */
  lemma ChunksCount<T>(xs: seq<T>, size: nat)
    requires size > 0
    ensures |ChunksOf(xs, size)| == (|xs| + size - 1) / size
  {
    ChunksBounds(xs, size);
    CeilingOfBounds(|xs|, size, |ChunksOf(xs, size)|);
  }

  /** Every batch is non-empty, and all but the last are full. */
  lemma {:induction false} ChunksSizes<T>(xs: seq<T>, size: nat)
    requires size > 0
    ensures forall i :: 0 <= i < |ChunksOf(xs, size)| ==> 0 < |ChunksOf(xs, size)[i]| <= size
    ensures forall i :: 0 <= i < |ChunksOf(xs, size)| - 1 ==> |ChunksOf(xs, size)[i]| == size
    decreases |xs|
  {
    if |xs| > size {
      ChunksSizes(xs[size..], size);
      var cs := ChunksOf(xs, size);
      var rest := ChunksOf(xs[size..], size);
      assert cs == [xs[..size]] + rest;
      forall i | 1 <= i < |cs| ensures cs[i] == rest[i - 1] { }
    }
  }

  /** The batching comprehension for any integer batch size. */
  function Chunks<T>(xs: seq<T>, size: int): (r: Result<seq<seq<T>>, BatchError>)
    ensures size == 0 <==> r.Failure?
    ensures size < 0 ==> r == Success([])
  {
    if size == 0 then Failure(ZeroStep)
    else if size < 0 then Success([])
    else Success(ChunksOf(xs, size))
  }

  /** One batch download: a table, or an exception. */
  datatype Fetch = Raised | Fetched(table: Table)

  /** The per-batch wrapper: any exception becomes an empty table. */
  function DownloadBatch(fetch: seq<Symbol> -> Fetch, batch: seq<Symbol>): (t: Table)
    ensures fetch(batch).Raised? ==> t == EmptyTable
    ensures fetch(batch).Fetched? ==> t == fetch(batch).table
  {
    match fetch(batch)
    case Raised => EmptyTable
    case Fetched(t) => t
  }

  function DownloadAll(fetch: seq<Symbol> -> Fetch, batches: seq<seq<Symbol>>): (ts: seq<Table>)
    ensures |ts| == |batches|
    ensures forall i :: 0 <= i < |ts| ==> ts[i] == DownloadBatch(fetch, batches[i])
  {
    seq(|batches|, i requires 0 <= i < |batches| => DownloadBatch(fetch, batches[i]))
  }

  /** The non-empty tables, in order. */
  function NonEmpty(ts: seq<Table>): (r: seq<Table>)
    ensures forall i :: 0 <= i < |r| ==> !IsEmpty(r[i]) && r[i] in ts
    ensures forall i :: 0 <= i < |ts| && !IsEmpty(ts[i]) ==> ts[i] in r
  {
    if |ts| == 0 then []
    else (if IsEmpty(ts[0]) then [] else [ts[0]]) + NonEmpty(ts[1..])
  }

  /** Joining the non-empty results, or an empty table when there are none. */
  function Combine(ts: seq<Table>): (r: Table)
    ensures |NonEmpty(ts)| == 0 ==> r == EmptyTable
    ensures |NonEmpty(ts)| > 0 ==> r == JoinAll(NonEmpty(ts))
  {
    var valid := NonEmpty(ts);
    if |valid| == 0 then EmptyTable else JoinAll(valid)
  }

  /** Batch, download each batch and combine the non-empty results in batch order. */
  function DownloadBatches(fetch: seq<Symbol> -> Fetch, stocks: seq<Symbol>, batchSize: int): Result<Table, BatchError>
  {
    match Chunks(stocks, batchSize)
    case Failure(e) => Failure(e)
    case Success(batches) => Success(Combine(DownloadAll(fetch, batches)))
  }

  /** The engine's download: the excluded symbols are dropped before batching. */
  function DownloadParallel(fetch: seq<Symbol> -> Fetch, stocks: seq<Symbol>, batchSize: int): Result<Table, BatchError>
  {
    DownloadBatches(fetch, Exclude(stocks), batchSize)
  }

  /** Collecting the non-empty results one at a time, in order, gives the same list. */
  lemma {:induction false} NonEmptySnoc(ts: seq<Table>, t: Table)
    ensures NonEmpty(ts + [t]) == NonEmpty(ts) + (if IsEmpty(t) then [] else [t])
  {
    if |ts| == 0 {
      assert ts + [t] == [t];
      assert NonEmpty([t][1..]) == [];
    } else {
      assert (ts + [t])[1..] == ts[1..] + [t];
      NonEmptySnoc(ts[1..], t);
    }
  }

  /**
   * The combined table carries the labels of the non-empty batch results in
   * batch order; when no batch yields data, including when there are no
   * symbols at all, the result is the empty table rather than an error.
   */
  lemma DownloadParallelResult(fetch: seq<Symbol> -> Fetch, stocks: seq<Symbol>, batchSize: int)
    requires batchSize > 0
    ensures DownloadParallel(fetch, stocks, batchSize).Success?
    ensures var ts := DownloadAll(fetch, ChunksOf(Exclude(stocks), batchSize));
            var r := DownloadParallel(fetch, stocks, batchSize).value;
            (|NonEmpty(ts)| == 0 ==> r == EmptyTable) && (|NonEmpty(ts)| > 0 ==> r.labels == AllLabels(NonEmpty(ts)))
    ensures Exclude(stocks) == [] ==> DownloadParallel(fetch, stocks, batchSize) == Success(EmptyTable)
  {
  }

  /**
   * Seventeen symbols in batches of 15 make two batches; if the second one
   * raises, the combined table is exactly the first batch's table.
   */
  lemma SeventeenInBatchesOfFifteen(fetch: seq<Symbol> -> Fetch, stocks: seq<Symbol>)
    requires |stocks| == 17 && forall i :: 0 <= i < 17 ==> stocks[i] !in Excluded
    requires fetch(stocks[..15]).Fetched? && !IsEmpty(fetch(stocks[..15]).table)
    requires fetch(stocks[15..]).Raised?
    ensures ChunksOf(stocks, 15) == [stocks[..15], stocks[15..]]
    ensures DownloadParallel(fetch, stocks, 15) == Success(fetch(stocks[..15]).table)
  {
    ExcludeAll(stocks);
    var cs := ChunksOf(stocks, 15);
    assert cs == [stocks[..15], stocks[15..]] by {
      assert ChunksOf(stocks[15..], 15) == [stocks[15..]];
    }
    var ts := DownloadAll(fetch, cs);
    assert ts == [fetch(stocks[..15]).table, EmptyTable];
    assert NonEmpty(ts) == [fetch(stocks[..15]).table] by {
      assert ts[1..] == [EmptyTable];
      assert IsEmpty(EmptyTable);
      assert NonEmpty(ts[1..]) == [] by {
        assert ts[1..][1..] == [];
      }
    }
  }

  lemma {:induction false} ExcludeAll(xs: seq<Symbol>)
    requires forall i :: 0 <= i < |xs| ==> xs[i] !in Excluded
    ensures Exclude(xs) == xs
  {
    if |xs| > 0 {
      ExcludeAll(xs[1..]);
      assert xs == [xs[0]] + xs[1..];
    }
  }
}
