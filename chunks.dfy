/** `chunk_list`: cutting a list into consecutive slices of bounded size. */
module Chunks {

  /** `max(1, size)`: the chunk size actually used. */
  function ChunkSize(size: int): nat
  {
    if size < 1 then 1 else size
  }

  function Min(a: int, b: int): int
  {
    if a < b then a else b
  }

  /**
   * `chunk_list(items, size)`: the slices `items[i:i + n]` for
   * `i = 0, n, 2n, ...` below `|items|`, where `n = max(1, size)`.
   * Every chunk is non-empty and at most `n` long, and only the last one
   * may be shorter than `n`.
   */
  function ChunkList<T>(items: seq<T>, size: int): (chunks: seq<seq<T>>)
    ensures forall i :: 0 <= i < |chunks| ==> 0 < |chunks[i]| <= ChunkSize(size)
    ensures forall i :: 0 <= i < |chunks| - 1 ==> |chunks[i]| == ChunkSize(size)
    ensures |items| == 0 <==> chunks == []
    decreases |items|
  {
    var n := ChunkSize(size);
    if |items| == 0 then []
    else if |items| <= n then [items]
    else [items[..n]] + ChunkList(items[n..], n)
  }

  /** The concatenation of a list of lists. */
  function Flatten<T>(ss: seq<seq<T>>): seq<T>
  {
    if |ss| == 0 then [] else ss[0] + Flatten(ss[1..])
  }

  lemma {:induction false} FlattenAppend<T>(a: seq<seq<T>>, b: seq<seq<T>>)
    ensures Flatten(a + b) == Flatten(a) + Flatten(b)
  {
    if |a| > 0 {
      FlattenAppend(a[1..], b);
      assert (a + b)[1..] == a[1..] + b;
    } else {
      assert a + b == b;
    }
  }

  /** Concatenating the chunks gives back the items, in order. */
  lemma {:induction false} ChunksConcatenate<T>(items: seq<T>, size: int)
    ensures Flatten(ChunkList(items, size)) == items
    decreases |items|
  {
    var n := ChunkSize(size);
    if |items| > n {
      ChunksConcatenate(items[n..], n);
      var cs := ChunkList(items, size);
      assert cs[1..] == ChunkList(items[n..], n);
      assert items[..n] + items[n..] == items;
    }
  }

  /**
   * Chunk `k` is exactly Python's slice `items[k*n : (k+1)*n]`, whose end
   * is clamped to the length of the list.
   */
  lemma {:induction false} ChunkIsSlice<T>(items: seq<T>, size: int, k: nat)
    requires k < |ChunkList(items, size)|
    ensures k * ChunkSize(size) < |items|
    ensures ChunkList(items, size)[k] ==
      items[k * ChunkSize(size) .. Min((k + 1) * ChunkSize(size), |items|)]
  {
    var n := ChunkSize(size);
    ChunkAtOffset(items, n, k);
    OffsetIsProduct(k, n);
    OffsetIsProduct(k + 1, n);
    assert ChunkList(items, size) == ChunkList(items, n);
  }

  /** `k * n`, counted up one chunk at a time. */
  function Offset(k: nat, n: nat): nat
  {
    if k == 0 then 0 else Offset(k - 1, n) + n
  }

  lemma {:induction false} OffsetIsProduct(k: nat, n: nat)
    ensures Offset(k, n) == k * n
  {
    if k > 0 {
      OffsetIsProduct(k - 1, n);
      MulSucc(k - 1, n);
    }
  }

  lemma {:induction false} ChunkAtOffset<T>(items: seq<T>, n: nat, k: nat)
    requires n >= 1 && k < |ChunkList(items, n)|
    ensures Offset(k, n) < |items|
    ensures ChunkList(items, n)[k] == items[Offset(k, n) .. Min(Offset(k, n) + n, |items|)]
    decreases k
  {
    assert ChunkSize(n) == n;
    if k == 0 {
      if |items| <= n {
        assert items[0..|items|] == items;
      } else {
        assert ChunkList(items, n)[0] == items[..n];
      }
    } else {
      assert |items| > n;
      var rest := items[n..];
      assert ChunkList(items, n) == [items[..n]] + ChunkList(rest, n);
      ChunkAtOffset(rest, n, k - 1);
      var lo := Offset(k - 1, n);
      assert Offset(k, n) == lo + n;
      assert Min(lo + n + n, |items|) == Min(lo + n, |rest|) + n;
      SliceOfDrop(items, n, lo, Min(lo + n, |rest|));
    }
  }

  lemma SliceOfDrop<T>(items: seq<T>, n: nat, lo: nat, hi: nat)
    requires n <= |items| && lo <= hi <= |items| - n
    ensures items[n..][lo..hi] == items[lo + n..hi + n]
  {
  }

  lemma MulSucc(k: nat, n: nat)
    ensures k * n + n == (k + 1) * n
  {
  }

  /** There are `ceil(|items| / n)` chunks: just enough to hold every item. */
  lemma {:induction false} ChunkCount<T>(items: seq<T>, size: int)
    ensures var c := |ChunkList(items, size)|;
      (c - 1) * ChunkSize(size) < |items| <= c * ChunkSize(size)
    decreases |items|
  {
    var n := ChunkSize(size);
    if |items| > n {
      ChunkCount(items[n..], n);
      assert ChunkSize(n) == n;
      var c' := |ChunkList(items[n..], n)|;
      assert |ChunkList(items, size)| == c' + 1;
      MulSucc(c', n);
      MulSucc(c' - 1, n);
    }
  }
}
