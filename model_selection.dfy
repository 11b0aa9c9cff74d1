/** Splitting a list into order-preserving batches of a given size. */
module ModelSelection {
  import opened Linq

  /** The batches `SplitIntoBatches` produces: consecutive slices of n, the last one possibly shorter. */
  function Chunks<T>(s: seq<T>, n: nat): seq<seq<T>>
    requires n > 0
    decreases |s|
  {
    if s == [] then [] else if |s| <= n then [s] else [s[..n]] + Chunks(s[n..], n)
  }

  /** The batches of `objects`, for any batch size the splitting loop finishes with. */
  function Batches<T>(objects: seq<T>, batchSize: int): seq<seq<T>>
    requires batchSize > 0 || objects == []
  {
    if batchSize > 0 then Chunks(objects, batchSize) else []
  }

  /**
   * The loop `for (i = 0; i < Count; i += batchSize) batches.Add(objects.Skip(i).Take(batchSize))`.
   * It stops only when batchSize > 0 or the list is empty: otherwise i never reaches Count.
   */
  method SplitIntoBatches<T>(objects: seq<T>, batchSize: int) returns (batches: seq<seq<T>>)
    requires batchSize > 0 || objects == []
    ensures objects == [] ==> batches == []
    ensures batchSize > 0 ==> batches == Chunks(objects, batchSize)
    ensures batches == Batches(objects, batchSize)
  {
    batches := [];
    var i := 0;
    while i < |objects|
      invariant 0 <= i
      invariant i < |objects| ==> batches + Chunks(objects[i..], batchSize) == Chunks(objects, batchSize)
      invariant i >= |objects| ==> batches == Batches(objects, batchSize)
      decreases |objects| - i
    {
      var batch := Take(Skip(objects, i), batchSize);
      ChunksFront(objects[i..], batchSize);
      var rest := Skip(objects[i..], batchSize);
      assert batches + [batch] + Chunks(rest, batchSize) == Chunks(objects, batchSize);
      if i + batchSize < |objects| {
        assert rest == objects[i + batchSize..];
      }
      batches := batches + [batch];
      i := i + batchSize;
    }
  }

  /** A non-empty list splits into its first batch followed by the batches of the rest. */
  lemma ChunksFront<T>(s: seq<T>, n: nat)
    requires n > 0 && s != []
    ensures Chunks(s, n) == [Take(s, n)] + Chunks(Skip(s, n), n)
  {
  }

  /** Concatenating the batches in order gives back the input exactly. */
  lemma {:induction false} ChunksFlatten<T>(s: seq<T>, n: nat)
    requires n > 0
    ensures Flatten(Chunks(s, n)) == s
    decreases |s|
  {
    if s != [] && |s| > n {
      var head, rest := s[..n], Chunks(s[n..], n);
      calc {
        Flatten(Chunks(s, n));
        Flatten([head] + rest);
        { FlattenAppend([head], rest); }
        Flatten([head]) + Flatten(rest);
        { assert [head][..0] == []; }
        head + Flatten(rest);
        { ChunksFlatten(s[n..], n); }
        head + s[n..];
      }
      assert head + s[n..] == s;
    } else if s != [] {
      assert Flatten([s]) == s by { assert [s][..0] == []; }
    }
  }

  lemma DivStep(x: nat, n: nat)
    requires n > 0
    ensures (x + n) / n == x / n + 1
  {
    var q, r := x / n, x % n;
    assert x == q * n + r;
    assert x + n == (q + 1) * n + r;
    var q', r' := (x + n) / n, (x + n) % n;
    assert x + n == q' * n + r';
    if q' <= q {
      MulMono(q', q, n);
      assert false;
    } else if q' >= q + 2 {
      MulMono(q + 2, q', n);
      assert false;
    }
  }

  lemma MulMono(a: int, b: int, n: nat)
    requires a <= b
    ensures a * n <= b * n
  {
  }

  /** There are exactly ceil(L / n) batches; in particular an empty list gives no batch at all. */
  lemma {:induction false} ChunksCount<T>(s: seq<T>, n: nat)
    requires n > 0
    ensures |Chunks(s, n)| == (|s| + n - 1) / n
    ensures s == [] <==> Chunks(s, n) == []
    decreases |s|
  {
    if s != [] && |s| > n {
      ChunksCount(s[n..], n);
      DivStep(|s| - n + n - 1, n);
    }
  }

  /** Every batch holds between 1 and n objects, and every batch but the last holds exactly n. */
  lemma {:induction false} ChunksSizes<T>(s: seq<T>, n: nat)
    requires n > 0
    ensures forall k :: 0 <= k < |Chunks(s, n)| ==> 1 <= |Chunks(s, n)[k]| <= n
    ensures forall k :: 0 <= k < |Chunks(s, n)| - 1 ==> |Chunks(s, n)[k]| == n
    decreases |s|
  {
    if s != [] && |s| > n {
      ChunksSizes(s[n..], n);
      var c := Chunks(s, n);
      assert c == [s[..n]] + Chunks(s[n..], n);
      forall k | 1 <= k < |c| ensures c[k] == Chunks(s[n..], n)[k - 1] { }
    }
  }
}
