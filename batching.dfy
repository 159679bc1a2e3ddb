/** `itertools.batched`: consecutive chunks of a sequence. */
module Batching {

  /** The chunks laid end to end. */
  function Flatten<T>(chunks: seq<seq<T>>): seq<T>
  {
    if chunks == [] then [] else chunks[0] + Flatten(chunks[1..])
  }

  lemma {:induction false} FlattenAppend<T>(a: seq<seq<T>>, b: seq<seq<T>>)
    ensures Flatten(a + b) == Flatten(a) + Flatten(b)
  {
    if a == [] {
      assert a + b == b;
    } else {
      assert (a + b)[0] == a[0];
      assert (a + b)[1..] == a[1..] + b;
      FlattenAppend(a[1..], b);
    }
  }

  lemma {:induction false} FlattenSingle<T>(s: seq<T>)
    ensures Flatten([s]) == s
  {
    assert Flatten([s]) == s + Flatten([]);
  }

  /** Flattening after appending one more chunk appends that chunk. */
  lemma {:induction false} FlattenSnoc<T>(chunks: seq<seq<T>>, s: seq<T>)
    ensures Flatten(chunks + [s]) == Flatten(chunks) + s
  {
    FlattenAppend(chunks, [s]);
    FlattenSingle(s);
  }

  /** Number of chunks of at most `n` items needed for `len` items. */
  function ChunkCount(len: nat, n: nat): nat
    requires n >= 1
    decreases len
  {
    if len == 0 then 0 else if len <= n then 1 else 1 + ChunkCount(len - n, n)
  }

  /** ChunkCount is ceil(len / n): the least count whose chunks of `n` hold `len` items. */
  lemma {:induction false} ChunkCountIsCeiling(len: nat, n: nat)
    requires n >= 1
    ensures var c := ChunkCount(len, n);
            len <= c * n && (c == 0 || (c - 1) * n < len)
    decreases len
  {
    if len > n {
      var c' := ChunkCount(len - n, n);
      ChunkCountIsCeiling(len - n, n);
      assert (c' + 1) * n == c' * n + n;
      assert c' >= 1;
      assert (c' - 1) * n + n == c' * n;
    }
  }

  /** `itertools.batched(s, n)`: chunks that are never empty, hold at most `n` items,
      all but the last exactly `n`, and together give back `s` in order. */
  function Batched<T>(s: seq<T>, n: nat): (chunks: seq<seq<T>>)
    requires n >= 1
    ensures Flatten(chunks) == s
    ensures forall i :: 0 <= i < |chunks| ==> 1 <= |chunks[i]| <= n
    ensures forall i :: 0 <= i < |chunks| - 1 ==> |chunks[i]| == n
    ensures |chunks| == ChunkCount(|s|, n)
    decreases |s|
  {
    if |s| <= n then
      if s == [] then [] else [s]
    else
      var rest := Batched(s[n..], n);
      var chunks := [s[..n]] + rest;
      assert chunks[1..] == rest;
      chunks
  }
}
