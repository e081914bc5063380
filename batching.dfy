/**
 * The slicing loop `for i in range(0, len(objs), size): objs[i:i + size]` shared by the
 * managers, as a function on sequences with the facts the writes rely on.
 */
module Batching {

  /** The slices `objs[i:i + size]` for `i` in `range(0, len(objs), size)`, in order. */
  function Chunks<T>(xs: seq<T>, size: nat): (r: seq<seq<T>>)
    requires size > 0
    decreases |xs|
  {
    if xs == [] then []
    else if |xs| <= size then [xs]
    else [xs[..size]] + Chunks(xs[size..], size)
  }

  function Concat<T>(xss: seq<seq<T>>): (r: seq<T>) {
    if xss == [] then [] else xss[0] + Concat(xss[1..])
  }

  /** The chunks cover the input exactly once, in order. */
  lemma {:induction false} ChunksConcat<T>(xs: seq<T>, size: nat)
    requires size > 0
    ensures Concat(Chunks(xs, size)) == xs
    decreases |xs|
  {
    if xs != [] && |xs| > size {
      ChunksConcat(xs[size..], size);
      assert Chunks(xs, size)[1..] == Chunks(xs[size..], size);
      assert xs[..size] + xs[size..] == xs;
    } else if xs != [] {
      assert Chunks(xs, size)[1..] == [];
      assert xs + [] == xs;
    }
  }

  /** Every chunk is non-empty and holds at most `size` elements. */
  lemma {:induction false} ChunksSizes<T>(xs: seq<T>, size: nat)
    requires size > 0
    ensures forall k :: 0 <= k < |Chunks(xs, size)| ==> 0 < |Chunks(xs, size)[k]| <= size
    decreases |xs|
  {
    if xs != [] && |xs| > size {
      ChunksSizes(xs[size..], size);
      var c := Chunks(xs, size);
      forall k | 0 < k < |c|
        ensures 0 < |c[k]| <= size
      {
        assert c[k] == Chunks(xs[size..], size)[k - 1];
      }
    }
  }

  /** Chunk `k` is exactly the slice `objs[k * size : (k + 1) * size]`, cut at the end. */
  lemma {:induction false} ChunkAt<T>(xs: seq<T>, size: nat, k: nat)
    requires size > 0 && k < |Chunks(xs, size)|
    ensures k * size < |xs|
    ensures Chunks(xs, size)[k] == xs[k * size .. Min((k + 1) * size, |xs|)]
    decreases |xs|
  {
    if k > 0 {
      assert |xs| > size;
      ChunkAt(xs[size..], size, k - 1);
      assert (k - 1) * size + size == k * size;
      assert xs[size..][(k - 1) * size .. Min(k * size, |xs| - size)] == xs[k * size .. Min((k + 1) * size, |xs|)];
    }
  }

  function Min(a: int, b: int): (r: int) {
    if a <= b then a else b
  }

  /** One turn of the slicing loop: the chunk at offset `i` and the chunks after it. */
  lemma ChunksStep<T>(xs: seq<T>, size: nat, i: nat)
    requires size > 0 && i < |xs|
    ensures Chunks(xs[i..], size) == [xs[i..Min(i + size, |xs|)]] + Chunks(xs[Min(i + size, |xs|)..], size)
  {
    if i + size < |xs| {
      assert xs[i..][..size] == xs[i..i + size];
      assert xs[i..][size..] == xs[i + size..];
    } else {
      assert xs[|xs|..] == [] && xs[i..] != [] && |xs[i..]| <= size;
      assert Chunks(xs[i..], size) == [xs[i..]];
      assert Min(i + size, |xs|) == |xs| && xs[i..|xs|] == xs[i..];
      assert Chunks<T>([], size) == [];
    }
  }

  lemma ConcatAppend<T>(xss: seq<seq<T>>, ys: seq<T>)
    ensures Concat(xss + [ys]) == Concat(xss) + ys
  {
    if xss != [] {
      assert (xss + [ys])[1..] == xss[1..] + [ys];
      ConcatAppend(xss[1..], ys);
    }
  }

  /** Pieces of one length `n` concatenate to `n` items per piece. */
  lemma {:induction false} ConcatUniformLength<T>(xss: seq<seq<T>>, n: nat)
    requires forall i :: 0 <= i < |xss| ==> |xss[i]| == n
    ensures |Concat(xss)| == |xss| * n
  {
    if xss != [] {
      ConcatUniformLength(xss[1..], n);
      assert |xss| * n == n + (|xss| - 1) * n;
    }
  }
}
