/**
 * The slicing behind every stage loop of the form
 * `for i in range(0, len(items), batch_size): batch = items[i : i + batch_size]`.
 */
module Batching {

  function Min(a: int, b: int): int {
    if a <= b then a else b
  }

  /** The positions 0, 1, ..., n - 1. */
  function Range(n: nat): (r: seq<nat>)
    ensures |r| == n
    ensures forall k :: 0 <= k < n ==> r[k] == k
  {
    if n == 0 then [] else Range(n - 1) + [n - 1]
  }

  /** The slices `s[i : i + size]`, `s[i + size : i + 2 * size]`, ... that the loop visits from start `i` on. */
  function BatchesFrom<T>(s: seq<T>, i: nat, size: nat): seq<seq<T>>
    requires size > 0
    decreases |s| - i
  {
    if i >= |s| then [] else [s[i..Min(i + size, |s|)]] + BatchesFrom(s, i + size, size)
  }

  /** The batches of the whole of `s`. */
  function Batches<T>(s: seq<T>, size: nat): seq<seq<T>>
    requires size > 0
  {
    BatchesFrom(s, 0, size)
  }

  /** `ss[0] + ss[1] + ...`. */
  function Flatten<T>(ss: seq<seq<T>>): seq<T>
  {
    if |ss| == 0 then [] else ss[0] + Flatten(ss[1..])
  }

  /** Together the batches cover the rest of `s` exactly once, in order. */
  lemma {:induction false} BatchesCover<T>(s: seq<T>, i: nat, size: nat)
    requires size > 0 && i <= |s|
    ensures Flatten(BatchesFrom(s, i, size)) == s[i..]
    decreases |s| - i
  {
    if i < |s| {
      var bs := BatchesFrom(s, i, size);
      var next := Min(i + size, |s|);
      if i + size <= |s| {
        BatchesCover(s, i + size, size);
      } else {
        assert BatchesFrom(s, i + size, size) == [];
      }
      assert bs[1..] == BatchesFrom(s, i + size, size);
      assert Flatten(bs[1..]) == s[next..];
      assert s[i..] == s[i..next] + s[next..];
    }
  }

  /**
   * The j-th batch is the slice starting at `i + j * size`, it holds between
   * one and `size` items, and the next batch starts where it ends: the
   * batches are consecutive and do not overlap.
   */
  lemma {:induction false} BatchesShape<T>(s: seq<T>, i: nat, size: nat, j: nat)
    requires size > 0 && i <= |s|
    requires j < |BatchesFrom(s, i, size)|
    ensures i + j * size < |s|
    ensures BatchesFrom(s, i, size)[j] == s[i + j * size..Min(i + j * size + size, |s|)]
    ensures 0 < |BatchesFrom(s, i, size)[j]| <= size
    decreases |s| - i
  {
    if j > 0 {
      assert |BatchesFrom(s, i + size, size)| > 0;
      BatchesShape(s, i + size, size, j - 1);
      assert i + size + (j - 1) * size == i + j * size;
    }
  }

  /**
   * There are ceil((|s| - i) / size) batches: none when nothing is left, and
   * otherwise just enough for `size` items each to hold what is left.
   */
  lemma {:induction false} BatchesCount<T>(s: seq<T>, i: nat, size: nat)
    requires size > 0 && i <= |s|
    ensures var k := |BatchesFrom(s, i, size)|;
      (i == |s| ==> k == 0) && (i < |s| ==> (k - 1) * size < |s| - i <= k * size)
    decreases |s| - i
  {
    if i < |s| {
      if i + size >= |s| {
        assert BatchesFrom(s, i + size, size) == [];
      } else {
        BatchesCount(s, i + size, size);
        var k := |BatchesFrom(s, i + size, size)|;
        assert (k + 1 - 1) * size == k * size;
        assert (k + 1) * size == k * size + size;
      }
    }
  }

  /**
   * For the loops that walk positions: the j-th batch of `Range(n)` holds the
   * positions `j * size + idx`, so the index `i + idx` a stage reports for
   * the idx-th item of the batch starting at i is that item's position, and
   * together the batches visit every position once, in increasing order.
   */
  lemma {:induction false} PositionBatches(n: nat, size: nat, j: nat, idx: nat)
    requires size > 0
    requires j < |Batches(Range(n), size)| && idx < |Batches(Range(n), size)[j]|
    ensures j * size + idx < n
    ensures Batches(Range(n), size)[j][idx] == j * size + idx
    ensures Flatten(Batches(Range(n), size)) == Range(n)
  {
    BatchesShape(Range(n), 0, size, j);
    BatchesCover(Range(n), 0, size);
    assert Range(n)[0..] == Range(n);
  }

  /**
   * One step of a stage loop: when the batches so far and the batches still
   * ahead of `i` make up all batches, taking the slice at `i` keeps that so
   * for `i + size`.
   */
  lemma NextBatch<T>(s: seq<T>, done: seq<seq<T>>, i: nat, size: nat)
    requires size > 0 && i < |s|
    requires done + BatchesFrom(s, i, size) == Batches(s, size)
    ensures (done + [s[i..Min(i + size, |s|)]]) + BatchesFrom(s, i + size, size) == Batches(s, size)
  {
    assert BatchesFrom(s, i, size) == [s[i..Min(i + size, |s|)]] + BatchesFrom(s, i + size, size);
  }
}
