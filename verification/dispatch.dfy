/** From a list of valid orders to transactions: the tracker cuts the list into batches for the
    fulfillers, each fulfiller cuts its batch into transactions. */
module Dispatch {
  import opened Slices

  /** The tracker's chunk size. */
  function BatchSize(maxOrdersPerTx: nat, n: nat, numFulfillers: nat): nat
    requires numFulfillers >= 1
  {
    if maxOrdersPerTx > n / numFulfillers then maxOrdersPerTx else n / numFulfillers
  }

  function Batches<T>(orders: seq<T>, maxOrdersPerTx: nat, numFulfillers: nat): seq<seq<T>>
    requires maxOrdersPerTx >= 1 && numFulfillers >= 1
  {
    Chunk(orders, BatchSize(maxOrdersPerTx, |orders|, numFulfillers))
  }

  /** The batches together are the orders, in order, and all but the last are as long as the larger of the
      transaction limit and a fulfiller's share. */
  lemma BatchesAreFull<T>(orders: seq<T>, maxOrdersPerTx: nat, numFulfillers: nat)
    requires maxOrdersPerTx >= 1 && numFulfillers >= 1
    ensures var (out, share) := (Batches(orders, maxOrdersPerTx, numFulfillers), |orders| / numFulfillers);
            && Flatten(out) == orders
            && forall i :: 0 <= i < |out| - 1 ==>
                 |out[i]| == if maxOrdersPerTx > share then maxOrdersPerTx else share
  {
    var out := Batches(orders, maxOrdersPerTx, numFulfillers);
    var n := BatchSize(maxOrdersPerTx, |orders|, numFulfillers);
    forall i | 0 <= i < |out| - 1 ensures |out[i]| == n {
      ChunkAt(orders, n, i);
      ChunkAt(orders, n, i + 1);
      OneMore(i, n);
    }
  }

  /** The transactions every batch is cut into, in order. */
  function Planned<T>(batches: seq<seq<T>>, maxOrdersPerTx: nat): seq<seq<T>>
    requires maxOrdersPerTx >= 1
  {
    if batches == [] then [] else Chunk(batches[0], maxOrdersPerTx) + Planned(batches[1..], maxOrdersPerTx)
  }

  lemma {:induction false} PlannedIsComplete<T>(batches: seq<seq<T>>, maxOrdersPerTx: nat)
    requires maxOrdersPerTx >= 1
    ensures Flatten(Planned(batches, maxOrdersPerTx)) == Flatten(batches)
    ensures forall i :: 0 <= i < |Planned(batches, maxOrdersPerTx)| ==>
              1 <= |Planned(batches, maxOrdersPerTx)[i]| <= maxOrdersPerTx
  {
    if batches != [] {
      PlannedIsComplete(batches[1..], maxOrdersPerTx);
      FlattenConcat(Chunk(batches[0], maxOrdersPerTx), Planned(batches[1..], maxOrdersPerTx));
    }
  }

  /** With `q` at least the rounded-down share of each of `f` fulfillers, fewer than 2f pieces. */
  lemma FewPieces(n: nat, f: nat, q: nat, pieces: nat)
    requires f >= 1 && q >= 1 && q >= n / f
    requires n > 0 ==> (pieces - 1) * q < n
    requires n == 0 ==> pieces == 0
    ensures pieces <= 2 * f - 1
  {
    var share, rest := n / f, n % f;
    assert n == share * f + rest;
    if n > 0 {
      if share > 0 {
        MulMonotone(1, share, f - 1);
        assert share * f + (f - 1) * share == share * (2 * f - 1);
        MulMonotone(share, q, 2 * f - 1);
      } else {
        MulMonotone(1, q, 2 * f - 1);
      }
      assert n <= (2 * f - 1) * q;
      MulCancel(pieces - 1, 2 * f - 1, q);
    }
  }

  lemma MulCancel(a: int, b: int, c: nat)
    requires a * c < b * c
    ensures a < b
  {}

  lemma MulMonotone(a: nat, b: nat, c: nat)
    requires a <= b
    ensures a * c <= b * c
    ensures c * a <= c * b
  {}

  /** Every valid order is planned exactly once, in order; no transaction is over the limit; and at
      most 2 * numFulfillers - 1 batches go to the fulfillers. */
  lemma DispatchIsCompleteAndBounded<T>(orders: seq<T>, maxOrdersPerTx: nat, numFulfillers: nat)
    requires maxOrdersPerTx >= 1 && numFulfillers >= 1
    ensures var batches := Batches(orders, maxOrdersPerTx, numFulfillers);
            && |batches| <= 2 * numFulfillers - 1
            && Flatten(Planned(batches, maxOrdersPerTx)) == orders
            && forall i :: 0 <= i < |Planned(batches, maxOrdersPerTx)| ==>
                 1 <= |Planned(batches, maxOrdersPerTx)[i]| <= maxOrdersPerTx
  {
    var q := BatchSize(maxOrdersPerTx, |orders|, numFulfillers);
    var batches := Batches(orders, maxOrdersPerTx, numFulfillers);
    ChunkCount(orders, q);
    FewPieces(|orders|, numFulfillers, q, |batches|);
    PlannedIsComplete(batches, maxOrdersPerTx);
  }

  // ---------------------------------------------------------------- order of dispatch

  predicate NonIncreasing(heights: seq<int>) {
    forall i, j :: 0 <= i < j < |heights| ==> heights[i] >= heights[j]
  }

  /** The elements whose mark is set, in order. */
  function Picked<T>(s: seq<T>, marks: seq<bool>): seq<T>
    requires |s| == |marks|
  {
    if s == [] then []
    else if marks[0] then [s[0]] + Picked(s[1..], marks[1..]) else Picked(s[1..], marks[1..])
  }

  lemma {:induction false} PickedMembers<T>(s: seq<T>, marks: seq<bool>)
    requires |s| == |marks|
    ensures forall x :: x in Picked(s, marks) ==> x in s
  {
    if s != [] {
      PickedMembers(s[1..], marks[1..]);
    }
  }

  /** Picking keeps a list non-increasing, so the orders found valid stay in the order of the check. */
  lemma {:induction false} PickedKeepsOrder(heights: seq<int>, marks: seq<bool>)
    requires |heights| == |marks| && NonIncreasing(heights)
    ensures NonIncreasing(Picked(heights, marks))
  {
    if heights != [] {
      PickedKeepsOrder(heights[1..], marks[1..]);
      PickedMembers(heights[1..], marks[1..]);
      var rest := Picked(heights[1..], marks[1..]);
      forall j | 0 <= j < |rest| ensures heights[0] >= rest[j] {
        assert rest[j] in heights[1..];
      }
    }
  }

  lemma {:induction false} PickedSnoc<T>(s: seq<T>, marks: seq<bool>, x: T, mark: bool)
    requires |s| == |marks|
    ensures Picked(s + [x], marks + [mark]) == Picked(s, marks) + if mark then [x] else []
  {
    if s != [] {
      PickedSnoc(s[1..], marks[1..], x, mark);
      assert (s + [x])[1..] == s[1..] + [x] && (marks + [mark])[1..] == marks[1..] + [mark];
    }
  }
}
