/** The Go library functions on slices that the client uses: `slices.Chunk` and the sorts. */
module Slices {
  /** `slices.Chunk`: consecutive pieces of length `n`, the last one possibly shorter. It panics for n < 1. */
  function Chunk<T>(s: seq<T>, n: nat): (cs: seq<seq<T>>)
    requires n >= 1
    ensures Flatten(cs) == s
    ensures forall i :: 0 <= i < |cs| ==> 1 <= |cs[i]| <= n
  {
    if s == [] then []
    else if |s| <= n then FlattenOne(s); [s]
    else
      assert s == s[..n] + s[n..];
      FlattenCons(s[..n], Chunk(s[n..], n));
      [s[..n]] + Chunk(s[n..], n)
  }

  function Flatten<T>(ss: seq<seq<T>>): seq<T> {
    if ss == [] then [] else ss[0] + Flatten(ss[1..])
  }

  lemma FlattenOne<T>(s: seq<T>)
    ensures Flatten([s]) == s
  {}

  lemma FlattenCons<T>(s: seq<T>, ss: seq<seq<T>>)
    ensures Flatten([s] + ss) == s + Flatten(ss)
  {
    assert ([s] + ss)[1..] == ss;
  }

  lemma {:induction false} FlattenConcat<T>(xs: seq<seq<T>>, ys: seq<seq<T>>)
    ensures Flatten(xs + ys) == Flatten(xs) + Flatten(ys)
  {
    if xs == [] {
      assert xs + ys == ys;
    } else {
      assert xs + ys == [xs[0]] + (xs[1..] + ys);
      FlattenCons(xs[0], xs[1..] + ys);
      FlattenConcat(xs[1..], ys);
    }
  }

  /** The next piece, and the rest. */
  lemma ChunkNext<T>(s: seq<T>, n: nat, lo: nat, hi: nat)
    requires n >= 1 && lo < |s| && hi == if lo + n < |s| then lo + n else |s|
    ensures Chunk(s[lo..], n) == [s[lo..hi]] + Chunk(s[hi..], n)
  {
    assert s[lo..][..hi - lo] == s[lo..hi] && s[lo..][hi - lo..] == s[hi..];
    if |s| - lo <= n {
      assert s[lo..hi] == s[lo..] && s[hi..] == [];
    }
  }

  /** How many pieces there are: the length over `n`, rounded up. */
  lemma {:induction false} ChunkCount<T>(s: seq<T>, n: nat)
    requires n >= 1
    ensures |Chunk(s, n)| * n >= |s|
    ensures s != [] ==> (|Chunk(s, n)| - 1) * n < |s|
  {
    if |s| > n {
      ChunkCount(s[n..], n);
      var k := |Chunk(s[n..], n)|;
      assert |Chunk(s, n)| == 1 + k;
      OneMore(k, n);
    }
  }

  /** Where the first `k` pieces end: after `k` times `n` elements, or at the end. */
  function ChunkEnd(length: nat, n: nat, k: nat): nat {
    if k * n < length then k * n else length
  }

  /** Piece `k` is the elements from `lo` up to `hi`, the pieces before it are those before, and so on. */
  ghost predicate PieceAt<T>(s: seq<T>, cs: seq<seq<T>>, k: nat, lo: nat, hi: nat) {
    && k < |cs| && lo <= hi <= |s| && cs[k] == s[lo..hi]
    && Flatten(cs[..k]) == s[..lo] && Flatten(cs[k + 1..]) == s[hi..]
  }

  lemma PieceShifts<T>(s: seq<T>, n: nat, cs: seq<seq<T>>, k: nat, lo: nat, hi: nat)
    requires n <= |s| && PieceAt(s[n..], cs, k, lo, hi)
    ensures PieceAt(s, [s[..n]] + cs, k + 1, n + lo, n + hi)
  {
    var all := [s[..n]] + cs;
    assert all[..k + 1] == [s[..n]] + cs[..k] && all[k + 2..] == cs[k + 1..];
    FlattenCons(s[..n], cs[..k]);
    assert s[n..][lo..hi] == s[n + lo..n + hi];
    assert s[..n] + s[n..][..lo] == s[..n + lo];
    assert s[n..][hi..] == s[n + hi..];
  }

  lemma FirstPiece<T>(s: seq<T>, n: nat)
    requires n >= 1 && s != []
    ensures PieceAt(s, Chunk(s, n), 0, 0, if n < |s| then n else |s|)
  {
    var cs := Chunk(s, n);
    assert cs[..0] == [] && s[..0] == [];
    if n < |s| {
      assert cs[1..] == Chunk(s[n..], n);
    } else {
      assert cs == [s] && cs[1..] == [] && s[..|s|] == s && s[|s|..] == [];
    }
  }

  /** Every piece but the last holds `n` elements: piece `k` those from `k` times `n` on. */
  lemma {:induction false} ChunkAt<T>(s: seq<T>, n: nat, k: nat)
    requires n >= 1 && k < |Chunk(s, n)|
    ensures k * n < |s| && PieceAt(s, Chunk(s, n), k, k * n, ChunkEnd(|s|, n, k + 1))
    decreases k
  {
    hide PieceAt;
    OneMore(k, n);
    if k == 0 {
      FirstPiece(s, n);
    } else {
      assert Chunk(s, n) == [s[..n]] + Chunk(s[n..], n);
      OneMore(k - 1, n);
      ChunkAt(s[n..], n, k - 1);
      PieceShifts(s, n, Chunk(s[n..], n), k - 1, (k - 1) * n, ChunkEnd(|s| - n, n, k));
    }
  }

  /** And all pieces together are the whole. */
  lemma ChunkEnds<T>(s: seq<T>, n: nat)
    requires n >= 1
    ensures ChunkEnd(|s|, n, |Chunk(s, n)|) == |s|
  {
    ChunkCount(s, n);
  }

  lemma OneMore(k: int, n: nat)
    ensures (k + 1) * n == n + k * n && k * n == n + (k - 1) * n
  {}

  // ---------------------------------------------------------------- sorting

  ghost predicate StrictWeakOrder<T(!new)>(less: (T, T) -> bool) {
    && (forall a, b :: less(a, b) ==> !less(b, a))
    && (forall a, b, c :: !less(a, b) && !less(b, c) ==> !less(a, c))
  }

  ghost predicate SortedBy<T>(s: seq<T>, less: (T, T) -> bool) {
    forall i, j :: 0 <= i < j < |s| ==> !less(s[j], s[i])
  }

  function Insert<T>(x: T, s: seq<T>, less: (T, T) -> bool): seq<T> {
    if s == [] || less(x, s[0]) then [x] + s else [s[0]] + Insert(x, s[1..], less)
  }

  /** A sort. The client's own sorts are unstable; nothing below depends on the order of equals. */
  function SortBy<T>(s: seq<T>, less: (T, T) -> bool): seq<T> {
    if s == [] then [] else Insert(s[0], SortBy(s[1..], less), less)
  }

  lemma {:induction false} InsertSorted<T(!new)>(x: T, s: seq<T>, less: (T, T) -> bool)
    requires StrictWeakOrder(less) && SortedBy(s, less)
    ensures SortedBy(Insert(x, s, less), less)
    ensures multiset(Insert(x, s, less)) == multiset{x} + multiset(s)
  {
    var r := Insert(x, s, less);
    if s == [] {
    } else if less(x, s[0]) {
      forall i, j | 0 <= i < j < |r| ensures !less(r[j], r[i]) {
        if i == 0 {
          assert !less(s[0], x) && (j > 1 ==> !less(s[j - 1], s[0]));
        }
      }
    } else {
      var tail := Insert(x, s[1..], less);
      InsertSorted(x, s[1..], less);
      assert s == [s[0]] + s[1..];
      forall i, j | 0 <= i < j < |r| ensures !less(r[j], r[i]) {
        if i == 0 {
          assert r[j] == tail[j - 1] && r[j] in multiset(tail);
          assert r[j] == x || r[j] in multiset(s[1..]);
        } else {
          assert r[i] == tail[i - 1] && r[j] == tail[j - 1];
        }
      }
    }
  }

  /** Sorting permutes and orders. */
  lemma {:induction false} SortBySorts<T(!new)>(s: seq<T>, less: (T, T) -> bool)
    requires StrictWeakOrder(less)
    ensures SortedBy(SortBy(s, less), less) && multiset(SortBy(s, less)) == multiset(s)
  {
    if s != [] {
      SortBySorts(s[1..], less);
      InsertSorted(s[0], SortBy(s[1..], less), less);
      assert s == [s[0]] + s[1..];
    }
  }
}
