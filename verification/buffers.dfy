/** Filling a buffer from its end: each piece is written in front of what is there, and nothing before
    it or behind the end is touched. */
module Buffers {
  import opened Varint
  import opened Printer

  /** Outside `i` up to `end` the buffer is as before. */
  ghost predicate Untouched(before: seq<Byte>, after: seq<Byte>, i: nat, end: nat) {
    |after| == |before| && i <= end <= |after|
    && forall k :: 0 <= k < |before| && (k < i || end <= k) ==> after[k] == before[k]
  }

  lemma UntouchedChain(a: seq<Byte>, b: seq<Byte>, c: seq<Byte>, i: nat, j: nat, end: nat)
    requires Untouched(a, b, j, end) && Untouched(b, c, i, end) && i <= j
    ensures Untouched(a, c, i, end)
  {}

  /** The buffer holds `bytes` right before `end`, from `i` on. */
  predicate Holds(buf: seq<Byte>, i: nat, end: nat, bytes: seq<Byte>) {
    i <= end <= |buf| && buf[i..end] == bytes
  }

  /** A piece written in front. */
  lemma HoldsMore(before: seq<Byte>, after: seq<Byte>, i: nat, j: nat, end: nat, piece: seq<Byte>, done: seq<Byte>)
    requires Holds(before, j, end, done) && Holds(after, i, j, piece) && Untouched(before, after, i, j)
    ensures Holds(after, i, end, piece + done) && Untouched(before, after, i, end)
  {
    forall k | j <= k < end ensures after[k] == before[k] {}
    assert after[j..end] == before[j..end];
    assert after[i..end] == after[i..j] + after[j..end];
  }

  lemma ShortTag(num: nat, delimited: bool)
    requires num <= 15
    ensures Encode(num * 8 + if delimited then 2 else 0) == [num * 8 + if delimited then 2 else 0]
  {}

  /** `copy(dAtA[i:], s)` after moving the index back. */
  method PutRaw(a: array<Byte>, i: nat, bytes: seq<Byte>) returns (j: nat)
    requires i <= a.Length && |bytes| <= i
    modifies a
    ensures j == i - |bytes| && Holds(a[..], j, i, bytes) && Untouched(old(a[..]), a[..], j, i)
  {
    j := i - |bytes|;
    for k := 0 to |bytes|
      invariant a[j..j + k] == bytes[..k] && Untouched(old(a[..]), a[..], j, i)
    {
      a[j + k] := bytes[k];
    }
    assert bytes[..|bytes|] == bytes;
  }

  method PutVarint(a: array<Byte>, i: nat, v: nat) returns (j: nat)
    requires i <= a.Length && |Encode(v)| <= i
    modifies a
    ensures j == i - |Encode(v)| && Holds(a[..], j, i, Encode(v)) && Untouched(old(a[..]), a[..], j, i)
  {
    SovCountsGroups(v);
    ghost var before := a[..];
    j := EncodeInto(a, i, v);
    forall k | 0 <= k < |before| && (k < j || i <= k) ensures a[k] == before[k] {
      if k < j {
        assert a[k] == a[..j][k] && before[k] == before[..j][k];
      } else {
        assert a[k] == a[i..][k - i] && before[k] == before[i..][k - i];
      }
    }
  }

  /** The length and the tag byte, in front of a value's bytes that are already there. */
  method PutHeader(a: array<Byte>, num: nat, i: nat, end: nat, ghost bytes: seq<Byte>) returns (j: nat)
    requires 1 <= num <= 15 && Holds(a[..], i, end, bytes)
    requires |WireOf(BytesValue(num, bytes))| <= end
    modifies a
    ensures j == end - |WireOf(BytesValue(num, bytes))|
    ensures Holds(a[..], j, end, WireOf(BytesValue(num, bytes))) && Untouched(old(a[..]), a[..], j, end)
  {
    hide Encode;
    ghost var length, tag := Encode(|bytes|), num * 8 + 2;
    ShortTag(num, true);
    ghost var b0 := a[..];
    j := PutVarint(a, i, end - i);
    ghost var b1 := a[..];
    HoldsMore(b0, b1, j, i, end, length, bytes);
    ghost var at := j;
    j := PutRaw(a, j, [num * 8 + 2]);
    HoldsMore(b1, a[..], j, at, end, [tag], length + bytes);
    UntouchedChain(b0, b1, a[..], j, at, end);
    assert [tag] + (length + bytes) == WireOf(BytesValue(num, bytes));
  }

  /** A string field. */
  method PutBytes(a: array<Byte>, num: nat, i: nat, bytes: seq<Byte>) returns (j: nat)
    requires 1 <= num <= 15 && i <= a.Length && |WireOf(BytesValue(num, bytes))| <= i
    modifies a
    ensures j == i - |WireOf(BytesValue(num, bytes))|
    ensures Holds(a[..], j, i, WireOf(BytesValue(num, bytes))) && Untouched(old(a[..]), a[..], j, i)
  {
    ghost var b0 := a[..];
    j := PutRaw(a, i, bytes);
    ghost var b1, at := a[..], j;
    j := PutHeader(a, num, j, i, bytes);
    UntouchedChain(b0, b1, a[..], j, at, i);
  }

  /** A number field. */
  method PutNumber(a: array<Byte>, num: nat, i: nat, v: nat) returns (j: nat)
    requires 1 <= num <= 15 && i <= a.Length && |WireOf(NumberValue(num, v))| <= i
    modifies a
    ensures j == i - |WireOf(NumberValue(num, v))|
    ensures Holds(a[..], j, i, WireOf(NumberValue(num, v))) && Untouched(old(a[..]), a[..], j, i)
  {
    hide Encode;
    ShortTag(num, false);
    ghost var b0 := a[..];
    j := PutVarint(a, i, v);
    ghost var b1, at := a[..], j;
    j := PutRaw(a, j, [num * 8]);
    HoldsMore(b1, a[..], j, at, i, [num * 8], Encode(v));
    UntouchedChain(b0, b1, a[..], j, at, i);
  }
}
