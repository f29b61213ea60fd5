/** Base 128 varints, as in the section of that name of the Protocol Buffers encoding specification. */
module Varint {
  type Byte = b: int | 0 <= b < 256

  const TWO_31: int := 0x8000_0000
  const TWO_32: int := 0x1_0000_0000
  const TWO_63: int := 0x8000_0000_0000_0000
  const TWO_64: int := 0x1_0000_0000_0000_0000

  datatype Error =
    | IntOverflow | UnexpectedEof | InvalidLength | UnexpectedEndOfGroup | IllegalWireType
    | EndGroupTag | IllegalTag | WrongWireType | BadValue

  datatype Result<+T> = Ok(value: T) | Err(error: Error)

  /** `int32(x)`. */
  function Int32(x: int): (r: int)
    ensures -TWO_31 <= r < TWO_31 && (r - x) % TWO_32 == 0
  {
    var y := x % TWO_32;
    if y >= TWO_31 then y - TWO_32 else y
  }

  /** `uint64(x)`: a negative number wraps around. */
  function Uint64(x: int): (r: int)
    ensures 0 <= r < TWO_64 && (r - x) % TWO_64 == 0
  {
    x % TWO_64
  }

  // ---------------------------------------------------------------- writing

  /** The 7-bit groups of a number, low group first, all but the last marked. */
  function Encode(v: nat): (bs: seq<Byte>)
    ensures bs != []
  {
    if v < 128 then [v] else [v % 128 + 128] + Encode(v / 128)
  }

  /** The number the bytes of a varint stand for, the first byte's seven low bits being the lowest. */
  function Groups7(bs: seq<Byte>): nat {
    if bs == [] then 0 else bs[0] % 128 + 128 * Groups7(bs[1..])
  }

  /** Seven bits a byte, low bits first; every byte but the last has its high bit set; and none too many. */
  lemma {:induction false} EncodeMeans(v: nat)
    ensures var bs := Encode(v);
            && Groups7(bs) == v
            && (forall i :: 0 <= i < |bs| ==> (bs[i] >= 128 <==> i < |bs| - 1))
            && (|bs| > 1 ==> bs[|bs| - 1] != 0)
  {
    if v >= 128 {
      EncodeMeans(v / 128);
      var (bs, rest) := (Encode(v), Encode(v / 128));
      assert bs[1..] == rest;
      forall i | 0 <= i < |bs| ensures bs[i] >= 128 <==> i < |bs| - 1 {
        assert i > 0 ==> bs[i] == rest[i - 1];
      }
    }
  }

  /** `Len64`: how many bits a number has. */
  function Len64(x: nat): nat {
    if x == 0 then 0 else 1 + Len64(x / 2)
  }

  /** `sovAuthz` and `sovDemandOrder`; `x|1` sets the lowest bit. */
  function Sov(x: nat): nat {
    (Len64(if x % 2 == 0 then x + 1 else x) + 6) / 7
  }

  lemma SevenBits(x: nat)
    requires x >= 128
    ensures Len64(x) == 7 + Len64(x / 128)
  {
    var (a, b, c) := (x / 2, x / 4, x / 8);
    var (d, e, f) := (x / 16, x / 32, x / 64);
    assert a / 2 == b && b / 2 == c && c / 2 == d && d / 2 == e && e / 2 == f && f / 2 == x / 128;
    assert Len64(x) == 1 + Len64(a) && Len64(a) == 1 + Len64(b) && Len64(b) == 1 + Len64(c);
    assert Len64(c) == 1 + Len64(d) && Len64(d) == 1 + Len64(e) && Len64(e) == 1 + Len64(f);
  }

  /** Setting the lowest bit of a positive number adds no bit. */
  lemma {:induction false} LowBitIsFree(x: nat)
    requires x >= 1
    ensures Len64(if x % 2 == 0 then x + 1 else x) == Len64(x)
  {}

  function Power2(n: nat): nat {
    if n == 0 then 1 else 2 * Power2(n - 1)
  }

  lemma {:induction false} BitsBelow(x: nat, n: nat)
    requires x < Power2(n)
    ensures Len64(x) <= n
  {
    if x > 0 {
      BitsBelow(x / 2, n - 1);
    }
  }

  lemma SevenBitsAtMost(x: nat)
    requires 1 <= x < 128
    ensures 1 <= Len64(x) <= 7
  {
    assert Power2(7) == 128;
    BitsBelow(x, 7);
  }

  /** The size is the number of groups. */
  lemma {:induction false} SovCountsGroups(v: nat)
    ensures |Encode(v)| == Sov(v)
  {
    if v < 128 {
      var odd := if v % 2 == 0 then v + 1 else v;
      SevenBitsAtMost(odd);
      assert Sov(v) == 1;
    } else {
      SovCountsGroups(v / 128);
      LowBitIsFree(v);
      LowBitIsFree(v / 128);
      SevenBits(v);
      assert Sov(v) == (Len64(v) + 6) / 7;
      assert Sov(v / 128) == (Len64(v / 128) + 6) / 7;
      assert |Encode(v)| == 1 + |Encode(v / 128)|;
    }
  }

  lemma {:induction false} GroupsOf64Bits(v: nat, n: nat)
    requires v < 128 * Power128(n)
    ensures |Encode(v)| <= n + 1
  {
    if v >= 128 {
      assert n >= 1 && Power128(n) == 128 * Power128(n - 1);
      GroupsOf64Bits(v / 128, n - 1);
    }
  }

  function Power128(n: nat): nat {
    if n == 0 then 1 else 128 * Power128(n - 1)
  }

  lemma AtMostTenGroups(v: nat)
    requires v < TWO_64
    ensures |Encode(v)| <= 10
  {
    assert Power128(5) == 0x8_0000_0000;
    assert Power128(9) == 128 * 128 * 128 * 128 * Power128(5);
    GroupsOf64Bits(v, 9);
  }

  /** `encodeVarintAuthz` and `encodeVarintDemandOrder`: the number ends just before `offset`, and
      nothing else is written. */
  method EncodeInto(a: array<Byte>, offset: nat, v: nat) returns (base: nat)
    requires offset <= a.Length && Sov(v) <= offset
    modifies a
    ensures base == offset - Sov(v) && a[base..offset] == Encode(v)
    ensures a[..base] == old(a[..base]) && a[offset..] == old(a[offset..])
  {
    hide Encode, Sov;
    SovCountsGroups(v);
    base := offset - Sov(v);
    var at, rest := base, v;
    ghost var done: seq<Byte> := [];
    while rest >= 128
      invariant base <= at && at + |Encode(rest)| == offset
      invariant a[base..at] == done && done + Encode(rest) == Encode(v)
      invariant a[..base] == old(a[..base]) && a[offset..] == old(a[offset..])
      decreases rest
    {
      EncodeStep(done, rest);
      a[at] := rest % 128 + 128;
      done := done + [a[at]];
      rest := rest / 128;
      at := at + 1;
    }
    EncodeStep(done, rest);
    a[at] := rest;
  }

  lemma {:induction false} EncodeStep(done: seq<Byte>, v: nat)
    ensures v < 128 ==> Encode(v) == [v]
    ensures v >= 128 ==> done + [v % 128 + 128] + Encode(v / 128) == done + Encode(v)
                         && |Encode(v)| == 1 + |Encode(v / 128)|
  {
    if v >= 128 {
      ThreeConcat(done, [v % 128 + 128], Encode(v / 128));
    }
  }

  lemma ThreeConcat(a: seq<Byte>, b: seq<Byte>, c: seq<Byte>)
    ensures a + b + c == a + (b + c)
  {}

  // ---------------------------------------------------------------- reading

  /** The groups from `i` on, when `k` were read before; an eleventh is an overflow. */
  function Groups(data: seq<Byte>, i: nat, k: nat): (r: Result<(nat, nat)>)
    ensures r.Ok? ==> i < r.value.1 <= |data| && r.value.1 - i + k <= 10
    decreases 10 - k
  {
    if k >= 10 then Err(IntOverflow)
    else if i >= |data| then Err(UnexpectedEof)
    else if data[i] < 128 then Ok((data[i], i + 1))
    else
      match Groups(data, i + 1, k + 1)
      case Err(e) => Err(e)
      case Ok((v, j)) => Ok((data[i] - 128 + 128 * v, j))
  }

  /** A varint read at `i`: its value, modulo two to the sixty-fourth, and where it ends. */
  function ReadAt(data: seq<Byte>, i: nat): (r: Result<(nat, nat)>)
    ensures r.Ok? ==> r.value.0 < TWO_64 && i < r.value.1 <= |data|
  {
    match Groups(data, i, 0)
    case Err(e) => Err(e)
    case Ok((v, j)) => Ok((v % TWO_64, j))
  }

  lemma {:induction false} GroupsRoundTrip(pre: seq<Byte>, v: nat, post: seq<Byte>, k: nat)
    requires |Encode(v)| + k <= 10
    ensures Groups(pre + Encode(v) + post, |pre|, k) == Ok((v, |pre| + |Encode(v)|))
    decreases v
  {
    var data := pre + Encode(v) + post;
    assert data[|pre|] == Encode(v)[0];
    if v >= 128 {
      var first := [Encode(v)[0]];
      assert Encode(v) == first + Encode(v / 128);
      GroupsRoundTrip(pre + first, v / 128, post, k + 1);
      assert data == (pre + first) + Encode(v / 128) + post;
    }
  }

  /** What was written is read back, for every 64-bit number, wherever it stands. */
  lemma {:induction false} VarintRoundTrip(pre: seq<Byte>, v: nat, post: seq<Byte>)
    requires v < TWO_64
    ensures ReadAt(pre + Encode(v) + post, |pre|) == Ok((v, |pre| + |Encode(v)|))
  {
    AtMostTenGroups(v);
    GroupsRoundTrip(pre, v, post, 0);
  }

  /** Only the bytes up to its end decide what a varint is. */
  lemma {:induction false} GroupsLocal(a: seq<Byte>, i: nat, b: seq<Byte>, j: nat, k: nat)
    requires Groups(a, i, k).Ok?
    requires var n := Groups(a, i, k).value.1 - i; j + n <= |b| && a[i..i + n] == b[j..j + n]
    ensures Groups(b, j, k) == Ok((Groups(a, i, k).value.0, j + Groups(a, i, k).value.1 - i))
    decreases 10 - k
  {
    var n := Groups(a, i, k).value.1 - i;
    SameHead(a, i, b, j, n);
    if a[i] >= 128 {
      GroupsLocal(a, i + 1, b, j + 1, k + 1);
    }
  }

  lemma SameHead(a: seq<Byte>, i: nat, b: seq<Byte>, j: nat, n: nat)
    requires 1 <= n && i + n <= |a| && j + n <= |b| && a[i..i + n] == b[j..j + n]
    ensures a[i] == b[j] && a[i + 1..i + n] == b[j + 1..j + n]
  {
    assert a[i] == a[i..i + n][0] && b[j] == b[j..j + n][0];
    assert a[i + 1..i + n] == a[i..i + n][1..] && b[j + 1..j + n] == b[j..j + n][1..];
  }

  lemma {:induction false} ReadLocal(a: seq<Byte>, i: nat, b: seq<Byte>, j: nat)
    requires ReadAt(a, i).Ok?
    requires var n := ReadAt(a, i).value.1 - i; j + n <= |b| && a[i..i + n] == b[j..j + n]
    ensures ReadAt(b, j) == Ok((ReadAt(a, i).value.0, j + ReadAt(a, i).value.1 - i))
  {
    GroupsLocal(a, i, b, j, 0);
  }

  /** The groups before contributed `sum`; those still to come count `scale` times. */
  function Later(r: Result<(nat, nat)>, sum: nat, scale: nat): Result<(nat, nat)> {
    match r
    case Err(e) => Err(e)
    case Ok((v, j)) => Ok((sum + scale * v, j))
  }

  lemma LaterStep(data: seq<Byte>, at: nat, k: nat, sum: nat, scale: nat)
    requires k < 10 && at < |data|
    ensures Later(Groups(data, at, k), sum, scale)
         == if data[at] < 128 then Ok((sum + data[at] % 128 * scale, at + 1))
            else Later(Groups(data, at + 1, k + 1), sum + data[at] % 128 * scale, scale * 128)
  {
    var b := data[at];
    if b >= 128 && Groups(data, at + 1, k + 1).Ok? {
      var v := Groups(data, at + 1, k + 1).value.0;
      assert scale * (b - 128 + 128 * v) == (b - 128) * scale + scale * 128 * v;
    }
  }

  lemma LaterStart(r: Result<(nat, nat)>)
    ensures Later(r, 0, 1) == r
  {}

  lemma AddMod(a: nat, b: nat)
    ensures (a % TWO_64 + b) % TWO_64 == (a + b) % TWO_64
  {}

  /** The loop every generated reader repeats. Disjoint bits are added where the source ors them. */
  method Read(data: seq<Byte>, i: nat) returns (r: Result<(nat, nat)>)
    ensures r == ReadAt(data, i)
  {
    hide Groups, Later;
    var at: nat, value: nat, shift: nat, scale: nat := i, 0, 0, 1;
    ghost var k: nat, sum: nat := 0, 0;
    LaterStart(Groups(data, i, 0));
    while true
      invariant shift == 7 * k && k <= 10
      invariant value == sum % TWO_64
      invariant Groups(data, i, 0) == Later(Groups(data, at, k), sum, scale)
      decreases 10 - k
    {
      if shift >= 64 {
        ReadEnds(data, at, k, sum, scale);
        return Err(IntOverflow);
      }
      if at >= |data| {
        ReadEnds(data, at, k, sum, scale);
        return Err(UnexpectedEof);
      }
      var b := data[at];
      LaterStep(data, at, k, sum, scale);
      AddMod(sum, b % 128 * scale);
      value := (value + b % 128 * scale) % TWO_64;
      sum := sum + b % 128 * scale;
      at := at + 1;
      if b < 128 {
        return Ok((value, at));
      }
      shift, scale, k := shift + 7, scale * 128, k + 1;
    }
  }

  lemma ReadEnds(data: seq<Byte>, at: nat, k: nat, sum: nat, scale: nat)
    ensures k >= 10 ==> Later(Groups(data, at, k), sum, scale) == Err(IntOverflow)
    ensures k < 10 && at >= |data| ==> Later(Groups(data, at, k), sum, scale) == Err(UnexpectedEof)
  {}
}
