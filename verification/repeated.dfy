/** Repeated fields and embedded messages: what every message of the two files is made of. */
module Repeated {
  import opened SdkCoins
  import opened Varint
  import opened Skipper
  import opened Parser
  import opened Printer
  import opened Buffers

  /** A sub-codec the generated code calls: how a value is written, and how bytes are read into it. */
  datatype Codec<!T> = Codec(write: T -> seq<Byte>, read: seq<Byte> -> Result<T>)

  /** The codecs of `Coin` and of `LegacyDec`, which are not part of this model. */
  datatype Subs = Subs(coin: Codec<Coin>, dec: Codec<Dec>)
  {
    ghost predicate Lawful() {
      && (forall c: Coin :: coin.read(coin.write(c)) == Ok(c))
      && (forall d: Dec :: dec.read(dec.write(d)) == Ok(d))
    }
  }

  /** A string field: an empty string is not written. */
  function StringValue(num: nat, s: seq<Byte>): seq<Value> {
    if s == [] then [] else [BytesValue(num, s)]
  }

  /** A number field: zero is not written. */
  function NonZero(num: nat, v: nat): seq<Value> {
    if v == 0 then [] else [NumberValue(num, v)]
  }

  function Each(num: nat, parts: seq<seq<Byte>>): seq<Value> {
    seq(|parts|, i requires 0 <= i < |parts| => BytesValue(num, parts[i]))
  }

  function Prints<T>(codec: Codec<T>, xs: seq<T>): (r: seq<seq<Byte>>)
    ensures |r| == |xs|
  {
    seq(|xs|, i requires 0 <= i < |xs| => codec.write(xs[i]))
  }

  /** How a message holds a repeated field. */
  datatype Lens<!M(!new), !T(!new)> = Lens(view: M -> seq<T>, update: (M, seq<T>) -> M)
  {
    ghost predicate Lawful() {
      && (forall m, s :: view(update(m, s)) == s)
      && (forall m, s, t :: update(update(m, s), t) == update(m, t))
      && (forall m :: update(m, view(m)) == m)
    }
  }

  /** Reading one of these values under `num` appends it to the field. */
  ghost predicate Appends<M(!new), T(!new)>(sc: Schema<M>, num: nat, codec: Codec<T>, lens: Lens<M, T>, xs: seq<T>) {
    forall m, x :: x in xs ==> sc.onBytes(m, num, codec.write(x)) == Ok(lens.update(m, lens.view(m) + [x]))
  }

  lemma UpdateTwice<M(!new), T(!new)>(lens: Lens<M, T>, m: M, x: T, rest: seq<T>)
    requires lens.Lawful()
    ensures var next := lens.update(m, lens.view(m) + [x]);
            lens.update(next, lens.view(next) + rest) == lens.update(m, lens.view(m) + ([x] + rest))
  {
    assert lens.view(m) + [x] + rest == lens.view(m) + ([x] + rest);
  }

  /** Values of a repeated field are appended one by one. */
  lemma {:induction false} EachApplies<M(!new), T(!new)>(sc: Schema<M>, num: nat, codec: Codec<T>, lens: Lens<M, T>,
                                                         m: M, xs: seq<T>)
    requires lens.Lawful() && Appends(sc, num, codec, lens, xs)
    ensures ApplyAll(sc, m, Each(num, Prints(codec, xs))) == Ok(lens.update(m, lens.view(m) + xs))
    decreases |xs|
  {
    hide Lens.Lawful;
    var vs := Each(num, Prints(codec, xs));
    if xs == [] {
      EmptyUpdate(lens, m);
      assert lens.view(m) + xs == lens.view(m);
    } else {
      assert vs[0] == BytesValue(num, codec.write(xs[0]));
      assert vs[1..] == Each(num, Prints(codec, xs[1..]));
      UpdateTwice(lens, m, xs[0], xs[1..]);
      EachApplies(sc, num, codec, lens, lens.update(m, lens.view(m) + [xs[0]]), xs[1..]);
      assert [xs[0]] + xs[1..] == xs;
    }
  }

  lemma EmptyUpdate<M(!new), T(!new)>(lens: Lens<M, T>, m: M)
    requires lens.Lawful()
    ensures lens.update(m, lens.view(m)) == m
  {}

  lemma {:induction false} EachMore(num: nat, part: seq<Byte>, parts: seq<seq<Byte>>)
    ensures Print(Each(num, [part] + parts)) == WireOf(BytesValue(num, part)) + Print(Each(num, parts))
  {
    var vs := Each(num, [part] + parts);
    assert vs[1..] == Each(num, parts);
  }

  lemma {:induction false} EachFits(num: nat, parts: seq<seq<Byte>>, k: nat)
    requires k < |parts|
    ensures |WireOf(BytesValue(num, parts[k]))| + |Print(Each(num, parts[k + 1..]))| <= |Print(Each(num, parts))|
    decreases k
  {
    assert parts == [parts[0]] + parts[1..];
    EachMore(num, parts[0], parts[1..]);
    if k > 0 {
      EachFits(num, parts[1..], k - 1);
      assert parts[1..][k..] == parts[k + 1..];
    }
  }

  /** The loop over a repeated field, last element first. */
  method PutEach(a: array<Byte>, num: nat, i: nat, parts: seq<seq<Byte>>) returns (j: nat)
    requires 1 <= num <= 15 && i <= a.Length && |Print(Each(num, parts))| <= i
    modifies a
    ensures j == i - |Print(Each(num, parts))|
    ensures Holds(a[..], j, i, Print(Each(num, parts))) && Untouched(old(a[..]), a[..], j, i)
  {
    hide WireOf, Print, Each;
    j := i;
    var k: nat := |parts|;
    NothingPrinted(num, parts[|parts|..]);
    while k > 0
      invariant k <= |parts| && j <= i && j == i - |Print(Each(num, parts[k..]))|
      invariant Holds(a[..], j, i, Print(Each(num, parts[k..]))) && Untouched(old(a[..]), a[..], j, i)
      decreases k
    {
      k := k - 1;
      ghost var before, at := a[..], j;
      EachFits(num, parts, k);
      assert parts[k..] == [parts[k]] + parts[k + 1..];
      EachMore(num, parts[k], parts[k + 1..]);
      j := PutBytes(a, num, j, parts[k]);
      HoldsMore(before, a[..], j, at, i, WireOf(BytesValue(num, parts[k])), Print(Each(num, parts[k + 1..])));
      UntouchedChain(old(a[..]), before, a[..], j, at, i);
    }
    assert parts[0..] == parts;
  }

  lemma NothingPrinted(num: nat, parts: seq<seq<Byte>>)
    ensures parts == [] ==> Print(Each(num, parts)) == []
  {}

  // ---------------------------------------------------------------- one field at a time

  /** A segment of values written in front of those already there. */
  lemma PutInFront(start: seq<Byte>, before: seq<Byte>, after: seq<Byte>, i: nat, j: nat, end: nat,
                   seg: seq<Value>, done: seq<Value>)
    requires Holds(before, j, end, Print(done)) && Untouched(start, before, j, end)
    requires Holds(after, i, j, Print(seg)) && Untouched(before, after, i, j)
    ensures Holds(after, i, end, Print(seg + done)) && Untouched(start, after, i, end)
  {
    PrintConcat(seg, done);
    HoldsMore(before, after, i, j, end, Print(seg), Print(done));
    UntouchedChain(start, before, after, i, j, end);
  }

  method PutString(a: array<Byte>, num: nat, i: nat, s: seq<Byte>) returns (j: nat)
    requires 1 <= num <= 15 && i <= a.Length && |Print(StringValue(num, s))| <= i
    modifies a
    ensures j == i - |Print(StringValue(num, s))|
    ensures Holds(a[..], j, i, Print(StringValue(num, s))) && Untouched(old(a[..]), a[..], j, i)
  {
    hide WireOf;
    PrintOne(BytesValue(num, s));
    j := i;
    if |s| > 0 {
      j := PutBytes(a, num, i, s);
    }
  }

  method PutNonZero(a: array<Byte>, num: nat, i: nat, v: nat) returns (j: nat)
    requires 1 <= num <= 15 && i <= a.Length && |Print(NonZero(num, v))| <= i
    modifies a
    ensures j == i - |Print(NonZero(num, v))|
    ensures Holds(a[..], j, i, Print(NonZero(num, v))) && Untouched(old(a[..]), a[..], j, i)
  {
    hide WireOf;
    PrintOne(NumberValue(num, v));
    j := i;
    if v != 0 {
      j := PutNumber(a, num, i, v);
    }
  }

  // ---------------------------------------------------------------- sizes

  lemma SizeOfBytes(num: nat, bytes: seq<Byte>)
    requires 1 <= num <= 15
    ensures |WireOf(BytesValue(num, bytes))| == 1 + |bytes| + Sov(|bytes|)
  {
    ShortTag(num, true);
    SovCountsGroups(|bytes|);
  }

  lemma SizeOfNumber(num: nat, v: nat)
    requires 1 <= num <= 15
    ensures |WireOf(NumberValue(num, v))| == 1 + Sov(v)
  {
    ShortTag(num, false);
    SovCountsGroups(v);
  }

  method SizeString(num: nat, s: seq<Byte>) returns (n: nat)
    requires 1 <= num <= 15
    ensures n == |Print(StringValue(num, s))|
  {
    PrintOne(BytesValue(num, s));
    SizeOfBytes(num, s);
    n := 0;
    var l := |s|;
    if l > 0 {
      n := 1 + l + Sov(l);
    }
  }

  method SizeNonZero(num: nat, v: nat) returns (n: nat)
    requires 1 <= num <= 15
    ensures n == |Print(NonZero(num, v))|
  {
    PrintOne(NumberValue(num, v));
    SizeOfNumber(num, v);
    n := if v != 0 then 1 + Sov(v) else 0;
  }

  method SizeEach(num: nat, parts: seq<seq<Byte>>) returns (n: nat)
    requires 1 <= num <= 15
    ensures n == |Print(Each(num, parts))|
  {
    hide WireOf, Print, Each;
    n := 0;
    assert parts[0..] == parts;
    for k := 0 to |parts|
      invariant n + |Print(Each(num, parts[k..]))| == |Print(Each(num, parts))|
    {
      assert parts[k..] == [parts[k]] + parts[k + 1..];
      EachMore(num, parts[k], parts[k + 1..]);
      SizeOfBytes(num, parts[k]);
      var l := |parts[k]|;
      n := n + 1 + l + Sov(l);
    }
    NothingPrinted(num, parts[|parts|..]);
  }

  // ---------------------------------------------------------------- the bytes themselves

  /** The parts one after the other, each behind its tag byte and length. */
  function Pieces(tag: Byte, parts: seq<seq<Byte>>): seq<Byte> {
    if parts == [] then [] else [tag] + Encode(|parts[0]|) + parts[0] + Pieces(tag, parts[1..])
  }

  lemma OneTag(num: nat)
    requires 1 <= num <= 15
    ensures Encode(num * 8) == [num * 8] && Encode(num * 8 + 2) == [num * 8 + 2]
  {
    ShortTag(num, true);
    ShortTag(num, false);
  }

  lemma BytesWire(num: nat, bs: seq<Byte>)
    requires 1 <= num <= 15
    ensures WireOf(BytesValue(num, bs)) == [num * 8 + 2] + Encode(|bs|) + bs
  {
    OneTag(num);
    assert Tag(BytesValue(num, bs)) == num * 8 + 2;
    hide Encode, Tag;
  }

  lemma NumberWire(num: nat, v: nat)
    requires 1 <= num <= 15
    ensures WireOf(NumberValue(num, v)) == [num * 8] + Encode(v)
  {
    OneTag(num);
    assert Tag(NumberValue(num, v)) == num * 8;
    hide Encode, Tag;
  }

  lemma {:induction false} EachWire(num: nat, parts: seq<seq<Byte>>)
    requires 1 <= num <= 15
    ensures Print(Each(num, parts)) == Pieces(num * 8 + 2, parts)
  {
    hide Encode, WireOf, Print, Each;
    if parts == [] {
      NothingPrinted(num, parts);
    } else {
      assert parts == [parts[0]] + parts[1..];
      EachMore(num, parts[0], parts[1..]);
      BytesWire(num, parts[0]);
      EachWire(num, parts[1..]);
    }
  }

  lemma StringWire(num: nat, s: seq<Byte>)
    requires 1 <= num <= 15
    ensures Print(StringValue(num, s)) == if s == [] then [] else [num * 8 + 2] + Encode(|s|) + s
  {
    BytesWire(num, s);
    PrintOne(BytesValue(num, s));
    hide Encode, WireOf;
  }

  lemma NonZeroWire(num: nat, v: nat)
    requires 1 <= num <= 15
    ensures Print(NonZero(num, v)) == if v == 0 then [] else [num * 8] + Encode(v)
  {
    NumberWire(num, v);
    PrintOne(NumberValue(num, v));
    hide Encode, WireOf;
  }

  /** One field with a one-byte tag, read on its own. */
  lemma ReadsBytes<M>(sc: Schema<M>, num: nat, bs: seq<Byte>, m: M)
    requires 1 <= num <= 15 && sc.kind(num).Bytes? && |[num * 8 + 2] + Encode(|bs|) + bs| < TWO_63
    ensures Parse(sc, [num * 8 + 2] + Encode(|bs|) + bs, 0, m) == sc.onBytes(m, num, bs)
  {
    hide Encode, WireOf, Parse;
    var (v, data) := (BytesValue(num, bs), [num * 8 + 2] + Encode(|bs|) + bs);
    BytesWire(num, bs);
    PrintOne(v);
    assert data[0..] == data;
    ParsePrinted(sc, data, 0, [v], m);
  }

  lemma ReadsNumber<M>(sc: Schema<M>, num: nat, n: nat, m: M)
    requires 1 <= num <= 15 && sc.kind(num).Number? && n < TWO_64
    ensures Parse(sc, [num * 8] + Encode(n), 0, m) == Ok(sc.onNumber(m, num, n))
  {
    AtMostTenGroups(n);
    hide Encode, WireOf, Parse;
    var (v, data) := (NumberValue(num, n), [num * 8] + Encode(n));
    NumberWire(num, n);
    PrintOne(v);
    assert data[0..] == data;
    ParsePrinted(sc, data, 0, [v], m);
  }
}
