/** Writing a message: the list of values it holds, printed one after the other, and what reading
    them back does. */
module Printer {
  import opened Varint
  import opened Skipper
  import opened Parser

  /** One value under a field number. */
  datatype Value = NumberValue(num: nat, v: nat) | BytesValue(num: nat, bytes: seq<Byte>)

  function Tag(v: Value): nat {
    v.num * 8 + if v.NumberValue? then 0 else 2
  }

  function WireOf(v: Value): seq<Byte> {
    match v
    case NumberValue(_, n) => Encode(Tag(v)) + Encode(n)
    case BytesValue(_, bytes) => Encode(Tag(v)) + Encode(|bytes|) + bytes
  }

  function Print(vs: seq<Value>): seq<Byte> {
    if vs == [] then [] else WireOf(vs[0]) + Print(vs[1..])
  }

  lemma {:induction false} PrintConcat(xs: seq<Value>, ys: seq<Value>)
    ensures Print(xs + ys) == Print(xs) + Print(ys)
  {
    if xs == [] {
      assert xs + ys == ys;
    } else {
      assert (xs + ys)[1..] == xs[1..] + ys;
      PrintConcat(xs[1..], ys);
    }
  }

  lemma PrintOne(v: Value)
    ensures Print([v]) == WireOf(v)
  {}

  /** The value's number is a legal field number, of the kind the message reads there. */
  predicate Fits<M>(sc: Schema<M>, v: Value) {
    && 0 < v.num < 0x2000_0000
    && match v
       case NumberValue(n, x) => sc.kind(n).Number? && x < TWO_64
       case BytesValue(n, _) => sc.kind(n).Bytes?
  }

  predicate AllFit<M>(sc: Schema<M>, vs: seq<Value>) {
    forall k :: 0 <= k < |vs| ==> Fits(sc, vs[k])
  }

  lemma FitConcat<M>(sc: Schema<M>, xs: seq<Value>, ys: seq<Value>)
    requires AllFit(sc, xs) && AllFit(sc, ys)
    ensures AllFit(sc, xs + ys)
  {}

  function ApplyOne<M>(sc: Schema<M>, m: M, v: Value): Result<M> {
    match v
    case NumberValue(num, n) => Ok(sc.onNumber(m, num, n))
    case BytesValue(num, bytes) => sc.onBytes(m, num, bytes)
  }

  function ApplyAll<M>(sc: Schema<M>, m: M, vs: seq<Value>): Result<M> {
    if vs == [] then Ok(m)
    else
      match ApplyOne(sc, m, vs[0])
      case Err(e) => Err(e)
      case Ok(next) => ApplyAll(sc, next, vs[1..])
  }

  lemma {:induction false} ApplyConcat<M>(sc: Schema<M>, m: M, xs: seq<Value>, ys: seq<Value>)
    requires ApplyAll(sc, m, xs).Ok?
    ensures ApplyAll(sc, m, xs + ys) == ApplyAll(sc, ApplyAll(sc, m, xs).value, ys)
  {
    if xs == [] {
      assert xs + ys == ys;
    } else {
      assert (xs + ys)[1..] == xs[1..] + ys;
      ApplyConcat(sc, ApplyOne(sc, m, xs[0]).value, xs[1..], ys);
    }
  }

  /** A printed varint, wherever it stands. */
  lemma {:induction false} ReadPrinted(data: seq<Byte>, i: nat, v: nat)
    requires v < TWO_64 && StandsAt(data, i, Encode(v))
    ensures ReadAt(data, i) == Ok((v, i + |Encode(v)|)) && i < |data|
  {
    EncodeIsVarint(v);
    VarintStands(data, i, Encode(v));
  }

  lemma TagIsNumber(v: Value)
    requires 0 < v.num < 0x2000_0000
    ensures Tag(v) < TWO_64 && Int32(Tag(v) / 8) == v.num && Tag(v) % 8 == if v.NumberValue? then 0 else 2
  {}

  /** A printed value is read as that value. */
  lemma {:induction false} FieldPrinted<M>(sc: Schema<M>, data: seq<Byte>, i: nat, v: Value, m: M)
    requires Fits(sc, v) && StandsAt(data, i, WireOf(v)) && |data| < TWO_63
    ensures i < |data| && FieldAt(sc, data, i, m)
         == match ApplyOne(sc, m, v) case Err(e) => Err(e) case Ok(next) => Ok((i + |WireOf(v)|, next))
  {
    hide ReadAt, StandsAt, Int32, Skip, Tag;
    var tag := Encode(Tag(v));
    TagIsNumber(v);
    match v
    case NumberValue(_, n) =>
      StandsInTwo(data, i, tag, Encode(n));
      ReadPrinted(data, i, Tag(v));
      ReadPrinted(data, i + |tag|, n);
    case BytesValue(_, bytes) =>
      var length := Encode(|bytes|);
      StandsInTwo(data, i, tag + length, bytes);
      StandsInTwo(data, i, tag, length);
      StandsInside(data, i + |tag + length|, bytes);
      ReadPrinted(data, i, Tag(v));
      ReadPrinted(data, i + |tag|, |bytes|);
  }

  lemma StandsInside(data: seq<Byte>, i: nat, part: seq<Byte>)
    requires StandsAt(data, i, part)
    ensures i + |part| <= |data| && data[i..i + |part|] == part
  {}

  /** Reading what was printed applies the values in order. */
  lemma {:induction false} ParsePrinted<M>(sc: Schema<M>, data: seq<Byte>, i: nat, vs: seq<Value>, m: M)
    requires AllFit(sc, vs)
    requires |data| < TWO_63 && i <= |data| && data[i..] == Print(vs)
    ensures Parse(sc, data, i, m) == ApplyAll(sc, m, vs)
    decreases |vs|
  {
    hide FieldAt, WireOf;
    if vs != [] {
      var n := |WireOf(vs[0])|;
      assert data[i..i + n] == data[i..][..n];
      FieldPrinted(sc, data, i, vs[0], m);
      if ApplyOne(sc, m, vs[0]).Ok? {
        assert data[i + n..] == data[i..][n..];
        ParsePrinted(sc, data, i + n, vs[1..], ApplyOne(sc, m, vs[0]).value);
      }
    }
  }

  /** So printing and reading back is the identity for a message whose values rebuild it from zero. */
  lemma {:induction false} RoundTrip<M>(sc: Schema<M>, vs: seq<Value>, zero: M, m: M)
    requires AllFit(sc, vs)
    requires |Print(vs)| < TWO_63 && ApplyAll(sc, zero, vs) == Ok(m)
    ensures Parse(sc, Print(vs), 0, zero) == Ok(m)
  {
    assert Print(vs)[0..] == Print(vs);
    ParsePrinted(sc, Print(vs), 0, vs, zero);
  }

  lemma {:induction false} PrefixApplies<M>(sc: Schema<M>, m: M, xs: seq<Value>, ys: seq<Value>)
    requires ApplyAll(sc, m, xs + ys).Ok?
    ensures ApplyAll(sc, m, xs).Ok?
  {
    if xs != [] {
      assert (xs + ys)[1..] == xs[1..] + ys && (xs + ys)[0] == xs[0];
      PrefixApplies(sc, ApplyOne(sc, m, xs[0]).value, xs[1..], ys);
    }
  }

  /** A written message with a bracketed unknown field put between any two of its fields is read as
      the message. */
  lemma {:induction false} UnknownBetween<M>(sc: Schema<M>, xs: seq<Value>, f: Field, ys: seq<Value>, zero: M, m: M)
    requires AllFit(sc, xs) && AllFit(sc, ys) && ApplyAll(sc, zero, xs + ys) == Ok(m)
    requires Bracketed(f) && IsUnknown(sc, f) && |Print(xs) + Wire(f) + Print(ys)| < TWO_63
    ensures Parse(sc, Print(xs) + Wire(f) + Print(ys), 0, zero) == Ok(m)
  {
    hide Bracketed, Wire, Parse, IsUnknown, Print, ApplyAll;
    PrefixApplies(sc, zero, xs, ys);
    RoundTrip(sc, xs, zero, ApplyAll(sc, zero, xs).value);
    UnknownIsTransparent(sc, Print(xs), f, Print(ys), zero);
    PrintConcat(xs, ys);
    FitConcat(sc, xs, ys);
    RoundTrip(sc, xs + ys, zero, m);
  }
}
