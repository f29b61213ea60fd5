/** Reading a message: what every generated `Unmarshal` does, over a table of the message's fields. */
module Parser {
  import opened Varint
  import opened Skipper

  /** What the message makes of a field number. */
  datatype Kind = Unknown | Number | Bytes

  /** A message's fields: how each number is read, and what a value does to the message. */
  datatype Schema<!M> = Schema(
    kind: int -> Kind,
    onNumber: (M, int, nat) -> M,
    onBytes: (M, int, seq<Byte>) -> Result<M>)

  // ---------------------------------------------------------------- one field

  /** The field at `i`, once its tag is read: field number `num`, wire type `wireType`, next byte at `j`. */
  function ReadValue<M>(sc: Schema<M>, data: seq<Byte>, i: nat, j: nat, num: int, wireType: nat, m: M)
    : (r: Result<(nat, M)>)
    requires i < j <= |data|
    ensures r.Ok? ==> i < r.value.0 <= |data|
  {
    match sc.kind(num)
    case Number =>
      if wireType != 0 then Err(WrongWireType)
      else
        (match ReadAt(data, j)
         case Err(e) => Err(e)
         case Ok((v, k)) => Ok((k, sc.onNumber(m, num, v))))
    case Bytes =>
      if wireType != 2 then Err(WrongWireType)
      else
        (match ReadAt(data, j)
         case Err(e) => Err(e)
         case Ok((n, k)) =>
           if n >= TWO_63 || k + n >= TWO_63 then Err(InvalidLength)
           else if k + n > |data| then Err(UnexpectedEof)
           else
             (match sc.onBytes(m, num, data[k..k + n])
              case Err(e) => Err(e)
              case Ok(next) => Ok((k + n, next))))
    case Unknown =>
      match Skip(data[i..])
      case Err(e) => Err(e)
      case Ok(n) =>
        if i + n >= TWO_63 then Err(InvalidLength)
        else if i + n > |data| then Err(UnexpectedEof)
        else Ok((i + n, m))
  }

  function FieldAt<M>(sc: Schema<M>, data: seq<Byte>, i: nat, m: M): (r: Result<(nat, M)>)
    requires i < |data|
    ensures r.Ok? ==> i < r.value.0 <= |data|
  {
    match ReadAt(data, i)
    case Err(e) => Err(e)
    case Ok((wire, j)) =>
      if wire % 8 == 4 then Err(EndGroupTag)
      else if Int32(wire / 8) <= 0 then Err(IllegalTag)
      else ReadValue(sc, data, i, j, Int32(wire / 8), wire % 8, m)
  }

  /** The message from `i` on: field after field, to the end of the data. */
  function Parse<M>(sc: Schema<M>, data: seq<Byte>, i: nat, m: M): Result<M>
    requires i <= |data|
    decreases |data| - i
  {
    if i == |data| then Ok(m)
    else
      match FieldAt(sc, data, i, m)
      case Err(e) => Err(e)
      case Ok((j, next)) => Parse(sc, data, j, next)
  }

  /** The source's loop: for every input it ends, with a message or an error, and reads only inside the
      data. */
  method Unmarshal<M>(sc: Schema<M>, data: seq<Byte>, zero: M) returns (r: Result<M>)
    ensures r == Parse(sc, data, 0, zero)
  {
    hide ReadAt, Skip, Int32;
    var m, i: nat := zero, 0;
    while i < |data|
      invariant i <= |data| && Parse(sc, data, 0, zero) == Parse(sc, data, i, m)
    {
      var tag := Read(data, i);
      if tag.Err? {
        return Err(tag.error);
      }
      var (wire, j) := tag.value;
      var num, wireType := Int32(wire / 8), wire % 8;
      if wireType == 4 {
        return Err(EndGroupTag);
      }
      if num <= 0 {
        return Err(IllegalTag);
      }
      match sc.kind(num) {
        case Number =>
          if wireType != 0 {
            return Err(WrongWireType);
          }
          var v := Read(data, j);
          if v.Err? {
            return Err(v.error);
          }
          m, i := sc.onNumber(m, num, v.value.0), v.value.1;
        case Bytes =>
          if wireType != 2 {
            return Err(WrongWireType);
          }
          var n := Read(data, j);
          if n.Err? {
            return Err(n.error);
          }
          var (length, start) := n.value;
          if length >= TWO_63 {
            return Err(InvalidLength);
          }
          var post := start + length;
          if post >= TWO_63 {
            return Err(InvalidLength);
          }
          if post > |data| {
            return Err(UnexpectedEof);
          }
          var part := sc.onBytes(m, num, data[start..post]);
          if part.Err? {
            return Err(part.error);
          }
          m, i := part.value, post;
        case Unknown =>
          var skippy := SkipField(data[i..]);
          if skippy.Err? {
            return Err(skippy.error);
          }
          if i + skippy.value >= TWO_63 {
            return Err(InvalidLength);
          }
          if i + skippy.value > |data| {
            return Err(UnexpectedEof);
          }
          i := i + skippy.value;
      }
    }
    return Ok(m);
  }

  // ---------------------------------------------------------------- a field is read the same anywhere

  /** The same `n` bytes at `i` in `a` and at `j` in `b`. */
  predicate SameAt(a: seq<Byte>, i: nat, b: seq<Byte>, j: nat, n: nat) {
    i + n <= |a| && j + n <= |b| && a[i..i + n] == b[j..j + n]
  }

  lemma SamePart(a: seq<Byte>, i: nat, b: seq<Byte>, j: nat, n: nat, lo: nat, hi: nat)
    requires SameAt(a, i, b, j, n) && lo <= hi <= n
    ensures a[i + lo..i + hi] == b[j + lo..j + hi]
  {
    var x, y, u, w := a[i + lo..i + hi], b[j + lo..j + hi], a[i..i + n], b[j..j + n];
    forall q | 0 <= q < hi - lo ensures x[q] == y[q] {
      assert x[q] == u[lo + q] && y[q] == w[lo + q];
    }
  }

  lemma {:induction false} ReadSame(a: seq<Byte>, i: nat, b: seq<Byte>, j: nat, n: nat, at: nat)
    requires SameAt(a, i, b, j, n) && at <= n && ReadAt(a, i + at).Ok? && ReadAt(a, i + at).value.1 <= i + n
    ensures ReadAt(b, j + at) == Ok((ReadAt(a, i + at).value.0, ReadAt(a, i + at).value.1 - i + j))
  {
    hide ReadAt;
    var k := ReadAt(a, i + at).value.1;
    SamePart(a, i, b, j, n, at, k - i);
    ReadLocal(a, i + at, b, j + at);
  }

  lemma {:induction false} SkipSame(a: seq<Byte>, i: nat, b: seq<Byte>, j: nat, n: nat)
    requires SameAt(a, i, b, j, n) && |a| < TWO_63 && |b| < TWO_63 && Skip(a[i..]) == Ok(n)
    ensures Skip(b[j..]) == Ok(n)
  {
    hide Skip, Bracketed, Wire;
    assert a[i..][..n] == a[i..i + n] && b[j..][..n] == b[j..j + n];
    SkipIsGrammar(a[i..], n);
    var f :| Bracketed(f) && Wire(f) == a[i..][..n];
    assert Wire(f) == b[j..][..n];
    SkipIsGrammar(b[j..], n);
  }

  /** A skipped field starts with its tag. */
  lemma {:induction false} TagInSkipped(a: seq<Byte>, i: nat, n: nat)
    requires i <= |a| < TWO_63 && Skip(a[i..]) == Ok(n) && i + n <= |a|
    ensures ReadAt(a, i).Ok? && ReadAt(a, i).value.1 <= i + n
  {
    var rest := a[i..];
    SkipReadsTag(rest);
    ReadLocal(rest, 0, a, i);
  }

  lemma SkipReadsTag(data: seq<Byte>)
    requires Skip(data).Ok?
    ensures ReadAt(data, 0).Ok? && ReadAt(data, 0).value.1 <= Skip(data).value
  {
    hide SkipAt, Turn;
    var p, k := TakeTurn(data, 0, 0);
    TurnGrows(data, 0, k, DepthAfter(p, 0));
  }

  lemma TurnGrows(data: seq<Byte>, at: nat, k: nat, d: nat)
    requires at < k && at < |data| && Turn(data, at, k, d).Ok?
    ensures k <= Turn(data, at, k, d).value
  {}

  lemma {:induction false} FieldSame<M>(sc: Schema<M>, a: seq<Byte>, i: nat, b: seq<Byte>, j: nat, m: M)
    requires i < |a| < TWO_63 && j < |b| < TWO_63 && FieldAt(sc, a, i, m).Ok?
    requires SameAt(a, i, b, j, FieldAt(sc, a, i, m).value.0 - i)
    ensures FieldAt(sc, b, j, m) == Ok((FieldAt(sc, a, i, m).value.0 - i + j, FieldAt(sc, a, i, m).value.1))
  {
    hide ReadAt, Skip, SameAt;
    var n := FieldAt(sc, a, i, m).value.0 - i;
    var (wire, k) := ReadAt(a, i).value;
    var num := Int32(wire / 8);
    SameFits(a, i, b, j, n);
    if sc.kind(num).Unknown? {
      TagInSkipped(a, i, n);
      SkipSame(a, i, b, j, n);
    }
    ReadSame(a, i, b, j, n, 0);
    if !sc.kind(num).Unknown? {
      ReadSame(a, i, b, j, n, k - i);
    }
    if sc.kind(num).Bytes? {
      var (length, start) := ReadAt(a, k).value;
      SamePart(a, i, b, j, n, start - i, n);
    }
  }

  lemma SameFits(a: seq<Byte>, i: nat, b: seq<Byte>, j: nat, n: nat)
    requires SameAt(a, i, b, j, n)
    ensures i + n <= |a| && j + n <= |b|
  {}

  // ---------------------------------------------------------------- putting messages together

  lemma SamePrefix(a: seq<Byte>, b: seq<Byte>, i: nat, n: nat)
    requires i + n <= |a|
    ensures SameAt(a, i, a + b, i, n)
  {}

  lemma SameSuffix(a: seq<Byte>, b: seq<Byte>, i: nat, n: nat)
    requires i + n <= |b|
    ensures SameAt(b, i, a + b, |a| + i, n) && SameAt(a + b, |a| + i, b, i, n)
  {}

  /** Data that parses on its own is read first, whatever follows it. */
  lemma {:induction false} ParseGoesOn<M>(sc: Schema<M>, a: seq<Byte>, i: nat, b: seq<Byte>, m: M)
    requires i <= |a| && |a + b| < TWO_63 && Parse(sc, a, i, m).Ok?
    ensures Parse(sc, a + b, i, m) == Parse(sc, a + b, |a|, Parse(sc, a, i, m).value)
    decreases |a| - i
  {
    hide FieldAt;
    if i < |a| {
      var (j, next) := FieldAt(sc, a, i, m).value;
      SamePrefix(a, b, i, j - i);
      FieldSame(sc, a, i, a + b, i, m);
      ParseGoesOn(sc, a, j, b, next);
    }
  }

  /** The same message, or an error both times; which error may depend on how far into the data the
      field stands, as the test for too long a length does. */
  predicate Agree<M(==)>(a: Result<M>, b: Result<M>) {
    a == b || (a.Err? && b.Err?)
  }

  /** What stands before a field makes no difference to what is read. */
  lemma {:induction false} ParseShifts<M>(sc: Schema<M>, a: seq<Byte>, b: seq<Byte>, i: nat, m: M)
    requires i <= |b| && |a + b| < TWO_63
    ensures Agree(Parse(sc, a + b, |a| + i, m), Parse(sc, b, i, m))
    decreases |b| - i
  {
    hide FieldAt;
    if i < |b| {
      var whole := a + b;
      if FieldAt(sc, b, i, m).Ok? {
        var (j, next) := FieldAt(sc, b, i, m).value;
        SameSuffix(a, b, i, j - i);
        FieldSame(sc, b, i, whole, |a| + i, m);
        ParseShifts(sc, a, b, j, next);
      } else if FieldAt(sc, whole, |a| + i, m).Ok? {
        var j := FieldAt(sc, whole, |a| + i, m).value.0;
        SameSuffix(a, b, i, j - |a| - i);
        FieldSame(sc, whole, |a| + i, b, i, m);
      }
    }
  }

  /** Two messages one after the other are read as one: the second on top of the first. */
  lemma {:induction false} ParseConcat<M>(sc: Schema<M>, a: seq<Byte>, b: seq<Byte>, m: M)
    requires |a + b| < TWO_63 && Parse(sc, a, 0, m).Ok?
    ensures Agree(Parse(sc, a + b, 0, m), Parse(sc, b, 0, Parse(sc, a, 0, m).value))
  {
    ParseGoesOn(sc, a, 0, b, m);
    ParseShifts(sc, a, b, 0, Parse(sc, a, 0, m).value);
  }

  /** The field's number is one the message does not know. */
  predicate IsUnknown<M>(sc: Schema<M>, f: Field)
    requires Bracketed(f)
  {
    Int32(ValueOf(f.tag) / 8) > 0 && sc.kind(Int32(ValueOf(f.tag) / 8)).Unknown?
  }

  lemma {:induction false} UnknownIsPassed<M>(sc: Schema<M>, f: Field, m: M)
    requires Bracketed(f) && IsUnknown(sc, f) && |Wire(f)| < TWO_63
    ensures Parse(sc, Wire(f), 0, m) == Ok(m)
  {
    hide Bracketed, Wire, Skip, ReadAt;
    var data := Wire(f);
    assert data[..|data|] == data && data[0..] == data;
    SkipIsGrammar(data, |data|);
    StartsWithTag(f);
    SkipMoves(data);
  }

  lemma SkipMoves(data: seq<Byte>)
    ensures Skip(data).Ok? ==> Skip(data).value > 0
  {}

  lemma {:induction false} StartsWithTag(f: Field)
    requires Bracketed(f)
    ensures ReadAt(Wire(f), 0) == Ok((ValueOf(f.tag), |f.tag|)) && ValueOf(f.tag) % 8 != 4
  {
    assert Wire(f)[..|f.tag|] == f.tag;
    ReadLocal(f.tag, 0, Wire(f), 0);
  }

  /** Putting any bracketed field of an unknown number between two fields changes nothing. */
  lemma {:induction false} UnknownIsTransparent<M>(sc: Schema<M>, a: seq<Byte>, f: Field, b: seq<Byte>, m: M)
    requires Bracketed(f) && IsUnknown(sc, f) && |a + Wire(f) + b| < TWO_63
    requires Parse(sc, a, 0, m).Ok?
    ensures Agree(Parse(sc, a + Wire(f) + b, 0, m), Parse(sc, a + b, 0, m))
  {
    hide Bracketed, Wire, Parse, IsUnknown;
    var (u, m1) := (Wire(f), Parse(sc, a, 0, m).value);
    assert a + u + b == a + (u + b);
    ParseConcat(sc, a, u + b, m);
    UnknownIsPassed(sc, f, m1);
    ParseConcat(sc, u, b, m1);
    ParseConcat(sc, a, b, m);
  }
}
