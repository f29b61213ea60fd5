/** Writing the messages of `types/authz.pb.go` into buffers, from the end. */
module AuthzMarshal {
  import opened SdkCoins
  import opened Varint
  import opened Parser
  import opened Printer
  import opened Buffers
  import opened Repeated
  import opened Authz

  /** The segments of some criteria from the fees on, and how long they are together. */
  lemma FeesLengths(subs: Subs, m: RollappCriteria)
    ensures |Print(FeesOn(subs, m))| == |WireOf(BytesValue(4, DecWire(subs, m.minFeePercentage)))|
              + |WireOf(BytesValue(5, DecWire(subs, m.operatorFeeShare)))| + |Print(FlagAndLimit(subs, m))|
    ensures |Print(FlagAndLimit(subs, m))| == |Print(NonZero(6, if m.settlementValidated then 1 else 0))|
              + |Print(Each(7, Prints(subs.coin, m.spendLimit)))|
    ensures |DecWire(subs, m.minFeePercentage)| <= |WireOf(BytesValue(4, DecWire(subs, m.minFeePercentage)))|
    ensures |DecWire(subs, m.operatorFeeShare)| <= |WireOf(BytesValue(5, DecWire(subs, m.operatorFeeShare)))|
  {
    hide DecWire, Encode;
    var four := BytesValue(4, DecWire(subs, m.minFeePercentage));
    var five := BytesValue(5, DecWire(subs, m.operatorFeeShare));
    PrintOne(four);
    PrintOne(five);
    PrintConcat([four], [five] + FlagAndLimit(subs, m));
    PrintConcat([five], FlagAndLimit(subs, m));
    PrintConcat(NonZero(6, if m.settlementValidated then 1 else 0), Each(7, Prints(subs.coin, m.spendLimit)));
  }

  lemma CriteriaLengths(subs: Subs, m: RollappCriteria)
    ensures |CriteriaWire(subs, m)| == |Print(StringValue(1, m.rollappId))| + |Print(Each(2, m.denoms))|
              + |Print(Each(3, Prints(subs.coin, m.maxPrice)))| + |Print(FeesOn(subs, m))|
  {
    hide FeesOn;
    var (one, two, three) := (StringValue(1, m.rollappId), Each(2, m.denoms), Each(3, Prints(subs.coin, m.maxPrice)));
    PrintConcat(one, two + (three + FeesOn(subs, m)));
    PrintConcat(two, three + FeesOn(subs, m));
    PrintConcat(three, FeesOn(subs, m));
  }

  // ---------------------------------------------------------------- DecProto

  method MarshalDec(subs: Subs, m: DecProto, a: array<Byte>, end: nat) returns (i: nat)
    requires end <= a.Length && |DecWire(subs, m)| <= end
    modifies a
    ensures i == end - |DecWire(subs, m)|
    ensures Holds(a[..], i, end, DecWire(subs, m)) && Untouched(old(a[..]), a[..], i, end)
  {
    hide WireOf;
    PrintOne(BytesValue(1, subs.dec.write(m.dec)));
    i := PutBytes(a, 1, end, subs.dec.write(m.dec));
  }

  method SizeDec(subs: Subs, m: DecProto) returns (n: nat)
    ensures n == |DecWire(subs, m)|
  {
    PrintOne(BytesValue(1, subs.dec.write(m.dec)));
    SizeOfBytes(1, subs.dec.write(m.dec));
    var l := |subs.dec.write(m.dec)|;
    n := 1 + l + Sov(l);
  }

  /** An embedded decimal: the message, then its length and tag in front. */
  method PutDec(subs: Subs, m: DecProto, a: array<Byte>, num: nat, i: nat) returns (j: nat)
    requires 1 <= num <= 15 && i <= a.Length && |WireOf(BytesValue(num, DecWire(subs, m)))| <= i
    modifies a
    ensures j == i - |Print([BytesValue(num, DecWire(subs, m))])|
    ensures Holds(a[..], j, i, Print([BytesValue(num, DecWire(subs, m))])) && Untouched(old(a[..]), a[..], j, i)
  {
    PrintOne(BytesValue(num, DecWire(subs, m)));
    SizeOfBytes(num, DecWire(subs, m));
    hide WireOf, DecWire;
    ghost var b0 := a[..];
    j := MarshalDec(subs, m, a, i);
    ghost var b1, at := a[..], j;
    j := PutHeader(a, num, j, i, DecWire(subs, m));
    UntouchedChain(b0, b1, a[..], j, at, i);
  }

  // ---------------------------------------------------------------- RollappCriteria

  method MarshalFlagAndLimit(subs: Subs, m: RollappCriteria, a: array<Byte>, end: nat) returns (i: nat)
    requires end <= a.Length && |Print(FlagAndLimit(subs, m))| <= end
    modifies a
    ensures i == end - |Print(FlagAndLimit(subs, m))|
    ensures Holds(a[..], i, end, Print(FlagAndLimit(subs, m))) && Untouched(old(a[..]), a[..], i, end)
  {
    hide Print, Each, NonZero;
    ghost var b0 := a[..];
    FeesLengths(subs, m);
    i := PutEach(a, 7, end, Prints(subs.coin, m.spendLimit));
    ghost var b1, at := a[..], i;
    i := PutNonZero(a, 6, i, if m.settlementValidated then 1 else 0);
    PutInFront(b0, b1, a[..], i, at, end, NonZero(6, if m.settlementValidated then 1 else 0),
               Each(7, Prints(subs.coin, m.spendLimit)));
  }

  method MarshalFeesOn(subs: Subs, m: RollappCriteria, a: array<Byte>, end: nat) returns (i: nat)
    requires end <= a.Length && |Print(FeesOn(subs, m))| <= end
    modifies a
    ensures i == end - |Print(FeesOn(subs, m))|
    ensures Holds(a[..], i, end, Print(FeesOn(subs, m))) && Untouched(old(a[..]), a[..], i, end)
  {
    hide Print, FlagAndLimit, DecWire, WireOf;
    ghost var four := [BytesValue(4, DecWire(subs, m.minFeePercentage))];
    ghost var five := [BytesValue(5, DecWire(subs, m.operatorFeeShare))];
    PrintOne(four[0]);
    PrintOne(five[0]);
    FeesLengths(subs, m);
    ghost var b0 := a[..];
    i := MarshalFlagAndLimit(subs, m, a, end);
    ghost var b1, at1 := a[..], i;
    i := PutDec(subs, m.operatorFeeShare, a, 5, i);
    PutInFront(b0, b1, a[..], i, at1, end, five, FlagAndLimit(subs, m));
    ghost var b2, at2 := a[..], i;
    i := PutDec(subs, m.minFeePercentage, a, 4, i);
    PutInFront(b0, b2, a[..], i, at2, end, four, five + FlagAndLimit(subs, m));
  }

  /** `MarshalToSizedBuffer`: exactly the wire form, right before `end`, and nothing else. */
  method MarshalCriteria(subs: Subs, m: RollappCriteria, a: array<Byte>, end: nat) returns (i: nat)
    requires end <= a.Length && |CriteriaWire(subs, m)| <= end
    modifies a
    ensures i == end - |CriteriaWire(subs, m)|
    ensures Holds(a[..], i, end, CriteriaWire(subs, m)) && Untouched(old(a[..]), a[..], i, end)
  {
    hide Print, FeesOn, Each, StringValue;
    ghost var (one, two) := (StringValue(1, m.rollappId), Each(2, m.denoms));
    ghost var three := Each(3, Prints(subs.coin, m.maxPrice));
    CriteriaLengths(subs, m);
    ghost var b0 := a[..];
    i := MarshalFeesOn(subs, m, a, end);
    ghost var b1, at1 := a[..], i;
    i := PutEach(a, 3, i, Prints(subs.coin, m.maxPrice));
    PutInFront(b0, b1, a[..], i, at1, end, three, FeesOn(subs, m));
    ghost var b2, at2 := a[..], i;
    i := PutEach(a, 2, i, m.denoms);
    PutInFront(b0, b2, a[..], i, at2, end, two, three + FeesOn(subs, m));
    ghost var b3, at3 := a[..], i;
    i := PutString(a, 1, i, m.rollappId);
    PutInFront(b0, b3, a[..], i, at3, end, one, two + (three + FeesOn(subs, m)));
  }

  /** `Size`, which no marshalling asks a byte more or less of. */
  method SizeCriteria(subs: Subs, m: RollappCriteria) returns (n: nat)
    ensures n == |CriteriaWire(subs, m)|
  {
    hide CriteriaWire, FeesOn, FlagAndLimit, DecWire;
    CriteriaLengths(subs, m);
    FeesLengths(subs, m);
    SizeOfBytes(4, DecWire(subs, m.minFeePercentage));
    SizeOfBytes(5, DecWire(subs, m.operatorFeeShare));
    n := SizeString(1, m.rollappId);
    var l := SizeEach(2, m.denoms);
    n := n + l;
    l := SizeEach(3, Prints(subs.coin, m.maxPrice));
    n := n + l;
    l := SizeDec(subs, m.minFeePercentage);
    n := n + 1 + l + Sov(l);
    l := SizeDec(subs, m.operatorFeeShare);
    n := n + 1 + l + Sov(l);
    l := SizeNonZero(6, if m.settlementValidated then 1 else 0);
    n := n + l;
    l := SizeEach(7, Prints(subs.coin, m.spendLimit));
    n := n + l;
  }

  // ---------------------------------------------------------------- FulfillOrderAuthorization

  method MarshalAuthorization(subs: Subs, m: FulfillOrderAuthorization, a: array<Byte>, end: nat) returns (i: nat)
    requires end <= a.Length && |AuthorizationWire(subs, m)| <= end
    modifies a
    ensures i == end - |AuthorizationWire(subs, m)|
    ensures Holds(a[..], i, end, AuthorizationWire(subs, m)) && Untouched(old(a[..]), a[..], i, end)
  {
    hide WireOf, Print, Each, CriteriaWire;
    ghost var parts := Prints(CriteriaCodec(subs), m.rollapps);
    i := end;
    var k: nat := |m.rollapps|;
    NothingPrinted(1, parts[k..]);
    while k > 0
      invariant k <= |parts| && i <= end && i == end - |Print(Each(1, parts[k..]))|
      invariant Holds(a[..], i, end, Print(Each(1, parts[k..]))) && Untouched(old(a[..]), a[..], i, end)
      decreases k
    {
      k := k - 1;
      ghost var before, at := a[..], i;
      EachFits(1, parts, k);
      assert parts[k..] == [parts[k]] + parts[k + 1..];
      EachMore(1, parts[k], parts[k + 1..]);
      i := PutCriteria(subs, m.rollapps[k], a, i);
      HoldsMore(before, a[..], i, at, end, WireOf(BytesValue(1, parts[k])), Print(Each(1, parts[k + 1..])));
      UntouchedChain(old(a[..]), before, a[..], i, at, end);
    }
    assert parts[0..] == parts;
  }

  method PutCriteria(subs: Subs, m: RollappCriteria, a: array<Byte>, i: nat) returns (j: nat)
    requires i <= a.Length && |WireOf(BytesValue(1, CriteriaWire(subs, m)))| <= i
    modifies a
    ensures j == i - |WireOf(BytesValue(1, CriteriaWire(subs, m)))|
    ensures Holds(a[..], j, i, WireOf(BytesValue(1, CriteriaWire(subs, m)))) && Untouched(old(a[..]), a[..], j, i)
  {
    SizeOfBytes(1, CriteriaWire(subs, m));
    hide WireOf, CriteriaWire;
    ghost var b0 := a[..];
    j := MarshalCriteria(subs, m, a, i);
    ghost var b1, at := a[..], j;
    j := PutHeader(a, 1, j, i, CriteriaWire(subs, m));
    UntouchedChain(b0, b1, a[..], j, at, i);
  }

  method SizeAuthorization(subs: Subs, m: FulfillOrderAuthorization) returns (n: nat)
    ensures n == |AuthorizationWire(subs, m)|
  {
    hide WireOf, Print, Each, CriteriaWire;
    ghost var parts := Prints(CriteriaCodec(subs), m.rollapps);
    n := 0;
    assert parts[0..] == parts;
    for k := 0 to |m.rollapps|
      invariant n + |Print(Each(1, parts[k..]))| == |Print(Each(1, parts))|
    {
      assert parts[k..] == [parts[k]] + parts[k + 1..];
      EachMore(1, parts[k], parts[k + 1..]);
      SizeOfBytes(1, parts[k]);
      var l := SizeCriteria(subs, m.rollapps[k]);
      n := n + 1 + l + Sov(l);
    }
    NothingPrinted(1, parts[|parts|..]);
  }

  /** `Marshal`: a buffer of exactly the size, filled to its first byte. */
  method Marshal(subs: Subs, m: FulfillOrderAuthorization) returns (data: seq<Byte>)
    ensures data == AuthorizationWire(subs, m)
  {
    hide AuthorizationWire;
    var size := SizeAuthorization(subs, m);
    var a := new Byte[size];
    var i := MarshalAuthorization(subs, m, a, size);
    data := a[i..];
    assert a[..][0..size] == a[..];
  }
}
