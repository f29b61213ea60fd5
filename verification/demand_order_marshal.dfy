/** Writing a demand order into a buffer, from the end. */
module DemandOrderMarshal {
  import opened SdkCoins
  import opened Varint
  import opened Printer
  import opened Buffers
  import opened Repeated
  import opened DemandOrders

  lemma LastLengths(m: DemandOrder)
    ensures |Print(LastFields(m))| == |Print(StringValue(9, m.rollappId))| + |Print(EnumValue(10, m.kind))|
              + |Print(StringValue(11, m.fulfillerAddress))| + |Print(NonZero(12, m.creationHeight))|
  {
    var (nine, ten, eleven, twelve) := (StringValue(9, m.rollappId), EnumValue(10, m.kind),
                                        StringValue(11, m.fulfillerAddress), NonZero(12, m.creationHeight));
    PrintConcat(nine, ten + (eleven + twelve));
    PrintConcat(ten, eleven + twelve);
    PrintConcat(eleven, twelve);
  }

  lemma MiddleLengths(m: DemandOrder)
    ensures |Print(MiddleFields(m))| == |Print(StringValue(5, m.recipient))|
              + |Print(NonZero(6, if m.deprecatedIsFulfilled then 1 else 0))|
              + |Print(EnumValue(8, m.trackingPacketStatus))| + |Print(LastFields(m))|
  {
    hide LastFields;
    var (five, six, eight) := (StringValue(5, m.recipient), NonZero(6, if m.deprecatedIsFulfilled then 1 else 0),
                               EnumValue(8, m.trackingPacketStatus));
    PrintConcat(five, six + (eight + LastFields(m)));
    PrintConcat(six, eight + LastFields(m));
    PrintConcat(eight, LastFields(m));
  }

  lemma OrderLengths(subs: Subs, m: DemandOrder)
    ensures |OrderWire(subs, m)| == |Print(StringValue(1, m.id))| + |Print(StringValue(2, m.trackingPacketKey))|
              + |Print(Each(3, Prints(subs.coin, m.price)))| + |Print(Each(4, Prints(subs.coin, m.fee)))|
              + |Print(MiddleFields(m))|
  {
    hide MiddleFields;
    var (one, two) := (StringValue(1, m.id), StringValue(2, m.trackingPacketKey));
    var (three, four) := (Each(3, Prints(subs.coin, m.price)), Each(4, Prints(subs.coin, m.fee)));
    PrintConcat(one, two + (three + (four + MiddleFields(m))));
    PrintConcat(two, three + (four + MiddleFields(m)));
    PrintConcat(three, four + MiddleFields(m));
    PrintConcat(four, MiddleFields(m));
  }

  method MarshalLast(m: DemandOrder, a: array<Byte>, end: nat) returns (i: nat)
    requires end <= a.Length && |Print(LastFields(m))| <= end
    modifies a
    ensures i == end - |Print(LastFields(m))|
    ensures Holds(a[..], i, end, Print(LastFields(m))) && Untouched(old(a[..]), a[..], i, end)
  {
    hide Print, StringValue, NonZero;
    ghost var (ten, eleven) := (EnumValue(10, m.kind), StringValue(11, m.fulfillerAddress));
    ghost var twelve := NonZero(12, m.creationHeight);
    LastLengths(m);
    ghost var b0 := a[..];
    i := PutNonZero(a, 12, end, m.creationHeight);
    ghost var b1, at1 := a[..], i;
    i := PutString(a, 11, i, m.fulfillerAddress);
    PutInFront(b0, b1, a[..], i, at1, end, eleven, twelve);
    ghost var b2, at2 := a[..], i;
    i := PutNonZero(a, 10, i, Uint64(m.kind));
    PutInFront(b0, b2, a[..], i, at2, end, ten, eleven + twelve);
    ghost var b3, at3 := a[..], i;
    i := PutString(a, 9, i, m.rollappId);
    PutInFront(b0, b3, a[..], i, at3, end, StringValue(9, m.rollappId), ten + (eleven + twelve));
  }

  method MarshalMiddle(m: DemandOrder, a: array<Byte>, end: nat) returns (i: nat)
    requires end <= a.Length && |Print(MiddleFields(m))| <= end
    modifies a
    ensures i == end - |Print(MiddleFields(m))|
    ensures Holds(a[..], i, end, Print(MiddleFields(m))) && Untouched(old(a[..]), a[..], i, end)
  {
    hide Print, LastFields, StringValue, NonZero;
    ghost var six := NonZero(6, if m.deprecatedIsFulfilled then 1 else 0);
    ghost var eight := EnumValue(8, m.trackingPacketStatus);
    MiddleLengths(m);
    ghost var b0 := a[..];
    i := MarshalLast(m, a, end);
    ghost var b1, at1 := a[..], i;
    i := PutNonZero(a, 8, i, Uint64(m.trackingPacketStatus));
    PutInFront(b0, b1, a[..], i, at1, end, eight, LastFields(m));
    ghost var b2, at2 := a[..], i;
    i := PutNonZero(a, 6, i, if m.deprecatedIsFulfilled then 1 else 0);
    PutInFront(b0, b2, a[..], i, at2, end, six, eight + LastFields(m));
    ghost var b3, at3 := a[..], i;
    i := PutString(a, 5, i, m.recipient);
    PutInFront(b0, b3, a[..], i, at3, end, StringValue(5, m.recipient), six + (eight + LastFields(m)));
  }

  /** `MarshalToSizedBuffer`: exactly the wire form, right before `end`, and nothing else. */
  method MarshalOrder(subs: Subs, m: DemandOrder, a: array<Byte>, end: nat) returns (i: nat)
    requires end <= a.Length && |OrderWire(subs, m)| <= end
    modifies a
    ensures i == end - |OrderWire(subs, m)|
    ensures Holds(a[..], i, end, OrderWire(subs, m)) && Untouched(old(a[..]), a[..], i, end)
  {
    hide Print, MiddleFields, Each, StringValue;
    ghost var two := StringValue(2, m.trackingPacketKey);
    ghost var (three, four) := (Each(3, Prints(subs.coin, m.price)), Each(4, Prints(subs.coin, m.fee)));
    OrderLengths(subs, m);
    ghost var b0 := a[..];
    i := MarshalMiddle(m, a, end);
    ghost var b1, at1 := a[..], i;
    i := PutEach(a, 4, i, Prints(subs.coin, m.fee));
    PutInFront(b0, b1, a[..], i, at1, end, four, MiddleFields(m));
    ghost var b2, at2 := a[..], i;
    i := PutEach(a, 3, i, Prints(subs.coin, m.price));
    PutInFront(b0, b2, a[..], i, at2, end, three, four + MiddleFields(m));
    ghost var b3, at3 := a[..], i;
    i := PutString(a, 2, i, m.trackingPacketKey);
    PutInFront(b0, b3, a[..], i, at3, end, two, three + (four + MiddleFields(m)));
    ghost var b4, at4 := a[..], i;
    i := PutString(a, 1, i, m.id);
    PutInFront(b0, b4, a[..], i, at4, end, StringValue(1, m.id), two + (three + (four + MiddleFields(m))));
  }

  method SizeOrder(subs: Subs, m: DemandOrder) returns (n: nat)
    ensures n == |OrderWire(subs, m)|
  {
    hide OrderWire, MiddleFields, LastFields;
    OrderLengths(subs, m);
    MiddleLengths(m);
    LastLengths(m);
    n := SizeString(1, m.id);
    var l := SizeString(2, m.trackingPacketKey);
    n := n + l;
    l := SizeEach(3, Prints(subs.coin, m.price));
    n := n + l;
    l := SizeEach(4, Prints(subs.coin, m.fee));
    n := n + l;
    l := SizeString(5, m.recipient);
    n := n + l;
    l := SizeNonZero(6, if m.deprecatedIsFulfilled then 1 else 0);
    n := n + l;
    l := SizeNonZero(8, Uint64(m.trackingPacketStatus));
    n := n + l;
    l := SizeString(9, m.rollappId);
    n := n + l;
    l := SizeNonZero(10, Uint64(m.kind));
    n := n + l;
    l := SizeString(11, m.fulfillerAddress);
    n := n + l;
    l := SizeNonZero(12, m.creationHeight);
    n := n + l;
  }

  /** `Marshal`: a buffer of exactly the size, filled to its first byte. */
  method Marshal(subs: Subs, m: DemandOrder) returns (data: seq<Byte>)
    ensures data == OrderWire(subs, m)
  {
    hide OrderWire;
    var size := SizeOrder(subs, m);
    var a := new Byte[size];
    var i := MarshalOrder(subs, m, a, size);
    data := a[i..];
    assert a[..][0..size] == a[..];
  }
}
