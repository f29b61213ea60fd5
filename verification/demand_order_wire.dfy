/** The bytes of a demand order: which field stands behind which tag, read and written. */
module DemandOrderWire {
  import opened SdkCoins
  import opened Varint
  import opened Parser
  import opened Printer
  import opened Repeated
  import opened DemandOrders

  // ---------------------------------------------------------------- read

  lemma ReadsStrings(subs: Subs, s: seq<Byte>, m: DemandOrder)
    requires |[0x0a] + Encode(|s|) + s| < TWO_63
    ensures Parse(OrderSchema(subs), [0x0a] + Encode(|s|) + s, 0, m) == Ok(m.(id := s))
    ensures Parse(OrderSchema(subs), [0x12] + Encode(|s|) + s, 0, m) == Ok(m.(trackingPacketKey := s))
    ensures Parse(OrderSchema(subs), [0x2a] + Encode(|s|) + s, 0, m) == Ok(m.(recipient := s))
    ensures Parse(OrderSchema(subs), [0x4a] + Encode(|s|) + s, 0, m) == Ok(m.(rollappId := s))
    ensures Parse(OrderSchema(subs), [0x5a] + Encode(|s|) + s, 0, m) == Ok(m.(fulfillerAddress := s))
  {
    hide Parse, Encode;
    ReadsBytes(OrderSchema(subs), 1, s, m);
    ReadsBytes(OrderSchema(subs), 2, s, m);
    ReadsBytes(OrderSchema(subs), 5, s, m);
    ReadsBytes(OrderSchema(subs), 9, s, m);
    ReadsBytes(OrderSchema(subs), 11, s, m);
  }

  lemma ReadsCoins(subs: Subs, c: Coin, m: DemandOrder)
    requires subs.Lawful() && |[0x1a] + Encode(|subs.coin.write(c)|) + subs.coin.write(c)| < TWO_63
    ensures Parse(OrderSchema(subs), [0x1a] + Encode(|subs.coin.write(c)|) + subs.coin.write(c), 0, m)
         == Ok(m.(price := m.price + [c]))
    ensures Parse(OrderSchema(subs), [0x22] + Encode(|subs.coin.write(c)|) + subs.coin.write(c), 0, m)
         == Ok(m.(fee := m.fee + [c]))
  {
    hide Parse, Encode;
    var bs := subs.coin.write(c);
    assert subs.coin.read(bs) == Ok(c);
    ReadsBytes(OrderSchema(subs), 3, bs, m);
    ReadsBytes(OrderSchema(subs), 4, bs, m);
  }

  lemma ReadsNumbers(subs: Subs, n: nat, m: DemandOrder)
    requires n < TWO_64
    ensures Parse(OrderSchema(subs), [0x30] + Encode(n), 0, m) == Ok(m.(deprecatedIsFulfilled := n != 0))
    ensures Parse(OrderSchema(subs), [0x40] + Encode(n), 0, m) == Ok(m.(trackingPacketStatus := Int32(n)))
    ensures Parse(OrderSchema(subs), [0x50] + Encode(n), 0, m) == Ok(m.(kind := Int32(n)))
    ensures Parse(OrderSchema(subs), [0x60] + Encode(n), 0, m) == Ok(m.(creationHeight := n))
  {
    hide Parse, Encode, Int32;
    ReadsNumber(OrderSchema(subs), 6, n, m);
    ReadsNumber(OrderSchema(subs), 8, n, m);
    ReadsNumber(OrderSchema(subs), 10, n, m);
    ReadsNumber(OrderSchema(subs), 12, n, m);
  }

  // ---------------------------------------------------------------- written

  /** A string field, which an empty string leaves out. */
  function Text(tag: Byte, s: seq<Byte>): seq<Byte> {
    if s == [] then [] else [tag] + Encode(|s|) + s
  }

  /** A number field, which zero leaves out. */
  function Figure(tag: Byte, n: nat): seq<Byte> {
    if n == 0 then [] else [tag] + Encode(n)
  }

  /** Fields in the order of their numbers; enums as 64-bit numbers. */
  lemma WritesOrder(subs: Subs, m: DemandOrder)
    ensures OrderWire(subs, m)
         == Text(0x0a, m.id) + Text(0x12, m.trackingPacketKey) + Pieces(0x1a, Prints(subs.coin, m.price))
          + Pieces(0x22, Prints(subs.coin, m.fee))
          + (Text(0x2a, m.recipient) + Figure(0x30, if m.deprecatedIsFulfilled then 1 else 0)
             + Figure(0x40, Uint64(m.trackingPacketStatus))
             + (Text(0x4a, m.rollappId) + Figure(0x50, Uint64(m.kind)) + Text(0x5a, m.fulfillerAddress)
                + Figure(0x60, m.creationHeight)))
  {
    hide Print, Each, Pieces, MiddleFields, Text, Figure, Uint64;
    var (one, two) := (StringValue(1, m.id), StringValue(2, m.trackingPacketKey));
    var (three, four) := (Each(3, Prints(subs.coin, m.price)), Each(4, Prints(subs.coin, m.fee)));
    PrintConcat(one, two + (three + (four + MiddleFields(m))));
    PrintConcat(two, three + (four + MiddleFields(m)));
    PrintConcat(three, four + MiddleFields(m));
    PrintConcat(four, MiddleFields(m));
    TextIs(1, m.id);
    TextIs(2, m.trackingPacketKey);
    EachWire(3, Prints(subs.coin, m.price));
    EachWire(4, Prints(subs.coin, m.fee));
    WritesMiddle(m);
    Flat(Print(one), Print(two), Print(three), Print(four), Print(MiddleFields(m)));
  }

  lemma Flat(a: seq<Byte>, b: seq<Byte>, c: seq<Byte>, d: seq<Byte>, e: seq<Byte>)
    ensures a + (b + (c + (d + e))) == a + b + c + d + e
  {}

  lemma TextIs(num: nat, s: seq<Byte>)
    requires 1 <= num <= 15
    ensures Print(StringValue(num, s)) == Text(num * 8 + 2, s)
  {
    StringWire(num, s);
    hide Print, Encode;
  }

  lemma FigureIs(num: nat, n: nat)
    requires 1 <= num <= 15
    ensures Print(NonZero(num, n)) == Figure(num * 8, n)
  {
    NonZeroWire(num, n);
    hide Print, Encode;
  }

  lemma WritesMiddle(m: DemandOrder)
    ensures Print(MiddleFields(m))
         == Text(0x2a, m.recipient) + Figure(0x30, if m.deprecatedIsFulfilled then 1 else 0)
          + Figure(0x40, Uint64(m.trackingPacketStatus))
          + (Text(0x4a, m.rollappId) + Figure(0x50, Uint64(m.kind)) + Text(0x5a, m.fulfillerAddress)
             + Figure(0x60, m.creationHeight))
  {
    hide Print, LastFields, Text, Figure, Uint64;
    var (five, six, eight) := (StringValue(5, m.recipient), NonZero(6, if m.deprecatedIsFulfilled then 1 else 0),
                               EnumValue(8, m.trackingPacketStatus));
    PrintConcat(five, six + (eight + LastFields(m)));
    PrintConcat(six, eight + LastFields(m));
    PrintConcat(eight, LastFields(m));
    TextIs(5, m.recipient);
    FigureIs(6, if m.deprecatedIsFulfilled then 1 else 0);
    FigureIs(8, Uint64(m.trackingPacketStatus));
    WritesLast(m);
    FlatFour(Print(five), Print(six), Print(eight), Print(LastFields(m)));
  }

  lemma FlatFour(a: seq<Byte>, b: seq<Byte>, c: seq<Byte>, d: seq<Byte>)
    ensures a + (b + (c + d)) == a + b + c + d
  {}

  lemma WritesLast(m: DemandOrder)
    ensures Print(LastFields(m))
         == Text(0x4a, m.rollappId) + Figure(0x50, Uint64(m.kind)) + Text(0x5a, m.fulfillerAddress)
          + Figure(0x60, m.creationHeight)
  {
    hide Print, Text, Figure, Uint64;
    var (nine, ten, eleven, twelve) := (StringValue(9, m.rollappId), EnumValue(10, m.kind),
                                        StringValue(11, m.fulfillerAddress), NonZero(12, m.creationHeight));
    PrintConcat(nine, ten + (eleven + twelve));
    PrintConcat(ten, eleven + twelve);
    PrintConcat(eleven, twelve);
    TextIs(9, m.rollappId);
    FigureIs(10, Uint64(m.kind));
    TextIs(11, m.fulfillerAddress);
    FigureIs(12, m.creationHeight);
    FlatFour(Print(nine), Print(ten), Print(eleven), Print(twelve));
  }
}
