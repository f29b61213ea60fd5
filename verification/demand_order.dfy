/** The message of `types/eibc/demand_order.pb.go`: enums, a 64-bit number, strings and repeated coins. */
module DemandOrders {
  import opened SdkCoins
  import opened Varint
  import opened Parser
  import opened Printer
  import opened Buffers
  import opened Repeated
  import opened Authz

  type Enum = x: int | -TWO_31 <= x < TWO_31

  type Word = x: int | 0 <= x < TWO_64

  datatype DemandOrder = DemandOrder(
    id: seq<Byte>,
    trackingPacketKey: seq<Byte>,
    price: seq<Coin>,
    fee: seq<Coin>,
    recipient: seq<Byte>,
    deprecatedIsFulfilled: bool,
    trackingPacketStatus: Enum,
    rollappId: seq<Byte>,
    kind: Enum,
    fulfillerAddress: seq<Byte>,
    creationHeight: Word)

  const ZERO_ORDER: DemandOrder := DemandOrder([], [], [], [], [], false, 0, [], 0, [], 0)

  // ---------------------------------------------------------------- reading

  /** An enum keeps the low 32 bits of its varint, as a signed number. */
  function ReadNumber(m: DemandOrder, n: int, v: nat): DemandOrder {
    match n
    case 6 => m.(deprecatedIsFulfilled := v != 0)
    case 8 => m.(trackingPacketStatus := Int32(v))
    case 10 => m.(kind := Int32(v))
    case 12 => m.(creationHeight := v % TWO_64)
    case _ => m
  }

  function ReadBytes(subs: Subs, m: DemandOrder, n: int, bs: seq<Byte>): Result<DemandOrder> {
    match n
    case 1 => Ok(m.(id := bs))
    case 2 => Ok(m.(trackingPacketKey := bs))
    case 3 => Map(subs.coin.read(bs), (c: Coin) => m.(price := m.price + [c]))
    case 4 => Map(subs.coin.read(bs), (c: Coin) => m.(fee := m.fee + [c]))
    case 5 => Ok(m.(recipient := bs))
    case 9 => Ok(m.(rollappId := bs))
    case 11 => Ok(m.(fulfillerAddress := bs))
    case _ => Err(BadValue)
  }

  function KindOf(n: int): Kind {
    if n in {6, 8, 10, 12} then Number else if n in {1, 2, 3, 4, 5, 9, 11} then Bytes else Unknown
  }

  function OrderSchema(subs: Subs): Schema<DemandOrder> {
    Schema(
      n => KindOf(n),
      (m: DemandOrder, n: int, v: nat) => ReadNumber(m, n, v),
      (m: DemandOrder, n: int, bs: seq<Byte>) => ReadBytes(subs, m, n, bs))
  }

  // ---------------------------------------------------------------- writing

  /** A negative enum is sign-extended to 64 bits, which takes ten groups. */
  function EnumValue(num: nat, x: Enum): seq<Value> {
    NonZero(num, Uint64(x))
  }

  function LastFields(m: DemandOrder): seq<Value> {
    StringValue(9, m.rollappId)
      + (EnumValue(10, m.kind) + (StringValue(11, m.fulfillerAddress) + NonZero(12, m.creationHeight)))
  }

  function MiddleFields(m: DemandOrder): seq<Value> {
    StringValue(5, m.recipient)
      + (NonZero(6, if m.deprecatedIsFulfilled then 1 else 0)
         + (EnumValue(8, m.trackingPacketStatus) + LastFields(m)))
  }

  function OrderValues(subs: Subs, m: DemandOrder): seq<Value> {
    StringValue(1, m.id)
      + (StringValue(2, m.trackingPacketKey)
         + (Each(3, Prints(subs.coin, m.price)) + (Each(4, Prints(subs.coin, m.fee)) + MiddleFields(m))))
  }

  function OrderWire(subs: Subs, m: DemandOrder): seq<Byte> {
    Print(OrderValues(subs, m))
  }

  // ---------------------------------------------------------------- the round trip

  /** Sign extension to 64 bits and back to 32 loses nothing. */
  lemma EnumRoundTrip(x: Enum)
    ensures Int32(Uint64(x)) == x && (Uint64(x) == 0 <==> x == 0)
  {}

  /** A negative enum takes the longest varint there is. */
  lemma NegativeEnumIsLong(x: Enum)
    requires x < 0
    ensures |Encode(Uint64(x))| == 10
  {
    assert Uint64(x) == TWO_64 + x;
    AtMostTenGroups(Uint64(x));
    assert Power128(4) == 0x1000_0000 && Power128(9) == 128 * 128 * 128 * 128 * 128 * Power128(4);
    ManyGroups(Uint64(x), 9);
  }

  lemma {:induction false} ManyGroups(v: nat, n: nat)
    requires v >= Power128(n)
    ensures |Encode(v)| >= n + 1
  {
    if n > 0 {
      PowersGrow(n - 1);
      assert v / 128 >= Power128(n - 1);
      ManyGroups(v / 128, n - 1);
    }
  }

  lemma {:induction false} PowersGrow(n: nat)
    ensures Power128(n) >= 1
  {
    if n > 0 {
      PowersGrow(n - 1);
    }
  }

  function Price(): Lens<DemandOrder, Coin> {
    Lens((m: DemandOrder) => m.price, (m: DemandOrder, s: seq<Coin>) => m.(price := s))
  }

  function Fee(): Lens<DemandOrder, Coin> {
    Lens((m: DemandOrder) => m.fee, (m: DemandOrder, s: seq<Coin>) => m.(fee := s))
  }

  lemma LastFieldsApply(subs: Subs, m: DemandOrder, c: DemandOrder)
    requires c.rollappId == [] && c.kind == 0 && c.fulfillerAddress == [] && c.creationHeight == 0
    ensures ApplyAll(OrderSchema(subs), c, LastFields(m))
         == Ok(c.(rollappId := m.rollappId, kind := m.kind, fulfillerAddress := m.fulfillerAddress,
                  creationHeight := m.creationHeight))
  {
    var sc := OrderSchema(subs);
    var (nine, ten, eleven, twelve) := (StringValue(9, m.rollappId), EnumValue(10, m.kind),
                                        StringValue(11, m.fulfillerAddress), NonZero(12, m.creationHeight));
    var c9 := c.(rollappId := m.rollappId);
    var c10 := c9.(kind := m.kind);
    var c11 := c10.(fulfillerAddress := m.fulfillerAddress);
    EnumRoundTrip(m.kind);
    assert ApplyAll(sc, c, nine) == Ok(c9);
    ApplyConcat(sc, c, nine, ten + (eleven + twelve));
    assert ApplyAll(sc, c9, ten) == Ok(c10);
    ApplyConcat(sc, c9, ten, eleven + twelve);
    assert ApplyAll(sc, c10, eleven) == Ok(c11);
    ApplyConcat(sc, c10, eleven, twelve);
  }

  lemma MiddleFieldsApply(subs: Subs, m: DemandOrder, c: DemandOrder)
    requires c == ZERO_ORDER.(id := m.id, trackingPacketKey := m.trackingPacketKey, price := m.price, fee := m.fee)
    ensures ApplyAll(OrderSchema(subs), c, MiddleFields(m)) == Ok(m)
  {
    hide LastFields;
    var sc := OrderSchema(subs);
    var (five, six, eight) := (StringValue(5, m.recipient), NonZero(6, if m.deprecatedIsFulfilled then 1 else 0),
                               EnumValue(8, m.trackingPacketStatus));
    var c5 := c.(recipient := m.recipient);
    var c6 := c5.(deprecatedIsFulfilled := m.deprecatedIsFulfilled);
    var c8 := c6.(trackingPacketStatus := m.trackingPacketStatus);
    EnumRoundTrip(m.trackingPacketStatus);
    assert ApplyAll(sc, c, five) == Ok(c5);
    ApplyConcat(sc, c, five, six + (eight + LastFields(m)));
    assert ApplyAll(sc, c5, six) == Ok(c6);
    ApplyConcat(sc, c5, six, eight + LastFields(m));
    assert ApplyAll(sc, c6, eight) == Ok(c8);
    ApplyConcat(sc, c6, eight, LastFields(m));
    LastFieldsApply(subs, m, c8);
  }

  lemma OrderApplies(subs: Subs, m: DemandOrder)
    requires subs.Lawful()
    ensures ApplyAll(OrderSchema(subs), ZERO_ORDER, OrderValues(subs, m)) == Ok(m)
  {
    hide MiddleFields;
    var sc := OrderSchema(subs);
    var (one, two) := (StringValue(1, m.id), StringValue(2, m.trackingPacketKey));
    var (three, four) := (Each(3, Prints(subs.coin, m.price)), Each(4, Prints(subs.coin, m.fee)));
    var c1 := ZERO_ORDER.(id := m.id);
    var c2 := c1.(trackingPacketKey := m.trackingPacketKey);
    var c3 := c2.(price := m.price);
    var c4 := c3.(fee := m.fee);
    assert ApplyAll(sc, ZERO_ORDER, one) == Ok(c1);
    ApplyConcat(sc, ZERO_ORDER, one, two + (three + (four + MiddleFields(m))));
    assert ApplyAll(sc, c1, two) == Ok(c2);
    ApplyConcat(sc, c1, two, three + (four + MiddleFields(m)));
    PriceApplies(subs, c2, m.price);
    ApplyConcat(sc, c2, three, four + MiddleFields(m));
    FeeApplies(subs, c3, m.fee);
    ApplyConcat(sc, c3, four, MiddleFields(m));
    MiddleFieldsApply(subs, m, c4);
  }

  lemma PriceApplies(subs: Subs, c: DemandOrder, price: seq<Coin>)
    requires subs.Lawful() && c.price == []
    ensures ApplyAll(OrderSchema(subs), c, Each(3, Prints(subs.coin, price))) == Ok(c.(price := price))
  {
    EachApplies(OrderSchema(subs), 3, subs.coin, Price(), c, price);
    assert c.price + price == price;
  }

  lemma FeeApplies(subs: Subs, c: DemandOrder, fee: seq<Coin>)
    requires subs.Lawful() && c.fee == []
    ensures ApplyAll(OrderSchema(subs), c, Each(4, Prints(subs.coin, fee))) == Ok(c.(fee := fee))
  {
    EachApplies(OrderSchema(subs), 4, subs.coin, Fee(), c, fee);
    assert c.fee + fee == fee;
  }

  lemma OrderFits(subs: Subs, m: DemandOrder)
    ensures AllFit(OrderSchema(subs), OrderValues(subs, m))
  {
    var sc := OrderSchema(subs);
    var last, middle := LastFields(m), MiddleFields(m);
    assert AllFit(sc, last);
    assert AllFit(sc, middle);
  }

  /** Reading back the order that was written gives the order, negative enums included. */
  lemma OrderRoundTrip(subs: Subs, m: DemandOrder)
    requires subs.Lawful() && |OrderWire(subs, m)| < TWO_63
    ensures Parse(OrderSchema(subs), OrderWire(subs, m), 0, ZERO_ORDER) == Ok(m)
  {
    hide OrderValues, Parse;
    OrderApplies(subs, m);
    OrderFits(subs, m);
    RoundTrip(OrderSchema(subs), OrderValues(subs, m), ZERO_ORDER, m);
  }
}
