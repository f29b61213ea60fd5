/** The messages of `types/authz.pb.go`: a decimal, the criteria of one rollapp, and the grant. */
module Authz {
  import opened SdkCoins
  import opened Varint
  import opened Parser
  import opened Printer
  import opened Buffers
  import opened Repeated

  datatype DecProto = DecProto(dec: Dec)

  datatype RollappCriteria = RollappCriteria(
    rollappId: seq<Byte>,
    denoms: seq<seq<Byte>>,
    maxPrice: seq<Coin>,
    minFeePercentage: DecProto,
    operatorFeeShare: DecProto,
    settlementValidated: bool,
    spendLimit: seq<Coin>)

  datatype FulfillOrderAuthorization = FulfillOrderAuthorization(rollapps: seq<RollappCriteria>)

  /** The nil decimal of a zero message stands as zero. */
  const ZERO_DEC: DecProto := DecProto(0)
  const ZERO_CRITERIA: RollappCriteria := RollappCriteria([], [], [], ZERO_DEC, ZERO_DEC, false, [])
  const ZERO_AUTHORIZATION: FulfillOrderAuthorization := FulfillOrderAuthorization([])

  function Map<A, B>(r: Result<A>, f: A -> B): Result<B> {
    match r case Err(e) => Err(e) case Ok(x) => Ok(f(x))
  }

  // ---------------------------------------------------------------- how they are read

  function DecSchema(subs: Subs): Schema<DecProto> {
    Schema(
      n => if n == 1 then Bytes else Unknown,
      (m: DecProto, n: int, v: nat) => m,
      (m: DecProto, n: int, bs: seq<Byte>) => Map(subs.dec.read(bs), (d: Dec) => DecProto(d)))
  }

  function ReadCriteria(subs: Subs, m: RollappCriteria, n: int, bs: seq<Byte>): Result<RollappCriteria> {
    match n
    case 1 => Ok(m.(rollappId := bs))
    case 2 => Ok(m.(denoms := m.denoms + [bs]))
    case 3 => Map(subs.coin.read(bs), (c: Coin) => m.(maxPrice := m.maxPrice + [c]))
    case 4 => Map(Parse(DecSchema(subs), bs, 0, m.minFeePercentage), (d: DecProto) => m.(minFeePercentage := d))
    case 5 => Map(Parse(DecSchema(subs), bs, 0, m.operatorFeeShare), (d: DecProto) => m.(operatorFeeShare := d))
    case 7 => Map(subs.coin.read(bs), (c: Coin) => m.(spendLimit := m.spendLimit + [c]))
    case _ => Err(BadValue)
  }

  function CriteriaSchema(subs: Subs): Schema<RollappCriteria> {
    Schema(
      n => if n == 6 then Number else if 1 <= n <= 7 then Bytes else Unknown,
      (m: RollappCriteria, n: int, v: nat) => m.(settlementValidated := v != 0),
      (m: RollappCriteria, n: int, bs: seq<Byte>) => ReadCriteria(subs, m, n, bs))
  }

  function AuthorizationSchema(subs: Subs): Schema<FulfillOrderAuthorization> {
    Schema(
      n => if n == 1 then Bytes else Unknown,
      (m: FulfillOrderAuthorization, n: int, v: nat) => m,
      (m: FulfillOrderAuthorization, n: int, bs: seq<Byte>) =>
        Map(Parse(CriteriaSchema(subs), bs, 0, ZERO_CRITERIA),
            (c: RollappCriteria) => m.(rollapps := m.rollapps + [c])))
  }

  // ---------------------------------------------------------------- how they are written

  function DecValues(subs: Subs, m: DecProto): seq<Value> {
    [BytesValue(1, subs.dec.write(m.dec))]
  }

  function DecWire(subs: Subs, m: DecProto): seq<Byte> {
    Print(DecValues(subs, m))
  }

  /** The end of the criteria: the settlement flag and the spend limit. */
  function FlagAndLimit(subs: Subs, m: RollappCriteria): seq<Value> {
    NonZero(6, if m.settlementValidated then 1 else 0) + Each(7, Prints(subs.coin, m.spendLimit))
  }

  function FeesOn(subs: Subs, m: RollappCriteria): seq<Value> {
    [BytesValue(4, DecWire(subs, m.minFeePercentage))]
      + ([BytesValue(5, DecWire(subs, m.operatorFeeShare))] + FlagAndLimit(subs, m))
  }

  function CriteriaValues(subs: Subs, m: RollappCriteria): seq<Value> {
    StringValue(1, m.rollappId)
      + (Each(2, m.denoms) + (Each(3, Prints(subs.coin, m.maxPrice)) + FeesOn(subs, m)))
  }

  function CriteriaWire(subs: Subs, m: RollappCriteria): seq<Byte> {
    Print(CriteriaValues(subs, m))
  }

  function CriteriaCodec(subs: Subs): Codec<RollappCriteria> {
    Codec((c: RollappCriteria) => CriteriaWire(subs, c),
          (bs: seq<Byte>) => Parse(CriteriaSchema(subs), bs, 0, ZERO_CRITERIA))
  }

  function AuthorizationValues(subs: Subs, m: FulfillOrderAuthorization): seq<Value> {
    Each(1, Prints(CriteriaCodec(subs), m.rollapps))
  }

  function AuthorizationWire(subs: Subs, m: FulfillOrderAuthorization): seq<Byte> {
    Print(AuthorizationValues(subs, m))
  }

  // ---------------------------------------------------------------- round trips

  lemma DecRoundTrip(subs: Subs, m: DecProto, before: DecProto)
    requires subs.Lawful() && |DecWire(subs, m)| < TWO_63
    ensures Parse(DecSchema(subs), DecWire(subs, m), 0, before) == Ok(m)
  {
    RoundTrip(DecSchema(subs), DecValues(subs, m), before, m);
  }

  function Denoms(): Lens<RollappCriteria, seq<Byte>> {
    Lens((m: RollappCriteria) => m.denoms, (m: RollappCriteria, s: seq<seq<Byte>>) => m.(denoms := s))
  }

  function MaxPrice(): Lens<RollappCriteria, Coin> {
    Lens((m: RollappCriteria) => m.maxPrice, (m: RollappCriteria, s: seq<Coin>) => m.(maxPrice := s))
  }

  function SpendLimit(): Lens<RollappCriteria, Coin> {
    Lens((m: RollappCriteria) => m.spendLimit, (m: RollappCriteria, s: seq<Coin>) => m.(spendLimit := s))
  }

  function Rollapps(): Lens<FulfillOrderAuthorization, RollappCriteria> {
    Lens((m: FulfillOrderAuthorization) => m.rollapps,
         (m: FulfillOrderAuthorization, s: seq<RollappCriteria>) => m.(rollapps := s))
  }

  lemma FlagAndLimitApply(subs: Subs, m: RollappCriteria, c: RollappCriteria)
    requires subs.Lawful() && !c.settlementValidated && c.spendLimit == []
    ensures ApplyAll(CriteriaSchema(subs), c, FlagAndLimit(subs, m))
         == Ok(c.(settlementValidated := m.settlementValidated, spendLimit := m.spendLimit))
  {
    var sc := CriteriaSchema(subs);
    var flag := NonZero(6, if m.settlementValidated then 1 else 0);
    var flagged := c.(settlementValidated := m.settlementValidated);
    assert ApplyAll(sc, c, flag) == Ok(flagged);
    ApplyConcat(sc, c, flag, Each(7, Prints(subs.coin, m.spendLimit)));
    EachApplies(sc, 7, subs.coin, SpendLimit(), flagged, m.spendLimit);
    assert flagged.spendLimit + m.spendLimit == m.spendLimit;
  }

  lemma FeesOnApply(subs: Subs, m: RollappCriteria, c: RollappCriteria)
    requires subs.Lawful() && !c.settlementValidated && c.spendLimit == []
    requires |DecWire(subs, m.minFeePercentage)| < TWO_63 && |DecWire(subs, m.operatorFeeShare)| < TWO_63
    ensures ApplyAll(CriteriaSchema(subs), c, FeesOn(subs, m))
         == Ok(c.(minFeePercentage := m.minFeePercentage, operatorFeeShare := m.operatorFeeShare,
                  settlementValidated := m.settlementValidated, spendLimit := m.spendLimit))
  {
    var sc := CriteriaSchema(subs);
    var four := [BytesValue(4, DecWire(subs, m.minFeePercentage))];
    var five := [BytesValue(5, DecWire(subs, m.operatorFeeShare))];
    var c4 := c.(minFeePercentage := m.minFeePercentage);
    var c5 := c4.(operatorFeeShare := m.operatorFeeShare);
    DecRoundTrip(subs, m.minFeePercentage, c.minFeePercentage);
    DecRoundTrip(subs, m.operatorFeeShare, c4.operatorFeeShare);
    hide Parse, DecWire;
    assert ApplyAll(sc, c, four) == Ok(c4);
    assert ApplyAll(sc, c4, five) == Ok(c5);
    ApplyConcat(sc, c, four, five + FlagAndLimit(subs, m));
    ApplyConcat(sc, c4, five, FlagAndLimit(subs, m));
    FlagAndLimitApply(subs, m, c5);
  }

  lemma CriteriaApply(subs: Subs, m: RollappCriteria)
    requires subs.Lawful()
    requires |DecWire(subs, m.minFeePercentage)| < TWO_63 && |DecWire(subs, m.operatorFeeShare)| < TWO_63
    ensures ApplyAll(CriteriaSchema(subs), ZERO_CRITERIA, CriteriaValues(subs, m)) == Ok(m)
  {
    hide Parse, DecWire, FeesOn;
    var sc := CriteriaSchema(subs);
    var (one, two, three) := (StringValue(1, m.rollappId), Each(2, m.denoms), Each(3, Prints(subs.coin, m.maxPrice)));
    var c1 := ZERO_CRITERIA.(rollappId := m.rollappId);
    var c2 := c1.(denoms := m.denoms);
    var c3 := c2.(maxPrice := m.maxPrice);
    assert ApplyAll(sc, ZERO_CRITERIA, one) == Ok(c1);
    ApplyConcat(sc, ZERO_CRITERIA, one, two + (three + FeesOn(subs, m)));
    DenomsApply(subs, c1, m.denoms);
    ApplyConcat(sc, c1, two, three + FeesOn(subs, m));
    MaxPriceApplies(subs, c2, m.maxPrice);
    ApplyConcat(sc, c2, three, FeesOn(subs, m));
    FeesOnApply(subs, m, c3);
  }

  function AsIs(): Codec<seq<Byte>> {
    Codec((s: seq<Byte>) => s, (bs: seq<Byte>) => Ok(bs))
  }

  lemma DenomsApply(subs: Subs, c: RollappCriteria, denoms: seq<seq<Byte>>)
    requires c.denoms == []
    ensures ApplyAll(CriteriaSchema(subs), c, Each(2, denoms)) == Ok(c.(denoms := denoms))
  {
    EachApplies(CriteriaSchema(subs), 2, AsIs(), Denoms(), c, denoms);
    assert Prints(AsIs(), denoms) == denoms && c.denoms + denoms == denoms;
  }

  lemma MaxPriceApplies(subs: Subs, c: RollappCriteria, maxPrice: seq<Coin>)
    requires subs.Lawful() && c.maxPrice == []
    ensures ApplyAll(CriteriaSchema(subs), c, Each(3, Prints(subs.coin, maxPrice))) == Ok(c.(maxPrice := maxPrice))
  {
    EachApplies(CriteriaSchema(subs), 3, subs.coin, MaxPrice(), c, maxPrice);
    assert c.maxPrice + maxPrice == maxPrice;
  }

  lemma CriteriaFits(subs: Subs, m: RollappCriteria)
    ensures AllFit(CriteriaSchema(subs), CriteriaValues(subs, m))
  {
    hide DecWire;
  }

  /** The embedded decimals are no longer than the whole. */
  lemma CriteriaContains(subs: Subs, m: RollappCriteria)
    ensures |DecWire(subs, m.minFeePercentage)| <= |CriteriaWire(subs, m)|
    ensures |DecWire(subs, m.operatorFeeShare)| <= |CriteriaWire(subs, m)|
  {
    hide DecWire, FlagAndLimit;
    var (one, two, three) := (StringValue(1, m.rollappId), Each(2, m.denoms), Each(3, Prints(subs.coin, m.maxPrice)));
    PrintConcat(one, two + (three + FeesOn(subs, m)));
    PrintConcat(two, three + FeesOn(subs, m));
    PrintConcat(three, FeesOn(subs, m));
    FeesContain(subs, m);
  }

  lemma FeesContain(subs: Subs, m: RollappCriteria)
    ensures |DecWire(subs, m.minFeePercentage)| <= |Print(FeesOn(subs, m))|
    ensures |DecWire(subs, m.operatorFeeShare)| <= |Print(FeesOn(subs, m))|
  {
    hide DecWire, FlagAndLimit, Encode;
    var four := BytesValue(4, DecWire(subs, m.minFeePercentage));
    var five := BytesValue(5, DecWire(subs, m.operatorFeeShare));
    PrintConcat([four], [five] + FlagAndLimit(subs, m));
    PrintConcat([five], FlagAndLimit(subs, m));
    PrintOne(four);
    PrintOne(five);
  }

  /** Reading back the criteria that were written gives the criteria. */
  lemma CriteriaRoundTrip(subs: Subs, m: RollappCriteria)
    requires subs.Lawful() && |CriteriaWire(subs, m)| < TWO_63
    ensures Parse(CriteriaSchema(subs), CriteriaWire(subs, m), 0, ZERO_CRITERIA) == Ok(m)
  {
    hide DecWire, CriteriaValues, Parse;
    CriteriaContains(subs, m);
    CriteriaApply(subs, m);
    CriteriaFits(subs, m);
    RoundTrip(CriteriaSchema(subs), CriteriaValues(subs, m), ZERO_CRITERIA, m);
  }

  /** And so for a whole grant. */
  lemma AuthorizationRoundTrip(subs: Subs, m: FulfillOrderAuthorization)
    requires subs.Lawful() && |AuthorizationWire(subs, m)| < TWO_63
    ensures Parse(AuthorizationSchema(subs), AuthorizationWire(subs, m), 0, ZERO_AUTHORIZATION) == Ok(m)
  {
    hide CriteriaWire, Parse;
    var (sc, codec) := (AuthorizationSchema(subs), CriteriaCodec(subs));
    forall c | c in m.rollapps ensures Parse(CriteriaSchema(subs), CriteriaWire(subs, c), 0, ZERO_CRITERIA) == Ok(c) {
      CriteriaInside(subs, m, c);
      CriteriaRoundTrip(subs, c);
    }
    EachApplies(sc, 1, codec, Rollapps(), ZERO_AUTHORIZATION, m.rollapps);
    assert ZERO_AUTHORIZATION.rollapps + m.rollapps == m.rollapps;
    RoundTrip(sc, AuthorizationValues(subs, m), ZERO_AUTHORIZATION, m);
  }

  lemma CriteriaInside(subs: Subs, m: FulfillOrderAuthorization, c: RollappCriteria)
    requires c in m.rollapps
    ensures |CriteriaWire(subs, c)| <= |AuthorizationWire(subs, m)|
  {
    hide CriteriaWire;
    var parts := Prints(CriteriaCodec(subs), m.rollapps);
    var k :| 0 <= k < |m.rollapps| && m.rollapps[k] == c;
    assert parts[k] == CriteriaWire(subs, c);
    EachFits(1, parts, k);
  }
}
