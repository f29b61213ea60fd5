/** The bytes of the messages of `types/authz.pb.go`: which field stands behind which tag, read and written. */
module AuthzWire {
  import opened SdkCoins
  import opened Varint
  import opened Parser
  import opened Printer
  import opened Repeated
  import opened Authz

  // ---------------------------------------------------------------- read

  lemma ReadsDec(subs: Subs, d: Dec, m: DecProto)
    requires subs.Lawful() && |[0x0a] + Encode(|subs.dec.write(d)|) + subs.dec.write(d)| < TWO_63
    ensures Parse(DecSchema(subs), [0x0a] + Encode(|subs.dec.write(d)|) + subs.dec.write(d), 0, m) == Ok(DecProto(d))
  {
    ReadsBytes(DecSchema(subs), 1, subs.dec.write(d), m);
    hide Parse, Encode;
  }

  /** Strings: the rollapp's id behind 0x0a, a denom behind 0x12. */
  lemma ReadsStrings(subs: Subs, s: seq<Byte>, m: RollappCriteria)
    requires |[0x0a] + Encode(|s|) + s| < TWO_63
    ensures Parse(CriteriaSchema(subs), [0x0a] + Encode(|s|) + s, 0, m) == Ok(m.(rollappId := s))
    ensures Parse(CriteriaSchema(subs), [0x12] + Encode(|s|) + s, 0, m) == Ok(m.(denoms := m.denoms + [s]))
  {
    hide Parse, Encode;
    ReadsBytes(CriteriaSchema(subs), 1, s, m);
    ReadsBytes(CriteriaSchema(subs), 2, s, m);
  }

  /** Coins: one of the maximum price behind 0x1a, one of the spend limit behind 0x3a. */
  lemma ReadsCoins(subs: Subs, c: Coin, m: RollappCriteria)
    requires subs.Lawful() && |[0x1a] + Encode(|subs.coin.write(c)|) + subs.coin.write(c)| < TWO_63
    ensures Parse(CriteriaSchema(subs), [0x1a] + Encode(|subs.coin.write(c)|) + subs.coin.write(c), 0, m)
         == Ok(m.(maxPrice := m.maxPrice + [c]))
    ensures Parse(CriteriaSchema(subs), [0x3a] + Encode(|subs.coin.write(c)|) + subs.coin.write(c), 0, m)
         == Ok(m.(spendLimit := m.spendLimit + [c]))
  {
    hide Parse, Encode;
    var bs := subs.coin.write(c);
    assert subs.coin.read(bs) == Ok(c);
    ReadsBytes(CriteriaSchema(subs), 3, bs, m);
    ReadsBytes(CriteriaSchema(subs), 7, bs, m);
  }

  /** Decimals: the minimum fee behind 0x22, the operator's share behind 0x2a. */
  lemma ReadsFees(subs: Subs, d: DecProto, m: RollappCriteria)
    requires subs.Lawful() && |[0x22] + Encode(|DecWire(subs, d)|) + DecWire(subs, d)| < TWO_63
    ensures Parse(CriteriaSchema(subs), [0x22] + Encode(|DecWire(subs, d)|) + DecWire(subs, d), 0, m)
         == Ok(m.(minFeePercentage := d))
    ensures Parse(CriteriaSchema(subs), [0x2a] + Encode(|DecWire(subs, d)|) + DecWire(subs, d), 0, m)
         == Ok(m.(operatorFeeShare := d))
  {
    hide Parse, Encode, DecWire;
    ReadsBytes(CriteriaSchema(subs), 4, DecWire(subs, d), m);
    ReadsBytes(CriteriaSchema(subs), 5, DecWire(subs, d), m);
    DecRoundTrip(subs, d, m.minFeePercentage);
    DecRoundTrip(subs, d, m.operatorFeeShare);
  }

  /** The settlement flag behind 0x30: any number but zero sets it. */
  lemma ReadsFlag(subs: Subs, n: nat, m: RollappCriteria)
    requires n < TWO_64
    ensures Parse(CriteriaSchema(subs), [0x30] + Encode(n), 0, m) == Ok(m.(settlementValidated := n != 0))
  {
    ReadsNumber(CriteriaSchema(subs), 6, n, m);
    hide Parse, Encode;
  }

  /** Criteria in a grant, each behind 0x0a. */
  lemma ReadsCriteria(subs: Subs, c: RollappCriteria, m: FulfillOrderAuthorization)
    requires subs.Lawful() && |[0x0a] + Encode(|CriteriaWire(subs, c)|) + CriteriaWire(subs, c)| < TWO_63
    ensures Parse(AuthorizationSchema(subs), [0x0a] + Encode(|CriteriaWire(subs, c)|) + CriteriaWire(subs, c), 0, m)
         == Ok(m.(rollapps := m.rollapps + [c]))
  {
    hide Parse, Encode, CriteriaWire;
    ReadsBytes(AuthorizationSchema(subs), 1, CriteriaWire(subs, c), m);
    CriteriaRoundTrip(subs, c);
  }

  // ---------------------------------------------------------------- written

  lemma WritesDec(subs: Subs, m: DecProto)
    ensures DecWire(subs, m) == [0x0a] + Encode(|subs.dec.write(m.dec)|) + subs.dec.write(m.dec)
  {
    BytesWire(1, subs.dec.write(m.dec));
    PrintOne(BytesValue(1, subs.dec.write(m.dec)));
    hide Encode;
  }

  /** Fields in the order of their numbers; an empty id and a false flag are not written, the decimals
      always are. */
  lemma WritesCriteria(subs: Subs, m: RollappCriteria)
    ensures var (fee, share) := (DecWire(subs, m.minFeePercentage), DecWire(subs, m.operatorFeeShare));
            CriteriaWire(subs, m)
              == (if m.rollappId == [] then [] else [0x0a] + Encode(|m.rollappId|) + m.rollappId)
               + Pieces(0x12, m.denoms)
               + Pieces(0x1a, Prints(subs.coin, m.maxPrice))
               + ([0x22] + Encode(|fee|) + fee) + ([0x2a] + Encode(|share|) + share)
               + (if m.settlementValidated then [0x30, 1] else [])
               + Pieces(0x3a, Prints(subs.coin, m.spendLimit))
  {
    hide Encode, DecWire, Each, Pieces, Print, WireOf, StringValue, NonZero;
    var (one, two, three) := (StringValue(1, m.rollappId), Each(2, m.denoms), Each(3, Prints(subs.coin, m.maxPrice)));
    PrintConcat(one, two + (three + FeesOn(subs, m)));
    PrintConcat(two, three + FeesOn(subs, m));
    PrintConcat(three, FeesOn(subs, m));
    StringWire(1, m.rollappId);
    EachWire(2, m.denoms);
    EachWire(3, Prints(subs.coin, m.maxPrice));
    WritesFeesOn(subs, m);
    var (fee, share) := (DecWire(subs, m.minFeePercentage), DecWire(subs, m.operatorFeeShare));
    Flat(Print(one), Print(two), Print(three), [0x22] + Encode(|fee|) + fee, [0x2a] + Encode(|share|) + share,
         if m.settlementValidated then [0x30, 1] else [], Pieces(0x3a, Prints(subs.coin, m.spendLimit)));
  }

  lemma Flat(a: seq<Byte>, b: seq<Byte>, c: seq<Byte>, d: seq<Byte>, e: seq<Byte>, f: seq<Byte>, g: seq<Byte>)
    ensures a + (b + (c + (d + e + f + g))) == a + b + c + d + e + f + g
  {}

  lemma WritesFeesOn(subs: Subs, m: RollappCriteria)
    ensures var (fee, share) := (DecWire(subs, m.minFeePercentage), DecWire(subs, m.operatorFeeShare));
            Print(FeesOn(subs, m))
              == ([0x22] + Encode(|fee|) + fee) + ([0x2a] + Encode(|share|) + share)
               + (if m.settlementValidated then [0x30, 1] else []) + Pieces(0x3a, Prints(subs.coin, m.spendLimit))
  {
    var flag := if m.settlementValidated then 1 else 0;
    assert Encode(1) == [1] && [0x30] + [1] == [0x30, 1];
    NonZeroWire(6, flag);
    EachWire(7, Prints(subs.coin, m.spendLimit));
    hide Encode, DecWire, Each, Pieces, Print, WireOf, NonZero;
    var (four, five) := (BytesValue(4, DecWire(subs, m.minFeePercentage)),
                         BytesValue(5, DecWire(subs, m.operatorFeeShare)));
    PrintConcat([four], [five] + FlagAndLimit(subs, m));
    PrintConcat([five], FlagAndLimit(subs, m));
    PrintConcat(NonZero(6, flag), Each(7, Prints(subs.coin, m.spendLimit)));
    PrintOne(four);
    PrintOne(five);
    BytesWire(4, DecWire(subs, m.minFeePercentage));
    BytesWire(5, DecWire(subs, m.operatorFeeShare));
  }

  lemma WritesAuthorization(subs: Subs, m: FulfillOrderAuthorization)
    ensures AuthorizationWire(subs, m)
         == Pieces(0x0a, seq(|m.rollapps|, i requires 0 <= i < |m.rollapps| => CriteriaWire(subs, m.rollapps[i])))
  {
    hide CriteriaWire, Pieces, Each, Print;
    EachWire(1, Prints(CriteriaCodec(subs), m.rollapps));
    assert Prints(CriteriaCodec(subs), m.rollapps)
        == seq(|m.rollapps|, i requires 0 <= i < |m.rollapps| => CriteriaWire(subs, m.rollapps[i]));
  }
}
