/** From the bytes of a grant to the LP table: the codec and the reload together. */
module Grants {
  import opened SdkCoins
  import opened LpModel
  import opened Protocol
  import opened LoadLps
  import V = Varint
  import P = Parser
  import R = Repeated
  import A = Authz

  /** A Go string is its bytes. */
  function Text(bs: seq<V.Byte>): string {
    seq(|bs|, i requires 0 <= i < |bs| => bs[i] as char)
  }

  /** A canonical coin list as a map; coins that are not positive do not occur in one. */
  function CoinsOf(cs: seq<Coin>): Coins {
    if cs == [] then map[]
    else
      var (rest, last) := (CoinsOf(cs[..|cs| - 1]), cs[|cs| - 1]);
      if last.amount > 0 then rest[last.denom := last.amount] else rest
  }

  function TermsFrom(c: A.RollappCriteria): Terms {
    Terms(Text(c.rollappId),
          Criteria(set d | d in c.denoms :: Text(d), CoinsOf(c.maxPrice), CoinsOf(c.spendLimit),
                   c.minFeePercentage.dec, c.operatorFeeShare.dec, c.settlementValidated))
  }

  function AllTerms(cs: seq<A.RollappCriteria>): seq<Terms> {
    seq(|cs|, i requires 0 <= i < |cs| => TermsFrom(cs[i]))
  }

  /** What `loadLPs` makes of a grant's bytes. */
  function AuthorizationOf(subs: R.Subs, value: Option<seq<V.Byte>>): Authorization {
    match value
    case None => NoValue
    case Some(bs) =>
      match P.Parse(A.AuthorizationSchema(subs), bs, 0, A.ZERO_AUTHORIZATION)
      case Err(_) => Malformed
      case Ok(g) => Decoded(AllTerms(g.rollapps))
  }

  /** Of a list without repeated denoms, every positive amount counts for its denom, and nothing else does. */
  lemma {:induction false} CoinsMean(cs: seq<Coin>)
    requires forall i, j :: 0 <= i < j < |cs| ==> cs[i].denom != cs[j].denom
    ensures forall i :: 0 <= i < |cs| ==>
              AmountOf(CoinsOf(cs), cs[i].denom) == if cs[i].amount > 0 then cs[i].amount else 0
    ensures forall d: Denom :: (forall i :: 0 <= i < |cs| ==> cs[i].denom != d) ==> AmountOf(CoinsOf(cs), d) == 0
  {
    if cs != [] {
      var n := |cs| - 1;
      CoinsMean(cs[..n]);
      assert forall i :: 0 <= i < n ==> cs[..n][i] == cs[i];
      forall i | 0 <= i < |cs|
        ensures AmountOf(CoinsOf(cs), cs[i].denom) == if cs[i].amount > 0 then cs[i].amount else 0 {
        assert i < n ==> cs[..n][i].denom != cs[n].denom;
      }
    }
    forall d: Denom | forall i :: 0 <= i < |cs| ==> cs[i].denom != d ensures AmountOf(CoinsOf(cs), d) == 0 {
      NotListed(cs, d);
    }
  }

  lemma {:induction false} NotListed(cs: seq<Coin>, d: Denom)
    requires forall i :: 0 <= i < |cs| ==> cs[i].denom != d
    ensures d !in CoinsOf(cs)
  {
    if cs != [] {
      NotListed(cs[..|cs| - 1], d);
    }
  }

  /** What becomes of each part of some criteria. */
  lemma TermsMean(c: A.RollappCriteria)
    ensures var t := TermsFrom(c);
            && |t.rollappId| == |c.rollappId|
            && (forall i :: 0 <= i < |c.rollappId| ==> t.rollappId[i] as int == c.rollappId[i])
            && (forall d :: d in t.criteria.denoms <==> exists i :: 0 <= i < |c.denoms| && d == Text(c.denoms[i]))
            && t.criteria.minFeePercentage == c.minFeePercentage.dec
            && t.criteria.operatorFeeShare == c.operatorFeeShare.dec
            && t.criteria.settlementValidated == c.settlementValidated
            && t.criteria.maxPrice == CoinsOf(c.maxPrice) && t.criteria.spendLimit == CoinsOf(c.spendLimit)
  {
    forall d ensures d in TermsFrom(c).criteria.denoms <==> exists i :: 0 <= i < |c.denoms| && d == Text(c.denoms[i]) {
      if x :| x in c.denoms && d == Text(x) {
        var i :| 0 <= i < |c.denoms| && c.denoms[i] == x;
      }
      if i :| 0 <= i < |c.denoms| && d == Text(c.denoms[i]) {
        assert c.denoms[i] in c.denoms;
      }
    }
  }

  /** A grant whose bytes do not decode ends the reload; one without a value installs nothing. */
  lemma BadBytesStop(cfg: Config, subs: R.Subs, bs: seq<V.Byte>, granter: Addr, grantee: Addr, balance: Option<Coins>)
    requires granter != "" && grantee != ""
    ensures P.Parse(A.AuthorizationSchema(subs), bs, 0, A.ZERO_AUTHORIZATION).Err? ==>
              EffectOf(cfg, Grant(granter, grantee, AuthorizationOf(subs, Some(bs))), balance).Stop?
    ensures balance.Some? ==> EffectOf(cfg, Grant(granter, grantee, AuthorizationOf(subs, None)), balance).Pass?
  {
    EffectMeans(cfg, Grant(granter, grantee, AuthorizationOf(subs, Some(bs))), balance);
    EffectMeans(cfg, Grant(granter, grantee, AuthorizationOf(subs, None)), balance);
    hide P.Parse, EffectOf;
  }

  /** Criteria an LP wrote into its grant are the ones its entry in the table has, provided the rollapp is
      supported, the share is high enough, and no later criteria for the rollapp give as much. */
  lemma GrantReachesTable(cfg: Config, subs: R.Subs, g: A.FulfillOrderAuthorization, k: nat, granter: Addr,
                          grantee: Addr, balance: Coins)
    requires subs.Lawful() && |A.AuthorizationWire(subs, g)| < V.TWO_63
    requires granter != "" && grantee != "" && k < |g.rollapps|
    requires Text(g.rollapps[k].rollappId) in cfg.supported && g.rollapps[k].operatorFeeShare.dec >= cfg.minShare
    requires forall j :: k < j < |g.rollapps| && Text(g.rollapps[j].rollappId) == Text(g.rollapps[k].rollappId) ==>
               g.rollapps[j].operatorFeeShare.dec < cfg.minShare
    ensures var value := Some(A.AuthorizationWire(subs, g));
            var effect := EffectOf(cfg, Grant(granter, grantee, AuthorizationOf(subs, value)), Some(balance));
            var (c, r) := (g.rollapps[k], Text(g.rollapps[k].rollappId));
            && effect.Put? && effect.lp.address == granter && effect.lp.funds == Funds(balance, map[])
            && r in effect.lp.rollapps
            && var entry := effect.lp.rollapps[r];
            && entry.minFeePercentage == c.minFeePercentage.dec && entry.operatorFeeShare == c.operatorFeeShare.dec
            && entry.settlementValidated == c.settlementValidated
            && entry.maxPrice == CoinsOf(c.maxPrice) && entry.spendLimit == CoinsOf(c.spendLimit)
            && forall d :: d in entry.denoms <==> exists i :: 0 <= i < |c.denoms| && d == Text(c.denoms[i])
  {
    hide P.Parse, A.AuthorizationWire, TermsFrom, Text, CoinsOf;
    A.AuthorizationRoundTrip(subs, g);
    forall j | 0 <= j < |g.rollapps|
      ensures AllTerms(g.rollapps)[j].rollappId == Text(g.rollapps[j].rollappId)
      ensures AllTerms(g.rollapps)[j].criteria.operatorFeeShare == g.rollapps[j].operatorFeeShare.dec {
      TermsKeepId(g.rollapps[j]);
    }
    TermsMean(g.rollapps[k]);
    LastAllowed(cfg, AllTerms(g.rollapps), k);
  }

  lemma TermsKeepId(c: A.RollappCriteria)
    ensures TermsFrom(c).rollappId == Text(c.rollappId)
    ensures TermsFrom(c).criteria.operatorFeeShare == c.operatorFeeShare.dec
  {}
}
