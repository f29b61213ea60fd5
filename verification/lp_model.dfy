/** Liquidity providers and demand orders as values: what an LP accepts, how its funds move,
    and which LP an order goes to. */
module LpModel {
  import opened SdkCoins

  type Addr = string
  type RollappId = string
  type OrderId = string

  /** `rollappCriteria`: what an LP granted for one rollapp. An empty `denoms` allows every denom,
      an empty `maxPrice` sets no limit. */
  datatype Criteria = Criteria(
    denoms: set<Denom>,
    maxPrice: Coins,
    spendLimit: Coins,
    minFeePercentage: Dec,
    operatorFeeShare: Dec,
    settlementValidated: bool)

  /** `demandOrder`. The flags `checking` and `valid` keep an order out of the next pop. */
  datatype Order = Order(
    id: OrderId,
    rollappId: RollappId,
    price: Coins,
    amount: int,
    fee: Coin,
    proofHeight: int,
    settlementValidated: bool,
    operatorFeePart: Dec,
    lpAddress: Addr,
    checking: bool,
    valid: bool)
  {
    predicate Flagged() { checking || valid }
  }

  // ---------------------------------------------------------------- funds

  datatype Funds = Funds(balance: Coins, reserved: Coins)
  {
    /** The panic-freedom condition of `spendableBalance`. */
    predicate Solvent() { IsAllGTE(balance, reserved) }

    function Reserve(amount: Coins): Funds { this.(reserved := Add(reserved, amount)) }

    function Release(amount: Coins): Funds { this.(reserved := SubOrEmpty(reserved, amount)) }

    function Debit(amount: Coins): Funds {
      Funds(SubOrEmpty(balance, amount), SubOrEmpty(reserved, amount))
    }

    /** `hasBalance`, false where the source would panic; `Solvent` is shown to hold throughout. */
    predicate Has(amount: Coins) { Solvent() && IsAllGTE(Sub(balance, reserved), amount) }
  }

  lemma HasMeansRoom(f: Funds, amount: Coins)
    ensures f.Has(amount) <==>
            forall d: Denom :: AmountOf(f.reserved, d) + AmountOf(amount, d) <= AmountOf(f.balance, d)
  {
    AllGTE(f.balance, f.reserved);
    if f.Solvent() {
      AllGTE(Sub(f.balance, f.reserved), amount);
    }
  }

  /** Reserving keeps the funds solvent exactly when the amount was available. */
  lemma ReserveKeepsSolvent(f: Funds, amount: Coins)
    requires f.Solvent()
    ensures f.Reserve(amount).Solvent() <==> f.Has(amount)
  {
    HasMeansRoom(f, amount);
    AllGTE(f.Reserve(amount).balance, f.Reserve(amount).reserved);
  }

  /** Releasing and debiting keep the funds solvent for every amount, the clamps included. */
  lemma ReleaseAndDebitKeepSolvent(f: Funds, amount: Coins)
    requires f.Solvent()
    ensures f.Release(amount).Solvent() && f.Debit(amount).Solvent()
  {
    AllGTE(f.balance, f.reserved);
    AllGTE(f.reserved, amount);
    AllGTE(f.balance, amount);
    AllGTE(f.Release(amount).balance, f.Release(amount).reserved);
    AllGTE(f.Debit(amount).balance, f.Debit(amount).reserved);
  }

  // ---------------------------------------------------------------- choosing an LP

  datatype LpVal = LpVal(address: Addr, rollapps: map<RollappId, Criteria>, funds: Funds)

  /** The six tests of `filterLPsForOrder`. */
  predicate Eligible(lp: LpVal, o: Order) {
    && o.rollappId in lp.rollapps
    && var c := lp.rollapps[o.rollappId];
    && (c.denoms == {} || o.fee.denom in c.denoms)
    && !(c.maxPrice != map[] && IsAnyGT(o.price, c.maxPrice))
    && IsAllGTE(c.spendLimit, o.price)
    && o.fee.amount >= MinFee(o.amount, c.minFeePercentage)
    && lp.funds.Has(o.price)
  }

  /** The six tests, denom by denom: the rollapp is granted, the fee's denom allowed, no price over a
      limit that is set for its denom, all of the price within the spend limit, the fee at least the
      percentage of the amount, cut to whole units, and the price on top of what is reserved within the
      balance. */
  lemma EligibleMeans(lp: LpVal, o: Order)
    ensures Eligible(lp, o) <==>
              && o.rollappId in lp.rollapps
              && var c := lp.rollapps[o.rollappId];
              && (c.denoms != {} ==> o.fee.denom in c.denoms)
              && (forall d: Denom :: AmountOf(c.maxPrice, d) > 0 ==> AmountOf(o.price, d) <= AmountOf(c.maxPrice, d))
              && (forall d: Denom :: AmountOf(o.price, d) <= AmountOf(c.spendLimit, d))
              && (if o.amount * c.minFeePercentage >= 0
                  then (o.fee.amount + 1) * 1_000_000_000_000_000_000 > o.amount * c.minFeePercentage
                  else o.fee.amount * 1_000_000_000_000_000_000 >= o.amount * c.minFeePercentage)
              && (forall d: Denom ::
                    AmountOf(lp.funds.reserved, d) + AmountOf(o.price, d) <= AmountOf(lp.funds.balance, d))
  {
    hide TruncateInt, MinFee, Funds.Has;
    HasMeansRoom(lp.funds, o.price);
    if o.rollappId in lp.rollapps {
      var c := lp.rollapps[o.rollappId];
      FeeSuffices(o.fee.amount, o.amount, c.minFeePercentage);
      AllGTE(c.spendLimit, o.price);
      NoneOver(o.price, c.maxPrice);
    }
  }

  /** An empty limit limits nothing. */
  lemma NoneOver(price: Coins, limit: Coins)
    ensures !(limit != map[] && IsAnyGT(price, limit)) <==>
            forall d: Denom :: AmountOf(limit, d) > 0 ==> AmountOf(price, d) <= AmountOf(limit, d)
  {
    if d :| d in price && d in limit && price[d] > limit[d] {
      assert AmountOf(limit, d) > 0 && AmountOf(price, d) > AmountOf(limit, d);
    }
  }

  /** The comparison `selectBestLP` sorts by: no settlement requirement first, then the higher share. */
  predicate Better(a: Criteria, b: Criteria) {
    if a.settlementValidated != b.settlementValidated then !a.settlementValidated
    else a.operatorFeeShare > b.operatorFeeShare
  }

  /** A reader's account of the same order, as one number pair per LP. */
  predicate SameRank(a: Criteria, b: Criteria) {
    a.settlementValidated == b.settlementValidated && a.operatorFeeShare == b.operatorFeeShare
  }

  lemma BetterIsStrictWeakOrder(a: Criteria, b: Criteria, c: Criteria)
    ensures !Better(a, a)
    ensures Better(a, b) ==> !Better(b, a)
    ensures Better(a, b) && Better(b, c) ==> Better(a, c)
    ensures !Better(a, b) && !Better(b, c) ==> !Better(a, c)
    ensures !Better(a, b) && !Better(b, a) <==> SameRank(a, b)
  {}

  type LpTable = map<Addr, LpVal>

  /** The LP an order already has, if that LP still passes the filter. */
  predicate Keeps(lps: LpTable, o: Order) {
    o.lpAddress != "" && o.lpAddress in lps && Eligible(lps[o.lpAddress], o)
  }

  /** `a` passes the filter and no LP that passes it is better. */
  predicate BestChoice(lps: LpTable, o: Order, a: Addr) {
    && a in lps && Eligible(lps[a], o)
    && forall b :: b in lps && Eligible(lps[b], o) ==>
         !Better(lps[b].rollapps[o.rollappId], lps[a].rollapps[o.rollappId])
  }

  /** A best choice requires settlement only if all eligible LPs do, and of those that agree with it on
      that none gives the operator more. */
  lemma BestChoiceMeans(lps: LpTable, o: Order, a: Addr)
    requires a in lps && Eligible(lps[a], o)
    ensures BestChoice(lps, o, a) <==>
              forall b :: b in lps && Eligible(lps[b], o) ==>
                var (best, other) := (lps[a].rollapps[o.rollappId], lps[b].rollapps[o.rollappId]);
                && (best.settlementValidated ==> other.settlementValidated)
                && (best.settlementValidated == other.settlementValidated ==>
                      best.operatorFeeShare >= other.operatorFeeShare)
  {}

  /** Any two best choices rank the same, so no shuffle of the LPs can change the settlement
      requirement or the operator's share an order ends up with. */
  lemma BestChoicesAgree(lps: LpTable, o: Order, a: Addr, b: Addr)
    requires BestChoice(lps, o, a) && BestChoice(lps, o, b)
    ensures SameRank(lps[a].rollapps[o.rollappId], lps[b].rollapps[o.rollappId])
  {}

  /** The order after LP `a` took it. */
  function Assign(o: Order, lps: LpTable, a: Addr): Order
    requires a in lps && o.rollappId in lps[a].rollapps
  {
    var c := lps[a].rollapps[o.rollappId];
    o.(lpAddress := a, settlementValidated := c.settlementValidated, operatorFeePart := c.operatorFeeShare)
  }

  /** The order after it kept its LP: only the settlement flag is read again. */
  function Refreshed(o: Order, lps: LpTable): Order
    requires o.lpAddress in lps && o.rollappId in lps[o.lpAddress].rollapps
  {
    o.(settlementValidated := lps[o.lpAddress].rollapps[o.rollappId].settlementValidated)
  }
}
