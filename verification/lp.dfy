/** A liquidity provider as the client keeps it: an object whose funds are updated in place. */
module LpObject {
  import opened SdkCoins
  import opened LpModel

  class Lp {
    const address: Addr
    const rollapps: map<RollappId, Criteria>
    var balance: Coins
    var reservedFunds: Coins

    constructor (address: Addr, rollapps: map<RollappId, Criteria>, balance: Coins)
      ensures this.address == address && this.rollapps == rollapps
      ensures FundsNow() == Funds(balance, map[])
    {
      this.address := address;
      this.rollapps := rollapps;
      this.balance := balance;
      this.reservedFunds := map[];
    }

    function FundsNow(): Funds
      reads this
    {
      Funds(balance, reservedFunds)
    }

    function Val(): LpVal
      reads this
    {
      LpVal(address, rollapps, FundsNow())
    }

    method SetBalance(amount: Coins)
      modifies this`balance
      ensures balance == amount
    {
      balance := amount;
    }

    method ReserveFunds(amount: Coins)
      modifies this`reservedFunds
      ensures reservedFunds == Add(old(reservedFunds), amount) && balance == old(balance)
      ensures FundsNow() == old(FundsNow()).Reserve(amount)
    {
      reservedFunds := Add(reservedFunds, amount);
    }

    /** Takes the amount off the reserved funds; what does not fit empties them. */
    method ReleaseFunds(amount: Coins)
      modifies this`reservedFunds
      ensures reservedFunds == SubOrEmpty(old(reservedFunds), amount) && balance == old(balance)
      ensures FundsNow() == old(FundsNow()).Release(amount)
      ensures old(FundsNow()).Solvent() ==> FundsNow().Solvent()
    {
      ghost var before := FundsNow();
      match SafeSub(reservedFunds, amount) {
        case Some(rest) => reservedFunds := rest;
        case None => reservedFunds := map[];
      }
      if before.Solvent() {
        ReleaseAndDebitKeepSolvent(before, amount);
      }
    }

    /** Takes the amount off both; what does not fit empties the one it does not fit. */
    method DebitReservedFunds(amount: Coins)
      modifies this`reservedFunds, this`balance
      ensures reservedFunds == SubOrEmpty(old(reservedFunds), amount)
      ensures balance == SubOrEmpty(old(balance), amount)
      ensures FundsNow() == old(FundsNow()).Debit(amount)
      ensures old(FundsNow()).Solvent() ==> FundsNow().Solvent()
    {
      ghost var before := FundsNow();
      match SafeSub(reservedFunds, amount) {
        case Some(rest) => reservedFunds := rest;
        case None => reservedFunds := map[];
      }
      match SafeSub(balance, amount) {
        case Some(rest) => balance := rest;
        case None => balance := map[];
      }
      if before.Solvent() {
        ReleaseAndDebitKeepSolvent(before, amount);
      }
    }

    /** Panics unless the balance covers the reserved funds. */
    method SpendableBalance() returns (amount: Coins)
      requires FundsNow().Solvent()
      ensures Add(amount, reservedFunds) == balance
    {
      amount := Sub(balance, reservedFunds);
      SameAmounts(Add(amount, reservedFunds), balance);
    }

    method HasBalance(amount: Coins) returns (ok: bool)
      requires FundsNow().Solvent()
      ensures ok <==> forall d: Denom :: AmountOf(reservedFunds, d) + AmountOf(amount, d) <= AmountOf(balance, d)
      ensures ok <==> FundsNow().Has(amount)
    {
      var spendable := SpendableBalance();
      ok := IsAllGTE(spendable, amount);
      SameAmounts(spendable, Sub(balance, reservedFunds));
      HasMeansRoom(FundsNow(), amount);
    }
  }
}
