/** The part of the Cosmos SDK's coin and decimal arithmetic the client relies on. */
module SdkCoins {
  datatype Option<+T> = None | Some(value: T)

  type Denom = string

  /** A valid `sdk.Coins` holds each denom at most once and only positive amounts,
      so it is a finite map whose missing denoms count as zero. */
  type Coins = m: map<Denom, nat> | forall d :: d in m ==> m[d] > 0

  datatype Coin = Coin(denom: Denom, amount: int)

  function AmountOf(c: Coins, d: Denom): nat {
    if d in c then c[d] else 0
  }

  /** Two coin sets with the same amount of every denom are equal. */
  lemma SameAmounts(a: Coins, b: Coins)
    requires forall d: Denom :: AmountOf(a, d) == AmountOf(b, d)
    ensures a == b
  {
    forall d: Denom ensures d in a <==> d in b {
      assert AmountOf(a, d) == AmountOf(b, d);
    }
    forall d: Denom | d in a ensures a[d] == b[d] {
      assert AmountOf(a, d) == AmountOf(b, d);
    }
  }

  function Add(a: Coins, b: Coins): (r: Coins)
    ensures forall d: Denom :: AmountOf(r, d) == AmountOf(a, d) + AmountOf(b, d)
  {
    map d | d in a.Keys + b.Keys :: AmountOf(a, d) + AmountOf(b, d)
  }

  /** `IsAllGTE` compares denom by denom. */
  predicate IsAllGTE(a: Coins, b: Coins) {
    forall d :: d in b ==> AmountOf(a, d) >= b[d]
  }

  lemma AllGTE(a: Coins, b: Coins)
    ensures IsAllGTE(a, b) <==> forall d: Denom :: AmountOf(a, d) >= AmountOf(b, d)
  {
    if forall d: Denom :: AmountOf(a, d) >= AmountOf(b, d) {
      forall d | d in b ensures AmountOf(a, d) >= b[d] {
        assert AmountOf(a, d) >= AmountOf(b, d);
      }
    }
  }

  /** `IsAnyGT` skips every denom that the right-hand side does not hold. */
  predicate IsAnyGT(a: Coins, b: Coins) {
    exists d :: d in a && d in b && a[d] > b[d]
  }

  /** `Sub` panics when an amount would become negative: that is its precondition. */
  function Sub(a: Coins, b: Coins): (r: Coins)
    requires IsAllGTE(a, b)
    ensures forall d: Denom :: AmountOf(r, d) == AmountOf(a, d) - AmountOf(b, d)
  {
    AllGTE(a, b);
    map d | d in a && AmountOf(a, d) > AmountOf(b, d) :: AmountOf(a, d) - AmountOf(b, d)
  }

  /** `SafeSub` reports a negative amount; here that is `None`, since callers drop the difference. */
  function SafeSub(a: Coins, b: Coins): (r: Option<Coins>)
    ensures r.Some? <==> IsAllGTE(a, b)
    ensures r.Some? ==> forall d: Denom :: AmountOf(r.value, d) == AmountOf(a, d) - AmountOf(b, d)
  {
    if IsAllGTE(a, b) then Some(Sub(a, b)) else None
  }

  /** `SafeSub` and, when it fails, the empty coin set. */
  function SubOrEmpty(a: Coins, b: Coins): (r: Coins)
    ensures IsAllGTE(a, b) ==> forall d: Denom :: AmountOf(r, d) == AmountOf(a, d) - AmountOf(b, d)
    ensures !IsAllGTE(a, b) ==> forall d: Denom :: AmountOf(r, d) == 0
  {
    match SafeSub(a, b)
    case Some(diff) => diff
    case None => map[]
  }

  // ---------------------------------------------------------------- LegacyDec

  /** A `LegacyDec` is an integer scaled by ten to the eighteenth. */
  type Dec = int

  const PRECISION: int := 1_000_000_000_000_000_000

  function DecFromInt(i: int): Dec {
    i * PRECISION
  }

  /** Division by the precision, rounding half to even, away from the sign. */
  function ChopAndRound(x: int): int
    decreases x < 0
  {
    if x < 0 then -ChopAndRound(-x)
    else
      var (q, r) := (x / PRECISION, x % PRECISION);
      if r == 0 || 2 * r < PRECISION then q
      else if 2 * r > PRECISION || q % 2 == 1 then q + 1
      else q
  }

  function MulDec(a: Dec, b: Dec): Dec {
    ChopAndRound(a * b)
  }

  /** `TruncateInt` drops the fraction, toward zero. */
  function TruncateInt(a: Dec): int {
    if a < 0 then -((-a) / PRECISION) else a / PRECISION
  }

  function MinFee(amount: int, percentage: Dec): int {
    TruncateInt(MulDec(DecFromInt(amount), percentage))
  }

  lemma ChopExact(k: int)
    ensures ChopAndRound(k * PRECISION) == k
  {
    if k >= 0 {
      assert (k * PRECISION) / PRECISION == k && (k * PRECISION) % PRECISION == 0;
    } else {
      var n := -k;
      assert (n * PRECISION) / PRECISION == n && (n * PRECISION) % PRECISION == 0;
      assert -(k * PRECISION) == n * PRECISION;
    }
  }

  /** The rounding in the product never takes effect: the minimum fee is the exact
      product, truncated toward zero once. */
  lemma MinFeeIsExact(amount: int, percentage: Dec)
    ensures MinFee(amount, percentage) == TruncateInt(amount * percentage)
  {
    assert DecFromInt(amount) * percentage == (amount * percentage) * PRECISION;
    ChopExact(amount * percentage);
  }

  /** A fee is at least the minimum exactly when, in units of ten to the minus eighteenth, it is not a whole
      unit or more below the exact product; of a negative product, when it is not below it at all. */
  lemma FeeSuffices(fee: int, amount: int, percentage: Dec)
    ensures fee >= MinFee(amount, percentage)
       <==> if amount * percentage >= 0 then (fee + 1) * 1_000_000_000_000_000_000 > amount * percentage
            else fee * 1_000_000_000_000_000_000 >= amount * percentage
  {
    MinFeeIsExact(amount, percentage);
    TruncateMeans(amount * percentage);
  }

  /** Toward zero: what is cut off has the sign of the whole. */
  lemma TruncateMeans(x: Dec)
    ensures var (n, unit) := (TruncateInt(x), 1_000_000_000_000_000_000);
            && (x >= 0 ==> n * unit <= x < (n + 1) * unit) && (x < 0 ==> (n - 1) * unit < x <= n * unit)
  {}
}
