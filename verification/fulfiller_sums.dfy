/** How a batch moves the money: balances fall by the fulfilled orders' prices, exactly. */
module FulfillerSums {
  import opened SdkCoins
  import opened LpModel
  import opened Protocol
  import opened InFlight
  import opened Money
  import opened MoneyTheorems
  import opened Slices
  import opened Pool
  import opened Traces
  import opened Fulfiller

  /** The total price of the listed orders that are on LP `a`. */
  function Prices(heap: seq<Order>, ps: seq<Ptr>, a: Addr): Coins
    requires Within(ps, heap)
  {
    if ps == [] then map[]
    else
      var (init, o) := (ps[..|ps| - 1], heap[ps[|ps| - 1]]);
      if o.lpAddress == a then Add(Prices(heap, init, a), o.price) else Prices(heap, init, a)
  }

  /** `before` is `after` and the amount. */
  predicate FellBy(before: Coins, after: Coins, amount: Coins) {
    Add(after, amount) == before
  }

  lemma FallNeedsCover(before: Coins, after: Coins, amount: Coins)
    requires FellBy(before, after, amount)
    ensures IsAllGTE(before, amount)
  {}

  lemma FallsAgain(a: Coins, b: Coins, sum: Coins, price: Coins)
    requires FellBy(a, b, sum) && IsAllGTE(a, Add(sum, price))
    ensures FellBy(a, SubOrEmpty(b, price), Add(sum, price))
  {
    forall d: Denom ensures AmountOf(b, d) >= AmountOf(price, d) {
      assert AmountOf(a, d) == AmountOf(b, d) + AmountOf(sum, d);
      AllGTE(a, Add(sum, price));
      assert AmountOf(a, d) >= AmountOf(Add(sum, price), d);
    }
    AllGTE(b, price);
    SameAmounts(Add(SubOrEmpty(b, price), Add(sum, price)), a);
  }

  lemma CoverShrinks(a: Coins, sum: Coins, price: Coins)
    requires IsAllGTE(a, Add(sum, price))
    ensures IsAllGTE(a, sum)
  {
    AllGTE(a, Add(sum, price));
    forall d: Denom ensures AmountOf(a, d) >= AmountOf(sum, d) {
      assert AmountOf(a, d) >= AmountOf(Add(sum, price), d);
    }
    AllGTE(a, sum);
  }

  lemma DebitStepFunds(s: State, p: Ptr, a: Addr)
    requires Enabled(s, Step.Debit(p)) && a in s.lps
    ensures var t := Apply(s, Step.Debit(p));
            && t.heap == s.heap && a in t.lps
            && t.lps[a].funds == if s.heap[p].lpAddress == a then s.lps[a].funds.Debit(s.heap[p].price)
                                 else s.lps[a].funds
  {
    OnlyPayersMove(s, Step.Debit(p), a);
    DebitKeepsOrders(s, p);
    hide Enabled, Apply, SubOrEmpty;
  }

  lemma DebitKeepsOrders(s: State, p: Ptr)
    requires Enabled(s, Step.Debit(p))
    ensures Apply(s, Step.Debit(p)).heap == s.heap
  {
    hide DebitOrder;
  }

  /** The balance falls by exactly the sum of the prices debited if and only if it covered that sum,
      and so do the reserved funds. */
  lemma {:induction false} DebitsAreExact(s: State, ps: seq<Ptr>, t: State, a: Addr)
    requires Exec(s, Debits(ps)) == Some(t) && Within(ps, s.heap) && a in s.lps
    ensures t.heap == s.heap && a in t.lps
    ensures FellBy(s.lps[a].funds.balance, t.lps[a].funds.balance, Prices(s.heap, ps, a))
       <==> IsAllGTE(s.lps[a].funds.balance, Prices(s.heap, ps, a))
    ensures FellBy(s.lps[a].funds.reserved, t.lps[a].funds.reserved, Prices(s.heap, ps, a))
       <==> IsAllGTE(s.lps[a].funds.reserved, Prices(s.heap, ps, a))
  {
    hide Enabled, Apply, IsAllGTE, FellBy, SubOrEmpty;
    var (f, g, sum) := (s.lps[a].funds, t.lps, Prices(s.heap, ps, a));
    if ps == [] {
      NothingFalls(f.balance);
      NothingFalls(f.reserved);
    } else {
      var init, p := ps[..|ps| - 1], ps[|ps| - 1];
      assert Debits(ps)[..|ps| - 1] == Debits(init);
      var u := Exec(s, Debits(init)).value;
      DebitsAreExact(s, init, u, a);
      DebitStepFunds(u, p, a);
      var before := Prices(s.heap, init, a);
      if s.heap[p].lpAddress == a {
        FallsOn(f.balance, u.lps[a].funds.balance, before, s.heap[p].price);
        FallsOn(f.reserved, u.lps[a].funds.reserved, before, s.heap[p].price);
      }
    }
  }

  lemma NothingFalls(a: Coins)
    ensures FellBy(a, a, map[]) && IsAllGTE(a, map[])
  {
    SameAmounts(Add(a, map[]), a);
  }

  lemma FallsOn(a: Coins, b: Coins, sum: Coins, price: Coins)
    requires FellBy(a, b, sum) <==> IsAllGTE(a, sum)
    ensures FellBy(a, SubOrEmpty(b, price), Add(sum, price)) <==> IsAllGTE(a, Add(sum, price))
  {
    hide SubOrEmpty;
    if IsAllGTE(a, Add(sum, price)) {
      CoverShrinks(a, sum, price);
      FallsAgain(a, b, sum, price);
    }
    if FellBy(a, SubOrEmpty(b, price), Add(sum, price)) {
      FallNeedsCover(a, SubOrEmpty(b, price), Add(sum, price));
    }
  }

  // ---------------------------------------------------------------- over the whole batch

  lemma QuietStep(s: State, st: Step, a: Addr)
    requires Enabled(s, st) && (st.Fail? || st.Abandon?) && a in s.lps
    ensures var t := Apply(s, st); a in t.lps && t.lps[a].funds.balance == s.lps[a].funds.balance
  {
    OnlyPayersMove(s, st, a);
    hide Enabled, Apply;
  }

  /** Failed and abandoned orders cost nothing. */
  lemma {:induction false} QuietSteps(s: State, steps: seq<Step>, t: State, a: Addr)
    requires Exec(s, steps) == Some(t) && a in s.lps
    requires forall st :: st in steps ==> st.Fail? || st.Abandon?
    ensures a in t.lps && t.lps[a].funds.balance == s.lps[a].funds.balance
  {
    hide Enabled, Apply;
    if steps != [] {
      var init, last := steps[..|steps| - 1], steps[|steps| - 1];
      assert last in steps;
      QuietSteps(s, init, Exec(s, init).value, a);
      QuietStep(Exec(s, init).value, last, a);
    }
  }

  lemma {:induction false} ExecParts(s: State, xs: seq<Step>, ys: seq<Step>)
    requires Exec(s, xs + ys).Some?
    ensures Exec(s, xs).Some?
    decreases |ys|
  {
    if ys == [] {
      assert xs + ys == xs;
    } else {
      assert (xs + ys)[..|xs + ys| - 1] == xs + ys[..|ys| - 1];
      ExecParts(s, xs, ys[..|ys| - 1]);
    }
  }

  /** Whatever becomes of a batch, each LP's balance falls by exactly the sum of the prices of its
      orders reported as fulfilled, if and only if it covered that sum. */
  lemma BatchIsExact(s: State, txs: seq<seq<Ptr>>, replies: seq<Reply>, k: nat, t: State, a: Addr)
    requires k <= |txs| == |replies| && Within(Flatten(txs), s.heap) && a in s.lps
    requires Exec(s, Split(s.heap, txs, replies, k).1) == Some(t)
    ensures a in t.lps && Within(Flatten(txs[..k]), s.heap)
    ensures var sum := Prices(s.heap, Flatten(txs[..k]), a);
            FellBy(s.lps[a].funds.balance, t.lps[a].funds.balance, sum) <==> IsAllGTE(s.lps[a].funds.balance, sum)
  {
    hide Exec, FellBy, Prices, Debits, IsAllGTE, IsGasError, IsRpcError;
    WithinParts(s.heap, txs, k);
    var done, all := Flatten(txs[..k]), Split(s.heap, txs, replies, k).1;
    if all == Debits(done) {
      DebitsAreExact(s, done, t, a);
    } else {
      var rpc := replies[k].Failed? && IsRpcError(replies[k].error);
      var rest := Fails(txs[k], rpc) + Abandons(Flatten(txs[k + 1..]));
      assert all == Debits(done) + rest;
      ExecParts(s, Debits(done), rest);
      ExecConcat(s, Debits(done), rest);
      var u := Exec(s, Debits(done)).value;
      DebitsAreExact(s, done, u, a);
      QuietSteps(u, rest, t, a);
    }
  }

  /** With the books in order, every sum is covered. */
  lemma {:induction false} BooksCoverDebits(s: State, ps: seq<Ptr>, t: State, a: Addr)
    requires MoneyInv(s) && Exec(s, Debits(ps)) == Some(t) && Within(ps, s.heap) && a in s.lps
    ensures MoneyInv(t)
    ensures IsAllGTE(s.lps[a].funds.balance, Prices(s.heap, ps, a))
    ensures IsAllGTE(s.lps[a].funds.reserved, Prices(s.heap, ps, a))
  {
    hide MoneyInv, IsAllGTE, FellBy, Enabled, Apply, SubOrEmpty, Add;
    if ps == [] {
      NothingFalls(s.lps[a].funds.balance);
      NothingFalls(s.lps[a].funds.reserved);
    } else {
      var init, p := ps[..|ps| - 1], ps[|ps| - 1];
      assert Debits(ps)[..|ps| - 1] == Debits(init);
      var u := Exec(s, Debits(init)).value;
      BooksCoverDebits(s, init, u, a);
      DebitsAreExact(s, init, u, a);
      IsAtWork(u, p);
      StepMoney(u, Step.Debit(p));
      if s.heap[p].lpAddress == a {
        var before := Prices(s.heap, init, a);
        PriceIsCovered(u, p);
        CoverGrows(s.lps[a].funds.balance, u.lps[a].funds.balance, before, s.heap[p].price);
        CoverGrows(s.lps[a].funds.reserved, u.lps[a].funds.reserved, before, s.heap[p].price);
      }
    }
  }

  lemma IsAtWork(s: State, p: Ptr)
    requires Enabled(s, Step.Debit(p))
    ensures At(s, p, Working)
  {}

  lemma CoverGrows(a: Coins, b: Coins, sum: Coins, price: Coins)
    requires FellBy(a, b, sum) && IsAllGTE(b, price)
    ensures IsAllGTE(a, Add(sum, price))
  {
    AllGTE(b, price);
    forall d: Denom ensures AmountOf(a, d) >= AmountOf(Add(sum, price), d) {
      assert AmountOf(a, d) == AmountOf(b, d) + AmountOf(sum, d);
    }
    AllGTE(a, Add(sum, price));
  }

  /** In a steady run, then, each LP's balance falls by exactly the prices of its fulfilled orders. */
  lemma SteadyBatchIsExact(cfg: Config, states: seq<State>, before: seq<Step>,
                           txs: seq<seq<Ptr>>, replies: seq<Reply>, k: nat, t: State, a: Addr)
    requires SteadyRun(cfg, states, before)
    requires var s := states[|before|];
             && k <= |txs| == |replies| && Within(Flatten(txs), s.heap) && a in s.lps
             && Exec(s, Split(s.heap, txs, replies, k).1) == Some(t)
    ensures var s := states[|before|];
            && a in t.lps && Within(Flatten(txs[..k]), s.heap)
            && FellBy(s.lps[a].funds.balance, t.lps[a].funds.balance, Prices(s.heap, Flatten(txs[..k]), a))
  {
    hide Exec, FellBy, Prices, IsAllGTE, IsGasError, IsRpcError, MoneyInv;
    var s := states[|before|];
    var done := Flatten(txs[..k]);
    RunMoney(cfg, states, before, |before|);
    BatchIsExact(s, txs, replies, k, t, a);
    var u := DebitsComeFirst(s, txs, replies, k, t);
    BooksCoverDebits(s, done, u, a);
  }

  lemma DebitsComeFirst(s: State, txs: seq<seq<Ptr>>, replies: seq<Reply>, k: nat, t: State) returns (u: State)
    requires k <= |txs| == |replies| && Within(Flatten(txs), s.heap)
    requires Exec(s, Split(s.heap, txs, replies, k).1) == Some(t)
    ensures Exec(s, Debits(Flatten(txs[..k]))) == Some(u)
  {
    hide Exec, IsGasError, IsRpcError, Debits;
    var done, all := Flatten(txs[..k]), Split(s.heap, txs, replies, k).1;
    if all == Debits(done) {
      u := t;
    } else {
      var rpc := replies[k].Failed? && IsRpcError(replies[k].error);
      var rest := Fails(txs[k], rpc) + Abandons(Flatten(txs[k + 1..]));
      assert all == Debits(done) + rest;
      ExecParts(s, Debits(done), rest);
      u := Exec(s, Debits(done)).value;
    }
  }
}
