/** What the ledger says over whole runs: when reserved funds are exactly the open reservations, when a
    clamp is taken, and how balances and debits add up. */
module MoneyTheorems {
  import opened SdkCoins
  import opened LpModel
  import opened Protocol
  import opened InFlight
  import opened Links
  import opened Money

  ghost predicate BalancedRun(cfg: Config, states: seq<State>, steps: seq<Step>) {
    IsRun(cfg, states, steps) && forall i :: 0 <= i < |steps| ==> BalancedAt(states, steps, i)
  }

  /** Funds and ledger agree at every state of a run exactly when every step of it is balanced. */
  lemma InBooksThroughout(cfg: Config, states: seq<State>, steps: seq<Step>)
    requires IsRun(cfg, states, steps)
    ensures (forall n :: 0 <= n <= |steps| ==> InBooks(states[n])) <==> BalancedRun(cfg, states, steps)
  {
    hide Enabled, Apply, Balanced, Orderly, InBooks;
    if BalancedRun(cfg, states, steps) {
      forall n | 0 <= n <= |steps| ensures InBooks(states[n]) {
        RunBooks(cfg, states, steps, n);
      }
    }
    if forall n :: 0 <= n <= |steps| ==> InBooks(states[n]) {
      forall i | 0 <= i < |steps| ensures BalancedAt(states, steps, i) {
        RunOrderly(cfg, states, steps, i);
        assert Next(states[i], steps[i], states[i + 1]);
        StepBooks(states[i], steps[i]);
      }
    }
  }

  /** Each LP's reserved funds are the sum of its reservations not yet released or debited. */
  lemma ReservedIsOwed(cfg: Config, states: seq<State>, steps: seq<Step>, n: nat, a: Addr)
    requires BalancedRun(cfg, states, steps) && n <= |steps| && a in states[n].lps
    ensures states[n].lps[a].funds.reserved == Owed(states[n].ledger, a)
    ensures states[n].lps[a].funds.Solvent()
  {
    hide Orderly, BalancedAt;
    RunBooks(cfg, states, steps, n);
  }

  // ---------------------------------------------------------------- clamps

  /** The step takes an order's price off its LP's reserved funds. */
  predicate Closes(st: Step) {
    st.EvictRelease? || st.Debit? || st.Fail?
  }

  lemma ClosesWhere(s: State, st: Step)
    requires Enabled(s, st) && Closes(st)
    ensures At(s, st.p, Evicting) || At(s, st.p, Working)
  {}

  /** What an order about to give up its reservation reserved is still there, in full. */
  lemma ReservationIsCovered(s: State, p: Ptr)
    requires Orderly(s) && InBooks(s) && (At(s, p, Evicting) || At(s, p, Working))
    ensures p in s.link && Linked(s, p)
    ensures var a := s.heap[p].lpAddress;
            a in s.lps ==> IsAllGTE(s.lps[a].funds.reserved, ReservedFor(s, p))
                           && IsAllGTE(s.lps[a].funds.balance, ReservedFor(s, p))
  {
    hide Accounted, FlightInv, Tidy;
    EndHolds(s, p, if At(s, p, Evicting) then Evicting else Working);
    if s.heap[p].lpAddress in s.lps {
      OpenIsCovered(s.lps[s.heap[p].lpAddress].funds, s.ledger, s.link[p], s.base[s.heap[p].lpAddress]);
    }
  }

  /** Where the books stay in order, an order's reservation ends at a clamp exactly when its price is no
      longer the reserved amount. */
  lemma ClampExactly(s: State, st: Step)
    requires Orderly(s) && InBooks(s) && Enabled(s, st) && Closes(st) && Balanced(s, st)
    requires s.heap[st.p].lpAddress in s.lps
    ensures var (f, price) := (s.lps[s.heap[st.p].lpAddress].funds, s.heap[st.p].price);
            && (IsAllGTE(f.reserved, price) <==> price == ReservedFor(s, st.p))
            && (st.Debit? ==> (IsAllGTE(f.balance, price) <==> price == ReservedFor(s, st.p)))
  {
    ClosesWhere(s, st);
    ReservationIsCovered(s, st.p);
    hide Orderly, InBooks, IsAllGTE, ReservedFor, Linked, Enabled, At;
  }

  // ---------------------------------------------------------------- prices that stay

  /** Every open reservation an order holds was made at the order's price. */
  ghost predicate AtPrice(s: State) {
    forall p :: p in s.link && p < |s.heap| ==> ReservedFor(s, p) == s.heap[p].price
  }

  ghost predicate MoneyInv(s: State) {
    Orderly(s) && InBooks(s) && AtPrice(s)
  }

  /** The price of an order is not changed while it holds a reservation; balances come and go as in a
      balanced step. */
  predicate Steady(s: State, st: Step) {
    match st
    case Write(p, _, price) => p in s.link && p < |s.heap| ==> price == s.heap[p].price
    case Install(lp) => Owed(s.ledger, lp.address) == map[]
    case Refresh(a, b) => a in s.lps ==> IsAllGTE(b, s.lps[a].funds.reserved)
    case _ => true
  }

  ghost predicate SteadyAt(states: seq<State>, steps: seq<Step>, i: nat)
    requires i < |states| && i < |steps|
  {
    Steady(states[i], steps[i])
  }

  ghost predicate SteadyRun(cfg: Config, states: seq<State>, steps: seq<Step>) {
    IsRun(cfg, states, steps) && forall i :: 0 <= i < |steps| ==> SteadyAt(states, steps, i)
  }

  lemma SteadyIsBalanced(s: State, st: Step)
    requires MoneyInv(s) && Enabled(s, st) && Steady(s, st)
    ensures Balanced(s, st)
  {
    if Closes(st) {
      ClosesWhere(s, st);
      ReservationIsCovered(s, st.p);
    }
    hide Orderly, InBooks, Linked, ReservedFor, Enabled;
  }

  lemma QuietPrices(s: State, t: State)
    requires AtPrice(s) && t.link == s.link && t.ledger == s.ledger && |t.heap| == |s.heap|
    requires forall p: Ptr :: p < |s.heap| && p in s.link ==> t.heap[p].price == s.heap[p].price
    ensures AtPrice(t)
  {
    forall p | p in t.link && p < |t.heap| ensures ReservedFor(t, p) == t.heap[p].price {
      assert ReservedFor(s, p) == s.heap[p].price;
    }
  }

  lemma ReservedPrices(s: State, p: Ptr, a: Addr)
    requires Holds(s) && AtPrice(s) && p < |s.heap| && a in s.lps && s.heap[p].rollappId in s.lps[a].rollapps
    ensures AtPrice(Reselected(s, p, a))
  {
    hide Reserved;
    NewReservation(s);
    var t := Reselected(s, p, a);
    forall q | q in t.link && q < |t.heap| ensures ReservedFor(t, q) == t.heap[q].price {
      assert q != p ==> ReservedFor(s, q) == s.heap[q].price;
    }
  }

  lemma AcceptedPrices(s: State, o: Order, a: Addr)
    requires Holds(s) && AtPrice(s) && a in s.lps && o.rollappId in s.lps[a].rollapps
    ensures AtPrice(Accepted(s, o, a))
  {
    hide Reserved;
    NewReservation(s);
    var t := Accepted(s, o, a);
    forall q | q in t.link && q < |t.heap| ensures ReservedFor(t, q) == t.heap[q].price {
      assert q != |s.heap| ==> ReservedFor(s, q) == s.heap[q].price;
    }
  }

  /** Of the orders that go on holding a reservation, none had anything changed. */
  lemma ClosedPrices(s: State, p: Ptr, x: Status)
    requires AtPrice(s)
    ensures AtPrice(Closed(s, p, x))
  {
    var t := Closed(s, p, x);
    forall q | q in t.link && q < |t.heap| ensures ReservedFor(t, q) == t.heap[q].price {
      assert ReservedFor(s, q) == s.heap[q].price;
    }
  }

  lemma EndedPrices(s: State, p: Ptr, places: seq<seq<Stage>>)
    requires AtPrice(s) && p < |s.heap|
    ensures var u := s.(copies := places); AtPrice(ReleaseOrder(u, p)) && AtPrice(DebitOrder(u, p))
  {
    var u := s.(copies := places);
    QuietPrices(s, u);
    ClosedPrices(u, p, Released);
    ClosedPrices(u, p, Debited);
    QuietPrices(Closed(u, p, Released), ReleaseOrder(u, p));
    QuietPrices(Closed(u, p, Debited), DebitOrder(u, p));
    hide AtPrice, Closed, ReleaseFunds, DebitFunds;
  }

  lemma PoolStepPrices(s: State, st: Step)
    requires Holds(s) && AtPrice(s) && Enabled(s, st) && PoolStep(st) && Steady(s, st)
    ensures AtPrice(ApplyToPool(s, st))
  {
    if st.Accept? {
      EligibleKnowsTerms(s.lps[st.lp], st.order);
      AcceptedPrices(s, st.order, st.lp);
    } else {
      QuietPrices(s, ApplyToPool(s, st));
    }
    hide Holds, AtPrice, Accepted, Eligible;
  }

  lemma CheckStepPrices(s: State, st: Step)
    requires Holds(s) && AtPrice(s) && Enabled(s, st) && CheckStep(st)
    ensures AtPrice(ApplyToCheck(s, st))
  {
    if st.Reselect? {
      EligibleKnowsTerms(s.lps[st.lp], s.heap[st.p]);
      ReservedPrices(s, st.p, st.lp);
    } else if st.EvictRelease? {
      EndedPrices(s, st.p, Leave(s, st.p, Evicting).copies);
    } else {
      QuietPrices(s, ApplyToCheck(s, st));
    }
    hide Holds, AtPrice, Reselected, ReleaseOrder, Eligible, Keeps;
  }

  lemma WorkStepPrices(s: State, st: Step)
    requires AtPrice(s) && Enabled(s, st) && WorkStep(st)
    ensures AtPrice(ApplyToWork(s, st))
  {
    if st.Debit? || st.Fail? {
      EndedPrices(s, st.p, Leave(s, st.p, Working).copies);
      EndedPrices(s, st.p, Move(s, st.p, Working, Settled).copies);
    } else {
      QuietPrices(s, ApplyToWork(s, st));
    }
    hide AtPrice, ReleaseOrder, DebitOrder;
  }

  /** A steady step keeps the invariant, prices included. */
  lemma StepMoney(s: State, st: Step)
    requires MoneyInv(s) && Enabled(s, st) && Steady(s, st)
    ensures MoneyInv(Apply(s, st))
  {
    SteadyIsBalanced(s, st);
    StepOrderly(s, st);
    StepBooks(s, st);
    if PoolStep(st) {
      PoolStepPrices(s, st);
    } else if CheckStep(st) {
      CheckStepPrices(s, st);
    } else if WorkStep(st) {
      WorkStepPrices(s, st);
    } else {
      QuietPrices(s, Apply(s, st));
    }
    hide FlightInv, Tidy, Holds, InBooks, AtPrice, ApplyToPool, ApplyToCheck, ApplyToWork, Enabled, Balanced, Spent;
  }

  lemma {:induction false} RunMoney(cfg: Config, states: seq<State>, steps: seq<Step>, n: nat)
    requires SteadyRun(cfg, states, steps) && n <= |steps|
    ensures MoneyInv(states[n])
  {
    hide Enabled, Apply, MoneyInv;
    if n == 0 {
      StartsInOrder(cfg);
    } else {
      RunMoney(cfg, states, steps, n - 1);
      assert Next(states[n - 1], steps[n - 1], states[n]);
      assert SteadyAt(states, steps, n - 1);
      StepMoney(states[n - 1], steps[n - 1]);
    }
  }

  lemma StartsInOrder(cfg: Config)
    ensures MoneyInv(Init(cfg))
  {}

  /** A run in which reserved orders keep their prices is balanced. */
  lemma SteadyRunIsBalanced(cfg: Config, states: seq<State>, steps: seq<Step>)
    requires SteadyRun(cfg, states, steps)
    ensures BalancedRun(cfg, states, steps)
  {
    hide Enabled, Apply, MoneyInv, Steady, Balanced;
    forall i | 0 <= i < |steps| ensures BalancedAt(states, steps, i) {
      RunMoney(cfg, states, steps, i);
      assert Next(states[i], steps[i], states[i + 1]);
      assert SteadyAt(states, steps, i);
      SteadyIsBalanced(states[i], steps[i]);
    }
  }

  /** So an order that gives up its reservation finds its price there. */
  lemma PriceIsCovered(s: State, p: Ptr)
    requires MoneyInv(s) && (At(s, p, Evicting) || At(s, p, Working)) && s.heap[p].lpAddress in s.lps
    ensures IsAllGTE(s.lps[s.heap[p].lpAddress].funds.reserved, s.heap[p].price)
    ensures IsAllGTE(s.lps[s.heap[p].lpAddress].funds.balance, s.heap[p].price)
  {
    ReservationIsCovered(s, p);
    hide Orderly, InBooks, IsAllGTE, Linked, ReservedFor;
  }

  /** In such a run no clamp is ever taken. */
  lemma NoClamp(cfg: Config, states: seq<State>, steps: seq<Step>, n: nat)
    requires SteadyRun(cfg, states, steps) && n < |steps| && Closes(steps[n])
    requires steps[n].p < |states[n].heap| && states[n].heap[steps[n].p].lpAddress in states[n].lps
    ensures var o := states[n].heap[steps[n].p];
            && IsAllGTE(states[n].lps[o.lpAddress].funds.reserved, o.price)
            && IsAllGTE(states[n].lps[o.lpAddress].funds.balance, o.price)
  {
    hide Apply, Enabled, MoneyInv, IsAllGTE;
    RunMoney(cfg, states, steps, n);
    assert Next(states[n], steps[n], states[n + 1]);
    ClosesWhere(states[n], steps[n]);
    PriceIsCovered(states[n], steps[n].p);
  }

  // ---------------------------------------------------------------- balances set from outside

  /** The step sets `a`'s balance from outside. */
  predicate Resets(st: Step, a: Addr) {
    match st
    case Refresh(b, _) => b == a
    case Install(lp) => lp.address == a
    case Revoke(b) => b == a
    case _ => false
  }

  // ---------------------------------------------------------------- which step moves whose funds

  /** The LP whose funds the step moves on behalf of an order, and the order's price. */
  function Payer(s: State, st: Step): Option<(Addr, Coins)>
    requires Enabled(s, st)
  {
    if st.Accept? then Some((st.lp, st.order.price))
    else if st.Reselect? then Some((st.lp, s.heap[st.p].price))
    else if Closes(st) then Some((s.heap[st.p].lpAddress, s.heap[st.p].price))
    else None
  }

  /** A balance falls only when one of the LP's orders is fulfilled, and then by its price; funds are
      reserved only when an order is taken in or moved to the LP, and freed only when one of its orders
      is evicted, fulfilled or has failed. No other step moves an LP's funds. */
  lemma OnlyPayersMove(s: State, st: Step, a: Addr)
    requires Enabled(s, st) && a in s.lps && !Resets(st, a)
    ensures a in Apply(s, st).lps
    ensures var (before, after) := (s.lps[a].funds, Apply(s, st).lps[a].funds);
            match Payer(s, st)
            case None => after == before
            case Some((b, price)) =>
              if b != a then after == before
              else
                && after.balance == (if st.Debit? then SubOrEmpty(before.balance, price) else before.balance)
                && after.reserved
                     == if Closes(st) then SubOrEmpty(before.reserved, price) else Add(before.reserved, price)
  {
    hide Enabled, ApplyToPool, ApplyToCheck, ApplyToWork, ApplyToLps, Add, SubOrEmpty;
    if PoolStep(st) {
      PoolPayersMove(s, st, a);
    } else if CheckStep(st) {
      CheckPayersMove(s, st, a);
    } else if WorkStep(st) {
      WorkPayersMove(s, st, a);
    } else {
      LpStepsMoveNoOther(s, st, a);
    }
  }

  lemma PoolPayersMove(s: State, st: Step, a: Addr)
    requires Enabled(s, st) && PoolStep(st) && a in s.lps
    ensures a in ApplyToPool(s, st).lps
    ensures ApplyToPool(s, st).lps[a].funds
         == if st.Accept? && st.lp == a then s.lps[a].funds.Reserve(st.order.price) else s.lps[a].funds
  {
    hide Funds.Reserve, Eligible;
  }

  lemma CheckPayersMove(s: State, st: Step, a: Addr)
    requires Enabled(s, st) && CheckStep(st) && a in s.lps
    ensures a in ApplyToCheck(s, st).lps
    ensures ApplyToCheck(s, st).lps[a].funds
         == if st.Reselect? && st.lp == a then s.lps[a].funds.Reserve(s.heap[st.p].price)
            else if st.EvictRelease? && s.heap[st.p].lpAddress == a then s.lps[a].funds.Release(s.heap[st.p].price)
            else s.lps[a].funds
  {
    hide Funds.Reserve, Funds.Release, Eligible, Keeps;
  }

  lemma WorkPayersMove(s: State, st: Step, a: Addr)
    requires Enabled(s, st) && WorkStep(st) && a in s.lps
    ensures a in ApplyToWork(s, st).lps
    ensures ApplyToWork(s, st).lps[a].funds
         == if st.Debit? && s.heap[st.p].lpAddress == a then s.lps[a].funds.Debit(s.heap[st.p].price)
            else if st.Fail? && s.heap[st.p].lpAddress == a then s.lps[a].funds.Release(s.heap[st.p].price)
            else s.lps[a].funds
  {
    if Closes(st) {
      CloseMovesPayer(Leave(s, st.p, Working), st.p, a);
      CloseMovesPayer(Move(s, st.p, Working, Settled), st.p, a);
    }
    hide ReleaseOrder, DebitOrder, Funds.Debit, Funds.Release;
  }

  lemma CloseMovesPayer(s: State, p: Ptr, a: Addr)
    requires p < |s.heap| && a in s.lps
    ensures ReleaseOrder(s, p).lps[a].funds
         == if s.heap[p].lpAddress == a then s.lps[a].funds.Release(s.heap[p].price) else s.lps[a].funds
    ensures DebitOrder(s, p).lps[a].funds
         == if s.heap[p].lpAddress == a then s.lps[a].funds.Debit(s.heap[p].price) else s.lps[a].funds
  {
    hide Funds.Debit, Funds.Release;
  }

  lemma LpStepsMoveNoOther(s: State, st: Step, a: Addr)
    requires Enabled(s, st) && !PoolStep(st) && !CheckStep(st) && !WorkStep(st) && a in s.lps && !Resets(st, a)
    ensures a in ApplyToLps(s, st).lps && ApplyToLps(s, st).lps[a] == s.lps[a]
  {
    hide Spent;
  }

  // ---------------------------------------------------------------- conservation over runs

  lemma OrderStepsKeepBase(s: State, st: Step)
    requires Enabled(s, st) && (PoolStep(st) || CheckStep(st) || WorkStep(st))
    ensures Apply(s, st).base == s.base && Apply(s, st).lps.Keys == s.lps.Keys
  {
    hide Enabled, ApplyToPool, ApplyToCheck, ApplyToWork;
    if PoolStep(st) {
      PoolStepKeepsBase(s, st);
    } else if CheckStep(st) {
      CheckStepKeepsBase(s, st);
    } else {
      WorkStepKeepsBase(s, st);
    }
  }

  lemma PoolStepKeepsBase(s: State, st: Step)
    requires Enabled(s, st) && PoolStep(st)
    ensures ApplyToPool(s, st).base == s.base && ApplyToPool(s, st).lps.Keys == s.lps.Keys
  {
    hide Reserved, Eligible;
  }

  lemma CheckStepKeepsBase(s: State, st: Step)
    requires Enabled(s, st) && CheckStep(st)
    ensures ApplyToCheck(s, st).base == s.base && ApplyToCheck(s, st).lps.Keys == s.lps.Keys
  {
    hide Reserved, Eligible, Keeps, ReleaseOrder;
  }

  lemma WorkStepKeepsBase(s: State, st: Step)
    requires Enabled(s, st) && WorkStep(st)
    ensures ApplyToWork(s, st).base == s.base && ApplyToWork(s, st).lps.Keys == s.lps.Keys
  {
    hide ReleaseOrder, DebitOrder;
  }

  lemma BaseOneStep(s: State, st: Step, a: Addr)
    requires Enabled(s, st) && a in s.lps && a in s.base && !Resets(st, a)
    ensures var t := Apply(s, st); a in t.lps && a in t.base && t.base[a] == s.base[a]
  {
    hide ApplyToPool, ApplyToCheck, ApplyToWork, Spent;
    if PoolStep(st) || CheckStep(st) || WorkStep(st) {
      OrderStepsKeepBase(s, st);
    }
  }

  lemma HasBase(cfg: Config, states: seq<State>, steps: seq<Step>, i: nat, a: Addr)
    requires BalancedRun(cfg, states, steps) && i <= |steps| && a in states[i].lps
    ensures a in states[i].base
  {
    hide Orderly, BalancedAt;
    RunBooks(cfg, states, steps, i);
  }

  lemma {:induction false} BaseStays(cfg: Config, states: seq<State>, steps: seq<Step>, i: nat, n: nat, a: Addr)
    requires BalancedRun(cfg, states, steps) && i <= n <= |steps| && a in states[i].lps
    requires forall k :: i <= k < n ==> !Resets(steps[k], a)
    ensures a in states[i].base && a in states[n].lps && a in states[n].base
    ensures states[n].base[a] == states[i].base[a]
    decreases n
  {
    hide Enabled, Apply, BalancedAt;
    HasBase(cfg, states, steps, i, a);
    if i < n {
      BaseStays(cfg, states, steps, i, n - 1, a);
      assert Next(states[n - 1], steps[n - 1], states[n]);
      BaseOneStep(states[n - 1], steps[n - 1], a);
    }
  }

  /** As long as nothing outside sets the balance, balance and total debits keep their sum. */
  lemma BalanceIsConserved(cfg: Config, states: seq<State>, steps: seq<Step>, i: nat, n: nat, a: Addr)
    requires BalancedRun(cfg, states, steps) && i <= n <= |steps| && a in states[i].lps
    requires forall k :: i <= k < n ==> !Resets(steps[k], a)
    ensures a in states[n].lps
    ensures Add(states[n].lps[a].funds.balance, Spent(states[n].ledger, a))
         == Add(states[i].lps[a].funds.balance, Spent(states[i].ledger, a))
  {
    hide Orderly, BalancedAt;
    BaseStays(cfg, states, steps, i, n, a);
    RunBooks(cfg, states, steps, i);
    RunBooks(cfg, states, steps, n);
  }

}
