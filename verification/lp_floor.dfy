/** Two facts about LPs that hold over every run whatever else happens: no spendable balance goes
    negative, and every order carries at least the operator's minimum share. */
module LpFloor {
  import opened SdkCoins
  import opened LpModel
  import opened Protocol

  // ---------------------------------------------------------------- no negative spendable balance

  ghost predicate AllSolvent(lps: LpTable) {
    forall a :: a in lps ==> lps[a].funds.Solvent()
  }

  /** A refreshed balance covers what is reserved. Nothing else is asked for: prices may be
      overwritten while reserved, clamps may hit, grants may be reloaded. */
  predicate Covers(s: State, st: Step) {
    st.Refresh? && st.lp in s.lps ==> IsAllGTE(st.balance, s.lps[st.lp].funds.reserved)
  }

  lemma SetSolvent(lps: LpTable, a: Addr, f: Funds)
    requires AllSolvent(lps) && a in lps && f.Solvent()
    ensures AllSolvent(SetFunds(lps, a, f))
  {
    hide Funds.Solvent;
  }

  lemma ReserveSolvent(lps: LpTable, a: Addr, amount: Coins)
    requires AllSolvent(lps) && a in lps && lps[a].funds.Has(amount)
    ensures AllSolvent(SetFunds(lps, a, lps[a].funds.Reserve(amount)))
  {
    ReserveKeepsSolvent(lps[a].funds, amount);
    hide Funds.Reserve, Funds.Solvent;
    SetSolvent(lps, a, lps[a].funds.Reserve(amount));
  }

  lemma CloseSolvent(lps: LpTable, a: Addr, amount: Coins)
    requires AllSolvent(lps)
    ensures AllSolvent(ReleaseFunds(lps, a, amount)) && AllSolvent(DebitFunds(lps, a, amount))
  {
    hide Funds.Release, Funds.Debit, Funds.Solvent;
    if a in lps {
      ReleaseAndDebitKeepSolvent(lps[a].funds, amount);
      SetSolvent(lps, a, lps[a].funds.Release(amount));
      SetSolvent(lps, a, lps[a].funds.Debit(amount));
    }
  }

  lemma PoolStepSolvent(s: State, st: Step)
    requires AllSolvent(s.lps) && Enabled(s, st) && PoolStep(st)
    ensures AllSolvent(Apply(s, st).lps)
  {
    if st.Accept? {
      ReserveSolvent(s.lps, st.lp, st.order.price);
    }
    hide AllSolvent, Funds.Reserve, Eligible;
  }

  lemma CheckStepSolvent(s: State, st: Step)
    requires AllSolvent(s.lps) && Enabled(s, st) && CheckStep(st)
    ensures AllSolvent(Apply(s, st).lps)
  {
    if st.Reselect? {
      ReserveSolvent(s.lps, st.lp, s.heap[st.p].price);
    } else if st.EvictRelease? {
      CloseSolvent(s.lps, s.heap[st.p].lpAddress, s.heap[st.p].price);
    }
    hide AllSolvent, Funds.Reserve, ReleaseFunds, Eligible, Keeps;
  }

  lemma WorkStepSolvent(s: State, st: Step)
    requires AllSolvent(s.lps) && Enabled(s, st) && WorkStep(st)
    ensures AllSolvent(Apply(s, st).lps)
  {
    hide AllSolvent, ReleaseFunds, DebitFunds;
    CloseSolvent(s.lps, s.heap[st.p].lpAddress, s.heap[st.p].price);
  }

  lemma LpStepSolvent(s: State, st: Step)
    requires AllSolvent(s.lps) && Enabled(s, st) && !PoolStep(st) && !CheckStep(st) && !WorkStep(st)
    requires Covers(s, st)
    ensures AllSolvent(Apply(s, st).lps)
  {
    hide Spent;
  }

  lemma StepSolvent(s: State, st: Step)
    requires AllSolvent(s.lps) && Enabled(s, st) && Covers(s, st)
    ensures AllSolvent(Apply(s, st).lps)
  {
    hide AllSolvent, Enabled, Apply, Covers;
    if PoolStep(st) {
      PoolStepSolvent(s, st);
    } else if CheckStep(st) {
      CheckStepSolvent(s, st);
    } else if WorkStep(st) {
      WorkStepSolvent(s, st);
    } else {
      LpStepSolvent(s, st);
    }
  }

  /** `spendableBalance` never subtracts below zero. */
  lemma {:induction false} SpendableNeverNegative(cfg: Config, states: seq<State>, steps: seq<Step>, n: nat)
    requires IsRun(cfg, states, steps) && n <= |steps|
    requires forall i :: 0 <= i < n ==> Covers(states[i], steps[i])
    ensures AllSolvent(states[n].lps)
  {
    hide Enabled, Apply, Covers;
    if n > 0 {
      SpendableNeverNegative(cfg, states, steps, n - 1);
      assert Next(states[n - 1], steps[n - 1], states[n]);
      StepSolvent(states[n - 1], steps[n - 1]);
    }
  }

  /** A balance below what is reserved is the one thing that breaks it, on the spot. */
  lemma RefreshBelowReserved(s: State, a: Addr, b: Coins)
    requires AllSolvent(s.lps) && a in s.lps
    ensures AllSolvent(Rebalanced(s, a, b).lps) <==> Covers(s, Refresh(a, b))
  {
    var t := Rebalanced(s, a, b);
    assert t.lps[a].funds.Solvent() <==> IsAllGTE(b, s.lps[a].funds.reserved);
    hide Funds.Solvent, Spent;
  }

  // ---------------------------------------------------------------- the operator's share

  predicate OrderFloor(cfg: Config, o: Order) {
    o.operatorFeePart >= cfg.minShare && o.rollappId in cfg.supported
  }

  ghost predicate OrdersFloor(cfg: Config, heap: seq<Order>) {
    forall p :: 0 <= p < |heap| ==> OrderFloor(cfg, heap[p])
  }

  /** Each LP is keyed by its own address and passed `loadLPs`. */
  ghost predicate LpsFloor(cfg: Config, lps: LpTable) {
    forall a :: a in lps ==> lps[a].address == a && Granted(cfg, lps[a])
  }

  ghost predicate Floor(s: State) {
    LpsFloor(s.cfg, s.lps) && OrdersFloor(s.cfg, s.heap)
  }

  /** Moving funds changes no LP's terms. */
  lemma FundsFloor(cfg: Config, lps: LpTable, a: Addr, f: Funds)
    requires LpsFloor(cfg, lps) && a in lps
    ensures LpsFloor(cfg, SetFunds(lps, a, f))
  {}

  lemma CloseFloor(cfg: Config, lps: LpTable, a: Addr, amount: Coins)
    requires LpsFloor(cfg, lps)
    ensures LpsFloor(cfg, ReleaseFunds(lps, a, amount)) && LpsFloor(cfg, DebitFunds(lps, a, amount))
  {
    hide Funds.Release, Funds.Debit, LpsFloor;
    if a in lps {
      FundsFloor(cfg, lps, a, lps[a].funds.Release(amount));
      FundsFloor(cfg, lps, a, lps[a].funds.Debit(amount));
    }
  }

  lemma AssignFloor(s: State, o: Order, a: Addr)
    requires Floor(s) && BestChoice(s.lps, o, a)
    ensures OrderFloor(s.cfg, Assign(o, s.lps, a))
    ensures LpsFloor(s.cfg, SetFunds(s.lps, a, s.lps[a].funds.Reserve(o.price)))
  {
    assert Granted(s.cfg, s.lps[a]);
    FundsFloor(s.cfg, s.lps, a, s.lps[a].funds.Reserve(o.price));
  }

  lemma PoolStepFloor(s: State, st: Step)
    requires Floor(s) && Enabled(s, st) && PoolStep(st)
    ensures Floor(Apply(s, st)) && Apply(s, st).cfg == s.cfg
  {
    hide LpsFloor, Eligible;
    if st.Accept? {
      AssignFloor(s, st.order, st.lp);
    }
  }

  lemma CheckStepFloor(s: State, st: Step)
    requires Floor(s) && Enabled(s, st) && CheckStep(st)
    ensures Floor(Apply(s, st)) && Apply(s, st).cfg == s.cfg
  {
    hide LpsFloor, ReleaseFunds, Eligible, Keeps;
    if st.Reselect? {
      AssignFloor(s, s.heap[st.p], st.lp);
    } else if st.EvictRelease? {
      CloseFloor(s.cfg, s.lps, s.heap[st.p].lpAddress, s.heap[st.p].price);
    }
  }

  lemma WorkStepFloor(s: State, st: Step)
    requires Floor(s) && Enabled(s, st) && WorkStep(st)
    ensures Floor(Apply(s, st)) && Apply(s, st).cfg == s.cfg
  {
    hide LpsFloor, OrdersFloor, ReleaseFunds, DebitFunds, Minus;
    CloseFloor(s.cfg, s.lps, s.heap[st.p].lpAddress, s.heap[st.p].price);
  }

  lemma LpStepFloor(s: State, st: Step)
    requires Floor(s) && Enabled(s, st) && !PoolStep(st) && !CheckStep(st) && !WorkStep(st)
    ensures Floor(Apply(s, st)) && Apply(s, st).cfg == s.cfg
  {
    hide OrdersFloor, Spent;
    if st.Refresh? {
      FundsFloor(s.cfg, s.lps, st.lp, s.lps[st.lp].funds.(balance := st.balance));
    }
  }

  lemma StepFloor(s: State, st: Step)
    requires Floor(s) && Enabled(s, st)
    ensures Floor(Apply(s, st)) && Apply(s, st).cfg == s.cfg
  {
    hide Floor, ApplyToPool, ApplyToCheck, ApplyToWork, ApplyToLps;
    if PoolStep(st) {
      PoolStepFloor(s, st);
    } else if CheckStep(st) {
      CheckStepFloor(s, st);
    } else if WorkStep(st) {
      WorkStepFloor(s, st);
    } else {
      LpStepFloor(s, st);
    }
  }

  /** Over every run, every order (so every order that reaches a fulfiller) gives the operator at
      least the minimum share, and every LP is keyed by its own address with at least one criterion. */
  lemma {:induction false} ShareFloor(cfg: Config, states: seq<State>, steps: seq<Step>, n: nat)
    requires IsRun(cfg, states, steps) && n <= |steps|
    ensures Floor(states[n]) && states[n].cfg == cfg
  {
    hide Enabled, Apply;
    if n > 0 {
      ShareFloor(cfg, states, steps, n - 1);
      assert Next(states[n - 1], steps[n - 1], states[n]);
      StepFloor(states[n - 1], steps[n - 1]);
    }
  }
}
