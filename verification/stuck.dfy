/** Orders that stay marked in the pool with nobody to unmark them: how an order gets there, and that
    neither it nor its id ever gets out. */
module StuckOrders {
  import opened SdkCoins
  import opened LpModel
  import opened Protocol
  import opened InFlight
  import opened Links
  import opened Money
  import opened MoneyTheorems
  import opened LostFunds

  /** The pool's entry for its id, marked, and without a copy under way. */
  predicate Stuck(s: State, p: Ptr) {
    && p < |s.heap| && p < |s.copies|
    && Occupant(s, s.heap[p].id) == Some(p) && s.heap[p].Flagged() && s.copies[p] == []
  }

  /** A validation error, a batch after a failed one, a failure that is not reported, or an order that
      comes back to the pool with its mark on: with an update that had looked it up before, or from a
      retry that was overtaken by a pop; before its funds are released or after. */
  predicate Sticks(s: State, st: Step, p: Ptr) {
    match st
    case Stall(q) => q == p
    case Abandon(q) => q == p
    case Fail(q, rpc) => q == p && rpc
    case Upsert(q) => q == p && Seats(s, st) && s.heap[p].Flagged() && p < |s.copies| && s.copies[p] == []
    case AddBack(q) => q == p && Seats(s, st) && s.heap[p].Flagged() && p < |s.copies| && s.copies[p] == []
    case EvictRelease(q) => q == p && p < |s.heap| && Occupant(s, s.heap[p].id) == Some(p)
    case _ => false
  }

  // ---------------------------------------------------------------- becoming stuck, and staying so

  lemma AcceptSticks(s: State, o: Order, a: Addr, p: Ptr)
    requires Orderly(s) && !o.Flagged() && a in s.lps && o.rollappId in s.lps[a].rollapps
    ensures Stuck(Accepted(s, o, a), p) <==> Stuck(s, p)
  {
    hide Reserved;
  }

  lemma UpsertSticks(s: State, q: Ptr, p: Ptr)
    requires Orderly(s) && Enabled(s, Step.Upsert(q))
    ensures Stuck(Upserted(s, q), p) <==> Stuck(s, p) || Sticks(s, Step.Upsert(q), p)
  {
    assert TidyAt(s, q);
  }

  lemma PoolStepSticks(s: State, st: Step, p: Ptr)
    requires Orderly(s) && Enabled(s, st) && PoolStep(st)
    ensures Stuck(ApplyToPool(s, st), p) <==> Stuck(s, p) || Sticks(s, st, p)
  {
    hide FlightInv, Tidy, Holds, Accepted, Upserted, Eligible;
    match st
    case Accept(o, a) =>
      EligibleKnowsTerms(s.lps[a], o);
      AcceptSticks(s, o, a, p);
    case Upsert(q) => UpsertSticks(s, q, p);
    case AddBack(q) => {}
    case Write(_, _, _) => {}
    case Pop(_) => {}
  }

  /** The order a copy stands for has a copy, whatever comes of it. */
  lemma CheckedSticks(s: State, st: Step, p: Ptr)
    requires Orderly(s) && Enabled(s, st) && (st.Keep? || st.Retry? || st.Stall? || st.Validate?)
    ensures Stuck(ApplyToCheck(s, st), p) <==> Stuck(s, p) || Sticks(s, st, p)
  {
    hide Keeps, SentOnce, Linked, OneEach, Holds;
    OnlyCopy(s, st.p, Checking);
    assert AnchoredAt(s, st.p) && TidyAt(s, st.p);
  }

  lemma EvictSticks(s: State, q: Ptr, p: Ptr)
    requires Orderly(s) && At(s, q, Checking)
    ensures Stuck(Evicted(s, q), p) <==> Stuck(s, p)
  {
    hide Tidy, Holds, SentOnce, Minus;
    OnlyCopy(s, q, Checking);
    assert AnchoredAt(s, q);
  }

  lemma EvictReleaseSticks(s: State, q: Ptr, p: Ptr)
    requires Orderly(s) && At(s, q, Evicting)
    ensures Stuck(ReleaseOrder(Leave(s, q, Evicting), q), p) <==> Stuck(s, p) || Sticks(s, Step.EvictRelease(q), p)
  {
    hide Tidy, Holds, SentOnce, ReleaseFunds;
    OnlyCopy(s, q, Evicting);
    assert AnchoredAt(s, q);
  }

  lemma CheckStepSticks(s: State, st: Step, p: Ptr)
    requires Orderly(s) && Enabled(s, st) && CheckStep(st)
    ensures Stuck(ApplyToCheck(s, st), p) <==> Stuck(s, p) || Sticks(s, st, p)
  {
    hide Orderly, Stuck, Reserved, Evicted, ReleaseOrder, Eligible, Keeps, Leave;
    if st.Reselect? {
      EligibleKnowsTerms(s.lps[st.lp], s.heap[st.p]);
      ReselectSticks(s, st.p, st.lp, p);
    } else if st.Evict? {
      EvictSticks(s, st.p, p);
    } else if st.EvictRelease? {
      EvictReleaseSticks(s, st.p, p);
    } else {
      CheckedSticks(s, st, p);
    }
  }

  lemma ReselectSticks(s: State, q: Ptr, a: Addr, p: Ptr)
    requires q < |s.heap| && a in s.lps && s.heap[q].rollappId in s.lps[a].rollapps
    ensures Stuck(Reselected(s, q, a), p) <==> Stuck(s, p)
  {
    hide Reserved;
  }

  lemma MovedSticks(s: State, st: Step, p: Ptr)
    requires Orderly(s) && Enabled(s, st) && (st.Dispatch? || st.Take? || st.Debit?)
    ensures Stuck(ApplyToWork(s, st), p) <==> Stuck(s, p)
  {
    hide Tidy, Holds, FlightInv, DebitFunds;
  }

  lemma LeftSticks(s: State, st: Step, p: Ptr)
    requires Orderly(s) && Enabled(s, st) && (st.Fail? || st.Abandon?)
    ensures Stuck(ApplyToWork(s, st), p) <==> Stuck(s, p) || Sticks(s, st, p)
  {
    hide Tidy, Holds, SentOnce, ReleaseOrder, Minus;
    OnlyCopy(s, st.p, Working);
    assert AnchoredAt(s, st.p);
    assert Minus(s.copies[st.p], Working) == [] by { LeaveKeeps(s, st.p, Working); }
  }

  lemma SettleSticks(s: State, q: Ptr, p: Ptr)
    requires Orderly(s) && At(s, q, Settled)
    ensures Stuck(Handled(s, q), p) <==> Stuck(s, p)
  {
    hide Tidy, Holds, SentOnce, Minus;
    OnlyCopy(s, q, Settled);
    assert AnchoredAt(s, q);
  }

  /** An order is stuck after a step exactly when it was stuck before, or the step makes it so. */
  lemma StepSticks(s: State, st: Step, p: Ptr)
    requires Orderly(s) && Enabled(s, st)
    ensures Stuck(Apply(s, st), p) <==> Stuck(s, p) || Sticks(s, st, p)
  {
    hide Orderly, Stuck, Enabled, ApplyToPool, ApplyToCheck, Handled, Spent;
    if PoolStep(st) {
      PoolStepSticks(s, st, p);
    } else if CheckStep(st) {
      CheckStepSticks(s, st, p);
    } else if WorkStep(st) {
      WorkStepSticks(s, st, p);
    } else {
      FundsStick(s, Apply(s, st).lps, Apply(s, st).base, p);
    }
  }

  lemma WorkStepSticks(s: State, st: Step, p: Ptr)
    requires Orderly(s) && Enabled(s, st) && WorkStep(st)
    ensures Stuck(ApplyToWork(s, st), p) <==> Stuck(s, p) || Sticks(s, st, p)
  {
    hide Orderly, Stuck, Handled, Failed, Fulfilled, Leave, Move;
    if st.Settle? {
      SettleSticks(s, st.p, p);
    } else if st.Fail? || st.Abandon? {
      LeftSticks(s, st, p);
    } else {
      MovedSticks(s, st, p);
    }
  }

  lemma FundsStick(s: State, lps: LpTable, base: map<Addr, Coins>, p: Ptr)
    ensures Stuck(s.(lps := lps, base := base), p) <==> Stuck(s, p)
  {}

  /** Of the ways to get stuck, a validation error and a batch after a failed one leave the order's funds
      reserved; the others find them released. */
  lemma SticksWithFunds(s: State, st: Step, p: Ptr)
    requires Orderly(s) && Enabled(s, st) && Sticks(s, st, p)
    ensures p in Apply(s, st).link <==> st.Stall? || st.Abandon?
  {
    hide Tidy, SentOnce, ReleaseFunds;
    assert HoldsAt(s, p);
    if st.Fail? {
      EndHolds(s, p, Working);
    } else if st.EvictRelease? {
      EndHolds(s, p, Evicting);
    }
  }

  // ---------------------------------------------------------------- what a stuck order holds

  /** `p` holds the same reservation in both states. */
  predicate SameDebt(s: State, t: State, p: Ptr) {
    && p in s.link && p in t.link && t.link[p] == s.link[p]
    && s.link[p] < |s.ledger| && s.link[p] < |t.ledger| && t.ledger[s.link[p]] == s.ledger[s.link[p]]
  }

  lemma ReserveLeavesDebt(s: State, q: Ptr, a: Addr, amount: Coins, p: Ptr)
    requires a in s.lps && p != q && p in s.link && s.link[p] < |s.ledger|
    ensures SameDebt(s, Reserved(s, q, a, amount), p)
  {}

  lemma CloseLeavesDebt(s: State, q: Ptr, x: Status, p: Ptr)
    requires OneEach(s) && p != q && p in s.link && s.link[p] < |s.ledger|
    ensures SameDebt(s, Closed(s, q, x), p)
  {}

  lemma PoolStepLeavesDebt(s: State, st: Step, p: Ptr)
    requires Enabled(s, st) && PoolStep(st) && p < |s.heap| && p in s.link && s.link[p] < |s.ledger|
    ensures SameDebt(s, ApplyToPool(s, st), p)
  {
    hide Reserved, Eligible;
    if st.Accept? {
      ReserveLeavesDebt(s, |s.heap|, st.lp, st.order.price, p);
    }
  }

  lemma CheckStepLeavesDebt(s: State, st: Step, p: Ptr)
    requires OneEach(s) && Enabled(s, st) && CheckStep(st) && st.p != p && p in s.link && s.link[p] < |s.ledger|
    ensures SameDebt(s, ApplyToCheck(s, st), p)
  {
    hide Reserved, Eligible, Keeps, ReleaseFunds, Closed, OneEach;
    if st.Reselect? {
      ReserveLeavesDebt(s, st.p, st.lp, s.heap[st.p].price, p);
    } else if st.EvictRelease? {
      CloseLeavesDebt(Leave(s, st.p, Evicting), st.p, Released, p) by { SameOneEach(s, Leave(s, st.p, Evicting)); }
    }
  }

  lemma WorkStepLeavesDebt(s: State, st: Step, p: Ptr)
    requires OneEach(s) && Enabled(s, st) && WorkStep(st) && st.p != p && p in s.link && s.link[p] < |s.ledger|
    ensures SameDebt(s, ApplyToWork(s, st), p)
  {
    hide ReleaseFunds, DebitFunds, Closed, OneEach;
    if st.Debit? || st.Fail? {
      var (gone, moved) := (Leave(s, st.p, Working), Move(s, st.p, Working, Settled));
      SameOneEach(s, gone);
      SameOneEach(s, moved);
      CloseLeavesDebt(gone, st.p, Released, p);
      CloseLeavesDebt(moved, st.p, Released, p);
      CloseLeavesDebt(moved, st.p, Debited, p);
    }
  }

  lemma SameOneEach(s: State, t: State)
    requires OneEach(s) && t.link == s.link
    ensures OneEach(t)
  {}

  /** No step needs a stuck order's copy, so it keeps what it holds. */
  lemma StuckKeepsFunds(s: State, st: Step, p: Ptr)
    requires Orderly(s) && Enabled(s, st) && Stuck(s, p) && p in s.link
    ensures SameDebt(s, Apply(s, st), p)
  {
    hide FlightInv, Tidy, Spent, ApplyToPool, ApplyToCheck, ApplyToWork, Eligible, Keeps;
    assert HoldsAt(s, p);
    if PoolStep(st) {
      PoolStepLeavesDebt(s, st, p);
    } else if CheckStep(st) {
      CheckStepLeavesDebt(s, st, p);
    } else if WorkStep(st) {
      WorkStepLeavesDebt(s, st, p);
    }
  }

  // ---------------------------------------------------------------- an id that never gets out

  /** The step pops, checks, sends out, fulfils or settles an order with this id, or has just failed to. */
  predicate Handles(s: State, st: Step, id: OrderId) {
    && (st.Pop? || (CheckStep(st) && !st.EvictRelease?) || WorkStep(st))
    && st.p < |s.heap| && s.heap[st.p].id == id
  }

  /** While an order is stuck, no step handles any order with its id. */
  lemma StuckIdIsIdle(s: State, st: Step, p: Ptr)
    requires Orderly(s) && Enabled(s, st) && Stuck(s, p)
    ensures !Handles(s, st, s.heap[p].id)
  {
    hide FlightInv, Tidy, Holds, Keeps, Eligible, Stuck;
    StuckFacts(s, p);
    if CheckStep(st) || WorkStep(st) {
      CopyIsPooled(s, st.p, StageOf(st));
    }
  }

  lemma StuckFacts(s: State, p: Ptr)
    requires Stuck(s, p)
    ensures p < |s.heap| && p < |s.copies| && Occupant(s, s.heap[p].id) == Some(p)
    ensures s.heap[p].Flagged() && s.copies[p] == []
  {}

  lemma CopyIsPooled(s: State, q: Ptr, stage: Stage)
    requires Orderly(s) && At(s, q, stage)
    ensures stage != Evicting ==> Occupant(s, s.heap[q].id) == Some(q)
  {
    OnlyCopy(s, q, stage);
    assert AnchoredAt(s, q);
    hide Tidy, Holds, SentOnce;
  }

  /** Where the copy is that the step is about. */
  function StageOf(st: Step): Stage
    requires CheckStep(st) || WorkStep(st)
  {
    match st
    case EvictRelease(_) => Evicting
    case Dispatch(_) => Validated
    case Take(_) => Sent
    case Debit(_) => Working
    case Fail(_, _) => Working
    case Abandon(_) => Working
    case Settle(_) => Settled
    case _ => Checking
  }

  /** A later order under the id of a stuck one is dropped, and what it reserved is lost. */
  lemma StuckIdSwallows(s: State, q: Ptr, p: Ptr)
    requires Orderly(s) && q in s.inHand && Stuck(s, p) && q < |s.heap| && s.heap[q].id == s.heap[p].id
    ensures q in s.link && Lost(Apply(s, Step.Upsert(q)), s.link[q])
    ensures Apply(s, Step.Upsert(q)).pool == s.pool
  {
    assert TidyAt(s, q) && HoldsAt(s, q);
    StepLoses(s, Step.Upsert(q), s.link[q]);
    hide FlightInv, Holds, Lost;
  }

  // ---------------------------------------------------------------- over runs

  lemma SameId(s: State, st: Step, p: Ptr)
    requires Enabled(s, st) && p < |s.heap|
    ensures p < |Apply(s, st).heap| && Apply(s, st).heap[p].id == s.heap[p].id
  {
    hide Enabled, ApplyToPool, ApplyToCheck, ApplyToWork, Spent;
    if PoolStep(st) {
      SameIdInPool(s, st, p);
    } else if CheckStep(st) {
      SameIdInCheck(s, st, p);
    } else if WorkStep(st) {
      SameIdInWork(s, st, p);
    }
  }

  lemma SameIdInPool(s: State, st: Step, p: Ptr)
    requires Enabled(s, st) && PoolStep(st) && p < |s.heap|
    ensures p < |ApplyToPool(s, st).heap| && ApplyToPool(s, st).heap[p].id == s.heap[p].id
  {
    hide Eligible, Reserved;
  }

  lemma SameIdInCheck(s: State, st: Step, p: Ptr)
    requires Enabled(s, st) && CheckStep(st) && p < |s.heap|
    ensures p < |ApplyToCheck(s, st).heap| && ApplyToCheck(s, st).heap[p].id == s.heap[p].id
  {
    hide Eligible, Keeps, Reserved, ReleaseOrder;
  }

  lemma SameIdInWork(s: State, st: Step, p: Ptr)
    requires Enabled(s, st) && WorkStep(st) && p < |s.heap|
    ensures ApplyToWork(s, st).heap == s.heap
  {
    hide ReleaseOrder, DebitOrder;
  }

  /** Once stuck, an order stays the pool's entry for its id, and marked, whatever happens; and no step
      of the run ever again pops, checks, dispatches, fulfils or settles an order with that id. */
  lemma {:induction false} StuckForGood(cfg: Config, states: seq<State>, steps: seq<Step>, i: nat, n: nat, p: Ptr)
    requires IsRun(cfg, states, steps) && i <= n <= |steps| && Stuck(states[i], p)
    ensures Stuck(states[n], p) && states[n].heap[p].id == states[i].heap[p].id
    ensures n < |steps| ==> !Handles(states[n], steps[n], states[i].heap[p].id)
    decreases n
  {
    hide Enabled, Apply, Orderly, Stuck, Sticks, Handles;
    RunOrderly(cfg, states, steps, n);
    if i < n {
      StuckForGood(cfg, states, steps, i, n - 1, p);
      RunOrderly(cfg, states, steps, n - 1);
      assert Next(states[n - 1], steps[n - 1], states[n]);
      StepSticks(states[n - 1], steps[n - 1], p);
      assert p < |states[n - 1].heap| by { StuckFacts(states[n - 1], p); }
      SameId(states[n - 1], steps[n - 1], p);
    }
    if n < |steps| {
      assert Next(states[n], steps[n], states[n + 1]);
      StuckIdIsIdle(states[n], steps[n], p);
    }
  }

  lemma {:induction false} StuckHoldsForGood(cfg: Config, states: seq<State>, steps: seq<Step>, i: nat, n: nat, p: Ptr)
    requires IsRun(cfg, states, steps) && i <= n <= |steps| && Stuck(states[i], p) && p in states[i].link
    ensures SameDebt(states[i], states[n], p)
    decreases n
  {
    hide Enabled, Apply, Orderly, Stuck, SameDebt;
    if i < n {
      StuckHoldsForGood(cfg, states, steps, i, n - 1, p);
      StuckForGood(cfg, states, steps, i, n - 1, p);
      RunOrderly(cfg, states, steps, n - 1);
      assert Next(states[n - 1], steps[n - 1], states[n]);
      DebtsChain(states[i], states[n - 1], p);
      StuckKeepsFunds(states[n - 1], steps[n - 1], p);
      SameDebtTwice(states[i], states[n - 1], states[n], p);
    } else {
      RunOrderly(cfg, states, steps, n);
      OwnDebt(states[n], p);
    }
  }

  lemma DebtsChain(s: State, t: State, p: Ptr)
    requires SameDebt(s, t, p)
    ensures p in t.link
  {}

  lemma SameDebtTwice(s: State, t: State, u: State, p: Ptr)
    requires SameDebt(s, t, p) && SameDebt(t, u, p)
    ensures SameDebt(s, u, p)
  {}

  lemma OwnDebt(s: State, p: Ptr)
    requires Orderly(s) && p in s.link
    ensures SameDebt(s, s, p)
  {
    assert HoldsAt(s, p);
  }

  /** What a stuck order reserved stays reserved on its LP, at every later moment at which the LP is in
      the table; it is among what the run has lost. */
  lemma StuckFundsAreNeverFreed(cfg: Config, states: seq<State>, steps: seq<Step>, i: nat, n: nat, p: Ptr)
    requires BalancedRun(cfg, states, steps) && i <= n <= |steps|
    requires Stuck(states[i], p) && p in states[i].link && states[i].link[p] < |states[i].ledger|
    ensures var (s, k, e) := (states[n], states[i].link[p], states[i].ledger[states[i].link[p]]);
            && Lost(s, k) && s.ledger[k] == e
            && (e.lp in s.lps ==> IsAllGTE(s.lps[e.lp].funds.reserved, e.amount))
  {
    hide BalancedAt, FlightInv, Tidy, Stuck, Live;
    var (s, k) := (states[n], states[i].link[p]);
    StuckHoldsForGood(cfg, states, steps, i, n, p);
    StuckForGood(cfg, states, steps, i, n, p);
    RunBooks(cfg, states, steps, n);
    StuckIsLost(s, p);
    if s.ledger[k].lp in s.lps {
      OpenIsCovered(s.lps[s.ledger[k].lp].funds, s.ledger, k, s.base[s.ledger[k].lp]);
    }
  }

  lemma StuckIsLost(s: State, p: Ptr)
    requires Orderly(s) && Stuck(s, p) && p in s.link
    ensures Lost(s, s.link[p])
  {
    assert HoldsAt(s, p) && TidyAt(s, p);
    forall q: Ptr ensures !HeldBy(s, s.link[p], q) {}
  }
}
