/** At most one copy of an order is ever in flight, and an order id is dispatched at most once
    between entering the pool and leaving it. No step is excluded: prices may be overwritten,
    orders tracked twice, grants reloaded. */
module InFlight {
  import opened SdkCoins
  import opened LpModel
  import opened Protocol

  /** No order has two copies, evictions under way included. */
  ghost predicate Single(s: State) {
    forall p :: 0 <= p < |s.copies| ==> |s.copies[p]| <= 1
  }

  /** A copy in flight is the pool's entry for its id, and marked; a copy being evicted is marked. */
  ghost predicate AnchoredAt(s: State, p: Ptr)
    requires WellFormed(s) && p < |s.heap|
  {
    s.copies[p] != [] ==>
      && (Evicting !in s.copies[p] ==> Occupant(s, s.heap[p].id) == Some(p))
      && (Checking in s.copies[p] ==> s.heap[p].checking)
      && (Validated in s.copies[p] ==> s.heap[p].valid)
      && s.heap[p].Flagged()
  }

  ghost predicate Anchored(s: State)
    requires WellFormed(s)
  {
    forall p: Ptr :: p < |s.heap| ==> AnchoredAt(s, p)
  }

  /** An id once sent keeps a valid entry that is neither being checked nor waiting to be sent. */
  ghost predicate SentAt(s: State, id: OrderId)
    requires WellFormed(s)
  {
    && id in s.pool && s.heap[s.pool[id]].valid
    && Checking !in s.copies[s.pool[id]] && Validated !in s.copies[s.pool[id]]
  }

  ghost predicate SentOnce(s: State)
    requires WellFormed(s)
  {
    forall id :: id in s.sent ==> SentAt(s, id)
  }

  ghost predicate FlightInv(s: State) {
    WellFormed(s) && Single(s) && Anchored(s) && SentOnce(s)
  }

  /** The invariant reads nothing but ids, flags, copies, the pool and what was sent. */
  ghost predicate SameShape(s: State, t: State) {
    && t.pool == s.pool && t.copies == s.copies && t.sent == s.sent && |t.heap| == |s.heap|
    && forall p :: 0 <= p < |s.heap| ==>
         && t.heap[p].id == s.heap[p].id
         && t.heap[p].checking == s.heap[p].checking && t.heap[p].valid == s.heap[p].valid
  }

  /** The invariant is kept where it is kept order by order and id by id. */
  lemma KeptPointwise(s: State, t: State)
    requires FlightInv(s) && WellFormed(t) && Single(t) && |t.heap| == |s.heap|
    requires forall p: Ptr :: p < |s.heap| && AnchoredAt(s, p) ==> AnchoredAt(t, p)
    requires forall id :: id in t.sent ==> id in s.sent && (SentAt(s, id) ==> SentAt(t, id))
    ensures FlightInv(t)
  {}

  lemma ShapeKeeps(s: State, t: State)
    requires FlightInv(s) && SameShape(s, t)
    ensures FlightInv(t)
  {
    KeptPointwise(s, t);
  }

  lemma ReleaseKeeps(s: State, p: Ptr)
    requires FlightInv(s) && p < |s.heap|
    ensures FlightInv(ReleaseOrder(s, p)) && FlightInv(DebitOrder(s, p))
  {
    ShapeKeeps(s, ReleaseOrder(s, p));
    ShapeKeeps(s, DebitOrder(s, p));
  }

  lemma ReselectHasSameShape(s: State, p: Ptr, a: Addr)
    requires p < |s.heap| && a in s.lps && s.heap[p].rollappId in s.lps[a].rollapps
    ensures SameShape(s, Reselected(s, p, a))
  {}

  /** In flight or being evicted, an order has the one copy that is seen. */
  lemma OnlyCopy(s: State, p: Ptr, stage: Stage)
    requires Single(s) && At(s, p, stage)
    ensures s.copies[p] == [stage]
  {}

  /** A copy may leave, or move on to a stage that asks for no more than the flags already there. */
  lemma LeaveKeeps(s: State, p: Ptr, stage: Stage)
    requires FlightInv(s) && At(s, p, stage)
    ensures FlightInv(Leave(s, p, stage)) && Leave(s, p, stage).copies[p] == []
  {
    OnlyCopy(s, p, stage);
    KeptPointwise(s, Leave(s, p, stage));
  }

  lemma MoveKeeps(s: State, p: Ptr, stage: Stage, to: Stage)
    requires FlightInv(s) && At(s, p, stage)
    requires stage != Evicting && to != Checking && to != Validated
    ensures FlightInv(Move(s, p, stage, to)) && Move(s, p, stage, to).copies[p] == [to]
  {
    OnlyCopy(s, p, stage);
    assert AnchoredAt(s, p);
    KeptPointwise(s, Move(s, p, stage, to));
  }

  lemma DropKeeps(s: State, p: Ptr)
    requires FlightInv(s) && p < |s.heap| && (s.copies[p] == [] || s.copies[p] == [Evicting])
    requires Occupant(s, s.heap[p].id) == Some(p)
    ensures FlightInv(DropFromPool(s, s.heap[p].id))
  {
    KeptPointwise(s, DropFromPool(s, s.heap[p].id));
  }

  lemma AcceptKeeps(s: State, o: Order, a: Addr)
    requires FlightInv(s) && a in s.lps && o.rollappId in s.lps[a].rollapps
    ensures FlightInv(Accepted(s, o, a))
  {
    hide Reserved, Eligible;
    var t := s.(heap := s.heap + [Assign(o, s.lps, a)], copies := s.copies + [[]]);
    forall p: Ptr | p < |t.heap| ensures AnchoredAt(t, p) {
      assert p < |s.heap| ==> AnchoredAt(s, p);
    }
    forall id | id in t.sent ensures SentAt(t, id) {
      assert SentAt(s, id);
    }
    ShapeKeeps(t, Accepted(s, o, a));
  }

  /** An order takes the place of none, or of one that is not marked. */
  lemma SeatKeeps(s: State, p: Ptr)
    requires FlightInv(s) && p < |s.heap|
    requires s.heap[p].id in s.pool ==> !s.heap[s.pool[s.heap[p].id]].Flagged()
    ensures FlightInv(s.(pool := s.pool[s.heap[p].id := p]))
  {
    assert s.heap[p].id in s.sent ==> SentAt(s, s.heap[p].id);
    KeptPointwise(s, s.(pool := s.pool[s.heap[p].id := p]));
  }

  lemma UpsertKeeps(s: State, p: Ptr)
    requires FlightInv(s) && p < |s.heap|
    ensures FlightInv(Upserted(s, p))
  {
    var t := s.(pool := UpsertOne(s.pool, s.heap, p));
    if t.pool != s.pool {
      SeatKeeps(s, p);
    }
    ShapeKeeps(t, Upserted(s, p));
    hide Single, Anchored, SentOnce;
  }

  lemma AddBackKeeps(s: State, p: Ptr)
    requires FlightInv(s) && p < |s.heap|
    ensures FlightInv(s.(pool := AddOne(s.pool, s.heap, p)))
  {
    hide Single, Anchored, SentOnce;
    if AddOne(s.pool, s.heap, p) != s.pool {
      SeatKeeps(s, p);
    }
  }

  lemma PopKeeps(s: State, p: Ptr)
    requires FlightInv(s) && p < |s.heap| && Occupant(s, s.heap[p].id) == Some(p) && !s.heap[p].Flagged()
    ensures FlightInv(Popped(s, p))
  {
    assert AnchoredAt(s, p);
    assert s.heap[p].id in s.sent ==> SentAt(s, s.heap[p].id);
    KeptPointwise(s, Popped(s, p));
  }

  lemma RetryKeeps(s: State, p: Ptr)
    requires FlightInv(s) && At(s, p, Checking)
    ensures FlightInv(Retried(s, p))
  {
    OnlyCopy(s, p, Checking);
    KeptPointwise(s, Retried(s, p));
  }

  lemma ValidateKeeps(s: State, p: Ptr)
    requires FlightInv(s) && At(s, p, Checking)
    ensures FlightInv(FoundValid(s, p))
  {
    OnlyCopy(s, p, Checking);
    assert AnchoredAt(s, p);
    assert s.heap[p].id in s.sent ==> SentAt(s, s.heap[p].id);
    assert FoundValid(s, p).heap == s.heap[p := s.heap[p].(valid := true)];
    KeptPointwise(s, FoundValid(s, p));
  }

  lemma EvictKeeps(s: State, p: Ptr)
    requires FlightInv(s) && At(s, p, Checking)
    ensures FlightInv(Evicted(s, p))
  {
    OnlyCopy(s, p, Checking);
    assert AnchoredAt(s, p);
    MoveKeeps(s, p, Checking, Evicting);
    DropKeeps(Move(s, p, Checking, Evicting), p);
  }

  lemma DispatchKeeps(s: State, p: Ptr)
    requires FlightInv(s) && At(s, p, Validated)
    ensures FlightInv(Dispatched(s, p))
  {
    OnlyCopy(s, p, Validated);
    assert AnchoredAt(s, p);
    var t := Move(s, p, Validated, Sent);
    MoveKeeps(s, p, Validated, Sent);
    assert SentAt(t, s.heap[p].id);
    forall id | id in Dispatched(s, p).sent ensures SentAt(Dispatched(s, p), id) {
      assert id != s.heap[p].id ==> SentAt(t, id);
    }
    forall q: Ptr | q < |s.heap| ensures AnchoredAt(Dispatched(s, p), q) {
      assert AnchoredAt(t, q);
    }
  }

  lemma SettleKeeps(s: State, p: Ptr)
    requires FlightInv(s) && At(s, p, Settled)
    ensures FlightInv(Handled(s, p))
  {
    OnlyCopy(s, p, Settled);
    assert AnchoredAt(s, p);
    LeaveKeeps(s, p, Settled);
    DropKeeps(Leave(s, p, Settled), p);
  }

  lemma DebitKeeps(s: State, p: Ptr)
    requires FlightInv(s) && At(s, p, Working)
    ensures FlightInv(Fulfilled(s, p))
  {
    MoveKeeps(s, p, Working, Settled);
    ReleaseKeeps(Move(s, p, Working, Settled), p);
  }

  lemma FailKeeps(s: State, p: Ptr, rpc: bool)
    requires FlightInv(s) && At(s, p, Working)
    ensures FlightInv(Failed(s, p, rpc))
  {
    if rpc {
      LeaveKeeps(s, p, Working);
      ReleaseKeeps(Leave(s, p, Working), p);
    } else {
      MoveKeeps(s, p, Working, Settled);
      ReleaseKeeps(Move(s, p, Working, Settled), p);
    }
  }

  lemma EvictReleaseKeeps(s: State, p: Ptr)
    requires FlightInv(s) && At(s, p, Evicting)
    ensures FlightInv(ReleaseOrder(Leave(s, p, Evicting), p))
  {
    LeaveKeeps(s, p, Evicting);
    ReleaseKeeps(Leave(s, p, Evicting), p);
  }

  lemma PoolStepKeeps(s: State, st: Step)
    requires FlightInv(s) && Enabled(s, st) && PoolStep(st)
    ensures FlightInv(Apply(s, st))
  {
    match st
    case Accept(o, a) => AcceptKeeps(s, o, a);
    case Upsert(p) => UpsertKeeps(s, p);
    case AddBack(p) => AddBackKeeps(s, p);
    case Write(_, _, _) => ShapeKeeps(s, Apply(s, st));
    case Pop(p) => PopKeeps(s, p);
  }

  lemma CheckStepKeeps(s: State, st: Step)
    requires FlightInv(s) && Enabled(s, st) && CheckStep(st)
    ensures FlightInv(Apply(s, st))
  {
    match st
    case Keep(_) => ShapeKeeps(s, Apply(s, st));
    case Reselect(p, a) =>
      ReselectHasSameShape(s, p, a);
      ShapeKeeps(s, Reselected(s, p, a));
    case Retry(p) => RetryKeeps(s, p);
    case Stall(p) => LeaveKeeps(s, p, Checking);
    case Validate(p) => ValidateKeeps(s, p);
    case Evict(p) => EvictKeeps(s, p);
    case EvictRelease(p) => EvictReleaseKeeps(s, p);
  }

  lemma WorkStepKeeps(s: State, st: Step)
    requires FlightInv(s) && Enabled(s, st) && WorkStep(st)
    ensures FlightInv(Apply(s, st))
  {
    match st
    case Dispatch(p) => DispatchKeeps(s, p);
    case Take(p) => MoveKeeps(s, p, Sent, Working);
    case Debit(p) => DebitKeeps(s, p);
    case Fail(p, rpc) => FailKeeps(s, p, rpc);
    case Abandon(p) => LeaveKeeps(s, p, Working);
    case Settle(p) => SettleKeeps(s, p);
  }

  /** Every step keeps the invariant. */
  lemma StepKeeps(s: State, st: Step)
    requires FlightInv(s) && Enabled(s, st)
    ensures FlightInv(Apply(s, st))
  {
    if PoolStep(st) {
      PoolStepKeeps(s, st);
    } else if CheckStep(st) {
      CheckStepKeeps(s, st);
    } else if WorkStep(st) {
      WorkStepKeeps(s, st);
    } else {
      ShapeKeeps(s, Apply(s, st));
    }
  }

  /** Every state a run reaches satisfies it. */
  lemma {:induction false} RunKeeps(cfg: Config, states: seq<State>, steps: seq<Step>, n: nat)
    requires IsRun(cfg, states, steps) && n <= |steps|
    ensures FlightInv(states[n])
  {
    hide Enabled, Apply;
    if n > 0 {
      RunKeeps(cfg, states, steps, n - 1);
      assert Next(states[n - 1], steps[n - 1], states[n]);
      StepKeeps(states[n - 1], steps[n - 1]);
    }
  }

  // ---------------------------------------------------------------- at most one in flight

  /** Between a pop and the handling of its result, evictions apart. */
  predicate Flying(s: State, p: Ptr) {
    p < |s.copies| && exists stage :: stage in s.copies[p] && stage != Evicting
  }

  /** An order in flight has one copy, is the pool's entry for its id, and is marked. */
  lemma FlyingIsPooled(s: State, p: Ptr)
    requires FlightInv(s) && Flying(s, p)
    ensures p < |s.heap| && |s.copies[p]| == 1
    ensures Occupant(s, s.heap[p].id) == Some(p) && s.heap[p].Flagged()
  {
    var stage :| stage in s.copies[p] && stage != Evicting;
    OnlyCopy(s, p, stage);
    assert AnchoredAt(s, p);
  }

  /** In every reachable state an order has at most one copy in flight, its pool entry is that very
      order and marked, and no two orders in flight share an id. */
  lemma AtMostOneInFlight(cfg: Config, states: seq<State>, steps: seq<Step>, n: nat, p: Ptr, q: Ptr)
    requires IsRun(cfg, states, steps) && n <= |steps|
    requires Flying(states[n], p) && Flying(states[n], q)
    ensures var s := states[n];
            && p < |s.heap| && q < |s.heap| && |s.copies[p]| == 1
            && Occupant(s, s.heap[p].id) == Some(p) && s.heap[p].Flagged()
            && (s.heap[p].id == s.heap[q].id ==> p == q)
  {
    RunKeeps(cfg, states, steps, n);
    FlyingIsPooled(states[n], p);
    FlyingIsPooled(states[n], q);
  }

  // ---------------------------------------------------------------- dispatched at most once

  /** The step sends the id to the fulfillers. */
  predicate Sends(s: State, st: Step, id: OrderId) {
    st.Dispatch? && st.p < |s.heap| && s.heap[st.p].id == id
  }

  /** The step takes the id out of the pool. */
  predicate TakesOut(s: State, st: Step, id: OrderId) {
    (st.Evict? || st.Settle?) && st.p < |s.heap| && s.heap[st.p].id == id
  }

  lemma SentOneStep(s: State, st: Step, id: OrderId)
    requires Enabled(s, st)
    ensures Sends(s, st, id) || (id in s.sent && !TakesOut(s, st, id)) ==> id in Apply(s, st).sent
  {}

  lemma SendsOnlyUnsent(s: State, st: Step, id: OrderId)
    requires FlightInv(s) && Enabled(s, st) && Sends(s, st, id)
    ensures id !in s.sent
  {
    OnlyCopy(s, st.p, Validated);
    assert AnchoredAt(s, st.p);
    assert id in s.sent ==> SentAt(s, id);
  }

  lemma {:induction false} SentStays(cfg: Config, states: seq<State>, steps: seq<Step>, i: nat, n: nat, id: OrderId)
    requires IsRun(cfg, states, steps) && i <= n <= |steps| && id in states[i].sent
    requires forall k :: i <= k < n ==> !TakesOut(states[k], steps[k], id)
    ensures id in states[n].sent
    decreases n
  {
    hide Enabled, Apply;
    if i < n {
      SentStays(cfg, states, steps, i, n - 1, id);
      assert Next(states[n - 1], steps[n - 1], states[n]);
      SentOneStep(states[n - 1], steps[n - 1], id);
    }
  }

  /** Between two dispatches of one id, the id was taken out of the pool. */
  lemma DispatchedOncePerStay(cfg: Config, states: seq<State>, steps: seq<Step>, i: nat, j: nat, id: OrderId)
    requires IsRun(cfg, states, steps) && i < j < |steps|
    requires Sends(states[i], steps[i], id) && Sends(states[j], steps[j], id)
    ensures exists k :: i < k < j && TakesOut(states[k], steps[k], id)
  {
    assert Next(states[i], steps[i], states[i + 1]);
    assert Next(states[j], steps[j], states[j + 1]);
    SentOneStep(states[i], steps[i], id);
    if forall k :: i < k < j ==> !TakesOut(states[k], steps[k], id) {
      SentStays(cfg, states, steps, i + 1, j, id);
      RunKeeps(cfg, states, steps, j);
      SendsOnlyUnsent(states[j], steps[j], id);
      assert false;
    }
  }
}
