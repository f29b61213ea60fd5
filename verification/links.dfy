/** Which orders hold a reservation, and what else is true of orders and their whereabouts in every
    reachable state, whatever happens to prices, grants and balances. */
module Links {
  import opened SdkCoins
  import opened LpModel
  import opened Protocol
  import opened InFlight

  // ---------------------------------------------------------------- taken in, or under check

  /** An order in hand is unmarked, has no copy and is not in the pool; one under check is not valid. */
  ghost predicate TidyAt(s: State, p: Ptr)
    requires WellFormed(s) && p < |s.heap|
  {
    && (p in s.inHand ==> !s.heap[p].Flagged() && s.copies[p] == [] && Occupant(s, s.heap[p].id) != Some(p))
    && (Checking in s.copies[p] ==> !s.heap[p].valid)
  }

  ghost predicate Tidy(s: State)
    requires WellFormed(s)
  {
    && (forall p :: p in s.inHand ==> p < |s.heap|)
    && forall p: Ptr :: p < |s.heap| ==> TidyAt(s, p)
  }

  // ---------------------------------------------------------------- orders and their reservations

  /** The order's reservation is open, and on the order's LP. */
  ghost predicate Linked(s: State, p: Ptr)
    requires p in s.link && p < |s.heap|
  {
    && s.link[p] < |s.ledger|
    && s.ledger[s.link[p]].status == Open
    && s.ledger[s.link[p]].lp == s.heap[p].lpAddress
  }

  /** No two orders hold the same reservation. */
  ghost predicate OneEach(s: State) {
    forall p, q :: p in s.link && q in s.link && p != q ==> s.link[p] != s.link[q]
  }

  /** Every order that could be popped holds a reservation, and so does every copy whose result is not
      out yet; a marked order that holds one without a copy is the pool's entry. */
  ghost predicate HoldsAt(s: State, p: Ptr) {
    && p < |s.heap| && p < |s.copies|
    && (p in s.link ==> Linked(s, p))
    && (p in s.link || s.heap[p].Flagged())
    && (s.copies[p] != [] ==> (p in s.link <==> Settled !in s.copies[p]))
    && (p in s.link && s.heap[p].Flagged() && s.copies[p] == [] ==> Occupant(s, s.heap[p].id) == Some(p))
  }

  ghost predicate Holds(s: State) {
    && |s.copies| == |s.heap| && OneEach(s)
    && (forall p :: p in s.link ==> p < |s.heap|)
    && (forall p: Ptr :: p < |s.heap| ==> HoldsAt(s, p))
  }

  ghost predicate Orderly(s: State) {
    FlightInv(s) && Tidy(s) && Holds(s)
  }

  // ---------------------------------------------------------------- what keeps `Tidy`

  lemma TidyPointwise(s: State, t: State)
    requires WellFormed(s) && WellFormed(t) && Tidy(s) && |t.heap| == |s.heap| && t.inHand <= s.inHand
    requires forall p: Ptr :: p < |s.heap| && TidyAt(s, p) ==> TidyAt(t, p)
    ensures Tidy(t)
  {}

  /** A step that touches only order `p`, and not the pool, is judged at `p`. */
  lemma TidyAtOne(s: State, t: State, p: Ptr)
    requires WellFormed(s) && WellFormed(t) && Tidy(s)
    requires |t.heap| == |s.heap| && t.inHand == s.inHand && t.pool == s.pool
    requires forall q: Ptr :: q < |s.heap| && q != p ==> SameAt(s, t, q)
    requires p < |s.heap| ==> t.heap[p].id == s.heap[p].id && (TidyAt(s, p) ==> TidyAt(t, p))
    ensures Tidy(t)
  {
    forall q: Ptr | q < |s.heap| ensures TidyAt(t, q) {
      assert TidyAt(s, q);
      assert q != p ==> SameAt(s, t, q);
    }
  }

  /** Id, marks and copies of `q` are the same. */
  ghost predicate SameAt(s: State, t: State, q: Ptr)
    requires |t.heap| == |s.heap| && |s.copies| == |s.heap| && |t.copies| == |t.heap| && q < |s.heap|
  {
    && t.heap[q].id == s.heap[q].id && t.heap[q].checking == s.heap[q].checking
    && t.heap[q].valid == s.heap[q].valid && t.copies[q] == s.copies[q]
  }

  lemma AcceptTidy(s: State, o: Order, a: Addr)
    requires WellFormed(s) && Tidy(s) && !o.Flagged() && a in s.lps && o.rollappId in s.lps[a].rollapps
    ensures WellFormed(Accepted(s, o, a)) && Tidy(Accepted(s, o, a))
  {
    hide Reserved;
    var t := Accepted(s, o, a);
    forall p: Ptr | p < |t.heap| ensures TidyAt(t, p) {
      assert p < |s.heap| ==> TidyAt(s, p);
    }
  }

  lemma UpsertTidy(s: State, p: Ptr)
    requires WellFormed(s) && Tidy(s) && p < |s.heap|
    ensures WellFormed(Upserted(s, p)) && Tidy(Upserted(s, p))
  {
    TidyPointwise(s, Upserted(s, p));
  }

  lemma AddBackTidy(s: State, p: Ptr)
    requires WellFormed(s) && Tidy(s) && p < |s.heap| && p !in s.inHand
    ensures var t := s.(pool := AddOne(s.pool, s.heap, p)); WellFormed(t) && Tidy(t)
  {
    TidyPointwise(s, s.(pool := AddOne(s.pool, s.heap, p)));
  }

  lemma DropTidy(s: State, id: OrderId)
    requires WellFormed(s) && Tidy(s)
    ensures WellFormed(DropFromPool(s, id)) && Tidy(DropFromPool(s, id))
  {
    TidyPointwise(s, DropFromPool(s, id));
  }

  lemma MoneyTidy(s: State, p: Ptr)
    requires WellFormed(s) && Tidy(s) && p < |s.heap|
    ensures WellFormed(ReleaseOrder(s, p)) && Tidy(ReleaseOrder(s, p))
    ensures WellFormed(DebitOrder(s, p)) && Tidy(DebitOrder(s, p))
  {
    hide ReleaseFunds, DebitFunds;
    TidyPointwise(s, ReleaseOrder(s, p));
    TidyPointwise(s, DebitOrder(s, p));
  }

  lemma MoveTidy(s: State, p: Ptr, stage: Stage, to: Stage)
    requires FlightInv(s) && Tidy(s) && At(s, p, stage) && to != Checking
    ensures WellFormed(Leave(s, p, stage)) && Tidy(Leave(s, p, stage))
    ensures WellFormed(Move(s, p, stage, to)) && Tidy(Move(s, p, stage, to))
  {
    OnlyCopy(s, p, stage);
    assert TidyAt(s, p);
    TidyAtOne(s, Leave(s, p, stage), p);
    TidyAtOne(s, Move(s, p, stage, to), p);
  }

  lemma EligibleKnowsTerms(lp: LpVal, o: Order)
    requires Eligible(lp, o)
    ensures o.rollappId in lp.rollapps
  {}

  lemma PoolStepTidy(s: State, st: Step)
    requires FlightInv(s) && Tidy(s) && Enabled(s, st) && PoolStep(st)
    ensures WellFormed(Apply(s, st)) && Tidy(Apply(s, st))
  {
    hide Accepted, Upserted, AddOne, Tidy, Eligible;
    match st
    case Accept(o, a) =>
      EligibleKnowsTerms(s.lps[a], o);
      AcceptTidy(s, o, a);
    case Upsert(p) => UpsertTidy(s, p);
    case AddBack(p) => AddBackTidy(s, p);
    case Write(p, fee, price) => WriteTidy(s, p, fee, price);
    case Pop(p) => PopTidy(s, p);
  }

  lemma WriteTidy(s: State, p: Ptr, fee: Coin, price: Coins)
    requires WellFormed(s) && Tidy(s) && p < |s.heap|
    ensures var t := s.(heap := s.heap[p := s.heap[p].(fee := fee, price := price)]); WellFormed(t) && Tidy(t)
  {
    TidyAtOne(s, s.(heap := s.heap[p := s.heap[p].(fee := fee, price := price)]), p);
  }

  lemma PopTidy(s: State, p: Ptr)
    requires WellFormed(s) && Tidy(s) && p < |s.heap| && Occupant(s, s.heap[p].id) == Some(p)
    requires !s.heap[p].Flagged()
    ensures WellFormed(Popped(s, p)) && Tidy(Popped(s, p))
  {
    assert TidyAt(s, p);
    TidyAtOne(s, Popped(s, p), p);
  }

  lemma ReselectTidy(s: State, p: Ptr, a: Addr)
    requires WellFormed(s) && Tidy(s) && p < |s.heap| && a in s.lps && s.heap[p].rollappId in s.lps[a].rollapps
    ensures WellFormed(Reselected(s, p, a)) && Tidy(Reselected(s, p, a))
  {
    hide Reserved;
    TidyAtOne(s, Reselected(s, p, a), p);
  }

  lemma ValidateTidy(s: State, p: Ptr)
    requires FlightInv(s) && Tidy(s) && At(s, p, Checking)
    ensures WellFormed(FoundValid(s, p)) && Tidy(FoundValid(s, p))
  {
    OnlyCopy(s, p, Checking);
    assert AnchoredAt(s, p) && TidyAt(s, p);
    assert FoundValid(s, p).heap == s.heap[p := s.heap[p].(valid := true)];
    TidyAtOne(s, FoundValid(s, p), p);
    hide MarkValid, Single, Anchored, SentOnce;
  }

  lemma KeepTidy(s: State, p: Ptr)
    requires WellFormed(s) && Tidy(s) && Enabled(s, Step.Keep(p))
    ensures WellFormed(Apply(s, Step.Keep(p))) && Tidy(Apply(s, Step.Keep(p)))
  {
    hide Eligible;
    EligibleKnowsTerms(s.lps[s.heap[p].lpAddress], s.heap[p]);
    TidyAtOne(s, Apply(s, Step.Keep(p)), p);
  }

  lemma RetryTidy(s: State, p: Ptr)
    requires FlightInv(s) && Tidy(s) && At(s, p, Checking)
    ensures WellFormed(Retried(s, p)) && Tidy(Retried(s, p))
  {
    OnlyCopy(s, p, Checking);
    assert TidyAt(s, p);
    TidyAtOne(s, Retried(s, p), p);
  }

  lemma CheckStepTidy(s: State, st: Step)
    requires FlightInv(s) && Tidy(s) && Enabled(s, st) && CheckStep(st)
    ensures WellFormed(Apply(s, st)) && Tidy(Apply(s, st))
  {
    hide Keeps, ReleaseOrder, Reselected, FoundValid, Retried, Tidy, Eligible;
    match st
    case Keep(p) => KeepTidy(s, p);
    case Reselect(p, a) =>
      EligibleKnowsTerms(s.lps[a], s.heap[p]);
      ReselectTidy(s, p, a);
    case Retry(p) => RetryTidy(s, p);
    case Stall(p) => MoveTidy(s, p, Checking, Settled);
    case Validate(p) => ValidateTidy(s, p);
    case Evict(p) =>
      MoveTidy(s, p, Checking, Evicting);
      DropTidy(Move(s, p, Checking, Evicting), s.heap[p].id);
    case EvictRelease(p) =>
      MoveTidy(s, p, Evicting, Settled);
      MoneyTidy(Leave(s, p, Evicting), p);
  }

  lemma DispatchTidy(s: State, p: Ptr)
    requires FlightInv(s) && Tidy(s) && At(s, p, Validated)
    ensures WellFormed(Dispatched(s, p)) && Tidy(Dispatched(s, p))
  {
    MoveTidy(s, p, Validated, Sent);
    TidyPointwise(Move(s, p, Validated, Sent), Dispatched(s, p));
  }

  lemma WorkStepTidy(s: State, st: Step)
    requires FlightInv(s) && Tidy(s) && Enabled(s, st) && WorkStep(st)
    ensures WellFormed(Apply(s, st)) && Tidy(Apply(s, st))
  {
    hide ReleaseOrder, DebitOrder, Tidy;
    match st
    case Dispatch(p) => DispatchTidy(s, p);
    case Take(p) => MoveTidy(s, p, Sent, Working);
    case Debit(p) =>
      MoveTidy(s, p, Working, Settled);
      MoneyTidy(Move(s, p, Working, Settled), p);
    case Fail(p, _) =>
      MoveTidy(s, p, Working, Settled);
      MoneyTidy(Move(s, p, Working, Settled), p);
      MoneyTidy(Leave(s, p, Working), p);
    case Abandon(p) => MoveTidy(s, p, Working, Settled);
    case Settle(p) =>
      MoveTidy(s, p, Settled, Settled);
      DropTidy(Leave(s, p, Settled), s.heap[p].id);
  }

  lemma StepTidy(s: State, st: Step)
    requires FlightInv(s) && Tidy(s) && Enabled(s, st)
    ensures WellFormed(Apply(s, st)) && Tidy(Apply(s, st))
  {
    hide ApplyToPool, ApplyToCheck, ApplyToWork, Tidy, Enabled, Spent;
    if PoolStep(st) {
      PoolStepTidy(s, st);
    } else if CheckStep(st) {
      CheckStepTidy(s, st);
    } else if WorkStep(st) {
      WorkStepTidy(s, st);
    } else {
      LpStepTidy(s, Apply(s, st).lps, Apply(s, st).base);
    }
  }

  lemma LpStepTidy(s: State, lps: LpTable, base: map<Addr, Coins>)
    requires WellFormed(s) && Tidy(s)
    ensures var t := s.(lps := lps, base := base); WellFormed(t) && Tidy(t)
  {
    TidyPointwise(s, s.(lps := lps, base := base));
  }

  // ---------------------------------------------------------------- what keeps `Holds`

  /** The order at `p` may change marks, copies and place in the pool, within these limits. */
  ghost predicate LooserAt(s: State, t: State, p: Ptr) {
    && p < |s.heap| && p < |t.heap| && p < |s.copies| && p < |t.copies|
    && (p in s.link ==> t.heap[p].lpAddress == s.heap[p].lpAddress)
    && (t.heap[p].Flagged() || !s.heap[p].Flagged() || p in s.link)
    && (t.copies[p] == s.copies[p] || t.copies[p] == [] || (p in s.link <==> Settled !in t.copies[p]))
    && (p in s.link && t.heap[p].Flagged() && t.copies[p] == [] ==> Occupant(t, t.heap[p].id) == Some(p))
  }

  lemma LooserHolds(s: State, t: State)
    requires Holds(s) && t.link == s.link && t.ledger == s.ledger && |t.heap| == |s.heap| && |t.copies| == |s.copies|
    requires forall p: Ptr :: p < |s.heap| && HoldsAt(s, p) ==> LooserAt(s, t, p)
    ensures Holds(t)
  {
    forall p: Ptr | p < |t.heap| ensures HoldsAt(t, p) {
      assert HoldsAt(s, p) && LooserAt(s, t, p);
    }
  }

  /** A step that touches only order `p`, and not the pool, is judged at `p`. */
  lemma HoldsAtOne(s: State, t: State, p: Ptr)
    requires Holds(s) && t.link == s.link && t.ledger == s.ledger && |t.heap| == |s.heap| && |t.copies| == |s.copies|
    requires t.pool == s.pool
    requires forall q: Ptr :: q < |s.heap| && q != p ==> t.heap[q] == s.heap[q] && t.copies[q] == s.copies[q]
    requires p < |s.heap| ==> LooserAt(s, t, p)
    ensures Holds(t)
  {
    forall q: Ptr | q < |t.heap| ensures HoldsAt(t, q) {
      assert HoldsAt(s, q);
      assert q == p ==> LooserAt(s, t, p);
    }
  }

  /** The next reservation's number is held by no order yet. */
  lemma NewReservation(s: State)
    requires Holds(s)
    ensures forall q :: q in s.link ==> s.link[q] < |s.ledger|
  {
    forall q | q in s.link ensures s.link[q] < |s.ledger| {
      assert HoldsAt(s, q);
    }
  }

  lemma ReselectHolds(s: State, p: Ptr, a: Addr)
    requires Holds(s) && p < |s.heap| && a in s.lps && s.heap[p].rollappId in s.lps[a].rollapps
    requires s.copies[p] == [Checking]
    ensures Holds(Reselected(s, p, a))
  {
    hide Reserved;
    var t := Reselected(s, p, a);
    NewReservation(s);
    assert t.heap[p].lpAddress == a && t.heap[p].id == s.heap[p].id && t.heap[p].Flagged() == s.heap[p].Flagged();
    forall q: Ptr | q < |t.heap| ensures HoldsAt(t, q) {
      assert HoldsAt(s, q);
    }
  }

  lemma AcceptHolds(s: State, o: Order, a: Addr)
    requires Holds(s) && !o.Flagged() && a in s.lps && o.rollappId in s.lps[a].rollapps
    ensures Holds(Accepted(s, o, a))
  {
    hide Funds.Reserve, SetFunds;
    var t := Accepted(s, o, a);
    NewReservation(s);
    forall q: Ptr | q < |t.heap| ensures HoldsAt(t, q) {
      assert q < |s.heap| ==> HoldsAt(s, q);
    }
  }

  /** A marked order without a copy gives up its reservation. */
  lemma CloseHolds(s: State, p: Ptr, x: Status)
    requires |s.copies| == |s.heap| && OneEach(s) && (forall q :: q in s.link ==> q < |s.heap|)
    requires forall q: Ptr :: q < |s.heap| && q != p ==> HoldsAt(s, q)
    requires p in s.link && p < |s.heap| && Linked(s, p) && s.heap[p].Flagged() && s.copies[p] == []
    ensures Holds(Closed(s, p, x)) && p !in Closed(s, p, x).link
  {
    var t := Closed(s, p, x);
    forall q: Ptr | q < |t.heap| ensures HoldsAt(t, q) {
      assert q != p ==> HoldsAt(s, q);
    }
  }

  lemma FundsHold(s: State, lps: LpTable, base: map<Addr, Coins>)
    requires Holds(s)
    ensures Holds(s.(lps := lps, base := base))
  {
    LooserHolds(s, s.(lps := lps, base := base));
  }

  /** An order whose copy is with a fulfiller, or being evicted, gives up its reservation and its copy. */
  lemma EndHolds(s: State, p: Ptr, stage: Stage)
    requires FlightInv(s) && Holds(s) && At(s, p, stage) && (stage == Working || stage == Evicting)
    ensures p in s.link && Linked(s, p)
    ensures Holds(ReleaseOrder(Leave(s, p, stage), p)) && p !in ReleaseOrder(Leave(s, p, stage), p).link
    ensures Holds(DebitOrder(Leave(s, p, stage), p)) && p !in DebitOrder(Leave(s, p, stage), p).link
  {
    OnlyCopy(s, p, stage);
    assert AnchoredAt(s, p) && HoldsAt(s, p);
    var u := Leave(s, p, stage);
    forall q: Ptr | q < |u.heap| && q != p ensures HoldsAt(u, q) {
      assert HoldsAt(s, q);
    }
    CloseHolds(u, p, Released);
    CloseHolds(u, p, Debited);
    hide ReleaseFunds, DebitFunds, Holds, Closed;
    FundsHold(Closed(u, p, Released), ReleaseOrder(u, p).lps, s.base);
    FundsHold(Closed(u, p, Debited), DebitOrder(u, p).lps, s.base);
  }

  /** A copy that appears as a result once its order holds nothing. */
  lemma ResultHolds(s: State, p: Ptr)
    requires Holds(s) && p < |s.heap| && p !in s.link
    ensures Holds(s.(copies := s.copies[p := [Settled]]))
  {
    assert HoldsAt(s, p);
    HoldsAtOne(s, s.(copies := s.copies[p := [Settled]]), p);
  }

  lemma UpsertHolds(s: State, p: Ptr)
    requires WellFormed(s) && Holds(s) && p < |s.heap|
    ensures Holds(Upserted(s, p))
  {
    LooserHolds(s, Upserted(s, p));
  }

  lemma AddBackHolds(s: State, p: Ptr)
    requires WellFormed(s) && Holds(s) && p < |s.heap|
    ensures Holds(s.(pool := AddOne(s.pool, s.heap, p)))
  {
    LooserHolds(s, s.(pool := AddOne(s.pool, s.heap, p)));
  }

  /** An id leaves the pool with the order in flight that had it. */
  lemma DropHolds(s: State, p: Ptr)
    requires Holds(s) && p < |s.heap| && Occupant(s, s.heap[p].id) == Some(p)
    requires p in s.link ==> s.copies[p] != []
    ensures Holds(DropFromPool(s, s.heap[p].id))
  {
    LooserHolds(s, DropFromPool(s, s.heap[p].id));
  }

  lemma PopHolds(s: State, p: Ptr)
    requires Holds(s) && p < |s.heap| && !s.heap[p].Flagged() && s.copies[p] == []
    ensures Holds(Popped(s, p))
  {
    assert HoldsAt(s, p);
    HoldsAtOne(s, Popped(s, p), p);
  }

  lemma WriteHolds(s: State, p: Ptr, fee: Coin, price: Coins)
    requires Holds(s) && p < |s.heap|
    ensures Holds(s.(heap := s.heap[p := s.heap[p].(fee := fee, price := price)]))
  {
    assert HoldsAt(s, p);
    HoldsAtOne(s, s.(heap := s.heap[p := s.heap[p].(fee := fee, price := price)]), p);
  }

  /** A copy in flight may leave, or move on before its result is out. */
  lemma MoveHolds(s: State, p: Ptr, stage: Stage, to: Stage)
    requires FlightInv(s) && Holds(s) && At(s, p, stage) && stage != Evicting && stage != Settled && to != Settled
    ensures Holds(Leave(s, p, stage)) && Holds(Move(s, p, stage, to))
  {
    OnlyCopy(s, p, stage);
    assert AnchoredAt(s, p) && HoldsAt(s, p);
    HoldsAtOne(s, Leave(s, p, stage), p);
    HoldsAtOne(s, Move(s, p, stage, to), p);
  }

  lemma PoolStepHolds(s: State, st: Step)
    requires FlightInv(s) && Holds(s) && Enabled(s, st) && PoolStep(st)
    ensures Holds(Apply(s, st))
  {
    hide Accepted, Upserted, AddOne, Holds, Eligible;
    match st
    case Accept(o, a) =>
      EligibleKnowsTerms(s.lps[a], o);
      AcceptHolds(s, o, a);
    case Upsert(p) => UpsertHolds(s, p);
    case AddBack(p) => AddBackHolds(s, p);
    case Write(p, fee, price) => WriteHolds(s, p, fee, price);
    case Pop(p) =>
      assert AnchoredAt(s, p);
      PopHolds(s, p);
  }

  lemma KeepHolds(s: State, p: Ptr)
    requires FlightInv(s) && Holds(s) && Enabled(s, Step.Keep(p))
    ensures Holds(Apply(s, Step.Keep(p)))
  {
    hide Eligible;
    EligibleKnowsTerms(s.lps[s.heap[p].lpAddress], s.heap[p]);
    OnlyCopy(s, p, Checking);
    assert HoldsAt(s, p);
    HoldsAtOne(s, Apply(s, Step.Keep(p)), p);
  }

  lemma RetryHolds(s: State, p: Ptr)
    requires FlightInv(s) && Tidy(s) && Holds(s) && At(s, p, Checking)
    ensures Holds(Retried(s, p))
  {
    OnlyCopy(s, p, Checking);
    assert TidyAt(s, p) && HoldsAt(s, p);
    HoldsAtOne(s, Retried(s, p), p);
  }

  lemma ValidateHolds(s: State, p: Ptr)
    requires FlightInv(s) && Holds(s) && At(s, p, Checking)
    ensures Holds(FoundValid(s, p))
  {
    OnlyCopy(s, p, Checking);
    assert AnchoredAt(s, p) && HoldsAt(s, p);
    HoldsAtOne(s, FoundValid(s, p), p);
  }

  lemma EvictHolds(s: State, p: Ptr)
    requires FlightInv(s) && Holds(s) && At(s, p, Checking)
    ensures Holds(Evicted(s, p))
  {
    OnlyCopy(s, p, Checking);
    assert AnchoredAt(s, p);
    MoveHolds(s, p, Checking, Evicting);
    DropHolds(Move(s, p, Checking, Evicting), p);
  }

  lemma SettleHolds(s: State, p: Ptr)
    requires FlightInv(s) && Holds(s) && At(s, p, Settled)
    ensures Holds(Handled(s, p))
  {
    OnlyCopy(s, p, Settled);
    assert AnchoredAt(s, p) && HoldsAt(s, p);
    HoldsAtOne(s, Leave(s, p, Settled), p);
    DropHolds(Leave(s, p, Settled), p);
  }

  lemma CheckStepHolds(s: State, st: Step)
    requires FlightInv(s) && Tidy(s) && Holds(s) && Enabled(s, st) && CheckStep(st)
    ensures Holds(Apply(s, st))
  {
    hide Reselected, FoundValid, Evicted, Retried, ReleaseOrder, Holds, Tidy, Eligible, Keeps;
    match st
    case Keep(p) => KeepHolds(s, p);
    case Reselect(p, a) =>
      OnlyCopy(s, p, Checking);
      EligibleKnowsTerms(s.lps[a], s.heap[p]);
      ReselectHolds(s, p, a);
    case Retry(p) => RetryHolds(s, p);
    case Stall(p) => MoveHolds(s, p, Checking, Sent);
    case Validate(p) => ValidateHolds(s, p);
    case Evict(p) => EvictHolds(s, p);
    case EvictRelease(p) => EndHolds(s, p, Evicting);
  }

  /** The result of a fulfilment takes the place of the copy. */
  lemma ResultTakesPlace(s: State, p: Ptr)
    requires FlightInv(s) && At(s, p, Working)
    ensures var u := Leave(s, p, Working);
            && Fulfilled(s, p) == DebitOrder(u, p).(copies := u.copies[p := [Settled]])
            && Failed(s, p, true) == ReleaseOrder(u, p)
            && Failed(s, p, false) == ReleaseOrder(u, p).(copies := u.copies[p := [Settled]])
  {
    hide ReleaseFunds, DebitFunds;
    OnlyCopy(s, p, Working);
    assert Minus(s.copies[p], Working) + [Settled] == [Settled];
  }

  lemma WorkStepHolds(s: State, st: Step)
    requires FlightInv(s) && Holds(s) && Enabled(s, st) && WorkStep(st)
    ensures Holds(Apply(s, st))
  {
    hide Fulfilled, Failed, Handled, ReleaseOrder, DebitOrder, Holds;
    match st
    case Dispatch(p) =>
      MoveHolds(s, p, Validated, Sent);
      SentHolds(Move(s, p, Validated, Sent), Dispatched(s, p).sent);
    case Take(p) => MoveHolds(s, p, Sent, Working);
    case Debit(p) =>
      EndHolds(s, p, Working);
      ResultTakesPlace(s, p);
      ResultHolds(DebitOrder(Leave(s, p, Working), p), p);
    case Fail(p, rpc) =>
      EndHolds(s, p, Working);
      ResultTakesPlace(s, p);
      ResultHolds(ReleaseOrder(Leave(s, p, Working), p), p);
    case Abandon(p) => MoveHolds(s, p, Working, Sent);
    case Settle(p) => SettleHolds(s, p);
  }

  lemma SentHolds(s: State, ids: set<OrderId>)
    requires Holds(s)
    ensures Holds(s.(sent := ids))
  {
    LooserHolds(s, s.(sent := ids));
  }

  lemma StepHolds(s: State, st: Step)
    requires FlightInv(s) && Tidy(s) && Holds(s) && Enabled(s, st)
    ensures Holds(Apply(s, st))
  {
    hide ApplyToPool, ApplyToCheck, ApplyToWork, Tidy, Holds, Enabled, FlightInv, Spent;
    if PoolStep(st) {
      PoolStepHolds(s, st);
    } else if CheckStep(st) {
      CheckStepHolds(s, st);
    } else if WorkStep(st) {
      WorkStepHolds(s, st);
    } else {
      FundsHold(s, Apply(s, st).lps, Apply(s, st).base);
    }
  }

  // ---------------------------------------------------------------- over every run

  lemma StepOrderly(s: State, st: Step)
    requires Orderly(s) && Enabled(s, st)
    ensures Orderly(Apply(s, st))
  {
    hide Enabled, Apply, FlightInv, Tidy, Holds;
    StepKeeps(s, st);
    StepTidy(s, st);
    StepHolds(s, st);
  }

  lemma {:induction false} RunOrderly(cfg: Config, states: seq<State>, steps: seq<Step>, n: nat)
    requires IsRun(cfg, states, steps) && n <= |steps|
    ensures Orderly(states[n])
  {
    hide Enabled, Apply, Orderly;
    if n == 0 {
      StartsOrderly(cfg);
    } else {
      RunOrderly(cfg, states, steps, n - 1);
      assert Next(states[n - 1], steps[n - 1], states[n]);
      StepOrderly(states[n - 1], steps[n - 1]);
    }
  }

  lemma StartsOrderly(cfg: Config)
    ensures Orderly(Init(cfg))
  {}
}
