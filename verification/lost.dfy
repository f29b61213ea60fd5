/** Reservations that nobody will ever end: how they come about, and what they cost. */
module LostFunds {
  import opened SdkCoins
  import opened LpModel
  import opened Protocol
  import opened InFlight
  import opened Links
  import opened Money
  import opened MoneyTheorems

  // ---------------------------------------------------------------- held or lost

  /** The client still works on the order: it is on its way to the pool, waits there unmarked, or has
      a copy under way. */
  predicate Live(s: State, p: Ptr) {
    && p < |s.heap| && p < |s.copies|
    && (p in s.inHand || s.copies[p] != [] || (Occupant(s, s.heap[p].id) == Some(p) && !s.heap[p].Flagged()))
  }

  predicate HeldBy(s: State, k: nat, p: Ptr) {
    Live(s, p) && p in s.link && s.link[p] == k
  }

  ghost predicate Held(s: State, k: nat) {
    exists p: Ptr :: HeldBy(s, k, p)
  }

  predicate IsOpen(s: State, k: nat) {
    k < |s.ledger| && s.ledger[k].status == Open
  }

  /** Funds are reserved, and no order the client still works on would release or debit them. */
  ghost predicate Lost(s: State, k: nat) {
    IsOpen(s, k) && !Held(s, k)
  }

  /** The step puts the order into the pool: no order with its id is there, or one that is not marked. */
  predicate Seats(s: State, st: Step) {
    && (st.Upsert? || st.AddBack?) && st.p < |s.heap|
    && var id := s.heap[st.p].id;
    && (id in s.pool ==> st.Upsert? && s.pool[id] != st.p && s.pool[id] < |s.heap| && !s.heap[s.pool[id]].Flagged())
  }

  /** The step loses reservation `k`, which order `p` held: another LP is chosen without a release, a
      validation error or a failed batch drops the copy, ... */
  predicate LosesOwn(s: State, st: Step, k: nat) {
    && (st.Reselect? || st.Stall? || st.Abandon?)
    && st.p in s.link && s.link[st.p] == k
  }

  /** ... or the pool is offered an order for an id it holds: marked, the occupant stays and an order just
      taken in is dropped; unmarked, the occupant loses its place. */
  predicate LosesSeat(s: State, st: Step, k: nat) {
    && st.Upsert? && st.p < |s.heap| && s.heap[st.p].id in s.pool
    && var q := s.pool[s.heap[st.p].id];
    && (Seats(s, st) || st.p in s.inHand)
    && var loser := if Seats(s, st) then q else st.p;
    && loser in s.link && s.link[loser] == k
  }

  predicate Loses(s: State, st: Step, k: nat) {
    LosesOwn(s, st, k) || LosesSeat(s, st, k)
  }

  /** An order that was displaced comes back: from a retry to a seat that is vacant by then, or with an
      update that had looked it up before. */
  predicate Regains(s: State, st: Step, k: nat) {
    && Seats(s, st) && st.p !in s.inHand && !s.heap[st.p].Flagged()
    && st.p in s.link && s.link[st.p] == k
  }

  // ---------------------------------------------------------------- one step

  /** Order `q` holds the same reservation in both states, and is live in both or in neither. */
  predicate SameHold(s: State, t: State, q: Ptr) {
    && (Live(s, q) <==> Live(t, q))
    && (q in s.link <==> q in t.link) && (q in s.link ==> t.link[q] == s.link[q])
  }

  /** A step after which every order but `p` holds what it held is judged at `p`. */
  lemma JudgedAt(s: State, t: State, k: nat, p: Ptr)
    requires OneEach(s) && (IsOpen(t, k) <==> IsOpen(s, k))
    requires forall q: Ptr :: q != p ==> SameHold(s, t, q)
    ensures (HeldBy(s, k, p) ==> !Lost(s, k)) && (HeldBy(t, k, p) ==> !Lost(t, k))
    ensures HeldBy(s, k, p) && !HeldBy(t, k, p) ==> (Lost(t, k) <==> IsOpen(t, k))
    ensures !HeldBy(s, k, p) && !HeldBy(t, k, p) ==> (Lost(t, k) <==> Lost(s, k))
  {
    if q: Ptr :| HeldBy(s, k, q) {
      assert q != p ==> SameHold(s, t, q) && HeldBy(t, k, q);
    }
    if q: Ptr :| HeldBy(t, k, q) {
      assert q != p ==> SameHold(s, t, q) && HeldBy(s, k, q);
    }
  }

  /** Where no order's hold changes, nothing is lost. */
  lemma NothingLost(s: State, t: State, k: nat)
    requires IsOpen(t, k) <==> IsOpen(s, k)
    requires forall q: Ptr :: SameHold(s, t, q)
    ensures Lost(t, k) <==> Lost(s, k)
  {
    if q: Ptr :| HeldBy(s, k, q) {
      assert SameHold(s, t, q) && HeldBy(t, k, q);
    }
    if q: Ptr :| HeldBy(t, k, q) {
      assert SameHold(s, t, q) && HeldBy(s, k, q);
    }
  }

  /** An order that holds a reservation keeps it open. */
  lemma HeldIsOpen(s: State, k: nat, p: Ptr)
    requires Orderly(s) && p in s.link && s.link[p] == k
    ensures p < |s.heap| && IsOpen(s, k)
  {
    assert HoldsAt(s, p);
  }

  lemma AcceptLoses(s: State, o: Order, a: Addr, k: nat)
    requires Orderly(s) && a in s.lps && o.rollappId in s.lps[a].rollapps
    ensures Lost(Accepted(s, o, a), k) <==> Lost(s, k)
  {
    hide Reserved;
    var (t, p) := (Accepted(s, o, a), |s.heap|);
    forall q: Ptr | q != p ensures SameHold(s, t, q) {}
    if k == |s.ledger| {
      assert HeldBy(t, k, p);
    } else {
      JudgedAt(s, t, k, p);
    }
  }

  lemma ReselectLoses(s: State, p: Ptr, a: Addr, k: nat)
    requires Orderly(s) && a in s.lps && At(s, p, Checking) && s.heap[p].rollappId in s.lps[a].rollapps
    ensures Lost(Reselected(s, p, a), k) <==> Lost(s, k) || (p in s.link && s.link[p] == k)
  {
    hide Reserved, FlightInv, Tidy;
    var t := Reselected(s, p, a);
    forall q: Ptr | q != p ensures SameHold(s, t, q) {}
    if p in s.link {
      HeldIsOpen(s, s.link[p], p);
    }
    if k == |s.ledger| {
      assert HeldBy(t, k, p);
    } else {
      JudgedAt(s, t, k, p);
    }
  }

  /** An unmarked order loses its place. */
  lemma UnseatLoses(s: State, q: Ptr, k: nat)
    requires Orderly(s) && q < |s.heap| && Occupant(s, s.heap[q].id) == Some(q) && !s.heap[q].Flagged()
    ensures var t := s.(pool := s.pool - {s.heap[q].id});
            Lost(t, k) <==> Lost(s, k) || (q in s.link && s.link[q] == k)
  {
    var t := s.(pool := s.pool - {s.heap[q].id});
    assert TidyAt(s, q) && AnchoredAt(s, q);
    forall r: Ptr | r != q ensures SameHold(s, t, r) {}
    if q in s.link {
      HeldIsOpen(s, s.link[q], q);
    }
    assert !Live(t, q);
    JudgedAt(s, t, k, q);
    hide FlightInv, Tidy, HoldsAt;
  }

  /** An order takes a vacant place; held back nowhere else, it is live again if it is unmarked. */
  lemma SeatRegains(s: State, p: Ptr, hands: set<Ptr>, k: nat)
    requires |s.copies| == |s.heap| && OneEach(s) && p < |s.heap| && s.heap[p].id !in s.pool
    requires !s.heap[p].Flagged() ==> s.copies[p] == []
    requires p in s.inHand ==> !s.heap[p].Flagged() && s.copies[p] == []
    requires hands == s.inHand - {p}
    ensures Lost(s.(pool := s.pool[s.heap[p].id := p], inHand := hands), k)
       <==> Lost(s, k) && !(p !in s.inHand && !s.heap[p].Flagged() && p in s.link && s.link[p] == k)
  {
    var t := s.(pool := s.pool[s.heap[p].id := p], inHand := hands);
    forall q: Ptr | q != p ensures SameHold(s, t, q) {}
    JudgedAt(s, t, k, p);
    assert Live(t, p) <==> Live(s, p) || !s.heap[p].Flagged();
    assert p !in s.inHand && !s.heap[p].Flagged() ==> !Live(s, p);
  }

  /** The occupant stays; an order just taken in is dropped. */
  lemma SkipLoses(s: State, p: Ptr, k: nat)
    requires Orderly(s) && p < |s.heap|
    ensures Lost(s.(inHand := s.inHand - {p}), k) <==> Lost(s, k) || (p in s.inHand && p in s.link && s.link[p] == k)
  {
    var t := s.(inHand := s.inHand - {p});
    assert TidyAt(s, p);
    forall q: Ptr | q != p ensures SameHold(s, t, q) {}
    if p in s.link {
      HeldIsOpen(s, s.link[p], p);
    }
    JudgedAt(s, t, k, p);
    assert p in s.inHand ==> Live(s, p) && !Live(t, p);
    assert p !in s.inHand ==> t == s;
    hide FlightInv, HoldsAt;
  }

  lemma SeatLoses(s: State, p: Ptr, k: nat)
    requires Orderly(s) && p < |s.heap| && Seats(s, Step.Upsert(p))
    ensures var (st, t) := (Step.Upsert(p), s.(pool := s.pool[s.heap[p].id := p], inHand := s.inHand - {p}));
            Lost(t, k) <==> (Lost(s, k) && !Regains(s, st, k)) || LosesSeat(s, st, k)
  {
    InHandFacts(s, p);
    if s.heap[p].id in s.pool {
      DisplacingLoses(s, p, s.pool[s.heap[p].id], k);
    } else {
      SeatRegains(s, p, s.inHand - {p}, k);
    }
    hide Orderly, Lost, OneEach, WellFormed;
  }

  lemma DisplacingLoses(s: State, p: Ptr, q: Ptr, k: nat)
    requires Orderly(s) && p < |s.heap| && q < |s.heap| && Occupant(s, s.heap[p].id) == Some(q) && p != q
    requires !s.heap[q].Flagged()
    ensures var t := s.(pool := s.pool[s.heap[p].id := p], inHand := s.inHand - {p});
            Lost(t, k) <==> (Lost(s, k) && !(p !in s.inHand && !s.heap[p].Flagged() && p in s.link && s.link[p] == k))
                            || (q in s.link && s.link[q] == k)
  {
    hide Orderly, Lost, OneEach, WellFormed;
    InHandFacts(s, p);
    SameSeat(s, p, q);
    UnseatLoses(s, q, k);
    SeatRegains(s.(pool := s.pool - {s.heap[p].id}), p, s.inHand - {p}, k);
    assert q in s.link && s.link[q] == k ==> !(p in s.link && s.link[p] == k);
  }

  lemma SameSeat(s: State, p: Ptr, q: Ptr)
    requires Orderly(s) && p < |s.heap| && q < |s.heap| && Occupant(s, s.heap[p].id) == Some(q) && p != q
    ensures s.heap[q].id == s.heap[p].id
    ensures (s.pool - {s.heap[p].id})[s.heap[p].id := p] == s.pool[s.heap[p].id := p]
    ensures p in s.link && q in s.link ==> s.link[p] != s.link[q]
    ensures OneEach(s.(pool := s.pool - {s.heap[p].id}))
  {}

  /** An upsert either seats the order, or leaves the pool as it is. */
  lemma UpsertIs(s: State, p: Ptr)
    requires WellFormed(s) && p < |s.heap|
    ensures Upserted(s, p) == if Seats(s, Step.Upsert(p))
                              then s.(pool := s.pool[s.heap[p].id := p], inHand := s.inHand - {p})
                              else s.(inHand := s.inHand - {p})
  {}

  lemma UpsertLoses(s: State, p: Ptr, k: nat)
    requires Orderly(s) && p < |s.heap|
    ensures var st := Step.Upsert(p);
            Lost(Upserted(s, p), k) <==> (Lost(s, k) && !Regains(s, st, k)) || LosesSeat(s, st, k)
  {
    InHandFacts(s, p);
    UpsertIs(s, p);
    if Seats(s, Step.Upsert(p)) {
      SeatLoses(s, p, k);
    } else {
      SkipLoses(s, p, k);
    }
    hide Orderly, Lost, OneEach, WellFormed, Upserted;
  }

  /** An unmarked order has no copy, and one in hand is unmarked. */
  lemma InHandFacts(s: State, p: Ptr)
    requires Orderly(s) && p < |s.heap|
    ensures |s.copies| == |s.heap| && WellFormed(s) && OneEach(s)
    ensures (!s.heap[p].Flagged() || p in s.inHand) ==> !s.heap[p].Flagged() && s.copies[p] == []
    ensures p in s.inHand ==> Occupant(s, s.heap[p].id) != Some(p)
  {
    assert TidyAt(s, p) && AnchoredAt(s, p);
  }

  lemma AddBackRegains(s: State, p: Ptr, k: nat)
    requires Orderly(s) && Enabled(s, Step.AddBack(p))
    ensures Lost(s.(pool := AddOne(s.pool, s.heap, p)), k) <==> Lost(s, k) && !Regains(s, Step.AddBack(p), k)
  {
    hide FlightInv, Tidy, Holds;
    InHandFacts(s, p);
    if s.heap[p].id !in s.pool {
      SeatRegains(s, p, s.inHand, k);
    }
  }

  /** A step on a copy, or on an order's price and marks, that leaves the order live. */
  lemma LiveStays(s: State, t: State, p: Ptr, k: nat)
    requires t.link == s.link && t.ledger == s.ledger && OneEach(s)
    requires forall q: Ptr :: q != p ==> SameHold(s, t, q)
    requires (Live(s, p) <==> Live(t, p)) || p !in s.link
    ensures Lost(t, k) <==> Lost(s, k)
  {
    assert HeldBy(s, k, p) <==> HeldBy(t, k, p) by { assert t.link == s.link; }
    JudgedAt(s, t, k, p);
  }

  lemma CopyGoes(s: State, p: Ptr, stage: Stage, k: nat)
    requires Orderly(s) && At(s, p, stage) && stage != Settled && stage != Evicting
    ensures Lost(Leave(s, p, stage), k) <==> Lost(s, k) || (p in s.link && s.link[p] == k)
  {
    var t := Leave(s, p, stage);
    OnlyCopy(s, p, stage);
    assert AnchoredAt(s, p) && TidyAt(s, p);
    forall q: Ptr | q != p ensures SameHold(s, t, q) {}
    if p in s.link {
      HeldIsOpen(s, s.link[p], p);
    }
    JudgedAt(s, t, k, p);
  }

  lemma PoolStepLoses(s: State, st: Step, k: nat)
    requires Orderly(s) && Enabled(s, st) && PoolStep(st)
    ensures Lost(ApplyToPool(s, st), k) <==> (Lost(s, k) && !Regains(s, st, k)) || Loses(s, st, k)
  {
    hide Orderly, Lost, Accepted, Upserted, AddOne, Popped, Eligible;
    match st
    case Accept(o, a) =>
      EligibleKnowsTerms(s.lps[a], o);
      AcceptLoses(s, o, a, k);
    case Upsert(p) => UpsertLoses(s, p, k);
    case AddBack(p) => AddBackRegains(s, p, k);
    case Write(p, _, _) => WriteLosesNone(s, st, k);
    case Pop(p) => PopLosesNone(s, p, k);
  }

  lemma WriteLosesNone(s: State, st: Step, k: nat)
    requires Orderly(s) && Enabled(s, st) && st.Write?
    ensures Lost(ApplyToPool(s, st), k) <==> Lost(s, k)
  {
    forall q: Ptr ensures SameHold(s, ApplyToPool(s, st), q) {}
    NothingLost(s, ApplyToPool(s, st), k);
  }

  lemma PopLosesNone(s: State, p: Ptr, k: nat)
    requires Orderly(s) && Enabled(s, Step.Pop(p))
    ensures Lost(Popped(s, p), k) <==> Lost(s, k)
  {
    forall q: Ptr | q != p ensures SameHold(s, Popped(s, p), q) {}
    LiveStays(s, Popped(s, p), p, k);
  }

  lemma KeepLosesNone(s: State, p: Ptr, k: nat)
    requires Enabled(s, Step.Keep(p))
    ensures Lost(ApplyToCheck(s, Step.Keep(p)), k) <==> Lost(s, k)
  {
    hide Keeps;
    forall q: Ptr ensures SameHold(s, ApplyToCheck(s, Step.Keep(p)), q) {}
    NothingLost(s, ApplyToCheck(s, Step.Keep(p)), k);
  }

  /** A copy that moves on, or whose order goes back to the pool, loses nothing. */
  lemma RetryLosesNone(s: State, p: Ptr, k: nat)
    requires Orderly(s) && At(s, p, Checking)
    ensures Lost(Retried(s, p), k) <==> Lost(s, k)
  {
    OnlyCopy(s, p, Checking);
    assert AnchoredAt(s, p) && TidyAt(s, p);
    forall q: Ptr | q != p ensures SameHold(s, Retried(s, p), q) {}
    LiveStays(s, Retried(s, p), p, k);
    hide SentOnce, Linked, Lost;
  }

  lemma ValidateLosesNone(s: State, p: Ptr, k: nat)
    requires Orderly(s) && At(s, p, Checking)
    ensures Lost(FoundValid(s, p), k) <==> Lost(s, k)
  {
    assert AnchoredAt(s, p);
    OnlyCopy(s, p, Checking);
    assert MarkValid(s.pool, s.heap, s.heap[p].id) == s.heap[p := s.heap[p].(valid := true)];
    forall q: Ptr | q != p ensures SameHold(s, FoundValid(s, p), q) {}
    LiveStays(s, FoundValid(s, p), p, k);
    hide Tidy, SentOnce, Linked, Lost;
  }

  /** Nor does an id that leaves the pool with the order in flight that had it. */
  lemma DropLosesNone(s: State, p: Ptr, k: nat)
    requires OneEach(s) && p < |s.heap| && p < |s.copies| && Occupant(s, s.heap[p].id) == Some(p)
    requires p in s.link ==> s.copies[p] != []
    ensures Lost(DropFromPool(s, s.heap[p].id), k) <==> Lost(s, k)
  {
    var t := DropFromPool(s, s.heap[p].id);
    forall q: Ptr | q != p ensures SameHold(s, t, q) {}
    LiveStays(s, t, p, k);
  }

  lemma EvictLosesNone(s: State, p: Ptr, k: nat)
    requires Orderly(s) && At(s, p, Checking)
    ensures Lost(Evicted(s, p), k) <==> Lost(s, k)
  {
    var u := Move(s, p, Checking, Evicting);
    OnlyCopy(s, p, Checking);
    assert AnchoredAt(s, p);
    forall q: Ptr | q != p ensures SameHold(s, u, q) {}
    LiveStays(s, u, p, k);
    DropLosesNone(u, p, k);
    hide Tidy, SentOnce, Linked, Minus, Single, Lost;
  }

  /** A reservation that ends is closed, not lost. */
  lemma EndLosesNone(s: State, p: Ptr, stage: Stage, k: nat)
    requires Orderly(s) && At(s, p, stage) && (stage == Working || stage == Evicting)
    ensures var u := Leave(s, p, stage);
            && (Lost(ReleaseOrder(u, p), k) <==> Lost(s, k)) && (Lost(DebitOrder(u, p), k) <==> Lost(s, k))
  {
    hide FlightInv, Tidy, ReleaseFunds, DebitFunds;
    var u := Leave(s, p, stage);
    EndHolds(s, p, stage);
    forall q: Ptr | q != p ensures SameHold(s, ReleaseOrder(u, p), q) && SameHold(s, DebitOrder(u, p), q) {}
    if k == s.link[p] {
      assert HeldBy(s, k, p);
    } else {
      JudgedAt(s, ReleaseOrder(u, p), k, p);
      JudgedAt(s, DebitOrder(u, p), k, p);
    }
  }

  /** Nor does a result on its way hold anything. */
  lemma ResultLosesNone(s: State, p: Ptr, k: nat)
    requires OneEach(s) && p < |s.copies| && p !in s.link
    ensures Lost(s.(copies := s.copies[p := [Settled]]), k) <==> Lost(s, k)
  {
    var t := s.(copies := s.copies[p := [Settled]]);
    forall q: Ptr | q != p ensures SameHold(s, t, q) {}
    LiveStays(s, t, p, k);
  }

  lemma CheckStepLoses(s: State, st: Step, k: nat)
    requires Orderly(s) && Enabled(s, st) && CheckStep(st)
    ensures Lost(ApplyToCheck(s, st), k) <==> Lost(s, k) || LosesOwn(s, st, k)
  {
    hide Orderly, Lost, Reselected, Evicted, Retried, FoundValid, ReleaseOrder, Eligible, Keeps, Leave;
    if st.Keep? {
      KeepLosesNone(s, st.p, k);
    } else if st.Retry? {
      RetryLosesNone(s, st.p, k);
    } else if st.Validate? {
      ValidateLosesNone(s, st.p, k);
    } else if st.Evict? {
      EvictLosesNone(s, st.p, k);
    } else if st.Reselect? {
      EligibleKnowsTerms(s.lps[st.lp], s.heap[st.p]);
      ReselectLoses(s, st.p, st.lp, k);
    } else if st.Stall? {
      CopyGoes(s, st.p, Checking, k);
    } else if st.EvictRelease? {
      EndLosesNone(s, st.p, Evicting, k);
    }
  }

  lemma MovedLosesNone(s: State, st: Step, k: nat)
    requires Orderly(s) && Enabled(s, st) && (st.Dispatch? || st.Take?)
    ensures Lost(ApplyToWork(s, st), k) <==> Lost(s, k)
  {
    var (t, p) := (ApplyToWork(s, st), st.p);
    forall q: Ptr | q != p ensures SameHold(s, t, q) {}
    LiveStays(s, t, p, k);
    hide FlightInv, Tidy, HoldsAt;
  }

  lemma SettleLosesNone(s: State, p: Ptr, k: nat)
    requires Orderly(s) && At(s, p, Settled)
    ensures Lost(Handled(s, p), k) <==> Lost(s, k)
  {
    var u := Leave(s, p, Settled);
    OnlyCopy(s, p, Settled);
    assert AnchoredAt(s, p) && HoldsAt(s, p);
    forall q: Ptr | q != p ensures SameHold(s, u, q) {}
    LiveStays(s, u, p, k);
    DropLosesNone(u, p, k);
    hide Tidy, SentOnce, Linked, Minus, Single, Lost;
  }

  lemma FulfilLosesNone(s: State, st: Step, k: nat)
    requires Orderly(s) && Enabled(s, st) && (st.Debit? || st.Fail?)
    ensures Lost(ApplyToWork(s, st), k) <==> Lost(s, k)
  {
    var u := Leave(s, st.p, Working);
    EndHolds(s, st.p, Working);
    ResultTakesPlace(s, st.p);
    EndLosesNone(s, st.p, Working, k);
    ResultLosesNone(ReleaseOrder(u, st.p), st.p, k);
    ResultLosesNone(DebitOrder(u, st.p), st.p, k);
    hide FlightInv, Tidy, HoldsAt, Lost, ReleaseOrder, DebitOrder, Fulfilled, Failed;
  }

  lemma WorkStepLoses(s: State, st: Step, k: nat)
    requires Orderly(s) && Enabled(s, st) && WorkStep(st)
    ensures Lost(ApplyToWork(s, st), k) <==> Lost(s, k) || LosesOwn(s, st, k)
  {
    hide Orderly, Lost, ReleaseOrder, DebitOrder, Leave, Handled;
    if st.Settle? {
      SettleLosesNone(s, st.p, k);
    } else if st.Abandon? {
      CopyGoes(s, st.p, Working, k);
    } else if st.Debit? || st.Fail? {
      FulfilLosesNone(s, st, k);
    } else {
      MovedLosesNone(s, st, k);
    }
  }

  lemma FundsLoseNone(s: State, lps: LpTable, base: map<Addr, Coins>, k: nat)
    ensures Lost(s.(lps := lps, base := base), k) <==> Lost(s, k)
  {
    var t := s.(lps := lps, base := base);
    forall q: Ptr ensures SameHold(s, t, q) {}
    NothingLost(s, t, k);
  }

  /** A reservation is lost after a step exactly when it was lost before and its order did not come back,
      or when the step loses it. */
  lemma StepLoses(s: State, st: Step, k: nat)
    requires Orderly(s) && Enabled(s, st)
    ensures Lost(Apply(s, st), k) <==> (Lost(s, k) && !Regains(s, st, k)) || Loses(s, st, k)
  {
    hide Orderly, Lost, Enabled, ApplyToPool, ApplyToCheck, ApplyToWork, Spent;
    if PoolStep(st) {
      PoolStepLoses(s, st, k);
    } else if CheckStep(st) {
      CheckStepLoses(s, st, k);
    } else if WorkStep(st) {
      WorkStepLoses(s, st, k);
    } else {
      FundsLoseNone(s, Apply(s, st).lps, Apply(s, st).base, k);
    }
  }

  // ---------------------------------------------------------------- a run's history

  ghost predicate LosesAt(states: seq<State>, steps: seq<Step>, i: nat, k: nat)
    requires i < |states| && i < |steps|
  {
    Loses(states[i], steps[i], k)
  }

  ghost predicate RegainsAt(states: seq<State>, steps: seq<Step>, i: nat, k: nat)
    requires i < |states| && i < |steps|
  {
    Regains(states[i], steps[i], k)
  }

  /** Step `i` lost the reservation, and no step from there to `n` regained it. */
  ghost predicate LostSince(states: seq<State>, steps: seq<Step>, i: nat, n: nat, k: nat)
    requires i < n <= |steps| < |states|
  {
    LosesAt(states, steps, i, k) && forall j :: i < j < n ==> !RegainsAt(states, steps, j, k)
  }

  ghost predicate LostInHistory(states: seq<State>, steps: seq<Step>, n: nat, k: nat)
    requires n <= |steps| < |states|
  {
    exists i :: 0 <= i < n && LostSince(states, steps, i, n, k)
  }

  lemma HistoryGrows(states: seq<State>, steps: seq<Step>, n: nat, k: nat)
    requires n < |steps| < |states|
    ensures LostInHistory(states, steps, n + 1, k)
       <==> (LostInHistory(states, steps, n, k) && !RegainsAt(states, steps, n, k)) || LosesAt(states, steps, n, k)
  {
    hide LosesAt, RegainsAt;
    if LosesAt(states, steps, n, k) {
      assert LostSince(states, steps, n, n + 1, k);
    }
    if LostInHistory(states, steps, n, k) && !RegainsAt(states, steps, n, k) {
      var i :| 0 <= i < n && LostSince(states, steps, i, n, k);
      assert LostSince(states, steps, i, n + 1, k);
    }
    if LostInHistory(states, steps, n + 1, k) {
      var i :| 0 <= i < n + 1 && LostSince(states, steps, i, n + 1, k);
      assert i < n ==> LostSince(states, steps, i, n, k) && !RegainsAt(states, steps, n, k);
    }
  }

  /** In every run, the reservations that nobody would end are those the run's own steps lost. */
  lemma {:induction false} LostIsHistory(cfg: Config, states: seq<State>, steps: seq<Step>, n: nat, k: nat)
    requires IsRun(cfg, states, steps) && n <= |steps|
    ensures Lost(states[n], k) <==> LostInHistory(states, steps, n, k)
  {
    hide Enabled, Apply, Orderly, Loses, Regains, LostInHistory;
    if n == 0 {
      NoHistory(states, steps, k);
    } else {
      LostIsHistory(cfg, states, steps, n - 1, k);
      RunOrderly(cfg, states, steps, n - 1);
      assert Next(states[n - 1], steps[n - 1], states[n]);
      StepLoses(states[n - 1], steps[n - 1], k);
      HistoryGrows(states, steps, n - 1, k);
    }
  }

  lemma NoHistory(states: seq<State>, steps: seq<Step>, k: nat)
    requires |steps| < |states|
    ensures !LostInHistory(states, steps, 0, k)
  {}

  // ---------------------------------------------------------------- what it costs

  /** The total of LP `a`'s entries among those listed. */
  function SumOf(ledger: seq<Entry>, ks: set<nat>, a: Addr): Coins {
    if ledger == [] then map[]
    else
      var (n, rest) := (|ledger| - 1, SumOf(ledger[..|ledger| - 1], ks, a));
      if n in ks && ledger[n].lp == a then Add(rest, ledger[n].amount) else rest
  }

  lemma AddMoves(a: Coins, b: Coins, c: Coins)
    ensures Add(Add(a, c), b) == Add(Add(a, b), c) && Add(a, Add(b, c)) == Add(Add(a, b), c)
  {
    SameAmounts(Add(Add(a, c), b), Add(Add(a, b), c));
    SameAmounts(Add(a, Add(b, c)), Add(Add(a, b), c));
  }

  /** Two parts that make up the open entries add up to what is owed. */
  lemma {:induction false} OwedInParts(ledger: seq<Entry>, xs: set<nat>, ys: set<nat>, a: Addr)
    requires forall k: nat :: k < |ledger| ==> (ledger[k].status == Open <==> k in xs || k in ys)
    requires forall k :: !(k in xs && k in ys)
    ensures Owed(ledger, a) == Add(SumOf(ledger, xs, a), SumOf(ledger, ys, a))
  {
    hide Add;
    if ledger == [] {
      AddNothing(map[]);
    } else {
      var n := |ledger| - 1;
      OwedInParts(ledger[..n], xs, ys, a);
      AddMoves(SumOf(ledger[..n], xs, a), SumOf(ledger[..n], ys, a), ledger[n].amount);
    }
  }

  ghost function LostSoFar(states: seq<State>, steps: seq<Step>, n: nat): set<nat>
    requires n <= |steps| < |states|
  {
    set k: nat | k < |states[n].ledger| && LostInHistory(states, steps, n, k)
  }

  ghost function HeldNow(s: State): set<nat> {
    set k: nat | k < |s.ledger| && Held(s, k)
  }

  /** At every state of a balanced run, an LP's reserved funds are what orders still hold, and what the
      run's steps have lost. */
  lemma ReservedIsHeldAndLost(cfg: Config, states: seq<State>, steps: seq<Step>, n: nat, a: Addr)
    requires BalancedRun(cfg, states, steps) && n <= |steps| && a in states[n].lps
    ensures var s := states[n];
            s.lps[a].funds.reserved
              == Add(SumOf(s.ledger, HeldNow(s), a), SumOf(s.ledger, LostSoFar(states, steps, n), a))
  {
    var (s, held, lost) := (states[n], HeldNow(states[n]), LostSoFar(states, steps, n));
    ReservedIsOwed(cfg, states, steps, n, a);
    RunOrderly(cfg, states, steps, n);
    forall k: nat | k < |s.ledger|
      ensures k in lost <==> Lost(s, k)
      ensures k in held ==> s.ledger[k].status == Open
    {
      LostIsHistory(cfg, states, steps, n, k);
      if Held(s, k) {
        HolderIsOpen(s, k);
      }
    }
    OwedInParts(s.ledger, held, lost, a);
    hide BalancedRun, Orderly, Held, LostInHistory, SumOf;
  }

  lemma HolderIsOpen(s: State, k: nat)
    requires Orderly(s) && Held(s, k)
    ensures IsOpen(s, k)
  {
    hide Orderly;
    var p: Ptr :| HeldBy(s, k, p);
    HeldIsOpen(s, k, p);
  }

  /** The client has nothing left to do: nothing on its way to the pool, nothing under way, and every
      order in the pool is marked. */
  predicate Idle(s: State) {
    && s.inHand == {}
    && (forall p :: 0 <= p < |s.copies| ==> s.copies[p] == [])
    && (forall id :: id in s.pool && s.pool[id] < |s.heap| ==> s.heap[s.pool[id]].Flagged())
  }

  lemma {:induction false} SumOfNone(ledger: seq<Entry>, ks: set<nat>, a: Addr)
    ensures SumOf(ledger, ks, a) == map[]
       <==> forall k: nat :: k < |ledger| && k in ks && ledger[k].lp == a ==> ledger[k].amount == map[]
  {
    hide Add;
    if ledger != [] {
      var (n, rest) := (|ledger| - 1, SumOf(ledger[..|ledger| - 1], ks, a));
      SumOfNone(ledger[..n], ks, a);
      SumIsNone(rest, ledger[n].amount);
      assert forall k: nat :: k < n ==> ledger[..n][k] == ledger[k];
    }
  }

  lemma SumIsNone(a: Coins, b: Coins)
    ensures Add(a, b) == map[] <==> a == map[] && b == map[]
  {
    if Add(a, b) == map[] {
      forall d: Denom ensures AmountOf(a, d) == AmountOf(map[], d) && AmountOf(b, d) == AmountOf(map[], d) {
        assert AmountOf(Add(a, b), d) == 0;
      }
      SameAmounts(a, map[]);
      SameAmounts(b, map[]);
    } else if a == map[] && b == map[] {
      AddNothing(map[]);
    }
  }

  /** Once the client has nothing left to do, an LP's reserved funds are exactly the reservations the
      run's steps have lost on it, and so none if and only if each of these was for nothing. */
  lemma IdleMeansReservedIsLost(cfg: Config, states: seq<State>, steps: seq<Step>, n: nat, a: Addr)
    requires BalancedRun(cfg, states, steps) && n <= |steps| && a in states[n].lps && Idle(states[n])
    ensures var (s, lost) := (states[n], LostSoFar(states, steps, n));
            && s.lps[a].funds.reserved == SumOf(s.ledger, lost, a)
            && (s.lps[a].funds.reserved == map[]
                <==> forall k :: k in lost && s.ledger[k].lp == a ==> s.ledger[k].amount == map[])
  {
    var (s, lost) := (states[n], LostSoFar(states, steps, n));
    ReservedIsHeldAndLost(cfg, states, steps, n, a);
    assert HeldNow(s) == {} by { NoneHeld(s); }
    SumOfNone(s.ledger, {}, a);
    SumOfNone(s.ledger, lost, a);
    NoneBefore(SumOf(s.ledger, lost, a));
    hide BalancedRun, HeldNow, LostInHistory, SumOf, Add, Idle;
  }

  lemma NoneBefore(a: Coins)
    ensures Add(map[], a) == a
  {
    SameAmounts(Add(map[], a), a);
  }

  lemma NoneHeld(s: State)
    requires Idle(s)
    ensures forall k :: !Held(s, k)
  {}
}
