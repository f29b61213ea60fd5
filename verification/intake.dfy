/** How orders come in: polled from the chain or read from its events. */
module Intake {
  import opened SdkCoins
  import opened LpModel
  import opened LpObject
  import opened Protocol
  import opened InFlight
  import opened LpFloor
  import opened Pool
  import opened Slices
  import opened Dispatch
  import opened FailedOrders
  import opened Traces
  import opened Tracker
  import opened OrderChecks

  /** A demand order as the chain has it, parsed. */
  datatype Incoming = Incoming(
    id: OrderId, rollappId: RollappId, price: Coins, amount: int, fee: Coin, proofHeight: int)

  /** A demand order as a poll returns it: each field parses or does not (an empty field does not). */
  datatype Polled = Polled(
    id: OrderId, rollappId: RollappId, price: Option<nat>, amount: Option<int>, fee: Option<Coin>,
    proofHeight: Option<int>, blockHeight: Option<nat>)

  /** The same for an event, whose price is a list of coins. */
  datatype Announced = Announced(
    id: OrderId, rollappId: RollappId, price: Option<Coins>, amount: Option<int>, fee: Option<Coin>,
    proofHeight: Option<int>)

  function OneCoin(denom: Denom, amount: nat): Coins {
    if amount == 0 then map[] else map[denom := amount]
  }

  function ParsedPoll(r: Polled): Option<Incoming> {
    if r.fee.Some? && r.amount.Some? && r.price.Some? && r.proofHeight.Some? then
      Some(Incoming(r.id, r.rollappId, OneCoin(r.fee.value.denom, r.price.value), r.amount.value, r.fee.value,
                    r.proofHeight.value))
    else None
  }

  function ParsedEvent(r: Announced): Option<Incoming> {
    if r.fee.Some? && r.amount.Some? && r.price.Some? && r.proofHeight.Some? then
      Some(Incoming(r.id, r.rollappId, r.price.value, r.amount.value, r.fee.value, r.proofHeight.value))
    else None
  }

  function NewOrder(r: Incoming): Order {
    Order(r.id, r.rollappId, r.price, r.amount, r.fee, r.proofHeight, false, 0, "", false, false)
  }

  // ---------------------------------------------------------------- one order comes in

  datatype Intake = Skipped | Updated | Refused | NoLp | TakenIn

  /** What one incoming order does: an order already pooled under its id gets the new fee and price,
      whatever is reserved for it; otherwise it is refused, finds no LP, or is taken in. */
  predicate CameIn(s: State, r: Option<Incoming>, update: bool, intake: Intake, steps: seq<Step>) {
    match intake
    case Skipped => r.None? && steps == []
    case Updated =>
      && r.Some? && update && r.value.id in s.pool
      && steps == [Write(s.pool[r.value.id], r.value.fee, r.value.price), Upsert(s.pool[r.value.id])]
    case Refused => r.Some? && !(update && r.value.id in s.pool) && steps == []
    case NoLp =>
      && r.Some? && !(update && r.value.id in s.pool) && steps == []
      && forall a :: a in s.lps ==> !Eligible(s.lps[a], NewOrder(r.value))
    case TakenIn =>
      && r.Some? && !(update && r.value.id in s.pool)
      && |steps| == 1 && steps[0].Accept? && steps[0].order == NewOrder(r.value)
  }

  method WriteOrder(t: OrderTracker, p: Ptr, fee: Coin, price: Coins)
    requires t.Valid() && p < |t.pool.heap|
    modifies t, t.pool, t.lps.Values
    ensures t.Valid() && t.lps == old(t.lps) && Next(old(t.Now()), Write(p, fee, price), t.Now())
    ensures t.history == old(t.history) + [Write(p, fee, price)] && t.failed.events == old(t.failed.events)
  {
    hide OrderTracker.Valid, OrderTracker.AddressKeyed, OrderTracker.Table, Sound, Exec, Enabled, Apply;
    ghost var s := t.Now();
    t.Past();
    WriteIs(s, p, fee, price);
    t.Rewrite(t.pool.heap[p := t.pool.heap[p].(fee := fee, price := price)]);
    t.LogStep(s, Write(p, fee, price));
  }

  /** Fee and price are overwritten in place, and the order is put back into the pool. */
  method UpdateOrder(t: OrderTracker, p: Ptr, fee: Coin, price: Coins)
    requires t.Valid() && p < |t.pool.heap|
    modifies t, t.pool, t.lps.Values
    ensures t.Valid() && t.lps == old(t.lps)
    ensures Exec(old(t.Now()), [Write(p, fee, price), Upsert(p)]) == Some(t.Now())
    ensures t.history == old(t.history) + [Write(p, fee, price), Upsert(p)]
    ensures t.pool.heap == old(t.pool.heap)[p := old(t.pool.heap[p]).(fee := fee, price := price)]
    ensures t.Table() == old(t.Table())
    ensures old(t.pool.heap[p]).id in old(t.pool.orders) && old(t.pool.orders)[old(t.pool.heap[p]).id] == p ==>
              t.pool.orders == old(t.pool.orders)
  {
    hide OrderTracker.Valid, Exec;
    ghost var s := t.Now();
    WriteOrder(t, p, fee, price);
    ghost var u := t.Now();
    TrackOrders(t, [p]);
    assert Upserts([p]) == [Upsert(p)];
    ExecSingle(s, Write(p, fee, price), u);
    ExecThen(s, [Write(p, fee, price)], u, [Upsert(p)], t.Now());
    assert [Write(p, fee, price)] + [Upsert(p)] == [Write(p, fee, price), Upsert(p)];
    UpdateDoes(s, p, fee, price, t.Now());
    t.HeapIsHeap();
  }

  lemma UpdateDoes(s: State, p: Ptr, fee: Coin, price: Coins, u: State)
    requires p < |s.heap| && Exec(s, [Write(p, fee, price), Upsert(p)]) == Some(u)
    ensures u.heap == s.heap[p := s.heap[p].(fee := fee, price := price)] && u.lps == s.lps
    ensures s.heap[p].id in s.pool && s.pool[s.heap[p].id] == p ==> u.pool == s.pool
  {
    hide Exec;
    UpdateSteps(s, p, fee, price, u);
  }

  /** An order not pooled is refused exactly when its rollapp is unsupported or it is still the one that
      failed, by all that happened to the record of failures before. */
  ghost predicate Judged(r: Option<Incoming>, intake: Intake, supported: set<RollappId>, events: seq<Event>) {
    r.None? || intake.Skipped? || intake.Updated?
    || (intake.Refused? <==> r.value.rollappId !in supported || StillFailed(events, r.value.id, r.value.fee))
  }

  /** What the record of failures sees of one incoming order. */
  function SeenOf(r: Option<Incoming>, intake: Intake, supported: set<RollappId>): seq<Event> {
    if r.None? || intake.Skipped? || intake.Updated? then []
    else [Seen(r.value.id, r.value.fee, r.value.rollappId in supported)]
  }

  function AllSeen(rs: seq<Option<Incoming>>, intakes: seq<Intake>, supported: set<RollappId>): seq<Event>
    requires |intakes| <= |rs|
  {
    if intakes == [] then []
    else
      var n := |intakes| - 1;
      AllSeen(rs, intakes[..n], supported) + SeenOf(rs[n], intakes[n], supported)
  }

  lemma PoolIsValid(t: OrderTracker)
    requires t.Valid()
    ensures t.pool.Valid()
  {}

  /** The body of both loops: `update` is false only for the event of a new order. */
  method TakeIn(t: OrderTracker, r: Option<Incoming>, update: bool)
    returns (intake: Intake, found: Option<Ptr>, ghost steps: seq<Step>)
    requires t.Valid() && t.failed.Valid()
    modifies t, t.pool, t.lps.Values, t.failed
    ensures t.Valid() && t.failed.Valid() && t.lps == old(t.lps)
    ensures Exec(old(t.Now()), steps) == Some(t.Now()) && CameIn(old(t.Now()), r, update, intake, steps)
    ensures found == if intake.TakenIn? then Some(|old(t.pool.heap)|) else None
    ensures Judged(r, intake, t.cfg.supported, old(t.failed.events))
    ensures t.failed.events == old(t.failed.events) + SeenOf(r, intake, t.cfg.supported)
    ensures t.history == old(t.history) + steps
    ensures intake.Skipped? <==> r.None?
    ensures intake.Updated? <==> r.Some? && update && r.value.id in old(t.pool.orders)
    ensures r.Some? && !intake.Updated? ==>
              (intake.Refused? <==> r.value.rollappId !in t.cfg.supported
                                    || StillFailed(old(t.failed.events), r.value.id, r.value.fee))
    ensures t.pool.orders == old(t.pool.orders)
    ensures intake.Skipped? || intake.Refused? || intake.NoLp? ==> t.Now() == old(t.Now())
    ensures intake.Updated? ==>
              var p := old(t.pool.orders)[r.value.id];
              && p < |old(t.pool.heap)| && t.Table() == old(t.Table())
              && t.pool.heap
                   == old(t.pool.heap)[p := old(t.pool.heap)[p].(fee := r.value.fee, price := r.value.price)]
    ensures intake.NoLp? ==>
              forall o: Order, a: Addr ::
                (a in old(t.lps) && o.rollappId == r.value.rollappId && o.price == r.value.price
                 && o.amount == r.value.amount && o.fee == r.value.fee) ==> !Eligible(old(t.lps[a].Val()), o)
    ensures intake.TakenIn? ==>
              && |t.pool.heap| == |old(t.pool.heap)| + 1 && t.pool.heap[..|old(t.pool.heap)|] == old(t.pool.heap)
              && var (o, a) := (t.pool.heap[|old(t.pool.heap)|], t.pool.heap[|old(t.pool.heap)|].lpAddress);
              && o.id == r.value.id && o.rollappId == r.value.rollappId && o.price == r.value.price
              && o.amount == r.value.amount && o.fee == r.value.fee && o.proofHeight == r.value.proofHeight
              && !o.checking && !o.valid
              && a in t.lps && Eligible(old(t.lps[a].Val()), o) && o.rollappId in t.lps[a].rollapps
              && o.settlementValidated == t.lps[a].rollapps[o.rollappId].settlementValidated
              && o.operatorFeePart == t.lps[a].rollapps[o.rollappId].operatorFeeShare
              && t.Table() == old(t.Table())[a := old(t.lps[a].Val()).(funds :=
                   Funds(old(t.lps[a].balance), Add(old(t.lps[a].reservedFunds), r.value.price)))]
  {
    hide OrderTracker.Valid, Enabled, Apply, Exec, Eligible, FailureRecord.Valid, StillFailed, OrderTracker.Table,
         OrderTracker.AddressKeyed;
    ghost var s := t.Now();
    NoSteps(s);
    if r.None? {
      return Skipped, None, [];
    }
    var o := r.value;
    if update {
      PoolIsValid(t);
      var exist := t.pool.GetOrder(o.id);
      if exist.Some? {
        UpdateOrder(t, exist.value, o.fee, o.price);
        return Updated, None, [Write(exist.value, o.fee, o.price), Upsert(exist.value)];
      }
    }
    intake, found, steps := TakeNew(t, o);
    CameInNew(s, o, update, intake, steps);
  }

  lemma CameInNew(s: State, o: Incoming, update: bool, intake: Intake, steps: seq<Step>)
    requires !(update && o.id in s.pool) && CameIn(s, Some(o), false, intake, steps)
    ensures CameIn(s, Some(o), update, intake, steps)
  {
    hide Eligible;
  }

  /** An order not pooled, or not to be updated: refused, without an LP, or taken in. */
  method TakeNew(t: OrderTracker, o: Incoming) returns (intake: Intake, found: Option<Ptr>, ghost steps: seq<Step>)
    requires t.Valid() && t.failed.Valid()
    modifies t, t.pool, t.lps.Values, t.failed
    ensures t.Valid() && t.failed.Valid() && t.lps == old(t.lps)
    ensures Exec(old(t.Now()), steps) == Some(t.Now()) && CameIn(old(t.Now()), Some(o), false, intake, steps)
    ensures found == if intake.TakenIn? then Some(|old(t.pool.heap)|) else None
    ensures !intake.Skipped? && !intake.Updated?
    ensures intake.Refused? <==> o.rollappId !in t.cfg.supported || StillFailed(old(t.failed.events), o.id, o.fee)
    ensures t.failed.events == old(t.failed.events) + [Seen(o.id, o.fee, o.rollappId in t.cfg.supported)]
    ensures t.history == old(t.history) + steps && t.pool.orders == old(t.pool.orders)
    ensures !intake.TakenIn? ==> t.Now() == old(t.Now())
    ensures intake.NoLp? ==>
              forall n: Order, a: Addr ::
                (a in old(t.lps) && n.rollappId == o.rollappId && n.price == o.price
                 && n.amount == o.amount && n.fee == o.fee) ==> !Eligible(old(t.lps[a].Val()), n)
    ensures intake.TakenIn? ==>
              && |t.pool.heap| == |old(t.pool.heap)| + 1 && t.pool.heap[..|old(t.pool.heap)|] == old(t.pool.heap)
              && var (n, a) := (t.pool.heap[|old(t.pool.heap)|], t.pool.heap[|old(t.pool.heap)|].lpAddress);
              && n.id == o.id && n.rollappId == o.rollappId && n.price == o.price
              && n.amount == o.amount && n.fee == o.fee && n.proofHeight == o.proofHeight
              && !n.checking && !n.valid
              && a in t.lps && Eligible(old(t.lps[a].Val()), n) && n.rollappId in t.lps[a].rollapps
              && n.settlementValidated == t.lps[a].rollapps[n.rollappId].settlementValidated
              && n.operatorFeePart == t.lps[a].rollapps[n.rollappId].operatorFeeShare
              && t.Table() == old(t.Table())[a := old(t.lps[a].Val()).(funds :=
                   Funds(old(t.lps[a].balance), Add(old(t.lps[a].reservedFunds), o.price)))]
  {
    hide *;
    ghost var s := t.Now();
    NoSteps(s);
    NewComesIn(t, o);
    NewOrderIs(o);
    var order := NewOrder(o);
    EligibleAlike(order);
    var can := Admissible(t, order);
    if !can {
      return Refused, None, [];
    }
    ghost var st;
    found, st := t.FindLpForNew(order);
    if found == None {
      return NoLp, None, [];
    }
    ExecSingle(s, st, t.Now());
    TakenComesIn(s, o, st);
    return TakenIn, found, [st];
  }

  lemma NewOrderIs(o: Incoming)
    ensures var n := NewOrder(o);
            && n.id == o.id && n.rollappId == o.rollappId && n.price == o.price && n.amount == o.amount
            && n.fee == o.fee && n.proofHeight == o.proofHeight && n.lpAddress == ""
            && !n.checking && !n.valid && !n.Flagged()
  {}

  lemma NewComesIn(t: OrderTracker, o: Incoming)
    ensures CameIn(t.Now(), Some(o), false, Refused, [])
    ensures (forall a :: a in t.lps ==> !Eligible(t.lps[a].Val(), NewOrder(o))) ==>
              CameIn(t.Now(), Some(o), false, NoLp, [])
  {
    t.TableIsVals();
    hide Eligible;
  }

  lemma TakenComesIn(s: State, o: Incoming, st: Step)
    requires st.Accept? && st.order == NewOrder(o)
    ensures CameIn(s, Some(o), false, TakenIn, [st])
  {
    hide NewOrder;
  }

  /** An LP looks at nothing but rollapp, price, amount and fee of an order. */
  lemma EligibleAlike(o: Order)
    ensures forall lp: LpVal, q: Order ::
              (q.rollappId == o.rollappId && q.price == o.price && q.amount == o.amount && q.fee == o.fee)
              ==> (Eligible(lp, q) <==> Eligible(lp, o))
  {}

  /** `canFulfillOrder`: only the record of failures changes. */
  method Admissible(t: OrderTracker, o: Order) returns (ok: bool)
    requires t.failed.Valid()
    modifies t.failed
    ensures t.failed.Valid() && t.Now() == old(t.Now()) && t.Valid() == old(t.Valid())
    ensures forall a :: a in t.lps ==> t.lps[a].Val() == old(t.lps[a].Val())
    ensures t.failed.events == old(t.failed.events) + [Seen(o.id, o.fee, o.rollappId in t.cfg.supported)]
    ensures ok <==> o.rollappId in t.cfg.supported && !StillFailed(old(t.failed.events), o.id, o.fee)
  {
    hide Sound;
    ok := t.failed.CanFulfillOrder(o, t.cfg.supported);
  }

  // ---------------------------------------------------------------- a list of orders comes in

  /** The total price of the orders on LP `a`. */
  function TotalOn(orders: seq<Order>, a: Addr): Coins {
    if orders == [] then map[]
    else
      var (init, o) := (orders[..|orders| - 1], orders[|orders| - 1]);
      if o.lpAddress == a then Add(TotalOn(init, a), o.price) else TotalOn(init, a)
  }

  /** From `s` to `t` the orders past the end of `s`'s heap came in, none is pooled yet, and every LP's
      reserved funds grew by exactly the prices of those it took. */
  ghost predicate Committed(s: State, t: State) {
    && |s.heap| <= |t.heap| && t.lps.Keys == s.lps.Keys
    && (forall id :: id in t.pool ==> t.pool[id] < |s.heap|)
    && forall a :: a in s.lps ==> CommittedAt(s, t, a)
  }

  ghost predicate CommittedAt(s: State, t: State, a: Addr)
    requires |s.heap| <= |t.heap| && a in s.lps && t.lps.Keys == s.lps.Keys
  {
    t.lps[a].funds == Funds(s.lps[a].funds.balance, Add(s.lps[a].funds.reserved, TotalOn(t.heap[|s.heap|..], a)))
  }

  lemma NothingCommitted(s: State)
    requires Keyed(s.pool, s.heap)
    ensures Committed(s, s)
  {
    forall a | a in s.lps ensures CommittedAt(s, s, a) {
      SameAmounts(Add(s.lps[a].funds.reserved, map[]), s.lps[a].funds.reserved);
    }
  }

  lemma UpdateCommits(s: State, t: State, p: Ptr, fee: Coin, price: Coins)
    requires Committed(s, t) && p < |s.heap|
    ensures var h := t.heap[p := t.heap[p].(fee := fee, price := price)];
            Committed(s, Upserted(t.(heap := h), p))
  {
    var h := t.heap[p := t.heap[p].(fee := fee, price := price)];
    assert h[|s.heap|..] == t.heap[|s.heap|..];
  }

  lemma AcceptCommits(s: State, t: State, o: Order, a: Addr)
    requires Committed(s, t) && a in t.lps && o.rollappId in t.lps[a].rollapps
    ensures Committed(s, Accepted(t, o, a))
  {
    hide CommittedAt, Accepted;
    var u := Accepted(t, o, a);
    AcceptedFunds(t, o, a);
    forall b | b in s.lps ensures CommittedAt(s, u, b) {
      assert CommittedAt(s, t, b);
      AcceptCommitsAt(s, t, u, Assign(o, t.lps, a), b);
    }
  }

  lemma AcceptedFunds(t: State, o: Order, a: Addr)
    requires a in t.lps && o.rollappId in t.lps[a].rollapps
    ensures Accepted(t, o, a).heap == t.heap + [Assign(o, t.lps, a)] && Accepted(t, o, a).pool == t.pool
    ensures Accepted(t, o, a).lps == SetFunds(t.lps, a, t.lps[a].funds.Reserve(o.price))
  {}

  lemma AcceptCommitsAt(s: State, t: State, u: State, o: Order, b: Addr)
    requires |s.heap| <= |t.heap| && t.lps.Keys == s.lps.Keys && b in s.lps && CommittedAt(s, t, b)
    requires o.lpAddress in t.lps && u.heap == t.heap + [o]
    requires u.lps == SetFunds(t.lps, o.lpAddress, t.lps[o.lpAddress].funds.Reserve(o.price))
    ensures CommittedAt(s, u, b)
  {
    hide TotalOn, Add;
    var before := t.heap[|s.heap|..];
    assert u.heap[|s.heap|..] == before + [o];
    TotalOnMore(before, o, b);
    AddAssoc(s.lps[b].funds.reserved, TotalOn(before, b), o.price);
  }

  lemma TotalOnMore(orders: seq<Order>, o: Order, a: Addr)
    ensures TotalOn(orders + [o], a)
         == if o.lpAddress == a then Add(TotalOn(orders, a), o.price) else TotalOn(orders, a)
  {
    assert (orders + [o])[..|orders|] == orders;
  }

  lemma AddAssoc(a: Coins, b: Coins, c: Coins)
    ensures Add(Add(a, b), c) == Add(a, Add(b, c))
  {
    SameAmounts(Add(Add(a, b), c), Add(a, Add(b, c)));
  }

  lemma UpdateSteps(t: State, p: Ptr, fee: Coin, price: Coins, u: State)
    requires Exec(t, [Write(p, fee, price), Upsert(p)]) == Some(u)
    ensures p < |t.heap| && var h := t.heap[p := t.heap[p].(fee := fee, price := price)];
            u == Upserted(t.(heap := h), p)
  {
    hide Exec;
    TwoExec(t, Write(p, fee, price), Upsert(p), u);
  }

  lemma AcceptSteps(t: State, st: Step, u: State)
    requires st.Accept? && Exec(t, [st]) == Some(u)
    ensures st.lp in t.lps && st.order.rollappId in t.lps[st.lp].rollapps && u == Accepted(t, st.order, st.lp)
  {
    hide Exec, IsAllGTE, IsAnyGT, MinFee;
    SingleExec(t, st, u);
  }

  lemma ComingInCommits(s: State, t: State, r: Option<Incoming>, update: bool, intake: Intake, steps: seq<Step>,
                        u: State)
    requires Committed(s, t) && Exec(t, steps) == Some(u) && CameIn(t, r, update, intake, steps)
    ensures Committed(s, u)
    ensures |u.heap| == |t.heap| + if intake.TakenIn? then 1 else 0
  {
    hide Exec, Committed, Accepted, Eligible;
    if intake.TakenIn? {
      assert steps == [steps[0]];
      AcceptSteps(t, steps[0], u);
      AcceptCommits(s, t, steps[0].order, steps[0].lp);
      AcceptedLength(t, steps[0].order, steps[0].lp);
    } else if intake.Updated? {
      var p := t.pool[r.value.id];
      UpdateSteps(t, p, r.value.fee, r.value.price, u);
      PooledIsOld(s, t, r.value.id);
      UpdateCommits(s, t, p, r.value.fee, r.value.price);
    } else {
      NoSteps(t);
    }
  }

  lemma AcceptedLength(t: State, o: Order, a: Addr)
    requires a in t.lps && o.rollappId in t.lps[a].rollapps
    ensures |Accepted(t, o, a).heap| == |t.heap| + 1
  {}

  lemma PooledIsOld(s: State, t: State, id: OrderId)
    requires Committed(s, t) && id in t.pool
    ensures t.pool[id] < |s.heap|
  {}

  /** What an LP's new orders cost together was available at the start. */
  lemma CommittedWasAvailable(s: State, t: State, a: Addr)
    requires Committed(s, t) && AllSolvent(s.lps) && AllSolvent(t.lps) && a in s.lps
    ensures s.lps[a].funds.Has(TotalOn(t.heap[|s.heap|..], a))
  {
    var f, total := s.lps[a].funds, TotalOn(t.heap[|s.heap|..], a);
    assert CommittedAt(s, t, a);
    assert t.lps[a].funds == f.Reserve(total);
    ReserveKeepsSolvent(f, total);
  }

  /** What a loop over incoming orders has done when it gets to order `i`. `mids` are the states between. */
  ghost predicate CameInUpTo(rs: seq<Option<Incoming>>, update: bool, i: nat, orders: seq<Ptr>,
                             intakes: seq<Intake>, steps: seq<seq<Step>>, mids: seq<State>)
    requires i <= |rs|
  {
    && |intakes| == |steps| == i && |mids| == i + 1
    && (forall k :: 0 <= k < i ==>
          Exec(mids[k], steps[k]) == Some(mids[k + 1]) && CameIn(mids[k], rs[k], update, intakes[k], steps[k]))
    && Committed(mids[0], mids[i])
    && orders == NewPtrs(mids[0], mids[i])
    && (forall k :: 0 <= k < i ==> CameOut(mids[k], rs[k], intakes[k], mids[i]))
  }

  /** An order read is passed over exactly if it could not be parsed; one taken in since `s` is there in `t`,
      with all that was read of it. */
  ghost predicate CameOut(s: State, r: Option<Incoming>, intake: Intake, t: State) {
    && (intake.Skipped? <==> r.None?)
    && (intake.TakenIn? ==>
          && |s.heap| < |t.heap|
          && var o := t.heap[|s.heap|];
          && o.id == r.value.id && o.rollappId == r.value.rollappId && o.price == r.value.price
          && o.amount == r.value.amount && o.fee == r.value.fee && o.proofHeight == r.value.proofHeight)
  }

  /** Orders taken in stay as they are while others come in: only orders pooled before are written. */
  lemma NewOrdersStay(s: State, t: State, r: Option<Incoming>, update: bool, intake: Intake, steps: seq<Step>, u: State)
    requires Committed(s, t) && Exec(t, steps) == Some(u) && CameIn(t, r, update, intake, steps)
    ensures |t.heap| <= |u.heap| && forall p :: |s.heap| <= p < |t.heap| ==> u.heap[p] == t.heap[p]
    ensures CameOut(t, r, intake, u)
  {
    hide Exec, Committed, Accepted, Eligible;
    if intake.TakenIn? {
      assert steps == [steps[0]];
      AcceptSteps(t, steps[0], u);
      AcceptedOrder(t, steps[0].order, steps[0].lp);
    } else if intake.Updated? {
      UpdateSteps(t, t.pool[r.value.id], r.value.fee, r.value.price, u);
      PooledIsOld(s, t, r.value.id);
    } else {
      NoSteps(t);
    }
  }

  lemma AcceptedOrder(t: State, o: Order, a: Addr)
    requires a in t.lps && o.rollappId in t.lps[a].rollapps
    ensures var (u, n) := (Accepted(t, o, a), |t.heap|);
            && |u.heap| == n + 1 && u.heap[..n] == t.heap
            && u.heap[n].id == o.id && u.heap[n].rollappId == o.rollappId && u.heap[n].price == o.price
            && u.heap[n].amount == o.amount && u.heap[n].fee == o.fee && u.heap[n].proofHeight == o.proofHeight
  {}

  lemma StillOut(s: State, k: State, r: Option<Incoming>, intake: Intake, t: State, u: State)
    requires CameOut(k, r, intake, t) && |s.heap| <= |k.heap| && |t.heap| <= |u.heap|
    requires forall p :: |s.heap| <= p < |t.heap| ==> u.heap[p] == t.heap[p]
    ensures CameOut(k, r, intake, u)
  {}

  /** The orders that came in between two states. */
  ghost function NewPtrs(s: State, t: State): seq<Ptr>
    requires |s.heap| <= |t.heap|
  {
    seq(|t.heap| - |s.heap|, j requires 0 <= j => |s.heap| + j)
  }

  lemma OneMoreCameIn(rs: seq<Option<Incoming>>, update: bool, i: nat, orders: seq<Ptr>,
                      intakes: seq<Intake>, steps: seq<seq<Step>>, mids: seq<State>,
                      intake: Intake, found: Option<Ptr>, more: seq<Step>, u: State)
    requires i < |rs| && CameInUpTo(rs, update, i, orders, intakes, steps, mids)
    requires Exec(mids[i], more) == Some(u) && CameIn(mids[i], rs[i], update, intake, more)
    requires found == if intake.TakenIn? then Some(|mids[i].heap|) else None
    ensures CameInUpTo(rs, update, i + 1, orders + if found.Some? then [found.value] else [],
                       intakes + [intake], steps + [more], mids + [u])
  {
    hide Exec, CameIn, Committed, CameOut;
    ComingInCommits(mids[0], mids[i], rs[i], update, intake, more, u);
    CommittedGrows(mids[0], mids[i]);
    NewOrdersStay(mids[0], mids[i], rs[i], update, intake, more, u);
    var m := mids + [u];
    forall k | 0 <= k < i + 1 ensures CameOut(m[k], rs[k], (intakes + [intake])[k], u) {
      if k < i {
        HeapsGrow(rs, update, i, orders, intakes, steps, mids, k);
        StillOut(mids[0], mids[k], rs[k], intakes[k], mids[i], u);
      }
    }
    forall k | 0 <= k < i + 1
      ensures Exec(m[k], (steps + [more])[k]) == Some(m[k + 1])
      ensures CameIn(m[k], rs[k], update, (intakes + [intake])[k], (steps + [more])[k]) {
      assert m[k] == mids[k];
    }
  }

  lemma {:induction false} HeapsGrow(rs: seq<Option<Incoming>>, update: bool, i: nat, orders: seq<Ptr>,
                                     intakes: seq<Intake>, steps: seq<seq<Step>>, mids: seq<State>, k: nat)
    requires i <= |rs| && CameInUpTo(rs, update, i, orders, intakes, steps, mids) && k <= i
    ensures |mids[0].heap| <= |mids[k].heap|
  {
    hide Exec, CameIn, Committed, CameOut;
    if k > 0 {
      HeapsGrow(rs, update, i, orders, intakes, steps, mids, k - 1);
      HeapGrows(mids[k - 1], rs[k - 1], update, intakes[k - 1], steps[k - 1], mids[k]);
    }
  }

  lemma HeapGrows(t: State, r: Option<Incoming>, update: bool, intake: Intake, steps: seq<Step>, u: State)
    requires Exec(t, steps) == Some(u) && CameIn(t, r, update, intake, steps)
    ensures |t.heap| <= |u.heap|
  {
    hide Exec, Accepted, Eligible;
    if intake.TakenIn? {
      assert steps == [steps[0]];
      AcceptSteps(t, steps[0], u);
      AcceptedOrder(t, steps[0].order, steps[0].lp);
    } else if intake.Updated? {
      UpdateSteps(t, t.pool[r.value.id], r.value.fee, r.value.price, u);
    } else {
      NoSteps(t);
    }
  }

  lemma CameInCommitted(rs: seq<Option<Incoming>>, update: bool, i: nat, orders: seq<Ptr>,
                        intakes: seq<Intake>, steps: seq<seq<Step>>, mids: seq<State>)
    requires i <= |rs| && CameInUpTo(rs, update, i, orders, intakes, steps, mids)
    ensures |mids| == i + 1 && Committed(mids[0], mids[i])
  {}

  lemma NothingCameIn(rs: seq<Option<Incoming>>, update: bool, s: State, supported: set<RollappId>,
                      events: seq<Event>, past: seq<Step>)
    requires Keyed(s.pool, s.heap)
    ensures CameInUpTo(rs, update, 0, [], [], [], [s]) && AllJudged(rs, [], supported, events)
    ensures events + AllSeen(rs, [], supported) == events && past + Flatten([]) == past
  {
    NothingCommitted(s);
  }

  /** Each order of the list was judged by what had happened to the record until then. */
  ghost predicate AllJudged(rs: seq<Option<Incoming>>, intakes: seq<Intake>, supported: set<RollappId>,
                            events: seq<Event>)
  {
    |intakes| <= |rs| && forall k :: 0 <= k < |intakes| ==>
      Judged(rs[k], intakes[k], supported, events + AllSeen(rs, intakes[..k], supported))
  }

  lemma OneMoreJudged(rs: seq<Option<Incoming>>, intakes: seq<Intake>, supported: set<RollappId>,
                      events: seq<Event>, intake: Intake)
    requires |intakes| < |rs| && AllJudged(rs, intakes, supported, events)
    requires Judged(rs[|intakes|], intake, supported, events + AllSeen(rs, intakes, supported))
    ensures AllJudged(rs, intakes + [intake], supported, events)
    ensures events + AllSeen(rs, intakes, supported) + SeenOf(rs[|intakes|], intake, supported)
         == events + AllSeen(rs, intakes + [intake], supported)
  {
    hide Judged, SeenOf;
    var (n, more) := (|intakes|, intakes + [intake]);
    assert more[..n] == intakes;
    forall k | 0 <= k < n ensures more[..k] == intakes[..k] {}
  }

  lemma CommittedGrows(s: State, t: State)
    requires Committed(s, t)
    ensures |s.heap| <= |t.heap|
  {}

  lemma KeyedAndSolvent(t: OrderTracker)
    requires t.Valid()
    ensures Keyed(t.pool.orders, t.pool.heap) && AllSolvent(t.Now().lps)
  {}

  /** The loop both readers share. */
  method TakeInAll(t: OrderTracker, rs: seq<Option<Incoming>>, update: bool)
    returns (orders: seq<Ptr>, intakes: seq<Intake>, ghost steps: seq<seq<Step>>, ghost mids: seq<State>)
    requires t.Valid() && t.failed.Valid()
    modifies t, t.pool, t.lps.Values, t.failed
    ensures t.Valid() && t.failed.Valid() && t.lps == old(t.lps)
    ensures |mids| == |rs| + 1 && mids[0] == old(t.Now()) && mids[|rs|] == t.Now()
    ensures CameInUpTo(rs, update, |rs|, orders, intakes, steps, mids)
    ensures AllJudged(rs, intakes, t.cfg.supported, old(t.failed.events))
    ensures t.failed.events == old(t.failed.events) + AllSeen(rs, intakes, t.cfg.supported)
    ensures t.history == old(t.history) + Flatten(steps)
    ensures forall a :: a in old(t.Now()).lps ==>
              |old(t.pool.heap)| <= |t.pool.heap|
              && old(t.Now()).lps[a].funds.Has(TotalOn(t.pool.heap[|old(t.pool.heap)|..], a))
  {
    hide OrderTracker.Valid, FailureRecord.Valid, Exec, CameIn, Committed, StillFailed, Funds.Has, Judged, SeenOf,
         AllSeen, CameInUpTo, AllJudged;
    ghost var past, events := t.history, t.failed.events;
    orders, intakes, steps, mids := [], [], [], [t.Now()];
    KeyedAndSolvent(t);
    NothingCameIn(rs, update, t.Now(), t.cfg.supported, events, past);
    for i := 0 to |rs|
      invariant t.Valid() && t.failed.Valid() && t.lps == old(t.lps)
      invariant |mids| == i + 1 && mids[0] == old(t.Now()) && mids[i] == t.Now()
      invariant CameInUpTo(rs, update, i, orders, intakes, steps, mids)
      invariant |intakes| == i && AllJudged(rs, intakes, t.cfg.supported, events)
      invariant t.failed.events == events + AllSeen(rs, intakes, t.cfg.supported)
      invariant t.history == past + Flatten(steps)
    {
      var intake, found;
      ghost var more;
      intake, found, more := TakeIn(t, rs[i], update);
      OneMoreCameIn(rs, update, i, orders, intakes, steps, mids, intake, found, more, t.Now());
      OneMoreJudged(rs, intakes, t.cfg.supported, events, intake);
      OneMoreList(past, steps, more);
      orders := orders + if found.Some? then [found.value] else [];
      intakes, steps, mids := intakes + [intake], steps + [more], mids + [t.Now()];
    }
    CameInCommitted(rs, update, |rs|, orders, intakes, steps, mids);
    CommittedGrows(mids[0], mids[|rs|]);
    KeyedAndSolvent(t);
    forall a | a in mids[0].lps ensures mids[0].lps[a].funds.Has(TotalOn(t.pool.heap[|mids[0].heap|..], a)) {
      CommittedWasAvailable(mids[0], mids[|rs|], a);
    }
  }
}
