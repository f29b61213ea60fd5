/** The order protocol as a state machine. One step is one critical section (under the pool lock or
    the LP lock), one write to a shared order outside any lock, or one transfer between the queues.
    A pointer to a demand order is an index into `heap`, so two names for one order stay visible.
    A critical section over a batch is a run of consecutive single-order steps. */
module Protocol {
  import opened SdkCoins
  import opened LpModel

  type Ptr = nat

  datatype Status = Open | Released | Debited

  /** One reservation: which LP, how much, and what became of it. */
  datatype Entry = Entry(lp: Addr, amount: Coins, status: Status)

  /** What `loadLPs` filters grants by. */
  datatype Config = Config(supported: set<RollappId>, minShare: Dec)

  /** Where a copy of an order is between a pop and the handling of its result. */
  datatype Stage =
    | Checking      // popped: in the check queue or before the validator
    | Validated     // found valid, not yet sent out
    | Sent          // in the channel to the fulfillers
    | Working       // held by a fulfiller
    | Settled       // its result is on the way (a result names its order by id)
    | Evicting      // taken out of the pool by an eviction, funds not yet released

  datatype State = State(
    cfg: Config,
    heap: seq<Order>,
    pool: map<OrderId, Ptr>,
    lps: LpTable,
    copies: seq<seq<Stage>>, // for each order of the heap, where its copies are
    inHand: set<Ptr>,        // taken in, but not yet offered to the pool
    // observers, which no step reads
    ledger: seq<Entry>,      // every reservation ever made
    link: map<Ptr, nat>,     // the reservation an order would release or debit now
    base: map<Addr, Coins>,  // what each balance would be had nothing been debited
    sent: set<OrderId>)      // dispatched since last taken out of the pool

  datatype Step =
    | Accept(order: Order, lp: Addr)                 // a new order reserves funds on its LP
    | Upsert(p: Ptr)                                 // pool.upsertOrder
    | AddBack(p: Ptr)                                // pool.addOrder
    | Write(p: Ptr, fee: Coin, price: Coins)         // fee and price overwritten in place
    | Pop(p: Ptr)                                    // pool.popOrders
    | Keep(p: Ptr)                                   // findLPForOrder, LP still eligible
    | Reselect(p: Ptr, lp: Addr)                     // findLPForOrder, another LP
    | Retry(p: Ptr)                                  // checking := false
    | Stall(p: Ptr)                                  // validation error
    | Validate(p: Ptr)                               // pool.setValid
    | Evict(p: Ptr)                                  // evictOrder: pool.removeOrder ...
    | EvictRelease(p: Ptr)                           // ... then the release
    | Dispatch(p: Ptr)                               // into the channel to the fulfillers
    | Take(p: Ptr)                                   // out of it
    | Debit(p: Ptr)                                  // fulfilled
    | Fail(p: Ptr, rpc: bool)                        // fulfilment failed; no result if RPC error
    | Abandon(p: Ptr)                                // a chunk after the failed one
    | Settle(p: Ptr)                                 // manageProcessed: pool.removeOrder
    | Refresh(lp: Addr, balance: Coins)              // setBalance
    | Install(entry: LpVal)                          // loadLPs: a fresh LP
    | Revoke(lp: Addr)                               // loadLPs: grant gone

  function Init(cfg: Config): State {
    State(cfg, [], map[], map[], [], {}, [], map[], map[], {})
  }

  // ---------------------------------------------------------------- helpers

  function Occupant(s: State, id: OrderId): Option<Ptr> {
    if id in s.pool then Some(s.pool[id]) else None
  }

  /** `q` with the first `x` taken out. */
  function Minus<T(==)>(q: seq<T>, x: T): seq<T> {
    if q == [] then [] else if q[0] == x then q[1..] else [q[0]] + Minus(q[1..], x)
  }

  predicate At(s: State, p: Ptr, stage: Stage) {
    p < |s.heap| && p < |s.copies| && stage in s.copies[p]
  }

  function Leave(s: State, p: Ptr, stage: Stage): State
    requires At(s, p, stage)
  {
    s.(copies := s.copies[p := Minus(s.copies[p], stage)])
  }

  function Move(s: State, p: Ptr, stage: Stage, to: Stage): State
    requires At(s, p, stage)
  {
    s.(copies := s.copies[p := Minus(s.copies[p], stage) + [to]])
  }

  /** Every pointer points at an order, and the pool is keyed by order id. */
  predicate WellFormed(s: State) {
    && |s.copies| == |s.heap|
    && (forall id :: id in s.pool ==> s.pool[id] < |s.heap| && s.heap[s.pool[id]].id == id)
  }

  function SetFunds(lps: LpTable, a: Addr, f: Funds): LpTable
    requires a in lps
  {
    lps[a := lps[a].(funds := f)]
  }

  /** What `loadLPs` lets into the table: at least one criterion, all for supported rollapps and
      with at least the operator's minimum share. */
  predicate Granted(cfg: Config, lp: LpVal) {
    && lp.rollapps != map[]
    && forall r :: r in lp.rollapps ==> r in cfg.supported && lp.rollapps[r].operatorFeeShare >= cfg.minShare
  }

  // ---------------------------------------------------------------- the steps

  predicate Enabled(s: State, st: Step) {
    match st
    case Accept(o, a) =>
      !o.Flagged() && o.lpAddress == "" && BestChoice(s.lps, o, a)
    case Upsert(p) => p < |s.heap|
    case AddBack(p) => p < |s.heap| && p !in s.inHand
    case Write(p, _, _) => p < |s.heap|
    case Pop(p) =>
      p < |s.heap| && p < |s.copies| && Occupant(s, s.heap[p].id) == Some(p) && !s.heap[p].Flagged()
    case Keep(p) => At(s, p, Checking) && Keeps(s.lps, s.heap[p])
    case Reselect(p, a) =>
      At(s, p, Checking) && !Keeps(s.lps, s.heap[p]) && BestChoice(s.lps, s.heap[p], a)
    case Retry(p) => At(s, p, Checking)
    case Stall(p) => At(s, p, Checking)
    case Validate(p) => At(s, p, Checking)
    case Evict(p) => At(s, p, Checking)
    case EvictRelease(p) => At(s, p, Evicting)
    case Dispatch(p) => At(s, p, Validated)
    case Take(p) => At(s, p, Sent)
    case Debit(p) => At(s, p, Working)
    case Fail(p, _) => At(s, p, Working)
    case Abandon(p) => At(s, p, Working)
    case Settle(p) => At(s, p, Settled)
    case Refresh(a, b) => a in s.lps
    case Install(lp) => lp.funds.reserved == map[] && Granted(s.cfg, lp)
    case Revoke(a) => a in s.lps
  }

  /** `upsertOrder` for one order: an occupant that is being checked or sent stays. */
  function UpsertOne(pool: map<OrderId, Ptr>, heap: seq<Order>, p: Ptr): map<OrderId, Ptr>
    requires p < |heap|
  {
    var id := heap[p].id;
    if id in pool && pool[id] < |heap| && heap[pool[id]].Flagged() then pool else pool[id := p]
  }

  /** `addOrder` for one order: any occupant stays. */
  function AddOne(pool: map<OrderId, Ptr>, heap: seq<Order>, p: Ptr): map<OrderId, Ptr>
    requires p < |heap|
  {
    if heap[p].id in pool then pool else pool[heap[p].id := p]
  }

  /** `setValid` marks whatever order the pool holds under the id. */
  function MarkValid(pool: map<OrderId, Ptr>, heap: seq<Order>, id: OrderId): seq<Order> {
    if id in pool && pool[id] < |heap| then heap[pool[id] := heap[pool[id]].(valid := true)] else heap
  }

  /** A reservation of `amount` on LP `a` for order `p`. */
  function Reserved(s: State, p: Ptr, a: Addr, amount: Coins): (t: State)
    requires a in s.lps
    ensures t.base == s.base && t.lps.Keys == s.lps.Keys && t.heap == s.heap && t.copies == s.copies
    ensures t.inHand == s.inHand && t.pool == s.pool && t.sent == s.sent && t.cfg == s.cfg
    ensures t.ledger == s.ledger + [Entry(a, amount, Open)] && t.link == s.link[p := |s.ledger|]
  {
    s.(lps := SetFunds(s.lps, a, s.lps[a].funds.Reserve(amount)),
       ledger := s.ledger + [Entry(a, amount, Open)],
       link := s.link[p := |s.ledger|])
  }

  /** The observers' side of a release or debit: the order's reservation is closed. */
  function Closed(s: State, p: Ptr, status: Status): State {
    if p in s.link && s.link[p] < |s.ledger| then
      s.(ledger := s.ledger[s.link[p] := s.ledger[s.link[p]].(status := status)],
         link := s.link - {p})
    else s
  }

  /** `releaseFunds`, if the LP is still in the table. */
  function ReleaseFunds(lps: LpTable, a: Addr, amount: Coins): (r: LpTable)
    ensures r.Keys == lps.Keys
  {
    if a in lps then SetFunds(lps, a, lps[a].funds.Release(amount)) else lps
  }

  /** `debitReservedFunds`, if the LP is still in the table. */
  function DebitFunds(lps: LpTable, a: Addr, amount: Coins): (r: LpTable)
    ensures r.Keys == lps.Keys
  {
    if a in lps then SetFunds(lps, a, lps[a].funds.Debit(amount)) else lps
  }

  /** A release goes to the order's current LP, for the order's current price. */
  function ReleaseOrder(s: State, p: Ptr): (t: State)
    requires p < |s.heap|
    ensures t.heap == s.heap && t.copies == s.copies && t.pool == s.pool && t.sent == s.sent
    ensures t.base == s.base && t.lps.Keys == s.lps.Keys && t.inHand == s.inHand
  {
    Closed(s, p, Released).(lps := ReleaseFunds(s.lps, s.heap[p].lpAddress, s.heap[p].price))
  }

  /** So does a debit. */
  function DebitOrder(s: State, p: Ptr): (t: State)
    requires p < |s.heap|
    ensures t.heap == s.heap && t.copies == s.copies && t.pool == s.pool && t.sent == s.sent
    ensures t.base == s.base && t.lps.Keys == s.lps.Keys && t.inHand == s.inHand
  {
    Closed(s, p, Debited).(lps := DebitFunds(s.lps, s.heap[p].lpAddress, s.heap[p].price))
  }

  function DropFromPool(s: State, id: OrderId): State {
    s.(pool := s.pool - {id}, sent := s.sent - {id})
  }

  /** A new order enters the heap with funds reserved on LP `a`. */
  function Accepted(s: State, o: Order, a: Addr): State
    requires a in s.lps && o.rollappId in s.lps[a].rollapps
  {
    Reserved(s, |s.heap|, a, o.price).(heap := s.heap + [Assign(o, s.lps, a)], copies := s.copies + [[]],
                                       inHand := s.inHand + {|s.heap|})
  }

  /** An order moves to LP `a`; what it reserved before stays reserved. */
  function Reselected(s: State, p: Ptr, a: Addr): State
    requires p < |s.heap| && a in s.lps && s.heap[p].rollappId in s.lps[a].rollapps
  {
    Reserved(s, p, a, s.heap[p].price).(heap := s.heap[p := Assign(s.heap[p], s.lps, a)])
  }

  /** The order is offered to the pool: whoever held it lets go of it, taken or not. */
  function Upserted(s: State, p: Ptr): State
    requires p < |s.heap|
  {
    s.(pool := UpsertOne(s.pool, s.heap, p), inHand := s.inHand - {p})
  }

  function Popped(s: State, p: Ptr): State
    requires p < |s.heap| && p < |s.copies|
  {
    s.(heap := s.heap[p := s.heap[p].(checking := true)],
       copies := s.copies[p := s.copies[p] + [Checking]])
  }

  function Retried(s: State, p: Ptr): State
    requires At(s, p, Checking)
  {
    Leave(s, p, Checking).(heap := s.heap[p := s.heap[p].(checking := false)])
  }

  function FoundValid(s: State, p: Ptr): State
    requires At(s, p, Checking)
  {
    Move(s, p, Checking, Validated).(heap := MarkValid(s.pool, s.heap, s.heap[p].id))
  }

  function Evicted(s: State, p: Ptr): State
    requires At(s, p, Checking)
  {
    DropFromPool(Move(s, p, Checking, Evicting), s.heap[p].id)
  }

  function Dispatched(s: State, p: Ptr): State
    requires At(s, p, Validated)
  {
    Move(s, p, Validated, Sent).(sent := s.sent + {s.heap[p].id})
  }

  function Fulfilled(s: State, p: Ptr): State
    requires At(s, p, Working)
  {
    DebitOrder(Move(s, p, Working, Settled), p)
  }

  /** The funds come back; an RPC error leaves no result behind. */
  function Failed(s: State, p: Ptr, rpc: bool): State
    requires At(s, p, Working)
  {
    if rpc then ReleaseOrder(Leave(s, p, Working), p) else ReleaseOrder(Move(s, p, Working, Settled), p)
  }

  function Handled(s: State, p: Ptr): State
    requires At(s, p, Settled)
  {
    DropFromPool(Leave(s, p, Settled), s.heap[p].id)
  }

  function Rebalanced(s: State, a: Addr, b: Coins): State
    requires a in s.lps
  {
    s.(lps := SetFunds(s.lps, a, s.lps[a].funds.(balance := b)),
       base := s.base[a := Add(b, Spent(s.ledger, a))])
  }

  function Installed(s: State, lp: LpVal): State {
    s.(lps := s.lps[lp.address := lp],
       base := s.base[lp.address := Add(lp.funds.balance, Spent(s.ledger, lp.address))])
  }

  predicate PoolStep(st: Step) {
    st.Accept? || st.Upsert? || st.AddBack? || st.Write? || st.Pop?
  }

  predicate CheckStep(st: Step) {
    st.Keep? || st.Reselect? || st.Retry? || st.Stall? || st.Validate? || st.Evict? || st.EvictRelease?
  }

  predicate WorkStep(st: Step) {
    st.Dispatch? || st.Take? || st.Debit? || st.Fail? || st.Abandon? || st.Settle?
  }

  function ApplyToPool(s: State, st: Step): State
    requires Enabled(s, st) && PoolStep(st)
  {
    match st
    case Accept(o, a) => Accepted(s, o, a)
    case Upsert(p) => Upserted(s, p)
    case AddBack(p) => s.(pool := AddOne(s.pool, s.heap, p))
    case Write(p, fee, price) => s.(heap := s.heap[p := s.heap[p].(fee := fee, price := price)])
    case Pop(p) => Popped(s, p)
  }

  function ApplyToCheck(s: State, st: Step): State
    requires Enabled(s, st) && CheckStep(st)
  {
    match st
    case Keep(p) => s.(heap := s.heap[p := Refreshed(s.heap[p], s.lps)])
    case Reselect(p, a) => Reselected(s, p, a)
    case Retry(p) => Retried(s, p)
    case Stall(p) => Leave(s, p, Checking)
    case Validate(p) => FoundValid(s, p)
    case Evict(p) => Evicted(s, p)
    case EvictRelease(p) => ReleaseOrder(Leave(s, p, Evicting), p)
  }

  function ApplyToWork(s: State, st: Step): State
    requires Enabled(s, st) && WorkStep(st)
  {
    match st
    case Dispatch(p) => Dispatched(s, p)
    case Take(p) => Move(s, p, Sent, Working)
    case Debit(p) => Fulfilled(s, p)
    case Fail(p, rpc) => Failed(s, p, rpc)
    case Abandon(p) => Leave(s, p, Working)
    case Settle(p) => Handled(s, p)
  }

  function ApplyToLps(s: State, st: Step): State
    requires Enabled(s, st) && !PoolStep(st) && !CheckStep(st) && !WorkStep(st)
  {
    match st
    case Refresh(a, b) => Rebalanced(s, a, b)
    case Install(lp) => Installed(s, lp)
    case Revoke(a) => s.(lps := s.lps - {a})
  }

  function Apply(s: State, st: Step): State
    requires Enabled(s, st)
  {
    if PoolStep(st) then ApplyToPool(s, st)
    else if CheckStep(st) then ApplyToCheck(s, st)
    else if WorkStep(st) then ApplyToWork(s, st)
    else ApplyToLps(s, st)
  }

  // ---------------------------------------------------------------- the ledger's totals

  /** The total of LP `a`'s reservations with the given status. */
  function Total(ledger: seq<Entry>, a: Addr, status: Status): Coins {
    if ledger == [] then map[]
    else
      var last := ledger[|ledger| - 1];
      var rest := Total(ledger[..|ledger| - 1], a, status);
      if last.lp == a && last.status == status then Add(rest, last.amount) else rest
  }

  /** What is reserved and not yet released or debited. */
  function Owed(ledger: seq<Entry>, a: Addr): Coins { Total(ledger, a, Open) }

  function Spent(ledger: seq<Entry>, a: Addr): Coins { Total(ledger, a, Debited) }

  // ---------------------------------------------------------------- runs

  predicate Next(s: State, st: Step, t: State) {
    Enabled(s, st) && t == Apply(s, st)
  }

  /** A run: the states it passes through and the steps between them. */
  predicate IsRun(cfg: Config, states: seq<State>, steps: seq<Step>) {
    && |states| == |steps| + 1
    && states[0] == Init(cfg)
    && forall i :: 0 <= i < |steps| ==> Next(states[i], steps[i], states[i + 1])
  }

  /** The state after a list of steps, if every step was enabled when its turn came. */
  function Exec(s: State, steps: seq<Step>): Option<State> {
    if steps == [] then Some(s)
    else
      match Exec(s, steps[..|steps| - 1])
      case None => None
      case Some(t) =>
        if Enabled(t, steps[|steps| - 1]) then Some(Apply(t, steps[|steps| - 1])) else None
  }

  lemma {:induction false} ExecConcat(s: State, xs: seq<Step>, ys: seq<Step>)
    requires Exec(s, xs).Some?
    ensures Exec(s, xs + ys) == Exec(Exec(s, xs).value, ys)
    decreases |ys|
  {
    if ys == [] {
      assert xs + ys == xs;
    } else {
      var zs := ys[..|ys| - 1];
      assert (xs + ys)[..|xs + ys| - 1] == xs + zs;
      ExecConcat(s, xs, zs);
    }
  }

  /** A list of steps that can be executed from the initial state is a run. */
  lemma {:induction false} ExecIsRun(cfg: Config, steps: seq<Step>) returns (states: seq<State>)
    requires Exec(Init(cfg), steps).Some?
    ensures IsRun(cfg, states, steps) && states[|steps|] == Exec(Init(cfg), steps).value
    decreases |steps|
  {
    hide Enabled, Apply;
    if steps == [] {
      states := [Init(cfg)];
    } else {
      var n := |steps| - 1;
      var before := ExecIsRun(cfg, steps[..n]);
      states := before + [Apply(before[n], steps[n])];
      forall i | 0 <= i < |steps| ensures Next(states[i], steps[i], states[i + 1]) {
        if i < n {
          assert Next(before[i], steps[..n][i], before[i + 1]);
        }
      }
    }
  }
}
