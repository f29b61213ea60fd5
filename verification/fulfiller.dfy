/** A fulfiller: a batch of orders is cut into transactions, sent one after the other until one fails. */
module Fulfiller {
  import opened SdkCoins
  import opened LpModel
  import opened Protocol
  import opened InFlight
  import opened LpFloor
  import opened Slices
  import opened Pool
  import opened FailedOrders
  import opened Traces
  import opened Tracker
  import opened OrderChecks

  /** What broadcasting a transaction and waiting for it came to. */
  datatype Reply = Fulfilled | Failed(error: string)

  predicate OccursAt(s: string, sub: string, i: nat) {
    i + |sub| <= |s| && s[i..i + |sub|] == sub
  }

  predicate Contains(s: string, sub: string) {
    exists i | 0 <= i <= |s| :: OccursAt(s, sub, i)
  }

  predicate IsRpcError(error: string) { Contains(error, "RPC error") }

  predicate IsGasError(error: string) { Contains(error, "out of gas") || Contains(error, "insufficient funds") }

  /** Both tests look for the words anywhere in the error. */
  lemma ErrorWords(error: string)
    ensures IsRpcError(error) <==> exists a, b :: error == a + "RPC error" + b
    ensures IsGasError(error)
       <==> (exists a, b :: error == a + "out of gas" + b) || (exists a, b :: error == a + "insufficient funds" + b)
  {
    WordsAt(error, "RPC error");
    WordsAt(error, "out of gas");
    WordsAt(error, "insufficient funds");
    hide Contains;
  }

  lemma WordsAt(s: string, words: string)
    ensures Contains(s, words) <==> exists a, b :: s == a + words + b
  {
    if a, b :| s == a + words + b {
      assert OccursAt(s, words, |a|);
    }
    if i :| 0 <= i <= |s| && OccursAt(s, words, i) {
      assert s == s[..i] + words + s[i + |words|..];
    }
  }

  /** `orderFulfillResult`; no hash means success. */
  datatype OrderResult = OrderResult(id: OrderId, failedHash: Option<Hash>)

  function Successes(heap: seq<Order>, ps: seq<Ptr>): seq<OrderResult>
    requires Within(ps, heap)
  {
    seq(|ps|, i requires 0 <= i < |ps| => OrderResult(heap[ps[i]].id, None))
  }

  function Failures(heap: seq<Order>, ps: seq<Ptr>): seq<OrderResult>
    requires Within(ps, heap)
  {
    seq(|ps|, i requires 0 <= i < |ps| =>
      OrderResult(heap[ps[i]].id, Some(Hash(heap[ps[i]].id, heap[ps[i]].fee))))
  }

  function Debits(ps: seq<Ptr>): seq<Step> {
    seq(|ps|, i requires 0 <= i < |ps| => Step.Debit(ps[i]))
  }

  function Fails(ps: seq<Ptr>, rpc: bool): seq<Step> {
    seq(|ps|, i requires 0 <= i < |ps| => Step.Fail(ps[i], rpc))
  }

  function Abandons(ps: seq<Ptr>): seq<Step> {
    seq(|ps|, i requires 0 <= i < |ps| => Step.Abandon(ps[i]))
  }

  // ---------------------------------------------------------------- one order, one step

  method DebitOne(t: OrderTracker, p: Ptr)
    requires t.Valid() && At(t.Now(), p, Working)
    modifies t, t.pool, t.lps.Values
    ensures t.Valid() && t.lps == old(t.lps) && t.pool.heap == old(t.pool.heap)
    ensures Next(old(t.Now()), Step.Debit(p), t.Now()) && t.history == old(t.history) + [Step.Debit(p)]
  {
    hide OrderTracker.Valid, OrderTracker.AddressKeyed, OrderTracker.Table, Sound, Exec, Enabled, Apply, Minus,
         DebitOrder;
    ghost var s := t.Now();
    t.Past();
    FulfilIs(s, p, false);
    t.Place(t.copies[p := Minus(t.copies[p], Working) + [Settled]], t.sent);
    t.DebitFor(p);
    t.LogStep(s, Step.Debit(p));
  }

  method ReleaseOne(t: OrderTracker, p: Ptr, ghost rpc: bool)
    requires t.Valid() && At(t.Now(), p, Working)
    modifies t, t.pool, t.lps.Values
    ensures t.Valid() && t.lps == old(t.lps) && t.pool.heap == old(t.pool.heap)
    ensures Next(old(t.Now()), Step.Fail(p, rpc), t.Now()) && t.history == old(t.history) + [Step.Fail(p, rpc)]
  {
    hide OrderTracker.Valid, OrderTracker.AddressKeyed, OrderTracker.Table, Sound, Exec, Enabled, Apply, Minus,
         ReleaseOrder;
    ghost var s := t.Now();
    t.Past();
    FulfilIs(s, p, rpc);
    ghost var rest := Minus(t.copies[p], Working);
    t.Place(t.copies[p := if rpc then rest else rest + [Settled]], t.sent);
    t.ReleaseFor(p);
    t.LogStep(s, Step.Fail(p, rpc));
  }

  ghost method AbandonOne(t: OrderTracker, p: Ptr)
    requires t.Valid() && At(t.Now(), p, Working)
    modifies t, t.pool, t.lps.Values
    ensures t.Valid() && t.lps == old(t.lps) && t.pool.heap == old(t.pool.heap)
    ensures Next(old(t.Now()), Step.Abandon(p), t.Now()) && t.history == old(t.history) + [Step.Abandon(p)]
  {
    hide OrderTracker.Valid, OrderTracker.AddressKeyed, OrderTracker.Table, Sound, Exec, Enabled, Apply, Minus;
    ghost var s := t.Now();
    t.Past();
    WorkIs(s, p);
    t.Place(t.copies[p := Minus(t.copies[p], Working)], t.sent);
    t.LogStep(s, Step.Abandon(p));
  }

  function Takes(ps: seq<Ptr>): seq<Step> {
    seq(|ps|, i requires 0 <= i < |ps| => Step.Take(ps[i]))
  }

  /** The first `i` orders are with the fulfiller, the others still in the channel. */
  ghost predicate Taking(s: State, ps: seq<Ptr>, i: nat) {
    forall j :: 0 <= j < |ps| ==> At(s, ps[j], if j < i then Working else Sent)
  }

  lemma TookOneMore(s: State, t: State, u: State, ps: seq<Ptr>, i: nat)
    requires i < |ps| && Distinct(ps) && Taking(t, ps, i)
    requires Next(t, Step.Take(ps[i]), u) && Exec(s, Takes(ps[..i])) == Some(t)
    ensures Taking(u, ps, i + 1) && Exec(s, Takes(ps[..i + 1])) == Some(u)
  {
    hide Enabled, Apply, At, Exec;
    ExecOne(s, Takes(ps[..i]), t, Step.Take(ps[i]), u);
    assert Takes(ps[..i + 1]) == Takes(ps[..i]) + [Step.Take(ps[i])];
    forall j | 0 <= j < |ps| ensures At(u, ps[j], if j < i + 1 then Working else Sent) {
      TakeMovesOne(t, ps[i], ps[j], if j < i then Working else Sent);
    }
  }

  lemma TakeMovesOne(s: State, p: Ptr, q: Ptr, stage: Stage)
    requires Enabled(s, Step.Take(p))
    ensures At(Apply(s, Step.Take(p)), p, Working)
    ensures q != p && At(s, q, stage) ==> At(Apply(s, Step.Take(p)), q, stage)
  {}

  /** A fulfiller receives a batch from the channel. */
  ghost method Receive(t: OrderTracker, ps: seq<Ptr>)
    requires t.Valid() && Distinct(ps) && AllAt(t.Now(), ps, 0, Sent)
    modifies t, t.pool, t.lps.Values
    ensures t.Valid() && t.lps == old(t.lps)
    ensures Exec(old(t.Now()), Takes(ps)) == Some(t.Now()) && AllAt(t.Now(), ps, 0, Working)
    ensures t.history == old(t.history) + Takes(ps)
  {
    hide OrderTracker.Valid, Exec, At, Enabled, Apply;
    ghost var s := t.Now();
    NoSteps(s);
    assert Takes(ps[..0]) == [];
    for i := 0 to |ps|
      invariant t.Valid() && t.lps == old(t.lps)
      invariant Exec(s, Takes(ps[..i])) == Some(t.Now()) && Taking(t.Now(), ps, i)
      invariant t.history == old(t.history) + Takes(ps[..i])
    {
      ghost var before := t.Now();
      assert At(before, ps[i], Sent);
      TakeOne(t, ps[i]);
      TookOneMore(s, before, t.Now(), ps, i);
      assert Takes(ps[..i + 1]) == Takes(ps[..i]) + [Step.Take(ps[i])];
    }
    assert ps[..|ps|] == ps;
  }

  ghost method TakeOne(t: OrderTracker, p: Ptr)
    requires t.Valid() && At(t.Now(), p, Sent)
    modifies t, t.pool, t.lps.Values
    ensures t.Valid() && t.lps == old(t.lps) && Next(old(t.Now()), Step.Take(p), t.Now())
    ensures t.history == old(t.history) + [Step.Take(p)]
  {
    hide OrderTracker.Valid, OrderTracker.AddressKeyed, OrderTracker.Table, Sound, Exec, Enabled, Apply, Minus;
    ghost var s := t.Now();
    t.Past();
    WorkIs(s, p);
    t.Place(t.copies[p := Minus(t.copies[p], Sent) + [Working]], t.sent);
    t.LogStep(s, Step.Take(p));
  }

  // ---------------------------------------------------------------- one transaction

  predicate EndsWork(st: Step) {
    st.Debit? || st.Fail? || st.Abandon?
  }

  lemma WorkMovesOne(s: State, st: Step, q: Ptr, stage: Stage)
    requires Enabled(s, st) && EndsWork(st) && q != st.p && At(s, q, stage)
    ensures At(Apply(s, st), q, stage)
  {
    hide ReleaseFunds, DebitFunds;
  }

  /** The loops over a transaction's orders: after one more order, the rest is still being worked on. */
  lemma WorkedOneMore(s: State, t: State, u: State, ps: seq<Ptr>, i: nat, steps: seq<Step>, st: Step)
    requires i < |ps| && Distinct(ps) && AllAt(t, ps, i, Working)
    requires EndsWork(st) && st.p == ps[i] && Next(t, st, u) && Exec(s, steps) == Some(t)
    ensures AllAt(u, ps, i + 1, Working) && Exec(s, steps + [st]) == Some(u)
  {
    hide Enabled, Apply, At, Exec;
    ExecOne(s, steps, t, st, u);
    forall j | i + 1 <= j < |ps| ensures At(u, ps[j], Working) {
      WorkMovesOne(t, st, ps[j], Working);
    }
  }

  /** `debitAllReservedOrdersFunds` for the orders from `lo` up to `hi`. */
  method DebitAll(t: OrderTracker, ps: seq<Ptr>, lo: nat, hi: nat)
    requires t.Valid() && lo <= hi <= |ps| && Distinct(ps) && AllAt(t.Now(), ps, lo, Working)
    modifies t, t.pool, t.lps.Values
    ensures t.Valid() && t.lps == old(t.lps) && t.pool.heap == old(t.pool.heap)
    ensures Exec(old(t.Now()), Debits(ps[lo..hi])) == Some(t.Now()) && AllAt(t.Now(), ps, hi, Working)
    ensures t.history == old(t.history) + Debits(ps[lo..hi])
  {
    hide OrderTracker.Valid, Exec, At, Enabled, Apply;
    ghost var s := t.Now();
    NoSteps(s);
    assert Debits(ps[lo..lo]) == [];
    for i := lo to hi
      invariant t.Valid() && t.lps == old(t.lps) && t.pool.heap == s.heap
      invariant Exec(s, Debits(ps[lo..i])) == Some(t.Now()) && AllAt(t.Now(), ps, i, Working)
      invariant t.history == old(t.history) + Debits(ps[lo..i])
    {
      ghost var before := t.Now();
      DebitOne(t, ps[i]);
      WorkedOneMore(s, before, t.Now(), ps, i, Debits(ps[lo..i]), Step.Debit(ps[i]));
      assert Debits(ps[lo..i + 1]) == Debits(ps[lo..i]) + [Step.Debit(ps[i])];
    }
  }

  /** `releaseAllReservedOrdersFunds`. */
  method ReleaseAll(t: OrderTracker, ps: seq<Ptr>, lo: nat, hi: nat, ghost rpc: bool)
    requires t.Valid() && lo <= hi <= |ps| && Distinct(ps) && AllAt(t.Now(), ps, lo, Working)
    modifies t, t.pool, t.lps.Values
    ensures t.Valid() && t.lps == old(t.lps) && t.pool.heap == old(t.pool.heap)
    ensures Exec(old(t.Now()), Fails(ps[lo..hi], rpc)) == Some(t.Now()) && AllAt(t.Now(), ps, hi, Working)
    ensures t.history == old(t.history) + Fails(ps[lo..hi], rpc)
  {
    hide OrderTracker.Valid, Exec, At, Enabled, Apply;
    ghost var s := t.Now();
    NoSteps(s);
    assert Fails(ps[lo..lo], rpc) == [];
    for i := lo to hi
      invariant t.Valid() && t.lps == old(t.lps) && t.pool.heap == s.heap
      invariant Exec(s, Fails(ps[lo..i], rpc)) == Some(t.Now()) && AllAt(t.Now(), ps, i, Working)
      invariant t.history == old(t.history) + Fails(ps[lo..i], rpc)
    {
      ghost var before := t.Now();
      ReleaseOne(t, ps[i], rpc);
      WorkedOneMore(s, before, t.Now(), ps, i, Fails(ps[lo..i], rpc), Step.Fail(ps[i], rpc));
      assert Fails(ps[lo..i + 1], rpc) == Fails(ps[lo..i], rpc) + [Step.Fail(ps[i], rpc)];
    }
  }

  /** The orders that are never attempted: no code runs for them. */
  ghost method AbandonAll(t: OrderTracker, ps: seq<Ptr>, lo: nat)
    requires t.Valid() && lo <= |ps| && Distinct(ps) && AllAt(t.Now(), ps, lo, Working)
    modifies t, t.pool, t.lps.Values
    ensures t.Valid() && t.lps == old(t.lps) && t.pool.heap == old(t.pool.heap)
    ensures Exec(old(t.Now()), Abandons(ps[lo..])) == Some(t.Now())
    ensures t.history == old(t.history) + Abandons(ps[lo..])
  {
    hide OrderTracker.Valid, Exec, At, Enabled, Apply;
    ghost var s := t.Now();
    NoSteps(s);
    assert Abandons(ps[lo..lo]) == [];
    for i := lo to |ps|
      invariant t.Valid() && t.lps == old(t.lps) && t.pool.heap == s.heap
      invariant Exec(s, Abandons(ps[lo..i])) == Some(t.Now()) && AllAt(t.Now(), ps, i, Working)
      invariant t.history == old(t.history) + Abandons(ps[lo..i])
    {
      ghost var before := t.Now();
      AbandonOne(t, ps[i]);
      WorkedOneMore(s, before, t.Now(), ps, i, Abandons(ps[lo..i]), Step.Abandon(ps[i]));
      assert Abandons(ps[lo..i + 1]) == Abandons(ps[lo..i]) + [Step.Abandon(ps[i])];
    }
    assert ps[lo..|ps|] == ps[lo..];
  }

  // ---------------------------------------------------------------- the batch

  datatype Report = Report(success: seq<OrderResult>, fail: seq<OrderResult>, exited: bool)

  /** How a batch is split when transaction `k` is the first that fails: all before it succeed, it is
      released, and all after it are left alone. A fatal gas error ends the program on the spot. */
  function Split(heap: seq<Order>, txs: seq<seq<Ptr>>, replies: seq<Reply>, k: nat): (Report, seq<Step>)
    requires k <= |txs| == |replies| && Within(Flatten(txs), heap)
  {
    WithinParts(heap, txs, k);
    var done := Flatten(txs[..k]);
    if k == |txs| then (Report(Successes(heap, done), [], false), Debits(done))
    else if replies[k].Failed? && IsGasError(replies[k].error) then
      (Report(Successes(heap, done), [], true), Debits(done))
    else
      var rpc := replies[k].Failed? && IsRpcError(replies[k].error);
      (Report(Successes(heap, done), if rpc then [] else Failures(heap, txs[k]), false),
       Debits(done) + Fails(txs[k], rpc) + Abandons(Flatten(txs[k + 1..])))
  }

  /** Which orders the parts of a batch are, when the reply to transaction `k` is the first failure. */
  lemma SplitIs(heap: seq<Order>, orders: seq<Ptr>, n: nat, replies: seq<Reply>, k: nat)
    requires n >= 1 && Within(orders, heap) && k <= |Chunk(orders, n)| == |replies|
    requires k < |replies| ==> replies[k].Failed?
    ensures var (done, next) := (ChunkEnd(|orders|, n, k), ChunkEnd(|orders|, n, k + 1));
            && done <= next <= |orders| && Within(orders[..done], heap) && Within(orders[done..next], heap)
            && (k == |replies| ==> done == |orders|)
            && Split(heap, Chunk(orders, n), replies, k)
                 == (if k == |replies| then (Report(Successes(heap, orders[..done]), [], false), Debits(orders[..done]))
                     else if IsGasError(replies[k].error)
                     then (Report(Successes(heap, orders[..done]), [], true), Debits(orders[..done]))
                     else
                       var rpc := IsRpcError(replies[k].error);
                       (Report(Successes(heap, orders[..done]),
                               if rpc then [] else Failures(heap, orders[done..next]), false),
                        Debits(orders[..done]) + Fails(orders[done..next], rpc) + Abandons(orders[next..])))
  {
    hide IsGasError, IsRpcError, Chunk, Flatten, Debits, Fails, Abandons, Successes, Failures, ChunkEnd;
    var (txs, done, next) := (Chunk(orders, n), ChunkEnd(|orders|, n, k), ChunkEnd(|orders|, n, k + 1));
    WithinParts(heap, txs, k);
    EndsInOrder(|orders|, n, k);
    WithinSlice(heap, orders, done, next);
    if k < |txs| {
      ChunkAt(orders, n, k);
      EndIsStart(|orders|, n, k);
    } else {
      ChunkEnds(orders, n);
      assert txs[..k] == txs && orders[..done] == orders;
    }
  }

  lemma WithinSlice(heap: seq<Order>, orders: seq<Ptr>, lo: nat, hi: nat)
    requires Within(orders, heap) && lo <= hi <= |orders|
    ensures Within(orders[..lo], heap) && Within(orders[lo..hi], heap)
  {}

  /** What becomes of each order of a batch: those of the transactions before `k` are fulfilled, those of `k`
      fail, and those after it are never attempted; a gas error ends the program before anything is
      released. */
  lemma SplitMeans(heap: seq<Order>, orders: seq<Ptr>, n: nat, replies: seq<Reply>, k: nat)
    requires n >= 1 && Within(orders, heap) && k <= |Chunk(orders, n)| == |replies|
    requires k < |replies| ==> replies[k].Failed?
    ensures var (report, steps) := Split(heap, Chunk(orders, n), replies, k);
            var (done, next) := (ChunkEnd(|orders|, n, k), ChunkEnd(|orders|, n, k + 1));
            && done <= next <= |orders| && |steps| == (if report.exited then done else |orders|)
            && |report.success| == done
            && (forall i :: 0 <= i < done ==>
                  && orders[i] < |heap| && report.success[i] == OrderResult(heap[orders[i]].id, None)
                  && steps[i] == Step.Debit(orders[i]))
            && (k == |replies| ==> done == |orders| && report.fail == [] && !report.exited)
            && (k < |replies| ==> (report.exited <==> IsGasError(replies[k].error)))
            && (report.exited ==> report.fail == [])
            && (k < |replies| && !report.exited ==>
                  && |report.fail| == (if IsRpcError(replies[k].error) then 0 else next - done)
                  && (forall i :: done <= i < done + |report.fail| ==>
                        && orders[i] < |heap|
                        && var o := heap[orders[i]];
                        report.fail[i - done] == OrderResult(o.id, Some(Hash(o.id, o.fee))))
                  && (forall i :: done <= i < next ==>
                        steps[i] == Step.Fail(orders[i], IsRpcError(replies[k].error)))
                  && (forall i :: next <= i < |orders| ==> steps[i] == Step.Abandon(orders[i])))
  {
    hide *;
    SplitIs(heap, orders, n, replies, k);
    var (done, next) := (ChunkEnd(|orders|, n, k), ChunkEnd(|orders|, n, k + 1));
    ReportMeans(heap, orders, done, next);
    StepsMean(orders, done, next, k < |replies| && IsRpcError(replies[k].error));
  }

  lemma EndsInOrder(length: nat, n: nat, k: nat)
    ensures ChunkEnd(length, n, k) <= ChunkEnd(length, n, k + 1) <= length
  {
    OneMore(k, n);
  }

  lemma EndIsStart(length: nat, n: nat, k: nat)
    requires k * n < length
    ensures ChunkEnd(length, n, k) == k * n
  {}

  lemma StepsMean(orders: seq<Ptr>, done: nat, next: nat, rpc: bool)
    requires done <= next <= |orders|
    ensures var (steps, debits) := (Debits(orders[..done]) + Fails(orders[done..next], rpc) + Abandons(orders[next..]),
                                    Debits(orders[..done]));
            && |steps| == |orders| && |debits| == done
            && (forall i :: 0 <= i < done ==> debits[i] == Step.Debit(orders[i]) && steps[i] == Step.Debit(orders[i]))
            && (forall i :: done <= i < next ==> steps[i] == Step.Fail(orders[i], rpc))
            && (forall i :: next <= i < |orders| ==> steps[i] == Step.Abandon(orders[i]))
  {}

  lemma ReportMeans(heap: seq<Order>, orders: seq<Ptr>, done: nat, next: nat)
    requires done <= next <= |orders| && Within(orders[..done], heap) && Within(orders[done..next], heap)
    ensures var (ok, fail) := (Successes(heap, orders[..done]), Failures(heap, orders[done..next]));
            && |ok| == done && |fail| == next - done && Within(orders[..next], heap)
            && (forall i :: 0 <= i < done ==> orders[i] < |heap| && ok[i] == OrderResult(heap[orders[i]].id, None))
            && forall i :: done <= i < next ==>
                 && orders[i] < |heap|
                 && var o := heap[orders[i]];
                 fail[i - done] == OrderResult(o.id, Some(Hash(o.id, o.fee)))
  {
    var (a, b) := (orders[..done], orders[done..next]);
    assert forall i :: 0 <= i < done ==> orders[i] == a[i];
    assert forall i :: done <= i < next ==> orders[i] == b[i - done];
  }

  lemma InThree(txs: seq<seq<Ptr>>, k: nat)
    requires k <= |txs|
    ensures Flatten(txs) == Flatten(txs[..k]) + (if k < |txs| then txs[k] + Flatten(txs[k + 1..]) else [])
  {
    assert txs == txs[..k] + txs[k..];
    FlattenConcat(txs[..k], txs[k..]);
    if k < |txs| {
      assert txs[k..] == [txs[k]] + txs[k + 1..];
      FlattenCons(txs[k], txs[k + 1..]);
    }
  }

  lemma WithinBoth(heap: seq<Order>, a: seq<Ptr>, b: seq<Ptr>)
    requires Within(a + b, heap)
    ensures Within(a, heap) && Within(b, heap)
  {
    var all := a + b;
    forall i | 0 <= i < |a| ensures a[i] < |heap| {
      assert all[i] == a[i];
    }
    forall i | 0 <= i < |b| ensures b[i] < |heap| {
      assert all[|a| + i] == b[i];
    }
  }

  lemma WithinParts(heap: seq<Order>, txs: seq<seq<Ptr>>, k: nat)
    requires k <= |txs| && Within(Flatten(txs), heap)
    ensures Within(Flatten(txs[..k]), heap) && (k < |txs| ==> Within(txs[k], heap))
  {
    hide Within, Flatten;
    InThree(txs, k);
    if k < |txs| {
      WithinBoth(heap, Flatten(txs[..k]), txs[k] + Flatten(txs[k + 1..]));
      WithinBoth(heap, txs[k], Flatten(txs[k + 1..]));
    } else {
      WithinBoth(heap, Flatten(txs[..k]), []);
    }
  }

  /** What the loop has done with `k` transactions, `done` orders, behind it. */
  ghost predicate Underway(s: State, t: State, orders: seq<Ptr>, txs: seq<seq<Ptr>>, n: nat, replies: seq<Reply>,
                           k: nat, done: nat, success: seq<OrderResult>)
    requires Within(orders, s.heap) && n >= 1
  {
    && done <= |orders| && k <= |txs| == |replies|
    && txs[k..] == Chunk(orders[done..], n) && Flatten(txs[..k]) == orders[..done]
    && success == Successes(s.heap, orders[..done])
    && (forall j :: 0 <= j < k ==> replies[j].Fulfilled?)
    && Exec(s, Debits(orders[..done])) == Some(t) && t.heap == s.heap && AllAt(t, orders, done, Working)
  }

  lemma UnderwayStart(s: State, orders: seq<Ptr>, n: nat, replies: seq<Reply>)
    requires Within(orders, s.heap) && n >= 1 && AllAt(s, orders, 0, Working)
    requires |replies| == |Chunk(orders, n)|
    ensures Underway(s, s, orders, Chunk(orders, n), n, replies, 0, 0, [])
  {
    hide Chunk;
    assert orders[0..] == orders && orders[..0] == [] && Chunk(orders, n)[0..] == Chunk(orders, n);
    assert Debits([]) == [];
    NoSteps(s);
  }

  /** The next transaction is the next piece of the batch, and what follows it is the rest. */
  lemma UnderwayNext(s: State, t: State, orders: seq<Ptr>, txs: seq<seq<Ptr>>, n: nat, replies: seq<Reply>,
                     k: nat, done: nat, next: nat, success: seq<OrderResult>)
    requires Within(orders, s.heap) && n >= 1 && Underway(s, t, orders, txs, n, replies, k, done, success)
    requires done < |orders| && next == if done + n < |orders| then done + n else |orders|
    ensures k < |txs| && txs[k] == orders[done..next] && Flatten(txs[k + 1..]) == orders[next..]
    ensures txs[k + 1..] == Chunk(orders[next..], n) && Flatten(txs[..k + 1]) == orders[..next]
  {
    hide Exec, Debits, AllAt, Chunk, Successes;
    ChunkNext(orders, n, done, next);
    assert txs[k..][0] == txs[k] && txs[k..][1..] == txs[k + 1..];
    assert txs[..k + 1] == txs[..k] + [txs[k]];
    FlattenConcat(txs[..k], [txs[k]]);
    FlattenOne(txs[k]);
    assert orders[..next] == orders[..done] + orders[done..next];
  }

  lemma UnderwayOneMore(s: State, t: State, u: State, orders: seq<Ptr>, txs: seq<seq<Ptr>>, n: nat,
                        replies: seq<Reply>, k: nat, done: nat, next: nat, success: seq<OrderResult>)
    requires Within(orders, s.heap) && n >= 1 && Underway(s, t, orders, txs, n, replies, k, done, success)
    requires done < |orders| && next == if done + n < |orders| then done + n else |orders|
    requires k < |replies| && replies[k].Fulfilled? && Within(orders[done..next], s.heap)
    requires Exec(t, Debits(orders[done..next])) == Some(u) && u.heap == s.heap && AllAt(u, orders, next, Working)
    ensures Underway(s, u, orders, txs, n, replies, k + 1, next, success + Successes(s.heap, orders[done..next]))
  {
    hide Exec, AllAt, Chunk;
    UnderwayNext(s, t, orders, txs, n, replies, k, done, next, success);
    ExecThen(s, Debits(orders[..done]), t, Debits(orders[done..next]), u);
    assert orders[..next] == orders[..done] + orders[done..next];
    assert Debits(orders[..next]) == Debits(orders[..done]) + Debits(orders[done..next]);
  }

  lemma UnderwayEnd(s: State, t: State, orders: seq<Ptr>, txs: seq<seq<Ptr>>, n: nat, replies: seq<Reply>,
                    k: nat, success: seq<OrderResult>)
    requires Within(orders, s.heap) && n >= 1 && txs == Chunk(orders, n)
    requires Underway(s, t, orders, txs, n, replies, k, |orders|, success)
    ensures k == |txs| && Split(s.heap, txs, replies, k) == (Report(success, [], false), Debits(orders))
    ensures Exec(s, Debits(orders)) == Some(t)
  {
    hide Exec, AllAt, Debits, Successes;
    assert orders[|orders|..] == [] && orders[..|orders|] == orders;
    assert |txs[k..]| == 0 by { NoChunks(orders[|orders|..], n); }
    assert txs[..k] == txs;
  }

  /** The loop over the transactions. `replies` is what the chain answers for each, asked in turn. */
  method FulfilChunks(t: OrderTracker, orders: seq<Ptr>, maxOrdersPerTx: nat, replies: seq<Reply>)
    returns (report: Report, ghost k: nat)
    requires t.Valid() && Distinct(orders) && AllAt(t.Now(), orders, 0, Working)
    requires maxOrdersPerTx >= 1 && |replies| == |Chunk(orders, maxOrdersPerTx)|
    modifies t, t.pool, t.lps.Values
    ensures t.Valid() && t.lps == old(t.lps)
    ensures k <= |replies| && (forall j :: 0 <= j < k ==> replies[j].Fulfilled?)
    ensures k < |replies| ==> replies[k].Failed?
    ensures Within(orders, old(t.pool.heap)) && t.pool.heap == old(t.pool.heap)
    ensures var (r, steps) := Split(old(t.pool.heap), Chunk(orders, maxOrdersPerTx), replies, k);
            report == r && Exec(old(t.Now()), steps) == Some(t.Now()) && t.history == old(t.history) + steps
  {
    hide OrderTracker.Valid, Exec, AllAt, Distinct, Chunk, Enabled, Apply, Successes, Failures, Debits,
         IsGasError, IsRpcError, Underway, Fails, Abandons, OrderTracker.Now;
    HeapNow(t);
    ghost var s, past := t.Now(), t.history;
    ghost var txs := Chunk(orders, maxOrdersPerTx);
    AllAtWithin(s, orders, Working);
    UnderwayStart(s, orders, maxOrdersPerTx, replies);
    DebitsInParts(past, orders, 0, 0);
    var success: seq<OrderResult> := [];
    var done, turn := 0, 0;
    while done < |orders|
      invariant done <= |orders| && t.Valid() && t.lps == old(t.lps)
      invariant Underway(s, t.Now(), orders, txs, maxOrdersPerTx, replies, turn, done, success)
      invariant t.history == past + Debits(orders[..done]) && t.pool.heap == s.heap
      decreases |orders| - done
    {
      var next := if done + maxOrdersPerTx < |orders| then done + maxOrdersPerTx else |orders|;
      UnderwayNext(s, t.Now(), orders, txs, maxOrdersPerTx, replies, turn, done, next, success);
      UnderwayFacts(s, t.Now(), orders, txs, maxOrdersPerTx, replies, turn, done, success);
      if replies[turn].Failed? {
        var error := replies[turn].error;
        k := turn;
        WithinParts(s.heap, txs, k);
        if IsGasError(error) {
          return Report(success, [], true), k;
        }
        var rpc := IsRpcError(error);
        var fail: seq<OrderResult> := [];
        if !rpc {
          fail := Failures(t.pool.heap, orders[done..next]);
        }
        ghost var before := t.Now();
        ReleaseAll(t, orders, done, next, rpc);
        ghost var released := t.Now();
        AbandonAll(t, orders, next);
        ExecThen(s, Debits(orders[..done]), before, Fails(orders[done..next], rpc), released);
        ExecThen(s, Debits(orders[..done]) + Fails(orders[done..next], rpc), released,
                 Abandons(orders[next..]), t.Now());
        assert past + Debits(orders[..done]) + Fails(orders[done..next], rpc) + Abandons(orders[next..])
            == past + (Debits(orders[..done]) + Fails(orders[done..next], rpc) + Abandons(orders[next..]));
        return Report(success, fail, false), k;
      }
      ghost var before := t.Now();
      DebitAll(t, orders, done, next);
      HeapNow(t);
      UnderwayOneMore(s, before, t.Now(), orders, txs, maxOrdersPerTx, replies, turn, done, next, success);
      DebitsInParts(past, orders, done, next);
      success := success + Successes(t.pool.heap, orders[done..next]);
      done, turn := next, turn + 1;
    }
    UnderwayFacts(s, t.Now(), orders, txs, maxOrdersPerTx, replies, turn, done, success);
    UnderwayEnd(s, t.Now(), orders, txs, maxOrdersPerTx, replies, turn, success);
    assert orders[..|orders|] == orders;
    return Report(success, [], false), turn;
  }

  /** `processBatch`: the orders of the first transactions are fulfilled and reported so; those of the first
      transaction that fails are released, and reported as failed unless it was an RPC error; those after it
      are never attempted. A gas error ends the program on the spot. */
  method ProcessBatch(t: OrderTracker, orders: seq<Ptr>, maxOrdersPerTx: nat, replies: seq<Reply>)
    returns (report: Report, ghost k: nat)
    requires t.Valid() && Distinct(orders) && AllAt(t.Now(), orders, 0, Working)
    requires maxOrdersPerTx >= 1 && |replies| == |Chunk(orders, maxOrdersPerTx)|
    modifies t, t.pool, t.lps.Values
    ensures t.Valid() && t.lps == old(t.lps)
    ensures k <= |replies| && (forall j :: 0 <= j < k ==> replies[j].Fulfilled?)
    ensures k < |replies| ==> replies[k].Failed?
    ensures Within(orders, old(t.pool.heap)) && t.pool.heap == old(t.pool.heap)
    ensures var (r, steps) := Split(old(t.pool.heap), Chunk(orders, maxOrdersPerTx), replies, k);
            report == r && Exec(old(t.Now()), steps) == Some(t.Now()) && t.history == old(t.history) + steps
    ensures var (n, size, steps) := (maxOrdersPerTx, |orders|, t.history[|old(t.history)|..]);
            var done := if k * n < size then k * n else size;
            var next := if (k + 1) * n < size then (k + 1) * n else size;
            && done <= next <= |orders| && |steps| == (if report.exited then done else |orders|)
            && |report.success| == done
            && (forall i :: 0 <= i < done ==>
                  && orders[i] < |t.pool.heap| && report.success[i] == OrderResult(t.pool.heap[orders[i]].id, None)
                  && steps[i] == Step.Debit(orders[i]))
            && (k == |replies| ==> done == |orders| && report.fail == [] && !report.exited)
            && (k < |replies| ==> (report.exited <==> IsGasError(replies[k].error)))
            && (report.exited ==> report.fail == [])
            && (k < |replies| && !report.exited ==>
                  && |report.fail| == (if IsRpcError(replies[k].error) then 0 else next - done)
                  && (forall i :: done <= i < done + |report.fail| ==>
                        && orders[i] < |t.pool.heap|
                        && var o := t.pool.heap[orders[i]];
                        report.fail[i - done] == OrderResult(o.id, Some(Hash(o.id, o.fee))))
                  && (forall i :: done <= i < next ==>
                        steps[i] == Step.Fail(orders[i], IsRpcError(replies[k].error)))
                  && (forall i :: next <= i < |orders| ==> steps[i] == Step.Abandon(orders[i])))
  {
    hide *;
    ghost var past := t.history;
    report, k := FulfilChunks(t, orders, maxOrdersPerTx, replies);
    BatchMeans(t.pool.heap, orders, maxOrdersPerTx, replies, k, report,
               Split(t.pool.heap, Chunk(orders, maxOrdersPerTx), replies, k).1);
    assert t.history[|past|..] == Split(t.pool.heap, Chunk(orders, maxOrdersPerTx), replies, k).1;
  }

  lemma BatchMeans(heap: seq<Order>, orders: seq<Ptr>, n: nat, replies: seq<Reply>, k: nat, report: Report,
                   steps: seq<Step>)
    requires n >= 1 && Within(orders, heap) && k <= |Chunk(orders, n)| == |replies|
    requires (k < |replies| ==> replies[k].Failed?) && (report, steps) == Split(heap, Chunk(orders, n), replies, k)
    ensures var size := |orders|;
            var done := if k * n < size then k * n else size;
            var next := if (k + 1) * n < size then (k + 1) * n else size;
            && done <= next <= |orders| && |steps| == (if report.exited then done else |orders|)
            && |report.success| == done
            && (forall i :: 0 <= i < done ==>
                  && orders[i] < |heap| && report.success[i] == OrderResult(heap[orders[i]].id, None)
                  && steps[i] == Step.Debit(orders[i]))
            && (k == |replies| ==> done == |orders| && report.fail == [] && !report.exited)
            && (k < |replies| ==> (report.exited <==> IsGasError(replies[k].error)))
            && (report.exited ==> report.fail == [])
            && (k < |replies| && !report.exited ==>
                  && |report.fail| == (if IsRpcError(replies[k].error) then 0 else next - done)
                  && (forall i :: done <= i < done + |report.fail| ==>
                        && orders[i] < |heap|
                        && var o := heap[orders[i]];
                        report.fail[i - done] == OrderResult(o.id, Some(Hash(o.id, o.fee))))
                  && (forall i :: done <= i < next ==>
                        steps[i] == Step.Fail(orders[i], IsRpcError(replies[k].error)))
                  && (forall i :: next <= i < |orders| ==> steps[i] == Step.Abandon(orders[i])))
  {
    hide *;
    SplitMeans(heap, orders, n, replies, k);
    EndMeans(|orders|, n, k);
    EndMeans(|orders|, n, k + 1);
  }

  lemma EndMeans(size: nat, n: nat, k: nat)
    ensures ChunkEnd(size, n, k) == if k * n < size then k * n else size
  {}

  lemma DebitsInParts(past: seq<Step>, ps: seq<Ptr>, i: nat, j: nat)
    requires i <= j <= |ps|
    ensures past + Debits(ps[..j]) == past + Debits(ps[..i]) + Debits(ps[i..j])
    ensures past + Debits(ps[..0]) == past
  {}

  lemma UnderwayFacts(s: State, t: State, orders: seq<Ptr>, txs: seq<seq<Ptr>>, n: nat, replies: seq<Reply>,
                      k: nat, done: nat, success: seq<OrderResult>)
    requires Within(orders, s.heap) && n >= 1 && Underway(s, t, orders, txs, n, replies, k, done, success)
    ensures |replies| == |txs| && k <= |txs| && t.heap == s.heap && done <= |orders|
    ensures Exec(s, Debits(orders[..done])) == Some(t) && AllAt(t, orders, done, Working)
    ensures success == Successes(s.heap, orders[..done]) && Flatten(txs[..k]) == orders[..done]
    ensures forall j :: 0 <= j < k ==> replies[j].Fulfilled?
  {}
}
