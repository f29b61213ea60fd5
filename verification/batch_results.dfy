/** A batch from the fulfiller to the result loop: what it reports is handled, and then its orders are out
    of the pool and its failures remembered. */
module BatchResults {
  import opened SdkCoins
  import opened LpModel
  import opened Protocol
  import opened InFlight
  import opened Slices
  import opened Pool
  import opened FailedOrders
  import opened Traces
  import opened Tracker
  import opened OrderChecks
  import opened Fulfiller
  import opened Results

  /** The orders of the steps are different orders. */
  ghost predicate EachOnce(steps: seq<Step>) {
    && (forall i :: 0 <= i < |steps| ==> EndsWork(steps[i]))
    && forall i, j :: 0 <= i < j < |steps| ==> EndsWork(steps[i]) && EndsWork(steps[j]) && steps[i].p != steps[j].p
  }

  /** The step puts a result on its way. */
  predicate Reports(st: Step) {
    st.Debit? || (st.Fail? && !st.rpc)
  }

  lemma ReportedOne(s: State, st: Step)
    requires Enabled(s, st) && Reports(st)
    ensures At(Apply(s, st), st.p, Settled)
  {
    hide ReleaseFunds, DebitFunds, Closed;
  }

  /** A result on its way stays there while other orders are worked on. */
  lemma {:induction false} ReportedStays(s: State, steps: seq<Step>, t: State, i: nat)
    requires Exec(s, steps) == Some(t) && EachOnce(steps) && i < |steps| && Reports(steps[i])
    ensures At(t, steps[i].p, Settled)
  {
    hide Enabled, Apply, At, Reports;
    var (init, last) := (steps[..|steps| - 1], steps[|steps| - 1]);
    var u := Exec(s, init).value;
    if i == |steps| - 1 {
      ReportedOne(u, last);
    } else {
      ReportedStays(s, init, u, i);
      WorkMovesOne(u, last, steps[i].p, Settled);
    }
  }

  lemma SettlesOthers(s: State, st: Step, q: Ptr)
    requires Enabled(s, st) && st.Settle? && st.p != q && At(s, q, Settled)
    ensures At(Apply(s, st), q, Settled)
  {}

  lemma {:induction false} SettledStays(s: State, ps: seq<Ptr>, t: State, q: Ptr)
    requires Exec(s, Settles(ps)) == Some(t) && q !in ps && At(s, q, Settled)
    ensures At(t, q, Settled)
  {
    hide Enabled, Apply, At;
    if ps != [] {
      var (init, last) := (ps[..|ps| - 1], ps[|ps| - 1]);
      assert Settles(ps)[..|ps| - 1] == Settles(init) && Settles(ps)[|ps| - 1] == Step.Settle(last);
      SettledStays(s, init, Exec(s, Settles(init)).value, q);
      SettlesOthers(Exec(s, Settles(init)).value, Step.Settle(last), q);
    }
  }

  /** The orders whose results a batch puts on their way. */
  function Attempted(txs: seq<seq<Ptr>>, replies: seq<Reply>, k: nat): (seq<Ptr>, seq<Ptr>)
    requires k <= |txs| == |replies|
  {
    (Flatten(txs[..k]),
     if k < |txs| && replies[k].Failed? && !IsGasError(replies[k].error) && !IsRpcError(replies[k].error)
     then txs[k] else [])
  }

  lemma WorkSteps(done: seq<Ptr>, failed: seq<Ptr>, rest: seq<Ptr>, rpc: bool)
    requires Distinct(done + failed + rest)
    ensures EachOnce(Debits(done) + Fails(failed, rpc) + Abandons(rest))
    ensures Distinct(done + failed)
  {
    var (all, steps) := (done + failed + rest, Debits(done) + Fails(failed, rpc) + Abandons(rest));
    assert |steps| == |all|;
    forall i | 0 <= i < |all| ensures EndsWork(steps[i]) && steps[i].p == all[i] {}
    forall i, j | 0 <= i < j < |done + failed| ensures (done + failed)[i] != (done + failed)[j] {
      assert all[i] == (done + failed)[i] && all[j] == (done + failed)[j];
    }
  }

  lemma PartsReport(s: State, done: seq<Ptr>, failed: seq<Ptr>, rest: seq<Ptr>, rpc: bool, t: State)
    requires Distinct(done + failed + rest)
    requires Exec(s, Debits(done) + Fails(failed, rpc) + Abandons(rest)) == Some(t)
    ensures AllAt(t, done, 0, Settled) && (!rpc ==> AllAt(t, failed, 0, Settled)) && Distinct(done + failed)
  {
    hide Exec, At, EachOnce;
    WorkSteps(done, failed, rest, rpc);
    var steps := Debits(done) + Fails(failed, rpc) + Abandons(rest);
    forall i | 0 <= i < |done| ensures At(t, done[i], Settled) {
      assert steps[i] == Step.Debit(done[i]);
      ReportedStays(s, steps, t, i);
    }
    if !rpc {
      forall i | 0 <= i < |failed| ensures At(t, failed[i], Settled) {
        assert steps[|done| + i] == Step.Fail(failed[i], false);
        ReportedStays(s, steps, t, |done| + i);
      }
    }
  }

  /** When a batch is through, what it reports is on its way. */
  lemma SplitReports(s: State, txs: seq<seq<Ptr>>, replies: seq<Reply>, k: nat, t: State)
    requires k <= |txs| == |replies| && (k < |txs| ==> replies[k].Failed?)
    requires Within(Flatten(txs), s.heap) && Distinct(Flatten(txs))
    requires Exec(s, Split(s.heap, txs, replies, k).1) == Some(t)
    ensures var (done, failed) := Attempted(txs, replies, k);
            AllAt(t, done, 0, Settled) && AllAt(t, failed, 0, Settled) && Distinct(done + failed)
  {
    hide Exec, AllAt, IsGasError, IsRpcError, Debits, Fails, Abandons, Flatten, Distinct;
    var done := Flatten(txs[..k]);
    InThree(txs, k);
    NoWork(done);
    if k == |txs| || IsGasError(replies[k].error) {
      DistinctFront(done, if k < |txs| then txs[k] + Flatten(txs[k + 1..]) else []);
      PartsReport(s, done, [], [], false, t);
    } else {
      assert done + (txs[k] + Flatten(txs[k + 1..])) == done + txs[k] + Flatten(txs[k + 1..]);
      PartsReport(s, done, txs[k], Flatten(txs[k + 1..]), IsRpcError(replies[k].error), t);
      DistinctFront(done, txs[k]);
      NoneAt(t);
    }
  }

  lemma NoneAt(t: State)
    ensures AllAt(t, [], 0, Settled)
  {}

  lemma NoWork(done: seq<Ptr>)
    ensures Debits(done) + Fails([], false) + Abandons([]) == Debits(done)
    ensures done + [] == done && done + [] + [] == done
  {}

  lemma DistinctFront(a: seq<Ptr>, b: seq<Ptr>)
    requires Distinct(a + b)
    ensures Distinct(a)
  {
    forall i, j | 0 <= i < j < |a| ensures a[i] != a[j] {
      assert (a + b)[i] == a[i] && (a + b)[j] == a[j];
    }
  }

  // ---------------------------------------------------------------- and handled

  lemma ReportsMatch(heap: seq<Order>, txs: seq<seq<Ptr>>, replies: seq<Reply>, k: nat)
    requires k <= |txs| == |replies| && Within(Flatten(txs), heap) && (k < |txs| ==> replies[k].Failed?)
    ensures var (done, failed) := Attempted(txs, replies, k);
            var report := Split(heap, txs, replies, k).0;
            && Within(done, heap) && Within(failed, heap)
            && report.success == Successes(heap, done) && report.fail == Failures(heap, failed)
            && ResultsOf(heap, done, report.success) && ResultsOf(heap, failed, report.fail)
  {
    hide IsGasError, IsRpcError, ResultsOf, Successes, Failures;
    WithinParts(heap, txs, k);
    var (done, failed) := Attempted(txs, replies, k);
    NoFailures(heap);
    ReportsAreResults(heap, done);
    ReportsAreResults(heap, failed);
  }

  lemma NoFailures(heap: seq<Order>)
    ensures Failures(heap, []) == []
  {}

  /** The failed orders are not touched by handling the successes. */
  lemma FailedWait(s: State, done: seq<Ptr>, failed: seq<Ptr>, t: State)
    requires Exec(s, Settles(done)) == Some(t) && Distinct(done + failed) && AllAt(s, failed, 0, Settled)
    ensures AllAt(t, failed, 0, Settled) && Distinct(done) && Distinct(failed)
  {
    hide Exec, At;
    DistinctFront(done, failed);
    var all := done + failed;
    forall i, j | 0 <= i < j < |failed| ensures failed[i] != failed[j] {
      assert all[|done| + i] == failed[i] && all[|done| + j] == failed[j];
    }
    forall i | 0 <= i < |failed| ensures At(t, failed[i], Settled) {
      assert all[|done| + i] == failed[i];
      assert forall j :: 0 <= j < |done| ==> all[j] == done[j];
      assert failed[i] !in done;
      SettledStays(s, done, t, failed[i]);
    }
  }

  /** No id of the listed orders is in the pool. */
  ghost predicate OutOfPool(s: State, ps: seq<Ptr>) {
    forall i :: 0 <= i < |ps| ==> ps[i] < |s.heap| && s.heap[ps[i]].id !in s.pool
  }

  lemma BothLeave(s: State, done: seq<Ptr>, t: State, failed: seq<Ptr>, u: State)
    requires Exec(s, Settles(done)) == Some(t) && Exec(t, Settles(failed)) == Some(u)
    ensures OutOfPool(u, done) && OutOfPool(u, failed)
  {
    hide Exec;
    SettlesDrop(s, done, t);
    SettlesDrop(t, failed, u);
  }

  /** Which orders those are. */
  lemma AttemptedMeans(orders: seq<Ptr>, n: nat, replies: seq<Reply>, k: nat)
    requires n >= 1 && k <= |Chunk(orders, n)| == |replies| && (k < |replies| ==> replies[k].Failed?)
    ensures var size := |orders|;
            var end := if k * n < size then k * n else size;
            var next := if (k + 1) * n < size then (k + 1) * n else size;
            var (done, failed) := Attempted(Chunk(orders, n), replies, k);
            && end <= next <= size && done == orders[..end]
            && failed == if k < |replies| && !IsGasError(replies[k].error) && !IsRpcError(replies[k].error)
                         then orders[end..next] else []
  {
    hide Chunk, Flatten, IsGasError, IsRpcError, ChunkEnd;
    var txs := Chunk(orders, n);
    EndsInOrder(|orders|, n, k);
    EndMeans(|orders|, n, k);
    EndMeans(|orders|, n, k + 1);
    if k < |txs| {
      ChunkAt(orders, n, k);
      EndIsStart(|orders|, n, k);
    } else {
      ChunkEnds(orders, n);
      assert txs[..k] == txs && orders[..|orders|] == orders;
    }
  }

  /** A batch is fulfilled and its results handled. Then the ids of all orders that were fulfilled, and of
      those in the transaction that failed without an RPC error, are out of the pool, and these last are
      noted as failed. */
  method FulfilAndSettle(t: OrderTracker, orders: seq<Ptr>, maxOrdersPerTx: nat, replies: seq<Reply>)
    returns (report: Report, ghost k: nat)
    requires t.Valid() && t.failed.Valid() && Distinct(orders) && AllAt(t.Now(), orders, 0, Working)
    requires maxOrdersPerTx >= 1 && |replies| == |Chunk(orders, maxOrdersPerTx)|
    modifies t, t.pool, t.lps.Values, t.failed
    ensures t.Valid() && t.failed.Valid() && t.lps == old(t.lps) && t.pool.heap == old(t.pool.heap)
    ensures k <= |replies| && (forall j :: 0 <= j < k ==> replies[j].Fulfilled?)
    ensures k < |replies| ==> replies[k].Failed?
    ensures report.exited <==> k < |replies| && IsGasError(replies[k].error)
    ensures Within(orders, t.pool.heap)
    ensures !report.exited ==>
              var (done, failed) := Attempted(Chunk(orders, maxOrdersPerTx), replies, k);
              && OutOfPool(t.Now(), done) && OutOfPool(t.Now(), failed) && Within(failed, t.pool.heap)
              && t.failed.events == old(t.failed.events) + Reported(Failures(t.pool.heap, failed))
              && t.history == old(t.history)
                   + Split(t.pool.heap, Chunk(orders, maxOrdersPerTx), replies, k).1 + Settles(done) + Settles(failed)
  {
    hide OrderTracker.Valid, FailureRecord.Valid, Exec, At, AllAt, Distinct, Chunk, Split, IsGasError, IsRpcError,
         Reported, Settles, Failures, ResultsOf, OutOfPool;
    ghost var (s, txs) := (t.Now(), Chunk(orders, maxOrdersPerTx));
    report, k := ProcessBatch(t, orders, maxOrdersPerTx, replies);
    ExitsWhere(s.heap, txs, replies, k);
    if report.exited {
      return;
    }
    ghost var worked := t.Now();
    ghost var (done, failed) := Attempted(txs, replies, k);
    SplitReports(s, txs, replies, k, worked);
    ReportsMatch(s.heap, txs, replies, k);
    DistinctFront(done, failed);
    ManageProcessed(t, report.success, done);
    ghost var settled := t.Now();
    FailedWait(worked, done, failed, settled);
    ManageProcessed(t, report.fail, failed);
    BothLeave(worked, done, settled, failed, t.Now());
    NothingFailed(s.heap, done);
  }

  lemma ExitsWhere(heap: seq<Order>, txs: seq<seq<Ptr>>, replies: seq<Reply>, k: nat)
    requires k <= |txs| == |replies| && Within(Flatten(txs), heap) && (k < |txs| ==> replies[k].Failed?)
    ensures Split(heap, txs, replies, k).0.exited <==> k < |replies| && IsGasError(replies[k].error)
  {
    hide IsGasError, IsRpcError;
  }

  lemma {:induction false} NothingFailed(heap: seq<Order>, ps: seq<Ptr>)
    requires Within(ps, heap)
    ensures Reported(Successes(heap, ps)) == []
  {
    if ps != [] {
      assert Successes(heap, ps)[..|ps| - 1] == Successes(heap, ps[..|ps| - 1]);
      NothingFailed(heap, ps[..|ps| - 1]);
    }
  }
}
