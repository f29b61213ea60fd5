/** The result loop: handled orders leave the pool, failed ones are remembered. */
module Results {
  import opened SdkCoins
  import opened LpModel
  import opened Protocol
  import opened InFlight
  import opened LpFloor
  import opened Pool
  import opened FailedOrders
  import opened Traces
  import opened Tracker
  import opened OrderChecks
  import opened Fulfiller

  function Settles(ps: seq<Ptr>): seq<Step> {
    seq(|ps|, i requires 0 <= i < |ps| => Step.Settle(ps[i]))
  }

  /** The failures a list of results reports, in order. */
  function Reported(results: seq<OrderResult>): seq<Event> {
    if results == [] then []
    else
      var r := results[|results| - 1];
      Reported(results[..|results| - 1])
        + match r.failedHash case Some(h) => [Failure(r.id, h.fee)] case None => []
  }

  /** Each result names one of the orders whose result is out, and its hash, if any, is of that order. */
  ghost predicate ResultsOf(heap: seq<Order>, ps: seq<Ptr>, results: seq<OrderResult>) {
    |results| == |ps| && forall i :: 0 <= i < |ps| ==>
      && ps[i] < |heap| && results[i].id == heap[ps[i]].id
      && (results[i].failedHash.Some? ==> results[i].failedHash.value.id == results[i].id)
  }

  lemma ReportsAreResults(heap: seq<Order>, ps: seq<Ptr>)
    requires Within(ps, heap)
    ensures ResultsOf(heap, ps, Successes(heap, ps)) && ResultsOf(heap, ps, Failures(heap, ps))
  {}

  method SettleOne(t: OrderTracker, ghost p: Ptr, id: OrderId)
    requires t.Valid() && At(t.Now(), p, Settled) && id == t.pool.heap[p].id
    modifies t, t.pool, t.lps.Values
    ensures t.Valid() && t.lps == old(t.lps) && t.pool.heap == old(t.pool.heap)
    ensures Next(old(t.Now()), Step.Settle(p), t.Now()) && t.history == old(t.history) + [Step.Settle(p)]
  {
    hide OrderTracker.Valid, OrderTracker.AddressKeyed, OrderTracker.Table, Sound, Exec, Enabled, Apply, Minus;
    ghost var s := t.Now();
    t.Past();
    WorkIs(s, p);
    SoundHasCopies(s);
    t.Place(t.copies[p := Minus(t.copies[p], Settled)], t.sent);
    t.Drop(id);
    t.LogStep(s, Step.Settle(p));
  }

  lemma SettleMovesOne(s: State, p: Ptr, q: Ptr)
    requires Enabled(s, Step.Settle(p)) && q != p && At(s, q, Settled)
    ensures At(Apply(s, Step.Settle(p)), q, Settled)
  {}

  lemma SettledOneMore(s: State, t: State, u: State, ps: seq<Ptr>, i: nat)
    requires i < |ps| && Distinct(ps) && AllAt(t, ps, i, Settled)
    requires Next(t, Step.Settle(ps[i]), u) && Exec(s, Settles(ps[..i])) == Some(t)
    ensures AllAt(u, ps, i + 1, Settled) && Exec(s, Settles(ps[..i + 1])) == Some(u)
  {
    hide Enabled, Apply, At, Exec;
    ExecOne(s, Settles(ps[..i]), t, Step.Settle(ps[i]), u);
    assert Settles(ps[..i + 1]) == Settles(ps[..i]) + [Step.Settle(ps[i])];
    forall j | i + 1 <= j < |ps| ensures At(u, ps[j], Settled) {
      SettleMovesOne(t, ps[i], ps[j]);
    }
  }

  /** The hash of a failed order is noted; the orders and LPs do not change. */
  method Remember(t: OrderTracker, r: OrderResult)
    requires t.failed.Valid() && (r.failedHash.Some? ==> r.failedHash.value.id == r.id)
    modifies t.failed
    ensures t.failed.Valid() && t.Now() == old(t.Now()) && t.Valid() == old(t.Valid())
    ensures t.history == old(t.history) && t.failed.events == old(t.failed.events) + Reported([r])
  {
    hide Sound;
    assert [r][..0] == [] && Reported([]) == [];
    if r.failedHash.Some? {
      t.failed.Note(r.id, r.failedHash.value);
    }
  }

  lemma SettlesMore(past: seq<Step>, ps: seq<Ptr>, i: nat)
    requires i < |ps|
    ensures past + Settles(ps[..i]) + [Step.Settle(ps[i])] == past + Settles(ps[..i + 1])
  {}

  lemma NothingSettled(past: seq<Step>, ps: seq<Ptr>)
    ensures Settles(ps[..0]) == [] && past + Settles(ps[..0]) == past
  {}

  lemma NothingReported()
    ensures Reported([]) == []
  {}

  lemma {:induction false} ReportedConcat(xs: seq<OrderResult>, ys: seq<OrderResult>)
    ensures Reported(xs + ys) == Reported(xs) + Reported(ys)
    decreases |ys|
  {
    if ys == [] {
      assert xs + ys == xs;
    } else {
      assert (xs + ys)[..|xs + ys| - 1] == xs + ys[..|ys| - 1];
      ReportedConcat(xs, ys[..|ys| - 1]);
    }
  }

  /** A failed transaction's orders are all refused afterwards: what the fulfiller reports for them
      makes each of them the last failure of its id. */
  lemma {:induction false} FailuresAreRemembered(events: seq<Event>, heap: seq<Order>, tx: seq<Ptr>, i: nat)
    requires Within(tx, heap) && i < |tx|
    requires forall j, k :: 0 <= j < k < |tx| ==> heap[tx[j]].id != heap[tx[k]].id
    ensures StillFailed(events + Reported(Failures(heap, tx)), heap[tx[i]].id, heap[tx[i]].fee)
  {
    var o, n := heap[tx[i]], |tx| - 1;
    var init, last := tx[..n], heap[tx[n]];
    var all := events + Reported(Failures(heap, tx));
    assert Failures(heap, tx)[..n] == Failures(heap, init);
    assert all == (events + Reported(Failures(heap, init))) + [Failure(last.id, last.fee)];
    if i == n {
      assert all[|all| - 1] == Failure(o.id, o.fee);
    } else {
      FailuresAreRemembered(events, heap, init, i);
      var before := events + Reported(Failures(heap, init));
      var k :| 0 <= k < |before| && before[k] == Failure(o.id, o.fee)
            && forall j :: k < j < |before| ==> !Changes(before[j], o.id, o.fee);
      assert all[k] == Failure(o.id, o.fee);
      forall j | k < j < |all| ensures !Changes(all[j], o.id, o.fee) {
        assert j < |before| ==> all[j] == before[j];
      }
    }
  }

  lemma SameIds(heap: seq<Order>, ps: seq<Ptr>, results: seq<OrderResult>)
    requires ResultsOf(heap, ps, results) && Within(ps, heap)
    ensures (set i | 0 <= i < |ps| :: heap[ps[i]].id) == set i | 0 <= i < |results| :: results[i].id
  {
    assert forall i :: 0 <= i < |ps| ==> heap[ps[i]].id == results[i].id;
  }

  lemma SettleDrops(s: State, p: Ptr)
    requires Enabled(s, Step.Settle(p))
    ensures var t := Apply(s, Step.Settle(p));
            p < |s.heap| && t.heap == s.heap && t.pool == s.pool - {s.heap[p].id} && t.lps == s.lps
  {}

  /** The results' ids leave the pool, and nothing else does. */
  lemma {:induction false} SettlesDrop(s: State, ps: seq<Ptr>, t: State)
    requires Exec(s, Settles(ps)) == Some(t)
    ensures Within(ps, s.heap) && t.heap == s.heap && t.lps == s.lps
    ensures t.pool == s.pool - set i | 0 <= i < |ps| :: s.heap[ps[i]].id
  {
    hide Enabled, Apply;
    if ps != [] {
      var (init, last) := (ps[..|ps| - 1], ps[|ps| - 1]);
      assert Settles(ps)[..|ps| - 1] == Settles(init) && Settles(ps)[|ps| - 1] == Step.Settle(last);
      var u := Exec(s, Settles(init)).value;
      SettlesDrop(s, init, u);
      SettleDrops(u, last);
      var (before, all) := (set i | 0 <= i < |init| :: s.heap[init[i]].id, set i | 0 <= i < |ps| :: s.heap[ps[i]].id);
      assert all == before + {s.heap[last].id} by {
        assert forall i :: 0 <= i < |init| ==> ps[i] == init[i];
        assert ps[|ps| - 1] == last;
      }
      assert s.pool - before - {s.heap[last].id} == s.pool - all;
    }
  }

  /** One turn of `manageProcessed`: the ids of the results leave the pool, and nothing else changes there. */
  method ManageProcessed(t: OrderTracker, results: seq<OrderResult>, ghost ps: seq<Ptr>)
    requires t.Valid() && t.failed.Valid()
    requires ResultsOf(t.pool.heap, ps, results) && Distinct(ps) && AllAt(t.Now(), ps, 0, Settled)
    modifies t, t.pool, t.lps.Values, t.failed
    ensures t.Valid() && t.lps == old(t.lps)
    ensures Exec(old(t.Now()), Settles(ps)) == Some(t.Now()) && t.history == old(t.history) + Settles(ps)
    ensures t.pool.heap == old(t.pool.heap) && t.Table() == old(t.Table())
    ensures t.pool.orders == old(t.pool.orders) - set i | 0 <= i < |results| :: results[i].id
    ensures t.failed.Valid() && t.failed.events == old(t.failed.events) + Reported(results)
  {
    hide OrderTracker.Valid, Exec, At, Enabled, Apply, FailureRecord.Valid, Reported, Settles;
    ghost var s, past := t.Now(), t.history;
    NoSteps(s);
    NothingReported();
    NothingSettled(past, ps);
    for i := 0 to |results|
      invariant t.Valid() && t.lps == old(t.lps) && t.pool.heap == s.heap && t.failed.Valid()
      invariant t.failed.events == old(t.failed.events) + Reported(results[..i])
      invariant Exec(s, Settles(ps[..i])) == Some(t.Now()) && AllAt(t.Now(), ps, i, Settled)
      invariant t.history == past + Settles(ps[..i])
    {
      var res := results[i];
      ghost var before := t.Now();
      Remember(t, res);
      SettleOne(t, ps[i], res.id);
      SettledOneMore(s, before, t.Now(), ps, i);
      SettlesMore(past, ps, i);
      ReportedConcat(results[..i], [res]);
      assert results[..i + 1] == results[..i] + [res];
    }
    assert ps[..|ps|] == ps && results[..|results|] == results;
    SettlesDrop(s, ps, t.Now());
    SameIds(s.heap, ps, results);
  }
}
