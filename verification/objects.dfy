/** What holds over all runs, said of the tracker object: its history is a run of the protocol. */
module Objects {
  import opened SdkCoins
  import opened LpModel
  import opened LpObject
  import opened Protocol
  import opened InFlight
  import opened Links
  import opened LpFloor
  import opened MoneyTheorems
  import opened LostFunds
  import opened Traces
  import opened Tracker

  /** Whatever methods were called, the object has gone through the states of a run. */
  lemma HistoryIsRun(t: OrderTracker) returns (states: seq<State>)
    requires t.Valid()
    ensures IsRun(t.cfg, states, t.history) && states[|t.history|] == t.Now()
  {
    hide Sound, Exec, IsRun;
    states := ExecIsRun(t.cfg, t.history);
  }

  /** Every order the tracker holds gives the operator at least the minimum share on a supported rollapp,
      every LP is one that `loadLPs` let in, and an order with a copy under way has no other, is the
      pool's own entry for its id, and is marked. */
  lemma TrackerInvariants(t: OrderTracker)
    requires t.Valid()
    ensures forall p :: 0 <= p < |t.pool.heap| ==> OrderFloor(t.cfg, t.pool.heap[p])
    ensures forall a :: a in t.lps ==> Granted(t.cfg, t.lps[a].Val())
    ensures forall p: Ptr :: Flying(t.Now(), p) ==>
              && p < |t.pool.heap| && p < |t.copies| && |t.copies[p]| == 1
              && t.pool.heap[p].id in t.pool.orders && t.pool.orders[t.pool.heap[p].id] == p
              && t.pool.heap[p].Flagged()
  {
    hide OrderTracker.Valid, IsRun, Orderly, Granted, Flying;
    var states := HistoryIsRun(t);
    ShareFloor(t.cfg, states, t.history, |t.history|);
    RunKeeps(t.cfg, states, t.history, |t.history|);
    forall p: Ptr | Flying(t.Now(), p)
      ensures p < |t.pool.heap| && p < |t.copies| && |t.copies[p]| == 1
      ensures t.pool.heap[p].id in t.pool.orders && t.pool.orders[t.pool.heap[p].id] == p && t.pool.heap[p].Flagged()
    {
      FlyingIsPooled(t.Now(), p);
    }
    forall a | a in t.lps ensures Granted(t.cfg, t.lps[a].Val()) {
      assert t.Now().lps[a] == t.lps[a].Val();
    }
  }

  /** Between two dispatches of an id in the tracker's history, the id was taken out of the pool. */
  lemma TrackerDispatchesOnce(t: OrderTracker, i: nat, j: nat, id: OrderId) returns (states: seq<State>)
    requires t.Valid() && i < j < |t.history|
    ensures IsRun(t.cfg, states, t.history) && states[|t.history|] == t.Now()
    ensures Sends(states[i], t.history[i], id) && Sends(states[j], t.history[j], id) ==>
              exists k :: i < k < j && TakesOut(states[k], t.history[k], id)
  {
    hide OrderTracker.Valid, Next, Sends, TakesOut;
    states := HistoryIsRun(t);
    if Sends(states[i], t.history[i], id) && Sends(states[j], t.history[j], id) {
      DispatchedOncePerStay(t.cfg, states, t.history, i, j, id);
    }
  }

  /** If every step of its history was balanced, what an LP object has reserved is what orders still hold
      on it, and what the history has lost. */
  lemma TrackerFunds(t: OrderTracker, a: Addr) returns (states: seq<State>)
    requires t.Valid() && a in t.lps
    ensures IsRun(t.cfg, states, t.history) && states[|t.history|] == t.Now()
    ensures BalancedRun(t.cfg, states, t.history) ==>
              t.lps[a].reservedFunds
                == Add(SumOf(t.ledger, HeldNow(t.Now()), a),
                       SumOf(t.ledger, LostSoFar(states, t.history, |t.history|), a))
  {
    hide OrderTracker.Valid, IsRun, BalancedRun, HeldNow, LostSoFar, SumOf, Add;
    states := HistoryIsRun(t);
    assert a in t.Now().lps && t.Now().lps[a].funds.reserved == t.lps[a].reservedFunds && t.Now().ledger == t.ledger;
    if BalancedRun(t.cfg, states, t.history) {
      ReservedIsHeldAndLost(t.cfg, states, t.history, |t.history|, a);
    }
  }
}
