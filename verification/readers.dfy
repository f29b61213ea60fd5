/** The two readers of orders: the poller and the eventer. */
module Readers {
  import opened SdkCoins
  import opened LpModel
  import opened Protocol
  import opened Slices
  import opened Dispatch
  import opened Pool
  import opened Traces
  import opened FailedOrders
  import opened Tracker
  import opened OrderChecks
  import opened Intake

  function ParsedPolls(rs: seq<Polled>): (r: seq<Option<Incoming>>)
    ensures |r| == |rs|
  {
    seq(|rs|, i requires 0 <= i < |rs| => ParsedPoll(rs[i]))
  }

  function ParsedEvents(rs: seq<Announced>): (r: seq<Option<Incoming>>)
    ensures |r| == |rs|
  {
    seq(|rs|, i requires 0 <= i < |rs| => ParsedEvent(rs[i]))
  }

  /** A polled order is read if price, amount, fee and proof height can be, and then its price is the polled
      amount in the fee's denom. */
  lemma ParsedPollMeans(r: Polled)
    ensures ParsedPoll(r).Some? <==> r.price.Some? && r.amount.Some? && r.fee.Some? && r.proofHeight.Some?
    ensures ParsedPoll(r).Some? ==>
              var i := ParsedPoll(r).value;
              && i.id == r.id && i.rollappId == r.rollappId && i.amount == r.amount.value && i.fee == r.fee.value
              && i.proofHeight == r.proofHeight.value
              && forall d: Denom :: AmountOf(i.price, d) == if d == r.fee.value.denom then r.price.value else 0
  {}

  /** An announced one, under the same condition, with the price as announced. */
  lemma ParsedEventMeans(r: Announced)
    ensures ParsedEvent(r).Some? <==> r.price.Some? && r.amount.Some? && r.fee.Some? && r.proofHeight.Some?
    ensures ParsedEvent(r).Some? ==>
              var i := ParsedEvent(r).value;
              && i.id == r.id && i.rollappId == r.rollappId && i.amount == r.amount.value && i.fee == r.fee.value
              && i.proofHeight == r.proofHeight.value && i.price == r.price.value
  {}

  lemma PolledComeOut(polled: seq<Polled>, orders: seq<Ptr>, intakes: seq<Intake>, steps: seq<seq<Step>>,
                      mids: seq<State>)
    requires CameInUpTo(ParsedPolls(polled), true, |polled|, orders, intakes, steps, mids)
    ensures |intakes| == |polled| && |mids| == |polled| + 1
    ensures forall k :: 0 <= k < |polled| ==>
              (intakes[k].Skipped? <==> polled[k].price.None? || polled[k].amount.None? || polled[k].fee.None?
                                        || polled[k].proofHeight.None?)
    ensures forall k :: 0 <= k < |polled| && intakes[k].TakenIn? ==>
              && |mids[k].heap| in orders && |mids[k].heap| < |mids[|polled|].heap|
              && var (r, o) := (polled[k], mids[|polled|].heap[|mids[k].heap|]);
              && o.id == r.id && o.rollappId == r.rollappId && r.amount == Some(o.amount) && r.fee == Some(o.fee)
              && r.proofHeight == Some(o.proofHeight) && r.price.Some?
              && forall d: Denom :: AmountOf(o.price, d) == if d == o.fee.denom then r.price.value else 0
  {
    hide Exec, CameIn, Committed, ParsedPoll;
    var rs := ParsedPolls(polled);
    forall k | 0 <= k < |polled| ensures rs[k] == ParsedPoll(polled[k]) {}
    forall k | 0 <= k < |polled|
      ensures ParsedPoll(polled[k]).Some? <==>
                polled[k].price.Some? && polled[k].amount.Some? && polled[k].fee.Some? && polled[k].proofHeight.Some? {
      ParsedPollMeans(polled[k]);
    }
    forall k | 0 <= k < |polled| && intakes[k].TakenIn?
      ensures |mids[k].heap| in orders && |mids[k].heap| < |mids[|polled|].heap|
      ensures var (r, o) := (polled[k], mids[|polled|].heap[|mids[k].heap|]);
              && o.id == r.id && o.rollappId == r.rollappId && r.amount == Some(o.amount) && r.fee == Some(o.fee)
              && r.proofHeight == Some(o.proofHeight) && r.price.Some?
              && forall d: Denom :: AmountOf(o.price, d) == if d == o.fee.denom then r.price.value else 0 {
      assert CameOut(mids[k], rs[k], intakes[k], mids[|polled|]);
      ParsedPollMeans(polled[k]);
      HeapsGrow(rs, true, |polled|, orders, intakes, steps, mids, k);
      InNewPtrs(mids[0], mids[|polled|], |mids[k].heap|);
    }
  }

  lemma InNewPtrs(s: State, t: State, p: Ptr)
    requires |s.heap| <= p < |t.heap|
    ensures p in NewPtrs(s, t)
  {
    assert NewPtrs(s, t)[p - |s.heap|] == p;
  }

  lemma AnnouncedComeOut(events: seq<Announced>, update: bool, orders: seq<Ptr>, intakes: seq<Intake>,
                         steps: seq<seq<Step>>, mids: seq<State>)
    requires CameInUpTo(ParsedEvents(events), update, |events|, orders, intakes, steps, mids)
    ensures |intakes| == |events| && |mids| == |events| + 1
    ensures forall k :: 0 <= k < |events| ==>
              (intakes[k].Skipped? <==> events[k].price.None? || events[k].amount.None? || events[k].fee.None?
                                        || events[k].proofHeight.None?)
    ensures forall k :: 0 <= k < |events| && intakes[k].TakenIn? ==>
              && |mids[k].heap| in orders && |mids[k].heap| < |mids[|events|].heap|
              && var (r, o) := (events[k], mids[|events|].heap[|mids[k].heap|]);
              && o.id == r.id && o.rollappId == r.rollappId && r.amount == Some(o.amount) && r.fee == Some(o.fee)
              && r.proofHeight == Some(o.proofHeight) && r.price == Some(o.price)
  {
    hide Exec, CameIn, Committed, ParsedEvent;
    var rs := ParsedEvents(events);
    forall k | 0 <= k < |events| ensures rs[k] == ParsedEvent(events[k]) {}
    forall k | 0 <= k < |events|
      ensures ParsedEvent(events[k]).Some? <==>
                events[k].price.Some? && events[k].amount.Some? && events[k].fee.Some? && events[k].proofHeight.Some? {
      ParsedEventMeans(events[k]);
    }
    forall k | 0 <= k < |events| && intakes[k].TakenIn?
      ensures |mids[k].heap| in orders && |mids[k].heap| < |mids[|events|].heap|
      ensures var (r, o) := (events[k], mids[|events|].heap[|mids[k].heap|]);
              && o.id == r.id && o.rollappId == r.rollappId && r.amount == Some(o.amount) && r.fee == Some(o.fee)
              && r.proofHeight == Some(o.proofHeight) && r.price == Some(o.price) {
      assert CameOut(mids[k], rs[k], intakes[k], mids[|events|]);
      ParsedEventMeans(events[k]);
      HeapsGrow(rs, update, |events|, orders, intakes, steps, mids, k);
      InNewPtrs(mids[0], mids[|events|], |mids[k].heap|);
    }
  }

  /** The ids for which no LP was found. */
  function NoLpIds(rs: seq<Polled>, intakes: seq<Intake>): set<OrderId>
    requires |rs| == |intakes|
  {
    set i | 0 <= i < |rs| && intakes[i].NoLp? :: rs[i].id
  }

  /** The proof heights of a list of orders never fall. */
  ghost predicate NonDecreasing(heights: seq<int>) {
    forall i, j :: 0 <= i < j < |heights| ==> heights[i] <= heights[j]
  }

  lemma NoLpIdsMean(rs: seq<Polled>, intakes: seq<Intake>)
    requires |rs| == |intakes|
    ensures forall id :: id in NoLpIds(rs, intakes) <==> exists k :: 0 <= k < |rs| && intakes[k].NoLp? && rs[k].id == id
  {}

  lemma HeightsAscend(heap: seq<Order>, ps: seq<Ptr>)
    requires Within(ps, heap) && NonDecreasing(HeightsOf(heap, ps))
    ensures forall i, j :: 0 <= i < j < |ps| ==> heap[ps[i]].proofHeight <= heap[ps[j]].proofHeight
  {
    forall i, j | 0 <= i < j < |ps| ensures heap[ps[i]].proofHeight <= heap[ps[j]].proofHeight {
      assert HeightsOf(heap, ps)[i] <= HeightsOf(heap, ps)[j];
    }
  }

  /** The comparison `convertOrders` sorts by. */
  function Lower(heap: seq<Order>): (Ptr, Ptr) -> bool {
    (p: Ptr, q: Ptr) => HeightOf(heap, p) < HeightOf(heap, q)
  }

  lemma AscendingHeights(heap: seq<Order>, ps: seq<Ptr>)
    requires SortedBy(ps, Lower(heap))
    ensures NonDecreasing(HeightsOf(heap, ps))
  {
    forall i, j | 0 <= i < j < |ps| ensures HeightOf(heap, ps[i]) <= HeightOf(heap, ps[j]) {
      assert !Lower(heap)(ps[j], ps[i]);
    }
  }

  /** The polled orders whose block height can be read; the others are dropped. */
  function Readable(polled: seq<Polled>): seq<Polled> {
    if polled == [] then []
    else
      var n := |polled| - 1;
      Readable(polled[..n]) + if polled[n].blockHeight.Some? then [polled[n]] else []
  }

  /** `last` is the highest of the block heights seen, if any is above `before`. */
  ghost predicate HighestSeen(before: nat, polled: seq<Polled>, last: nat) {
    && before <= last
    && (forall r :: r in polled && r.blockHeight.Some? ==> r.blockHeight.value <= last)
    && (last == before || exists r :: r in polled && r.blockHeight == Some(last))
  }

  lemma {:induction false} ReadableIsPicked(polled: seq<Polled>)
    ensures Readable(polled)
         == Picked(polled, seq(|polled|, i requires 0 <= i < |polled| => polled[i].blockHeight.Some?))
  {
    if polled != [] {
      var n := |polled| - 1;
      ReadableIsPicked(polled[..n]);
      var before := seq(n, i requires 0 <= i < n => polled[..n][i].blockHeight.Some?);
      var all := seq(|polled|, i requires 0 <= i < |polled| => polled[i].blockHeight.Some?);
      PickedSnoc(polled[..n], before, polled[n], polled[n].blockHeight.Some?);
      assert all == before + [polled[n].blockHeight.Some?] && polled == polled[..n] + [polled[n]];
    }
  }

  lemma HighestMeans(before: nat, polled: seq<Polled>, last: nat)
    requires HighestSeen(before, polled, last)
    ensures before <= last && forall r :: r in polled && r.blockHeight.Some? ==> r.blockHeight.value <= last
    ensures last == before || exists r :: r in polled && r.blockHeight == Some(last)
  {}

  lemma NothingRead(before: nat)
    ensures Readable([]) == [] && HighestSeen(before, [], before)
  {}

  lemma OneMoreRead(before: nat, polled: seq<Polled>, i: nat, last: nat)
    requires i < |polled| && HighestSeen(before, polled[..i], last)
    ensures var r := polled[i];
            && Readable(polled[..i + 1]) == Readable(polled[..i]) + (if r.blockHeight.Some? then [r] else [])
            && HighestSeen(before, polled[..i + 1],
                           if r.blockHeight.Some? && r.blockHeight.value > last then r.blockHeight.value else last)
  {
    var (r, more) := (polled[i], polled[..i + 1]);
    assert more[..i] == polled[..i] && more[i] == r && r in more;
    assert more == polled[..i] + [r];
    var now := if r.blockHeight.Some? && r.blockHeight.value > last then r.blockHeight.value else last;
    if now == last && last != before {
      var x :| x in polled[..i] && x.blockHeight == Some(last);
      assert x in more;
    }
  }

  lemma SortsUp(heap: seq<Order>, found: seq<Ptr>)
    ensures var orders := SortBy(found, Lower(heap));
            multiset(orders) == multiset(found) && NonDecreasing(HeightsOf(heap, orders))
  {
    SortBySorts(found, Lower(heap));
    AscendingHeights(heap, SortBy(found, Lower(heap)));
  }

  class OrderPoller {
    const tracker: OrderTracker
    var noLpOrders: set<OrderId>
    var lastBlockHeight: nat

    constructor (tracker: OrderTracker)
      ensures this.tracker == tracker && noLpOrders == {} && lastBlockHeight == 0
    {
      this.tracker := tracker;
      noLpOrders := {};
      lastBlockHeight := 0;
    }

    /** `resetOrderPolling`: orders without an LP get another chance. */
    method Reset()
      modifies this
      ensures noLpOrders == {} && lastBlockHeight == 0
    {
      lastBlockHeight := 0;
      noLpOrders := {};
    }

    /** `convertOrders`. What it newly puts on any LP was available to that LP when it started, and the
        orders taken in come out in ascending proof height. */
    method ConvertOrders(polled: seq<Polled>)
      returns (orders: seq<Ptr>, ghost intakes: seq<Intake>, ghost steps: seq<seq<Step>>, ghost mids: seq<State>)
      requires tracker.Valid() && tracker.failed.Valid()
      modifies this`noLpOrders, tracker, tracker.pool, tracker.lps.Values, tracker.failed
      ensures tracker.Valid() && tracker.failed.Valid() && tracker.lps == old(tracker.lps)
      ensures |mids| == |polled| + 1 && mids[0] == old(tracker.Now()) && mids[|polled|] == tracker.Now()
      ensures |mids[0].heap| <= |mids[|polled|].heap|
      ensures CameInUpTo(ParsedPolls(polled), true, |polled|, NewPtrs(mids[0], mids[|polled|]), intakes, steps, mids)
      ensures |intakes| == |polled|
      ensures AllJudged(ParsedPolls(polled), intakes, tracker.cfg.supported, old(tracker.failed.events))
      ensures tracker.failed.events
           == old(tracker.failed.events) + AllSeen(ParsedPolls(polled), intakes, tracker.cfg.supported)
      ensures tracker.history == old(tracker.history) + Flatten(steps)
      ensures multiset(orders) == multiset(NewPtrs(mids[0], mids[|polled|]))
      ensures NonDecreasing(HeightsOf(tracker.pool.heap, orders))
      ensures noLpOrders == old(noLpOrders) + NoLpIds(polled, intakes)
      ensures forall id :: id in noLpOrders <==>
                id in old(noLpOrders) || exists k :: 0 <= k < |polled| && intakes[k].NoLp? && polled[k].id == id
      ensures forall k :: 0 <= k < |polled| ==>
                (intakes[k].Skipped? <==> polled[k].price.None? || polled[k].amount.None? || polled[k].fee.None?
                                          || polled[k].proofHeight.None?)
      ensures forall k :: 0 <= k < |polled| && intakes[k].TakenIn? ==>
                && |mids[k].heap| in orders && |mids[k].heap| < |tracker.pool.heap|
                && var (r, o) := (polled[k], tracker.pool.heap[|mids[k].heap|]);
                && o.id == r.id && o.rollappId == r.rollappId && r.amount == Some(o.amount) && r.fee == Some(o.fee)
                && r.proofHeight == Some(o.proofHeight) && r.price.Some?
                && forall d: Denom :: AmountOf(o.price, d) == if d == o.fee.denom then r.price.value else 0
      ensures forall i, j :: 0 <= i < j < |orders| ==>
                && orders[i] < |tracker.pool.heap| && orders[j] < |tracker.pool.heap|
                && tracker.pool.heap[orders[i]].proofHeight <= tracker.pool.heap[orders[j]].proofHeight
      ensures forall a :: a in old(tracker.Now()).lps ==>
                old(tracker.Now()).lps[a].funds.Has(TotalOn(tracker.pool.heap[|mids[0].heap|..], a))
    {
      hide *;
      tracker.HeapIsHeap();
      var found, kinds;
      found, kinds, steps, mids := TakeInAll(tracker, ParsedPolls(polled), true);
      intakes := kinds;
      CameInParts(ParsedPolls(polled), true, found, kinds, steps, mids);
      PolledComeOut(polled, found, kinds, steps, mids);
      tracker.HeapIsHeap();
      var heap := tracker.pool.heap;
      orders := SortBy(found, Lower(heap));
      SortsUp(heap, found);
      SameElements(found, orders);
      NewPtrsWithin(mids[0], mids[|polled|], orders);
      HeightsAscend(heap, orders);
      NoLpIdsMean(polled, kinds);
      noLpOrders := noLpOrders + NoLpIds(polled, kinds);
    }

    /** The first loop of `pollPendingDemandOrders`. */
    method ReadHeights(polled: seq<Polled>) returns (readable: seq<Polled>)
      modifies this`lastBlockHeight
      ensures readable == Readable(polled) && HighestSeen(old(lastBlockHeight), polled, lastBlockHeight)
      ensures readable == Picked(polled, seq(|polled|, i requires 0 <= i < |polled| => polled[i].blockHeight.Some?))
      ensures old(lastBlockHeight) <= lastBlockHeight
      ensures forall r :: r in polled && r.blockHeight.Some? ==> r.blockHeight.value <= lastBlockHeight
      ensures lastBlockHeight == old(lastBlockHeight)
              || exists r :: r in polled && r.blockHeight == Some(lastBlockHeight)
    {
      hide Readable, HighestSeen;
      readable := [];
      NothingRead(lastBlockHeight);
      for i := 0 to |polled|
        invariant readable == Readable(polled[..i])
        invariant HighestSeen(old(lastBlockHeight), polled[..i], lastBlockHeight)
      {
        var r := polled[i];
        OneMoreRead(old(lastBlockHeight), polled, i, lastBlockHeight);
        if r.blockHeight.None? {
          continue;
        }
        if r.blockHeight.value > lastBlockHeight {
          lastBlockHeight := r.blockHeight.value;
        }
        readable := readable + [r];
      }
      assert polled[..|polled|] == polled;
      ReadableIsPicked(polled);
      HighestMeans(old(lastBlockHeight), polled, lastBlockHeight);
    }

    /** `pollPendingDemandOrders`: the orders taken in are offered to the pool, the lowest proof first. */
    method PollPending(polled: seq<Polled>)
      returns (ghost orders: seq<Ptr>, ghost intakes: seq<Intake>, ghost steps: seq<seq<Step>>)
      requires tracker.Valid() && tracker.failed.Valid()
      modifies this, tracker, tracker.pool, tracker.lps.Values, tracker.failed
      ensures tracker.Valid() && tracker.failed.Valid() && tracker.lps == old(tracker.lps)
      ensures HighestSeen(old(lastBlockHeight), polled, lastBlockHeight)
      ensures |intakes| == |Readable(polled)|
      ensures AllJudged(ParsedPolls(Readable(polled)), intakes, tracker.cfg.supported, old(tracker.failed.events))
      ensures noLpOrders == old(noLpOrders) + NoLpIds(Readable(polled), intakes)
      ensures NonDecreasing(HeightsOf(tracker.pool.heap, orders))
      ensures tracker.history == old(tracker.history) + Flatten(steps) + Upserts(orders)
    {
      hide OrderTracker.Valid, FailureRecord.Valid, CameInUpTo, Committed, Funds.Has, AllJudged, AllSeen, HighestSeen;
      var readable := ReadHeights(polled);
      var found;
      ghost var mids;
      found, intakes, steps, mids := ConvertOrders(readable);
      orders := found;
      ghost var past := tracker.history;
      if |found| == 0 {
        assert past + Upserts([]) == past;
        return;
      }
      NewPtrsWithin(mids[0], mids[|readable|], found);
      TrackOrders(tracker, found);
    }
  }

  lemma NewPtrsWithin(s: State, t: State, orders: seq<Ptr>)
    requires |s.heap| <= |t.heap| && multiset(orders) == multiset(NewPtrs(s, t))
    ensures Within(orders, t.heap)
  {
    forall i | 0 <= i < |orders| ensures orders[i] < |t.heap| {
      assert orders[i] in multiset(orders);
      assert orders[i] in NewPtrs(s, t);
    }
  }

  lemma CameInParts(rs: seq<Option<Incoming>>, update: bool, orders: seq<Ptr>, intakes: seq<Intake>,
                    steps: seq<seq<Step>>, mids: seq<State>)
    requires CameInUpTo(rs, update, |rs|, orders, intakes, steps, mids)
    ensures |intakes| == |rs| && |mids| == |rs| + 1
    ensures |mids[0].heap| <= |mids[|rs|].heap| && orders == NewPtrs(mids[0], mids[|rs|])
  {}

  /** `parseOrdersFromEvents`: only the event of a changed fee updates a pooled order; the event of a
      new order takes it in again, with funds of its own. */
  method ParseOrdersFromEvents(t: OrderTracker, events: seq<Announced>, feeUpdate: bool)
    returns (orders: seq<Ptr>, ghost intakes: seq<Intake>, ghost steps: seq<seq<Step>>, ghost mids: seq<State>)
    requires t.Valid() && t.failed.Valid()
    modifies t, t.pool, t.lps.Values, t.failed
    ensures t.Valid() && t.failed.Valid() && t.lps == old(t.lps)
    ensures |mids| == |events| + 1 && mids[0] == old(t.Now()) && mids[|events|] == t.Now()
    ensures CameInUpTo(ParsedEvents(events), feeUpdate, |events|, orders, intakes, steps, mids)
    ensures AllJudged(ParsedEvents(events), intakes, t.cfg.supported, old(t.failed.events))
    ensures |intakes| <= |events| && t.failed.events
         == old(t.failed.events) + AllSeen(ParsedEvents(events), intakes, t.cfg.supported)
    ensures t.history == old(t.history) + Flatten(steps)
    ensures |intakes| == |events|
    ensures forall k :: 0 <= k < |events| ==>
              (intakes[k].Skipped? <==> events[k].price.None? || events[k].amount.None? || events[k].fee.None?
                                        || events[k].proofHeight.None?)
    ensures forall k :: 0 <= k < |events| && intakes[k].TakenIn? ==>
              && |mids[k].heap| in orders && |mids[k].heap| < |t.pool.heap|
              && var (r, o) := (events[k], t.pool.heap[|mids[k].heap|]);
              && o.id == r.id && o.rollappId == r.rollappId && r.amount == Some(o.amount) && r.fee == Some(o.fee)
              && r.proofHeight == Some(o.proofHeight) && r.price == Some(o.price)
    ensures |mids[0].heap| <= |t.pool.heap| && orders == NewPtrs(mids[0], mids[|events|])
    ensures forall a :: a in old(t.Now()).lps ==>
              old(t.Now()).lps[a].funds.Has(TotalOn(t.pool.heap[|mids[0].heap|..], a))
  {
    hide OrderTracker.Valid, FailureRecord.Valid, CameInUpTo, Funds.Has, AllJudged, AllSeen;
    var kinds;
    orders, kinds, steps, mids := TakeInAll(t, ParsedEvents(events), feeUpdate);
    intakes := kinds;
    CameInParts(ParsedEvents(events), feeUpdate, orders, kinds, steps, mids);
    AnnouncedComeOut(events, feeUpdate, orders, kinds, steps, mids);
    t.HeapIsHeap();
  }

  /** One event, from its subscription to the pool. */
  method EnqueueEventOrders(t: OrderTracker, events: seq<Announced>, feeUpdate: bool)
    returns (ghost orders: seq<Ptr>, ghost intakes: seq<Intake>, ghost steps: seq<seq<Step>>)
    requires t.Valid() && t.failed.Valid()
    modifies t, t.pool, t.lps.Values, t.failed
    ensures t.Valid() && t.failed.Valid() && t.lps == old(t.lps)
    ensures AllJudged(ParsedEvents(events), intakes, t.cfg.supported, old(t.failed.events))
    ensures t.history == old(t.history) + Flatten(steps) + Upserts(orders)
  {
    hide OrderTracker.Valid, FailureRecord.Valid, CameInUpTo, Funds.Has, AllJudged, AllSeen;
    var found;
    ghost var mids;
    found, intakes, steps, mids := ParseOrdersFromEvents(t, events, feeUpdate);
    orders := found;
    ghost var past := t.history;
    if |found| == 0 {
      assert past + Upserts([]) == past;
      return;
    }
    NewPtrsWithin(mids[0], mids[|events|], found);
    TrackOrders(t, found);
  }
}
