/** The order pool: a map from id to order, with flags on the orders it points at. */
module Pool {
  import opened SdkCoins
  import opened LpModel
  import opened Protocol

  /** Every pointer of the list points at an order. */
  predicate Within(ps: seq<Ptr>, heap: seq<Order>) {
    forall i :: 0 <= i < |ps| ==> ps[i] < |heap|
  }

  /** `addOrder` and `upsertOrder` for a list, one order after the other. */
  function AddAll(pool: map<OrderId, Ptr>, heap: seq<Order>, ps: seq<Ptr>): map<OrderId, Ptr>
    requires Within(ps, heap)
  {
    if ps == [] then pool
    else AddOne(AddAll(pool, heap, ps[..|ps| - 1]), heap, ps[|ps| - 1])
  }

  function UpsertAll(pool: map<OrderId, Ptr>, heap: seq<Order>, ps: seq<Ptr>): map<OrderId, Ptr>
    requires Within(ps, heap)
  {
    if ps == [] then pool
    else UpsertOne(UpsertAll(pool, heap, ps[..|ps| - 1]), heap, ps[|ps| - 1])
  }

  ghost predicate Keyed(pool: map<OrderId, Ptr>, heap: seq<Order>) {
    forall id :: id in pool ==> pool[id] < |heap| && heap[pool[id]].id == id
  }

  /** Every occupant of `pool` for which `stays` holds is an occupant of `after`. */
  ghost predicate Kept(pool: map<OrderId, Ptr>, after: map<OrderId, Ptr>, stays: set<OrderId>) {
    forall id :: id in pool && id in stays ==> id in after && after[id] == pool[id]
  }

  /** The ids whose entry is being checked or was sent. */
  ghost function MarkedIds(pool: map<OrderId, Ptr>, heap: seq<Order>): set<OrderId>
    requires Keyed(pool, heap)
  {
    set id | id in pool && heap[pool[id]].Flagged()
  }

  /** Adding a list moves no occupant and leaves every id of the list occupied. */
  lemma {:induction false} AddAllKeepsOccupants(pool: map<OrderId, Ptr>, heap: seq<Order>, ps: seq<Ptr>)
    requires Within(ps, heap) && Keyed(pool, heap)
    ensures Keyed(AddAll(pool, heap, ps), heap) && Kept(pool, AddAll(pool, heap, ps), pool.Keys)
    ensures forall i :: 0 <= i < |ps| ==> heap[ps[i]].id in AddAll(pool, heap, ps)
  {
    if ps != [] {
      var before := AddAll(pool, heap, ps[..|ps| - 1]);
      AddAllKeepsOccupants(pool, heap, ps[..|ps| - 1]);
      forall i | 0 <= i < |ps| - 1 ensures heap[ps[i]].id in before {
        assert ps[..|ps| - 1][i] == ps[i];
      }
    }
  }

  /** Upserting a list never displaces an order that is being checked or sent, and leaves every id
      of the list occupied. */
  lemma {:induction false} UpsertAllKeepsMarked(pool: map<OrderId, Ptr>, heap: seq<Order>, ps: seq<Ptr>)
    requires Within(ps, heap) && Keyed(pool, heap)
    ensures Keyed(UpsertAll(pool, heap, ps), heap)
    ensures Kept(pool, UpsertAll(pool, heap, ps), MarkedIds(pool, heap))
    ensures forall i :: 0 <= i < |ps| ==> heap[ps[i]].id in UpsertAll(pool, heap, ps)
  {
    if ps != [] {
      var before := UpsertAll(pool, heap, ps[..|ps| - 1]);
      UpsertAllKeepsMarked(pool, heap, ps[..|ps| - 1]);
      forall i | 0 <= i < |ps| - 1 ensures heap[ps[i]].id in before {
        assert ps[..|ps| - 1][i] == ps[i];
      }
    }
  }

  /** Adding a list leaves an id alone if it has an occupant, or the list does not have the id. */
  lemma {:induction false} AddAllSpares(pool: map<OrderId, Ptr>, heap: seq<Order>, ps: seq<Ptr>, id: OrderId)
    requires Within(ps, heap) && (id in pool || forall i :: 0 <= i < |ps| ==> heap[ps[i]].id != id)
    ensures var r := AddAll(pool, heap, ps); (id in r <==> id in pool) && (id in r ==> r[id] == pool[id])
  {
    if ps != [] {
      var n := |ps| - 1;
      assert forall i :: 0 <= i < n ==> ps[..n][i] == ps[i];
      AddAllSpares(pool, heap, ps[..n], id);
    }
  }

  /** Otherwise the id goes to the first order of the list that has it. */
  lemma {:induction false} AddAllSeats(pool: map<OrderId, Ptr>, heap: seq<Order>, ps: seq<Ptr>, i: nat)
    requires Within(ps, heap) && i < |ps| && heap[ps[i]].id !in pool
    requires forall j :: 0 <= j < i ==> heap[ps[j]].id != heap[ps[i]].id
    ensures var r := AddAll(pool, heap, ps); heap[ps[i]].id in r && r[heap[ps[i]].id] == ps[i]
  {
    var n := |ps| - 1;
    assert forall j :: 0 <= j < n ==> ps[..n][j] == ps[j];
    if i < n {
      AddAllSeats(pool, heap, ps[..n], i);
    } else {
      AddAllSpares(pool, heap, ps[..n], heap[ps[i]].id);
    }
  }

  /** Upserting a list leaves an id alone if its occupant is being checked or was sent, or if the list does
      not have the id. */
  lemma {:induction false} UpsertAllSpares(pool: map<OrderId, Ptr>, heap: seq<Order>, ps: seq<Ptr>, id: OrderId)
    requires Within(ps, heap) && Keyed(pool, heap)
    requires (id in pool && (heap[pool[id]].checking || heap[pool[id]].valid))
             || forall i :: 0 <= i < |ps| ==> heap[ps[i]].id != id
    ensures var r := UpsertAll(pool, heap, ps); (id in r <==> id in pool) && (id in r ==> r[id] == pool[id])
  {
    if ps != [] {
      var n := |ps| - 1;
      assert forall i :: 0 <= i < n ==> ps[..n][i] == ps[i];
      UpsertAllSpares(pool, heap, ps[..n], id);
    }
  }

  /** Otherwise the id goes to the last order of the list that has it, where none of these is marked. */
  lemma {:induction false} UpsertAllSeats(pool: map<OrderId, Ptr>, heap: seq<Order>, ps: seq<Ptr>, i: nat)
    requires Within(ps, heap) && i < |ps|
    requires var id := heap[ps[i]].id;
             && (id in pool ==> pool[id] < |heap| && !heap[pool[id]].checking && !heap[pool[id]].valid)
             && (forall j :: i < j < |ps| ==> heap[ps[j]].id != id)
             && forall j :: 0 <= j <= i && heap[ps[j]].id == id ==> !heap[ps[j]].checking && !heap[ps[j]].valid
    ensures var r := UpsertAll(pool, heap, ps); heap[ps[i]].id in r && r[heap[ps[i]].id] == ps[i]
  {
    hide UpsertAll;
    var n := |ps| - 1;
    WithoutLast(pool, heap, ps);
    if i < n {
      UpsertAllSeats(pool, heap, ps[..n], i);
    } else {
      OneOfList(pool, heap, ps[..n], heap[ps[i]].id);
    }
  }

  lemma WithoutLast(pool: map<OrderId, Ptr>, heap: seq<Order>, ps: seq<Ptr>)
    requires Within(ps, heap) && ps != []
    ensures var n := |ps| - 1;
            && (forall j :: 0 <= j < n ==> ps[..n][j] == ps[j])
            && UpsertAll(pool, heap, ps) == UpsertOne(UpsertAll(pool, heap, ps[..n]), heap, ps[n])
  {}

  /** An occupant is the one before, or of the list. */
  lemma {:induction false} OneOfList(pool: map<OrderId, Ptr>, heap: seq<Order>, ps: seq<Ptr>, id: OrderId)
    requires Within(ps, heap)
    ensures id in UpsertAll(pool, heap, ps) ==>
              var p := UpsertAll(pool, heap, ps)[id];
              (id in pool && p == pool[id]) || exists j :: 0 <= j < |ps| && ps[j] == p && heap[p].id == id
  {
    if ps != [] {
      var n := |ps| - 1;
      OneOfList(pool, heap, ps[..n], id);
      assert forall i :: 0 <= i < n ==> ps[..n][i] == ps[i];
      assert ps[n] in ps;
    }
  }

  /** The pool's unmarked entry for its id. */
  ghost predicate Poppable(heap: seq<Order>, pool: map<OrderId, Ptr>, p: Ptr) {
    p < |heap| && heap[p].id in pool && pool[heap[p].id] == p && !heap[p].Flagged()
  }

  ghost predicate Distinct(ps: seq<Ptr>) {
    forall i, j :: 0 <= i < j < |ps| ==> ps[i] != ps[j]
  }

  /** The heap with all orders of the list marked as being checked. */
  function MarkAll(heap: seq<Order>, ps: seq<Ptr>): (r: seq<Order>)
    ensures |r| == |heap|
  {
    if ps == [] then heap
    else
      var r := MarkAll(heap, ps[..|ps| - 1]);
      var p := ps[|ps| - 1];
      if p < |r| then r[p := r[p].(checking := true)] else r
  }

  lemma MarkOneMore(heap: seq<Order>, ps: seq<Ptr>, p: Ptr)
    requires p < |heap|
    ensures MarkAll(heap, ps + [p]) == MarkAll(heap, ps)[p := MarkAll(heap, ps)[p].(checking := true)]
  {
    assert (ps + [p])[..|ps|] == ps;
  }

  /** Exactly the listed orders are marked, and nothing else about them changes. */
  lemma {:induction false} MarkAllAt(heap: seq<Order>, ps: seq<Ptr>, p: Ptr)
    requires p < |heap|
    ensures MarkAll(heap, ps)[p] == if p in ps then heap[p].(checking := true) else heap[p]
  {
    if ps != [] {
      MarkAllAt(heap, ps[..|ps| - 1], p);
      assert ps == ps[..|ps| - 1] + [ps[|ps| - 1]];
    }
  }

  /** What a scan of the map has popped: unmarked entries whose ids are behind it, each once. */
  ghost predicate Taken(before: seq<Order>, pool: map<OrderId, Ptr>, left: set<OrderId>, popped: seq<Ptr>) {
    && Distinct(popped)
    && forall i :: 0 <= i < |popped| ==> Poppable(before, pool, popped[i]) && before[popped[i]].id !in left
  }

  /** What it has left: entries ahead are untouched, entries behind are marked. */
  ghost predicate Rest(before: seq<Order>, heap: seq<Order>, pool: map<OrderId, Ptr>, left: set<OrderId>) {
    |heap| == |before| && forall id :: id in pool ==>
      && pool[id] < |heap|
      && (id in left ==> heap[pool[id]] == before[pool[id]])
      && (id !in left ==> heap[pool[id]].Flagged())
  }

  lemma ScanStart(heap: seq<Order>, pool: map<OrderId, Ptr>)
    requires Keyed(pool, heap)
    ensures Taken(heap, pool, pool.Keys, []) && Rest(heap, heap, pool, pool.Keys) && MarkAll(heap, []) == heap
  {}

  /** Passing one entry: it stays if it is marked, and is popped otherwise. */
  lemma ScanStep(before: seq<Order>, heap: seq<Order>, pool: map<OrderId, Ptr>, left: set<OrderId>,
                 popped: seq<Ptr>, id: OrderId)
    requires Taken(before, pool, left, popped) && Rest(before, heap, pool, left) && Keyed(pool, heap)
    requires id in left && left <= pool.Keys
    ensures var o := heap[pool[id]];
            if o.Flagged() then
              Taken(before, pool, left - {id}, popped) && Rest(before, heap, pool, left - {id})
            else
              && Taken(before, pool, left - {id}, popped + [pool[id]])
              && Rest(before, heap[pool[id] := o.(checking := true)], pool, left - {id})
              && Keyed(pool, heap[pool[id] := o.(checking := true)])
  {
    TakeStep(before, heap, pool, left, popped, id);
  }

  lemma TakeStep(before: seq<Order>, heap: seq<Order>, pool: map<OrderId, Ptr>, left: set<OrderId>,
                 popped: seq<Ptr>, id: OrderId)
    requires Taken(before, pool, left, popped) && Rest(before, heap, pool, left) && Keyed(pool, heap)
    requires id in left && left <= pool.Keys
    ensures Taken(before, pool, left - {id}, popped)
    ensures !heap[pool[id]].Flagged() ==> Taken(before, pool, left - {id}, popped + [pool[id]])
  {
    assert before[pool[id]] == heap[pool[id]];
  }

  lemma ScanEnd(before: seq<Order>, heap: seq<Order>, pool: map<OrderId, Ptr>, left: set<OrderId>, popped: seq<Ptr>)
    requires Taken(before, pool, left, popped) && Rest(before, heap, pool, left)
    ensures Distinct(popped) && forall i :: 0 <= i < |popped| ==> Poppable(before, pool, popped[i])
    ensures left == {} ==> forall id :: id in pool ==> heap[pool[id]].Flagged()
  {}

  class OrderPool {
    var heap: seq<Order>
    var orders: map<OrderId, Ptr>

    constructor ()
      ensures heap == [] && orders == map[]
    {
      heap := [];
      orders := map[];
    }

    ghost predicate Valid()
      reads this
    {
      Keyed(orders, heap)
    }

    method AddOrder(order: seq<Ptr>)
      requires Valid() && Within(order, heap)
      modifies this`orders
      ensures Valid() && orders == AddAll(old(orders), heap, order)
    {
      for i := 0 to |order|
        invariant Valid() && orders == AddAll(old(orders), heap, order[..i])
      {
        assert order[..i + 1][..i] == order[..i];
        var o := order[i];
        if heap[o].id !in orders {
          orders := orders[heap[o].id := o];
        }
      }
      assert order[..|order|] == order;
    }

    method GetOrder(id: OrderId) returns (order: Option<Ptr>)
      requires Valid()
      ensures order == if id in orders then Some(orders[id]) else None
      ensures order.Some? ==> order.value < |heap| && heap[order.value].id == id
    {
      order := if id in orders then Some(orders[id]) else None;
    }

    method UpsertOrder(order: seq<Ptr>)
      requires Valid() && Within(order, heap)
      modifies this`orders
      ensures Valid() && orders == UpsertAll(old(orders), heap, order)
    {
      for i := 0 to |order|
        invariant Valid() && orders == UpsertAll(old(orders), heap, order[..i])
      {
        assert order[..i + 1][..i] == order[..i];
        var o := order[i];
        var id := heap[o].id;
        if id in orders && (heap[orders[id]].checking || heap[orders[id]].valid) {
          continue;
        }
        orders := orders[id := o];
      }
      assert order[..|order|] == order;
    }

    method RemoveOrder(id: OrderId)
      requires Valid()
      modifies this`orders
      ensures Valid() && orders == old(orders) - {id}
    {
      orders := orders - {id};
    }

    method SetValid(id: OrderId)
      requires Valid()
      modifies this`heap
      ensures Valid() && heap == MarkValid(orders, old(heap), id)
    {
      if id in orders {
        heap := heap[orders[id] := heap[orders[id]].(valid := true)];
      }
    }

    /** Takes unmarked orders in some order of the map and marks them as being checked: at most
        `limit` of them, or all when the limit is not positive. */
    method PopOrders(limit: int) returns (popped: seq<Ptr>)
      requires Valid()
      modifies this`heap
      ensures Valid() && |heap| == |old(heap)| && heap == MarkAll(old(heap), popped)
      ensures Distinct(popped)
      ensures forall i :: 0 <= i < |popped| ==> Poppable(old(heap), orders, popped[i])
      ensures limit > 0 ==> |popped| <= limit
      ensures limit <= 0 || |popped| < limit ==>
                forall id :: id in orders ==> heap[orders[id]].Flagged()
    {
      hide Taken, Rest, MarkAll;
      ghost var before := heap;
      popped := [];
      var left := orders.Keys;
      ScanStart(before, orders);
      while left != {}
        invariant left <= orders.Keys && heap == MarkAll(before, popped) && |heap| == |before|
        invariant Taken(before, orders, left, popped) && Rest(before, heap, orders, left)
        invariant Keyed(orders, heap)
        invariant limit > 0 ==> |popped| < limit
        decreases left
      {
        var id :| id in left;
        var order := orders[id];
        ScanStep(before, heap, orders, left, popped, id);
        left := left - {id};
        if heap[order].checking || heap[order].valid {
          continue;
        }
        MarkOneMore(before, popped, order);
        popped := popped + [order];
        heap := heap[order := heap[order].(checking := true)];
        if |popped| == limit {
          break;
        }
      }
      ScanEnd(before, heap, orders, left, popped);
    }
  }
}
