/** The order tracker: the object the goroutines share. Its methods are the goroutines' bodies; each
    one is shown to be a run of the protocol's steps, so what holds over all interleavings of those
    steps holds for them. */
module Tracker {
  import opened SdkCoins
  import opened LpModel
  import opened LpObject
  import opened Protocol
  import opened InFlight
  import opened LpFloor
  import opened Pool
  import opened Slices
  import opened Traces
  import opened FailedOrders

  /** `rand.Shuffle`: some permutation. */
  method Shuffle<T>(s: seq<T>) returns (r: seq<T>)
    ensures multiset(r) == multiset(s)
  {
    r := s;
    var i := |r| - 1;
    while i > 0
      invariant -1 <= i < |r| == |s| && multiset(r) == multiset(s)
    {
      var j :| 0 <= j <= i;
      SwapMultiset(r, i, j);
      r := r[i := r[j]][j := r[i]];
      i := i - 1;
    }
  }

  lemma SwapMultiset<T>(s: seq<T>, i: nat, j: nat)
    requires j <= i < |s|
    ensures multiset(s[i := s[j]][j := s[i]]) == multiset(s)
  {}

  /** `failedOrderHashes` under its own lock, with everything that ever happened to it. */
  class FailureRecord {
    var hashes: Record
    ghost var events: seq<Event>

    constructor ()
      ensures Valid() && hashes == map[] && events == []
    {
      hashes := map[];
      events := [];
    }

    ghost predicate Valid()
      reads this
    {
      hashes == History(events)
    }

    /** `canFulfillOrder`: an order is refused exactly when its rollapp is unsupported or it is still
        the one that failed. */
    method CanFulfillOrder(o: Order, supported: set<RollappId>) returns (ok: bool)
      requires Valid()
      modifies this
      ensures Valid()
      ensures events == old(events) + [Seen(o.id, o.fee, o.rollappId in supported)]
      ensures ok <==> o.rollappId in supported && !StillFailed(old(events), o.id, o.fee)
    {
      ghost var e := Seen(o.id, o.fee, o.rollappId in supported);
      RefusedExactly(events, o.id, o.fee, o.rollappId in supported);
      assert (events + [e])[..|events|] == events;
      events := events + [e];
      if o.rollappId !in supported {
        return false;
      }
      if o.id in hashes {
        if Hash(o.id, o.fee) == hashes[o.id] {
          return false;
        }
        hashes := hashes - {o.id};
      }
      return true;
    }

    /** The result loop notes a failure. The fulfiller hashed the same pair. */
    method Note(id: OrderId, hash: Hash)
      requires Valid() && hash.id == id
      modifies this
      ensures Valid() && events == old(events) + [Failure(id, hash.fee)]
    {
      ghost var e := Failure(id, hash.fee);
      assert (events + [e])[..|events|] == events;
      hashes := hashes[id := hash];
      events := events + [e];
    }
  }

  lemma SoundHasCopies(s: State)
    requires Sound(s)
    ensures Keyed(s.pool, s.heap) && |s.copies| == |s.heap|
  {}

  class OrderTracker {
    const cfg: Config
    const pool: OrderPool
    const failed: FailureRecord
    var lps: map<Addr, Lp>
    // what the protocol's observers and queues hold
    ghost var copies: seq<seq<Stage>>
    ghost var inHand: set<Ptr>
    ghost var ledger: seq<Entry>
    ghost var link: map<Ptr, nat>
    ghost var base: map<Addr, Coins>
    ghost var sent: set<OrderId>
    ghost var history: seq<Step> // every step so far

    constructor (cfg: Config)
      ensures Valid() && Now() == Init(cfg) && history == [] && fresh(pool) && lps == map[]
      ensures fresh(failed) && failed.Valid() && failed.events == []
    {
      this.cfg := cfg;
      pool := new OrderPool();
      failed := new FailureRecord();
      lps := map[];
      copies, inHand, ledger, link, base, sent, history := [], {}, [], map[], map[], {}, [];
      new;
      assert Table() == map[];
    }

    ghost function Table(): LpTable
      reads this`lps, lps.Values
    {
      map a | a in lps :: lps[a].Val()
    }

    /** The protocol state the object is in. */
    ghost function Now(): State
      reads this`lps, this`copies, this`inHand, this`ledger, this`link, this`base, this`sent, pool, lps.Values
    {
      State(cfg, pool.heap, pool.orders, Table(), copies, inHand, ledger, link, base, sent)
    }

    ghost predicate AddressKeyed()
      reads this`lps, lps.Values
    {
      forall a :: a in lps ==> lps[a].address == a
    }

    /** The steps so far have led from the initial state to this one. */
    ghost predicate Reached()
      reads this, pool, lps.Values
    {
      Exec(Init(cfg), history) == Some(Now())
    }

    /** Each LP is stored under its own address, the state is the one its history leads to, and no
        spendable balance is negative. */
    ghost predicate Valid()
      reads this, pool, lps.Values
    {
      && AddressKeyed()
      && Sound(Now())
      && Reached()
    }

    /** Steps from `s` to here are added to the history. */
    ghost method Log(s: State, steps: seq<Step>)
      requires AddressKeyed() && Sound(Now())
      requires Exec(Init(cfg), history) == Some(s) && Exec(s, steps) == Some(Now())
      modifies this`history
      ensures Valid() && Now() == old(Now()) && history == old(history) + steps
    {
      hide *;
      ExecThen(Init(cfg), history, s, steps, Now());
      Extend(history + steps);
    }

    ghost method Extend(all: seq<Step>)
      requires AddressKeyed() && Sound(Now()) && Exec(Init(cfg), all) == Some(Now())
      modifies this`history
      ensures Valid() && Now() == old(Now()) && history == all
    {
      hide Sound, AddressKeyed, Exec, Now;
      history := all;
    }

    ghost method LogStep(s: State, st: Step)
      requires AddressKeyed() && Sound(s) && Covers(s, st)
      requires Exec(Init(cfg), history) == Some(s) && Next(s, st, Now())
      modifies this`history
      ensures Valid() && Now() == old(Now()) && history == old(history) + [st]
    {
      hide Sound, AddressKeyed, Exec, Now, Enabled, Apply, Covers;
      ExecSingle(s, st, Now());
      SoundStep(s, st);
      Log(s, [st]);
    }

    lemma Past()
      requires Valid()
      ensures AddressKeyed() && Sound(Now()) && Exec(Init(cfg), history) == Some(Now())
    {}

    // -------------------------------------------------------------- choosing an LP

    /** The body of the loop in `filterLPsForOrder`. */
    static method PassesFilter(lp: Lp, o: Order) returns (ok: bool)
      requires lp.FundsNow().Solvent()
      ensures ok <==> Eligible(lp.Val(), o)
    {
      if o.rollappId !in lp.rollapps {
        return false;
      }
      var terms := lp.rollapps[o.rollappId];
      if |terms.denoms| > 0 && o.fee.denom !in terms.denoms {
        return false;
      }
      if terms.maxPrice != map[] && IsAnyGT(o.price, terms.maxPrice) {
        return false;
      }
      if !IsAllGTE(terms.spendLimit, o.price) {
        return false;
      }
      var minFee := TruncateInt(MulDec(DecFromInt(o.amount), terms.minFeePercentage));
      if o.fee.amount < minFee {
        return false;
      }
      ok := lp.HasBalance(o.price);
    }

    lemma EachSolvent()
      requires Valid()
      ensures forall a :: a in lps ==> lps[a].FundsNow().Solvent()
      ensures forall a :: a in lps ==> Table()[a] == lps[a].Val()
    {
      forall a | a in lps ensures lps[a].FundsNow().Solvent() {
        assert Now().lps[a].funds.Solvent();
      }
    }

    /** The eligible LPs among those looked at, each once. */
    ghost predicate Found(found: seq<Addr>, left: set<Addr>, o: Order)
      reads this`lps, lps.Values
    {
      && (forall a :: a in found <==> a in lps && a !in left && Eligible(lps[a].Val(), o))
      && forall i, j :: 0 <= i < j < |found| ==> found[i] != found[j]
    }

    lemma LookedAt(found: seq<Addr>, left: set<Addr>, a: Addr, o: Order)
      requires Found(found, left, o) && a in left && a in lps
      ensures Found(if Eligible(lps[a].Val(), o) then found + [a] else found, left - {a}, o)
    {
      hide Eligible, Lp.Val;
    }

    /** `filterLPsForOrder`: exactly the LPs that meet all six criteria, each once. */
    method FilterLpsForOrder(o: Order) returns (found: seq<Addr>)
      requires Valid()
      ensures forall a :: a in found <==> a in lps && Eligible(lps[a].Val(), o)
      ensures forall i, j :: 0 <= i < j < |found| ==> found[i] != found[j]
    {
      hide Eligible, Valid, Table, Funds.Solvent, Lp.Val, Found;
      EachSolvent();
      found := [];
      var left := lps.Keys;
      NothingFound(o);
      while left != {}
        invariant left <= lps.Keys && Found(found, left, o)
        decreases left
      {
        var a :| a in left;
        LookedAt(found, left, a, o);
        left := left - {a};
        var ok := PassesFilter(lps[a], o);
        if ok {
          found := found + [a];
        }
      }
      AllFound(found, o);
    }

    lemma NothingFound(o: Order)
      ensures Found([], lps.Keys, o)
    {}

    lemma AllFound(found: seq<Addr>, o: Order)
      requires Found(found, {}, o)
      ensures forall a :: a in found <==> a in lps && Eligible(lps[a].Val(), o)
      ensures forall i, j :: 0 <= i < j < |found| ==> found[i] != found[j]
    {
      hide Eligible;
    }

    /** `selectBestLP`: after the sort, the first. */
    method SelectBestLp(found: seq<Addr>, rollappId: RollappId) returns (best: Addr)
      requires found != []
      requires forall a :: a in found ==> a in lps && rollappId in lps[a].rollapps
      ensures best in found
      ensures forall a :: a in found ==>
                var (chosen, other) := (lps[best].rollapps[rollappId], lps[a].rollapps[rollappId]);
                && !Better(other, chosen)
                && (chosen.settlementValidated ==> other.settlementValidated)
                && (chosen.settlementValidated == other.settlementValidated ==>
                      chosen.operatorFeeShare >= other.operatorFeeShare)
    {
      var terms := map a | a in found :: lps[a].rollapps[rollappId];
      var less := (a: Addr, b: Addr) =>
        if a in terms && b in terms then Better(terms[a], terms[b]) else a in terms && b !in terms;
      assert StrictWeakOrder(less) by {
        forall a, b, c ensures !less(a, b) && !less(b, c) ==> !less(a, c) {
          if a in terms && b in terms && c in terms {
            BetterIsStrictWeakOrder(terms[a], terms[b], terms[c]);
          }
        }
      }
      var sorted := SortBy(found, less);
      SortBySorts(found, less);
      assert multiset(sorted) == multiset(found) && |sorted| == |multiset(sorted)|;
      best := sorted[0];
      assert best in multiset(found);
      forall a | a in found ensures !Better(terms[a], terms[best]) {
        assert a in multiset(sorted);
        var i :| 0 <= i < |sorted| && sorted[i] == a;
        BetterIsStrictWeakOrder(terms[a], terms[a], terms[a]);
        assert i > 0 ==> !less(sorted[i], sorted[0]);
      }
    }

    /** The choice in `findLPForOrder`: only among the LPs that pass the filter; the order's own LP if it is
        one of them, else a best one under any shuffle, else none. */
    method ChooseLp(o: Order) returns (choice: Option<Addr>, kept: bool)
      requires Valid()
      ensures choice == None <==> forall a :: a in lps ==> !Eligible(lps[a].Val(), o)
      ensures choice.Some? ==> choice.value in lps && Eligible(lps[choice.value].Val(), o)
      ensures choice.Some? ==>
                (kept <==> o.lpAddress != "" && o.lpAddress in lps && Eligible(lps[o.lpAddress].Val(), o))
      ensures choice.Some? && kept ==> choice.value == o.lpAddress
      ensures choice.Some? && !kept ==>
                forall b :: b in lps && Eligible(lps[b].Val(), o) ==>
                  && o.rollappId in lps[b].rollapps && o.rollappId in lps[choice.value].rollapps
                  && var (best, other) := (lps[choice.value].rollapps[o.rollappId], lps[b].rollapps[o.rollappId]);
                  && (best.settlementValidated ==> other.settlementValidated)
                  && (best.settlementValidated == other.settlementValidated ==>
                        best.operatorFeeShare >= other.operatorFeeShare)
      ensures choice.Some? ==> (kept <==> Keeps(Table(), o))
      ensures choice.Some? && !kept ==> BestChoice(Table(), o, choice.value)
      ensures choice.Some? ==> o.rollappId in lps[choice.value].rollapps
    {
      hide Valid, Eligible, Funds.Solvent, Table, Keeps, BestChoice, Better, Lp.Val, Lp.FundsNow;
      var found := FilterLpsForOrder(o);
      EligibleHaveTerms(found, o);
      if found == [] {
        forall a | a in lps ensures !Eligible(lps[a].Val(), o) {
          assert a !in found;
        }
        return None, false;
      }
      assert found[0] in found;
      KeptMeans(o);
      if o.lpAddress != "" && o.lpAddress in found {
        return Some(o.lpAddress), true;
      }
      var best := SelectShuffled(found, o.rollappId);
      NoneIsBetter(found, o, best);
      choice, kept := Some(best), false;
    }

    /** Shuffled first, so that none of several best LPs is always the one. */
    method SelectShuffled(found: seq<Addr>, rollappId: RollappId) returns (best: Addr)
      requires found != []
      requires forall a :: a in found ==> a in lps && rollappId in lps[a].rollapps
      ensures best in found
      ensures forall a :: a in found ==>
                var (chosen, other) := (lps[best].rollapps[rollappId], lps[a].rollapps[rollappId]);
                && !Better(other, chosen)
                && (chosen.settlementValidated ==> other.settlementValidated)
                && (chosen.settlementValidated == other.settlementValidated ==>
                      chosen.operatorFeeShare >= other.operatorFeeShare)
    {
      hide Better;
      var shuffled := Shuffle(found);
      SameMembers(found, shuffled);
      best := SelectBestLp(shuffled, rollappId);
    }

    lemma TableIsVals()
      ensures Table().Keys == lps.Keys && forall a :: a in lps ==> Table()[a] == lps[a].Val()
    {}

    lemma KeptMeans(o: Order)
      requires Valid()
      ensures Keeps(Table(), o) <==>
                o.lpAddress != "" && o.lpAddress in lps && Eligible(lps[o.lpAddress].Val(), o)
    {
      EachSolvent();
      hide Valid, Eligible;
    }

    lemma KeptHasLp(o: Order)
      ensures Keeps(Table(), o) ==> o.lpAddress != ""
    {}

    lemma NoneIsBetter(found: seq<Addr>, o: Order, best: Addr)
      requires Valid() && best in found
      requires forall a :: a in found <==> a in lps && Eligible(lps[a].Val(), o)
      requires forall a :: a in found ==> o.rollappId in lps[a].rollapps
      requires forall a :: a in found ==> !Better(lps[a].rollapps[o.rollappId], lps[best].rollapps[o.rollappId])
      ensures BestChoice(Table(), o, best)
    {
      EachSolvent();
      hide Valid, Eligible, Better;
    }

    lemma EligibleHaveTerms(found: seq<Addr>, o: Order)
      requires forall a :: a in found <==> a in lps && Eligible(lps[a].Val(), o)
      ensures forall a :: a in found ==> a in lps && o.rollappId in lps[a].rollapps
    {}

    static lemma SameMembers(found: seq<Addr>, shuffled: seq<Addr>)
      requires multiset(shuffled) == multiset(found)
      ensures |shuffled| == |found| && forall a :: a in shuffled <==> a in found
    {
      assert forall a :: a in shuffled <==> a in multiset(shuffled);
      assert forall a :: a in found <==> a in multiset(found);
      assert |shuffled| == |multiset(shuffled)| == |multiset(found)| == |found|;
    }

    // -------------------------------------------------------------- one step each

    /** LPs under different addresses are different objects. */
    lemma OwnObject(a: Addr)
      requires a in lps && AddressKeyed()
      ensures forall b :: b in lps && b != a ==> lps[b] != lps[a]
    {
      forall b | b in lps && b != a ensures lps[b] != lps[a] {
        assert lps[b].address != lps[a].address;
      }
    }

    static lemma OneEntryChanged(before: LpTable, after: LpTable, a: Addr, f: Funds)
      requires after.Keys == before.Keys && a in before && after[a] == before[a].(funds := f)
      requires forall b :: b in before && b != a ==> after[b] == before[b]
      ensures after == SetFunds(before, a, f)
    {}

    method ReserveAt(a: Addr, amount: Coins)
      requires a in lps && AddressKeyed()
      modifies lps.Values
      ensures lps == old(lps) && AddressKeyed()
      ensures Table() == SetFunds(old(Table()), a, old(Table())[a].funds.Reserve(amount))
      ensures Table() == old(Table())[a := old(lps[a].Val()).(funds :=
                           Funds(old(lps[a].balance), Add(old(lps[a].reservedFunds), amount)))]
    {
      OwnObject(a);
      lps[a].ReserveFunds(amount);
      OneEntryChanged(old(Table()), Table(), a, old(lps[a].FundsNow()).Reserve(amount));
    }

    method ReleaseAt(a: Addr, amount: Coins)
      requires a in lps && AddressKeyed()
      modifies lps.Values
      ensures lps == old(lps) && AddressKeyed()
      ensures Table() == SetFunds(old(Table()), a, old(Table())[a].funds.Release(amount))
      ensures Table() == old(Table())[a := old(lps[a].Val()).(funds := Funds(
                           old(lps[a].balance), SubOrEmpty(old(lps[a].reservedFunds), amount)))]
    {
      OwnObject(a);
      lps[a].ReleaseFunds(amount);
      OneEntryChanged(old(Table()), Table(), a, old(lps[a].FundsNow()).Release(amount));
    }

    method DebitAt(a: Addr, amount: Coins)
      requires a in lps && AddressKeyed()
      modifies lps.Values
      ensures lps == old(lps) && AddressKeyed()
      ensures Table() == SetFunds(old(Table()), a, old(Table())[a].funds.Debit(amount))
      ensures Table() == old(Table())[a := old(lps[a].Val()).(funds := Funds(
                           SubOrEmpty(old(lps[a].balance), amount), SubOrEmpty(old(lps[a].reservedFunds), amount)))]
    {
      OwnObject(a);
      lps[a].DebitReservedFunds(amount);
      OneEntryChanged(old(Table()), Table(), a, old(lps[a].FundsNow()).Debit(amount));
    }

    ghost method Place(places: seq<seq<Stage>>, ids: set<OrderId>)
      modifies this`copies, this`sent
      ensures copies == places && sent == ids
      ensures Table() == old(Table()) && AddressKeyed() == old(AddressKeyed())
    {
      copies, sent := places, ids;
    }

    ghost method Enter(places: seq<seq<Stage>>, hands: set<Ptr>)
      modifies this`copies, this`inHand
      ensures copies == places && inHand == hands
      ensures Table() == old(Table()) && AddressKeyed() == old(AddressKeyed())
    {
      copies, inHand := places, hands;
    }

    /** The orders change; the LPs do not. */
    method Rewrite(heap: seq<Order>)
      modifies pool`heap
      ensures pool.heap == heap
      ensures Table() == old(Table()) && AddressKeyed() == old(AddressKeyed())
    {
      pool.heap := heap;
    }

    /** An id leaves the pool. */
    method Drop(id: OrderId)
      requires pool.Valid()
      modifies pool`orders, this`sent
      ensures pool.orders == old(pool.orders) - {id} && sent == old(sent) - {id}
      ensures Table() == old(Table()) && AddressKeyed() == old(AddressKeyed())
    {
      pool.RemoveOrder(id);
      sent := sent - {id};
    }

    method AddBackOrders(ps: seq<Ptr>)
      requires pool.Valid() && Within(ps, pool.heap)
      modifies pool`orders
      ensures pool.orders == AddAll(old(pool.orders), pool.heap, ps)
      ensures Table() == old(Table()) && AddressKeyed() == old(AddressKeyed())
    {
      pool.AddOrder(ps);
    }

    method UpsertOrders(ps: seq<Ptr>)
      requires pool.Valid() && Within(ps, pool.heap)
      modifies pool`orders
      ensures pool.orders == UpsertAll(old(pool.orders), pool.heap, ps)
      ensures Table() == old(Table()) && AddressKeyed() == old(AddressKeyed())
    {
      pool.UpsertOrder(ps);
    }

    method PopOrders(limit: int) returns (popped: seq<Ptr>)
      requires Valid()
      modifies this`copies, this`sent, this`history, pool`heap
      ensures Valid() && Exec(old(Now()), Pops(popped)) == Some(Now())
      ensures history == old(history) + Pops(popped)
      ensures Distinct(popped) && (limit > 0 ==> |popped| <= limit)
      ensures forall i :: 0 <= i < |popped| ==> At(Now(), popped[i], Checking)
      ensures pool.orders == old(pool.orders) && |pool.heap| == |old(pool.heap)|
      ensures forall i :: 0 <= i < |popped| ==>
                && popped[i] < |pool.heap| && !old(pool.heap)[popped[i]].checking && !old(pool.heap)[popped[i]].valid
                && pool.heap[popped[i]].id in pool.orders && pool.orders[pool.heap[popped[i]].id] == popped[i]
      ensures forall q :: 0 <= q < |pool.heap| ==>
                pool.heap[q] == if q in popped then old(pool.heap)[q].(checking := true) else old(pool.heap)[q]
    {
      hide Sound, Exec, MarkAll, Checked, AddressKeyed;
      ghost var s := Now();
      SoundHasCopies(s);
      popped := MarkPopped(limit);
      PopRun(s, popped);
      SoundRun(s, Pops(popped));
      Place(Checked(copies, popped), sent);
      Log(s, Pops(popped));
      forall i | 0 <= i < |popped| ensures At(Now(), popped[i], Checking) {
        assert Poppable(s.heap, s.pool, popped[i]);
        CheckedAt(s.copies, popped, popped[i]);
      }
      MarksExactly(s.heap, s.pool, popped);
    }

    static lemma MarksExactly(heap: seq<Order>, pool: map<OrderId, Ptr>, ps: seq<Ptr>)
      requires forall i :: 0 <= i < |ps| ==> Poppable(heap, pool, ps[i])
      ensures forall q :: 0 <= q < |heap| ==>
                MarkAll(heap, ps)[q] == if q in ps then heap[q].(checking := true) else heap[q]
      ensures forall i :: 0 <= i < |ps| ==>
                && ps[i] < |heap| && !heap[ps[i]].checking && !heap[ps[i]].valid
                && heap[ps[i]].id in pool && pool[heap[ps[i]].id] == ps[i] && ps[i] in ps
                && MarkAll(heap, ps)[ps[i]].id == heap[ps[i]].id
    {
      hide MarkAll;
      forall q: Ptr | q < |heap|
        ensures MarkAll(heap, ps)[q] == if q in ps then heap[q].(checking := true) else heap[q] {
        MarkAllAt(heap, ps, q);
      }
    }

    method MarkPopped(limit: int) returns (popped: seq<Ptr>)
      requires pool.Valid()
      modifies pool`heap
      ensures Table() == old(Table()) && AddressKeyed() == old(AddressKeyed())
      ensures |pool.heap| == |old(pool.heap)| && pool.heap == MarkAll(old(pool.heap), popped)
      ensures Distinct(popped) && (limit > 0 ==> |popped| <= limit)
      ensures forall i :: 0 <= i < |popped| ==> Poppable(old(pool.heap), pool.orders, popped[i])
    {
      popped := pool.PopOrders(limit);
    }

    /** The pool's entry for an id, if any, is marked valid. */
    method Approve(id: OrderId)
      requires pool.Valid()
      modifies pool`heap
      ensures pool.heap == MarkValid(pool.orders, old(pool.heap), id)
      ensures Table() == old(Table()) && AddressKeyed() == old(AddressKeyed())
    {
      pool.SetValid(id);
    }

    ghost method Record(entries: seq<Entry>, links: map<Ptr, nat>)
      modifies this`ledger, this`link
      ensures ledger == entries && link == links
      ensures Table() == old(Table()) && AddressKeyed() == old(AddressKeyed())
    {
      ledger, link := entries, links;
    }

    /** Funds are reserved on an LP for an order. */
    method ReserveOn(a: Addr, ghost p: Ptr, amount: Coins)
      requires a in lps && AddressKeyed()
      modifies lps.Values, this`ledger, this`link
      ensures lps == old(lps) && AddressKeyed()
      ensures Now() == Reserved(old(Now()), p, a, amount)
      ensures Table() == old(Table())[a := old(lps[a].Val()).(funds :=
                           Funds(old(lps[a].balance), Add(old(lps[a].reservedFunds), amount)))]
    {
      hide Funds.Reserve, AddressKeyed;
      ReserveAt(a, amount);
      Record(ledger + [Entry(a, amount, Open)], link[p := |ledger|]);
    }

    /** The body of the loop in `releaseAllReservedOrdersFunds`. */
    method ReleaseFor(p: Ptr)
      requires p < |pool.heap| && AddressKeyed()
      modifies lps.Values, this`ledger, this`link
      ensures lps == old(lps) && AddressKeyed()
      ensures Now() == ReleaseOrder(old(Now()), p)
      ensures var (o, a) := (pool.heap[p], pool.heap[p].lpAddress);
              Table() == if a !in lps then old(Table())
                         else old(Table())[a := old(lps[a].Val()).(funds := Funds(
                                old(lps[a].balance), SubOrEmpty(old(lps[a].reservedFunds), o.price)))]
    {
      hide Funds.Release, AddressKeyed, SubOrEmpty;
      var order := pool.heap[p];
      ghost var after := Closed(Now(), p, Released);
      if order.lpAddress in lps {
        ReleaseAt(order.lpAddress, order.price);
      }
      Record(after.ledger, after.link);
    }

    /** The body of the loop in `debitAllReservedOrdersFunds`. */
    method DebitFor(p: Ptr)
      requires p < |pool.heap| && AddressKeyed()
      modifies lps.Values, this`ledger, this`link
      ensures lps == old(lps) && AddressKeyed()
      ensures Now() == DebitOrder(old(Now()), p)
      ensures var (o, a) := (pool.heap[p], pool.heap[p].lpAddress);
              Table() == if a !in lps then old(Table())
                         else old(Table())[a := old(lps[a].Val()).(funds := Funds(
                                SubOrEmpty(old(lps[a].balance), o.price),
                                SubOrEmpty(old(lps[a].reservedFunds), o.price)))]
    {
      hide Funds.Debit, AddressKeyed, SubOrEmpty;
      var order := pool.heap[p];
      ghost var after := Closed(Now(), p, Debited);
      if order.lpAddress in lps {
        DebitAt(order.lpAddress, order.price);
      }
      Record(after.ledger, after.link);
    }

    lemma HeapIsHeap()
      ensures Now().heap == pool.heap && Now().pool == pool.orders && Now().lps == Table() && Now().inHand == inHand
    {}

    lemma TableKeys()
      ensures Table().Keys == lps.Keys
    {}

    lemma TermsInTable(a: Addr)
      requires a in lps
      ensures a in Table() && Table()[a].rollapps == lps[a].rollapps
    {}

    /** LP `a` takes a new order. */
    method Admit(o: Order, a: Addr)
      requires a in lps && o.rollappId in lps[a].rollapps && AddressKeyed()
      modifies this`copies, this`inHand, this`ledger, this`link, pool, lps.Values
      ensures lps == old(lps) && AddressKeyed()
      ensures a in old(Now()).lps && o.rollappId in old(Now()).lps[a].rollapps
      ensures Now() == Accepted(old(Now()), o, a)
      ensures pool.orders == old(pool.orders)
      ensures pool.heap == old(pool.heap) + [o.(lpAddress := a,
                settlementValidated := lps[a].rollapps[o.rollappId].settlementValidated,
                operatorFeePart := lps[a].rollapps[o.rollappId].operatorFeeShare)]
      ensures Table() == old(Table())[a := old(lps[a].Val()).(funds :=
                           Funds(old(lps[a].balance), Add(old(lps[a].reservedFunds), o.price)))]
    {
      hide Reserved, Accepted, AddressKeyed, Table, Lp.Val, Lp.FundsNow;
      TermsInTable(a);
      AcceptedParts(Now(), o, a);
      var terms := lps[a].rollapps[o.rollappId];
      ReserveOn(a, |pool.heap|, o.price);
      AppendOrder(o.(lpAddress := a, settlementValidated := terms.settlementValidated,
                     operatorFeePart := terms.operatorFeeShare));
    }

    /** The order joins the heap, in hand and without a copy. */
    method AppendOrder(o: Order)
      modifies this`copies, this`inHand, pool
      ensures Now() == old(Now()).(heap := old(pool.heap) + [o], copies := old(copies) + [[]],
                                   inHand := old(inHand) + {|old(pool.heap)|})
      ensures pool.heap == old(pool.heap) + [o] && pool.orders == old(pool.orders)
      ensures AddressKeyed() == old(AddressKeyed()) && Table() == old(Table())
    {
      hide AddressKeyed, Table;
      Rewrite(pool.heap + [o]);
      Enter(copies + [[]], inHand + {|pool.heap| - 1});
    }

    /** `findLPForOrder` for an order just read from the chain: on success the order exists as it came in,
        with its price reserved on an eligible LP and the terms of that LP. */
    method FindLpForNew(o: Order) returns (found: Option<Ptr>, ghost st: Step)
      requires Valid() && !o.Flagged() && o.lpAddress == ""
      modifies this, pool, lps.Values
      ensures Valid() && lps == old(lps)
      ensures found == None ==> Now() == old(Now()) && history == old(history)
      ensures found == None <==> forall a :: a in old(lps) ==> !Eligible(old(lps[a].Val()), o)
      ensures pool.orders == old(pool.orders)
      ensures found.Some? ==> (
                && found.value == |old(pool.heap)| && st.Accept? && st.order == o
                && Next(old(Now()), st, Now()) && history == old(history) + [st])
      ensures found.Some? ==> (
                var a := st.lp;
                && a in lps && Eligible(old(lps[a].Val()), o) && o.rollappId in lps[a].rollapps
                && pool.heap == old(pool.heap) + [o.(lpAddress := a,
                     settlementValidated := lps[a].rollapps[o.rollappId].settlementValidated,
                     operatorFeePart := lps[a].rollapps[o.rollappId].operatorFeeShare)]
                && Table() == old(Table())[a := old(lps[a].Val()).(funds :=
                     Funds(old(lps[a].balance), Add(old(lps[a].reservedFunds), o.price)))])
    {
      hide Sound, BestChoice, Keeps, Eligible, Enabled, Apply, Accepted, Exec, Valid, AddressKeyed, Covers, Table,
           Lp.Val, Lp.FundsNow;
      ghost var s := Now();
      Past();
      var choice, _ := ChooseLp(o);
      if choice == None {
        return None, Upsert(0);
      }
      found := Some(|pool.heap|);
      st := Accept(o, choice.value);
      KeptHasLp(o);
      AcceptIs(s, o, choice.value);
      Admit(o, choice.value);
      LogStep(s, st);
    }

    /** LP `a` takes an order of the pool; the order's old LP is not touched. */
    method Reassign(p: Ptr, a: Addr)
      requires p < |pool.heap| && a in lps && pool.heap[p].rollappId in lps[a].rollapps && AddressKeyed()
      modifies this`ledger, this`link, pool, lps.Values
      ensures lps == old(lps) && AddressKeyed()
      ensures a in old(Now()).lps && old(pool.heap[p]).rollappId in old(Now()).lps[a].rollapps
      ensures p < |old(Now()).heap| && Now() == Reselected(old(Now()), p, a)
      ensures pool.orders == old(pool.orders)
      ensures pool.heap == old(pool.heap)[p := old(pool.heap[p]).(lpAddress := a,
                settlementValidated := lps[a].rollapps[old(pool.heap[p]).rollappId].settlementValidated,
                operatorFeePart := lps[a].rollapps[old(pool.heap[p]).rollappId].operatorFeeShare)]
      ensures Table() == old(Table())[a := old(lps[a].Val()).(funds :=
                           Funds(old(lps[a].balance), Add(old(lps[a].reservedFunds), old(pool.heap[p]).price)))]
    {
      hide Reserved, AddressKeyed, Table;
      TermsInTable(a);
      var o := pool.heap[p];
      var terms := lps[a].rollapps[o.rollappId];
      ReserveOn(a, p, o.price);
      Rewrite(pool.heap[p := o.(lpAddress := a, settlementValidated := terms.settlementValidated,
                                operatorFeePart := terms.operatorFeeShare)]);
    }

    /** The order keeps its LP: only the settlement flag is read again. */
    method Reread(p: Ptr, a: Addr)
      requires p < |pool.heap| && a == pool.heap[p].lpAddress
      requires a in lps && pool.heap[p].rollappId in lps[a].rollapps && AddressKeyed()
      modifies pool
      ensures AddressKeyed() && Table() == old(Table()) && pool.orders == old(pool.orders)
      ensures pool.heap == old(pool.heap)[p := old(pool.heap[p]).(settlementValidated :=
                             lps[a].rollapps[old(pool.heap[p]).rollappId].settlementValidated)]
      ensures a in old(Now()).lps && p < |old(Now()).heap|
      ensures Now() == old(Now()).(heap := old(pool.heap)[p := LpModel.Refreshed(old(pool.heap)[p], old(Table()))])
    {
      hide AddressKeyed;
      var terms := lps[a].rollapps[pool.heap[p].rollappId];
      Rewrite(pool.heap[p := pool.heap[p].(settlementValidated := terms.settlementValidated)]);
    }

    method KeepLp(p: Ptr) returns (ghost st: Step)
      requires Valid() && At(Now(), p, Checking) && Keeps(Table(), pool.heap[p])
      requires pool.heap[p].lpAddress in lps
      requires pool.heap[p].rollappId in lps[pool.heap[p].lpAddress].rollapps
      modifies this, pool, lps.Values
      ensures Valid() && lps == old(lps) && copies == old(copies) && |pool.heap| == |old(pool.heap)|
      ensures inHand == old(inHand) && history == old(history) + [st]
      ensures st == Step.Keep(p) && Next(old(Now()), st, Now())
      ensures Table() == old(Table()) && pool.orders == old(pool.orders)
      ensures pool.heap == old(pool.heap)[p := old(pool.heap[p]).(settlementValidated :=
                lps[old(pool.heap[p]).lpAddress].rollapps[old(pool.heap[p]).rollappId].settlementValidated)]
    {
      hide Sound, Keeps, Exec, Enabled, Apply, Valid, AddressKeyed, Covers, Table;
      st := Step.Keep(p);
      ghost var s := Now();
      Past();
      TermsInTable(pool.heap[p].lpAddress);
      KeepIs(s, p);
      Reread(p, pool.heap[p].lpAddress);
      LogStep(s, st);
    }

    method TakeLp(p: Ptr, a: Addr) returns (ghost st: Step)
      requires Valid() && At(Now(), p, Checking)
      requires !Keeps(Table(), pool.heap[p]) && BestChoice(Table(), pool.heap[p], a)
      requires a in lps && pool.heap[p].rollappId in lps[a].rollapps
      modifies this, pool, lps.Values
      ensures Valid() && lps == old(lps) && copies == old(copies) && |pool.heap| == |old(pool.heap)|
      ensures inHand == old(inHand) && history == old(history) + [st]
      ensures st == Step.Reselect(p, a) && pool.heap[p].lpAddress == a && Next(old(Now()), st, Now())
      ensures pool.orders == old(pool.orders)
      ensures pool.heap == old(pool.heap)[p := old(pool.heap[p]).(lpAddress := a,
                settlementValidated := lps[a].rollapps[old(pool.heap[p]).rollappId].settlementValidated,
                operatorFeePart := lps[a].rollapps[old(pool.heap[p]).rollappId].operatorFeeShare)]
      ensures Table() == old(Table())[a := old(lps[a].Val()).(funds :=
                           Funds(old(lps[a].balance), Add(old(lps[a].reservedFunds), old(pool.heap[p]).price)))]
    {
      hide Sound, Keeps, BestChoice, Exec, Enabled, Apply, Valid, AddressKeyed, Covers, Reselected, Table, Lp.Val;
      st := Step.Reselect(p, a);
      ghost var s := Now();
      Past();
      ReselectIs(s, p, a);
      Reassign(p, a);
      LogStep(s, st);
    }

    /** `findLPForOrder` for an order under check, as `orderFulfillable` asks it: false exactly when no LP is
        eligible; the order's own LP, if it is eligible, is kept and nothing reserved; otherwise the order
        moves to an eligible LP, which reserves its price. */
    method FindLpForPooled(p: Ptr) returns (ok: bool, ghost st: Step)
      requires Valid() && At(Now(), p, Checking)
      modifies this, pool, lps.Values
      ensures Valid() && lps == old(lps) && copies == old(copies) && inHand == old(inHand)
      ensures |pool.heap| == |old(pool.heap)| && pool.orders == old(pool.orders)
      ensures history == old(history) + if ok then [st] else []
      ensures ok <==> exists a :: a in old(lps) && Eligible(old(lps[a].Val()), old(pool.heap[p]))
      ensures !ok ==> Now() == old(Now()) && forall a :: a in lps ==> lps[a].FundsNow() == old(lps[a].FundsNow())
      ensures ok ==> Next(old(Now()), st, Now()) && At(Now(), p, Checking)
      ensures ok ==>
                var (o, own) := (old(pool.heap[p]), old(pool.heap[p]).lpAddress);
                if own != "" && own in old(lps) && Eligible(old(lps[own].Val()), o) then
                  && st == Step.Keep(p) && Table() == old(Table()) && o.rollappId in lps[own].rollapps
                  && pool.heap == old(pool.heap)[p := o.(settlementValidated :=
                       lps[own].rollapps[o.rollappId].settlementValidated)]
                else
                  && st.Reselect? && st.p == p && st.lp in old(lps) && Eligible(old(lps[st.lp].Val()), o)
                  && o.rollappId in lps[st.lp].rollapps
                  && pool.heap == old(pool.heap)[p := o.(lpAddress := st.lp,
                       settlementValidated := lps[st.lp].rollapps[o.rollappId].settlementValidated,
                       operatorFeePart := lps[st.lp].rollapps[o.rollappId].operatorFeeShare)]
                  && Table() == old(Table())[st.lp := old(lps[st.lp].Val()).(funds :=
                       Funds(old(lps[st.lp].balance), Add(old(lps[st.lp].reservedFunds), o.price)))]
    {
      hide Sound, Keeps, BestChoice, Eligible, Enabled, Apply, AddressKeyed, Table, Reached;
      var choice, kept := ChooseLp(pool.heap[p]);
      if choice == None {
        return false, Upsert(0);
      }
      if kept {
        st := KeepLp(p);
      } else {
        st := TakeLp(p, choice.value);
      }
      ok := true;
    }

    // -------------------------------------------------------------- the LP table

    method DeleteLp(a: Addr)
      requires AddressKeyed()
      modifies this`lps
      ensures AddressKeyed() && lps == old(lps) - {a} && Table() == old(Table()) - {a}
    {
      lps := lps - {a};
    }

    method PutLp(lp: Lp)
      requires AddressKeyed()
      modifies this`lps
      ensures AddressKeyed() && lps == old(lps)[lp.address := lp]
      ensures Table() == old(Table())[lp.address := lp.Val()]
    {
      lps := lps[lp.address := lp];
    }

    ghost method Rebase(totals: map<Addr, Coins>)
      modifies this`base
      ensures base == totals && Table() == old(Table()) && AddressKeyed() == old(AddressKeyed())
    {
      base := totals;
    }

    method Revoke(a: Addr)
      requires Valid() && a in lps
      modifies this`lps, this`history
      ensures Valid() && lps == old(lps) - {a} && Next(old(Now()), Step.Revoke(a), Now())
      ensures history == old(history) + [Step.Revoke(a)]
    {
      hide Sound, AddressKeyed, Table, Exec, Enabled, Apply, Valid, Covers;
      ghost var s := Now();
      Past();
      TermsInTable(a);
      RevokeIs(s, a);
      DeleteLp(a);
      LogStep(s, Step.Revoke(a));
    }

    method Install(lp: Lp)
      requires Valid() && lp.reservedFunds == map[] && Granted(cfg, lp.Val())
      modifies this`lps, this`base, this`history
      ensures Valid() && lps == old(lps)[lp.address := lp] && Next(old(Now()), Step.Install(lp.Val()), Now())
      ensures history == old(history) + [Step.Install(lp.Val())]
    {
      hide Sound, Granted, AddressKeyed, Table, Spent, Exec, Enabled, Apply, Valid, Covers;
      ghost var s := Now();
      Past();
      InstallIs(s, lp.Val());
      PutLp(lp);
      Rebase(base[lp.address := Add(lp.balance, Spent(ledger, lp.address))]);
      LogStep(s, Step.Install(lp.Val()));
    }

    method WriteBalanceAt(a: Addr, b: Coins)
      requires a in lps && AddressKeyed()
      modifies lps.Values
      ensures lps == old(lps) && AddressKeyed()
      ensures Table() == SetFunds(old(Table()), a, old(Table())[a].funds.(balance := b))
    {
      OwnObject(a);
      lps[a].SetBalance(b);
      OneEntryChanged(old(Table()), Table(), a, old(lps[a].FundsNow()).(balance := b));
    }

    method SetBalanceAt(a: Addr, b: Coins)
      requires a in lps && AddressKeyed()
      modifies lps.Values, this`base
      ensures lps == old(lps) && AddressKeyed()
      ensures a in old(Now()).lps && Now() == Rebalanced(old(Now()), a, b)
      ensures Table() == SetFunds(old(Table()), a, old(Table())[a].funds.(balance := b))
    {
      hide AddressKeyed, Spent;
      WriteBalanceAt(a, b);
      Rebase(base[a := Add(b, Spent(ledger, a))]);
    }

    /** A balance is refreshed. */
    method Refresh(a: Addr, b: Coins)
      requires Valid() && a in lps && Covers(Now(), Step.Refresh(a, b))
      modifies this, pool, lps.Values
      ensures Valid() && lps == old(lps) && Next(old(Now()), Step.Refresh(a, b), Now())
      ensures history == old(history) + [Step.Refresh(a, b)]
      ensures Table() == SetFunds(old(Table()), a, old(Table())[a].funds.(balance := b))
    {
      hide Sound, AddressKeyed, Table, Rebalanced, Exec, Enabled, Apply, Valid, Covers;
      ghost var s := Now();
      Past();
      TermsInTable(a);
      RefreshIs(s, a, b);
      SetBalanceAt(a, b);
      LogStep(s, Step.Refresh(a, b));
    }
  }
}
