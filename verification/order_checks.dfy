/** What happens to an order between the pool and the fulfillers: popped, checked, and then sent out,
    put back or evicted. */
module OrderChecks {
  import opened SdkCoins
  import opened LpModel
  import opened LpObject
  import opened Protocol
  import opened InFlight
  import opened Links
  import opened LpFloor
  import opened Pool
  import opened Slices
  import opened Dispatch
  import opened Traces
  import opened Tracker
  import opened NodeClients

  // ---------------------------------------------------------------- one order, one step

  ghost method Stall(t: OrderTracker, p: Ptr)
    requires t.Valid() && At(t.Now(), p, Checking)
    modifies t, t.pool, t.lps.Values
    ensures t.Valid() && t.lps == old(t.lps) && Next(old(t.Now()), Step.Stall(p), t.Now())
    ensures t.inHand == old(t.inHand) && t.history == old(t.history) + [Step.Stall(p)]
    ensures t.pool.heap == old(t.pool.heap) && t.pool.orders == old(t.pool.orders) && t.Table() == old(t.Table())
  {
    hide OrderTracker.Valid, OrderTracker.AddressKeyed, OrderTracker.Table, Sound, Exec, Enabled, Apply, Minus;
    ghost var s := t.Now();
    t.Past();
    CheckingIs(s, p);
    t.Place(t.copies[p := Minus(t.copies[p], Checking)], t.sent);
    t.LogStep(s, Step.Stall(p));
  }

  method Validate(t: OrderTracker, p: Ptr)
    requires t.Valid() && At(t.Now(), p, Checking)
    modifies t, t.pool, t.lps.Values
    ensures t.Valid() && t.lps == old(t.lps) && Next(old(t.Now()), Step.Validate(p), t.Now())
    ensures t.inHand == old(t.inHand) && t.history == old(t.history) + [Step.Validate(p)]
    ensures t.pool.heap == old(t.pool.heap)[p := old(t.pool.heap[p]).(valid := true)]
    ensures t.pool.orders == old(t.pool.orders) && t.Table() == old(t.Table())
  {
    hide OrderTracker.Valid, OrderTracker.AddressKeyed, OrderTracker.Table, Sound, Exec, Enabled, Apply, Minus;
    ghost var s := t.Now();
    t.Past();
    CheckingIs(s, p);
    SoundHasCopies(s);
    t.Place(t.copies[p := Minus(t.copies[p], Checking) + [Validated]], t.sent);
    MarksItself(s, p);
    t.Approve(t.pool.heap[p].id);
    t.LogStep(s, Step.Validate(p));
  }

  /** Under check, an order is the pool's entry for its id. */
  lemma MarksItself(s: State, p: Ptr)
    requires Sound(s) && At(s, p, Checking)
    ensures MarkValid(s.pool, s.heap, s.heap[p].id) == s.heap[p := s.heap[p].(valid := true)]
  {
    OnlyCopy(s, p, Checking);
    assert AnchoredAt(s, p);
  }

  /** `evictOrder`: out of the pool first, then the funds. */
  method Evict(t: OrderTracker, p: Ptr)
    requires t.Valid() && At(t.Now(), p, Checking)
    modifies t, t.pool, t.lps.Values
    ensures t.Valid() && t.lps == old(t.lps) && t.inHand == old(t.inHand)
    ensures Exec(old(t.Now()), [Step.Evict(p), Step.EvictRelease(p)]) == Some(t.Now())
    ensures t.history == old(t.history) + [Step.Evict(p), Step.EvictRelease(p)]
    ensures t.pool.heap == old(t.pool.heap) && t.pool.orders == old(t.pool.orders) - {t.pool.heap[p].id}
    ensures var (o, a) := (t.pool.heap[p], t.pool.heap[p].lpAddress);
            t.Table() == if a !in t.lps then old(t.Table())
                         else old(t.Table())[a := old(t.lps[a].Val()).(funds := Funds(
                                old(t.lps[a].balance), SubOrEmpty(old(t.lps[a].reservedFunds), o.price)))]
  {
    hide OrderTracker.Valid, Exec;
    ghost var s := t.Now();
    Remove(t, p);
    ghost var u := t.Now();
    EvictedWaits(s, p);
    GiveBack(t, p);
    ExecTwo(s, Step.Evict(p), u, Step.EvictRelease(p), t.Now());
    assert [Step.Evict(p)] + [Step.EvictRelease(p)] == [Step.Evict(p), Step.EvictRelease(p)];
  }

  lemma EvictedWaits(s: State, p: Ptr)
    requires Enabled(s, Step.Evict(p))
    ensures At(Apply(s, Step.Evict(p)), p, Evicting)
  {}

  method Remove(t: OrderTracker, p: Ptr)
    requires t.Valid() && At(t.Now(), p, Checking)
    modifies t, t.pool, t.lps.Values
    ensures t.Valid() && t.lps == old(t.lps) && Next(old(t.Now()), Step.Evict(p), t.Now())
    ensures t.inHand == old(t.inHand) && t.history == old(t.history) + [Step.Evict(p)]
    ensures t.pool.heap == old(t.pool.heap) && t.pool.orders == old(t.pool.orders) - {t.pool.heap[p].id}
    ensures t.Table() == old(t.Table()) && forall a :: a in t.lps ==> t.lps[a].FundsNow() == old(t.lps[a].FundsNow())
  {
    hide OrderTracker.Valid, OrderTracker.AddressKeyed, OrderTracker.Table, Sound, Exec, Enabled, Apply, Minus;
    ghost var s := t.Now();
    t.Past();
    CheckingIs(s, p);
    SoundHasCopies(s);
    t.Place(t.copies[p := Minus(t.copies[p], Checking) + [Evicting]], t.sent);
    t.Drop(t.pool.heap[p].id);
    t.LogStep(s, Step.Evict(p));
  }

  method GiveBack(t: OrderTracker, p: Ptr)
    requires t.Valid() && At(t.Now(), p, Evicting)
    modifies t, t.pool, t.lps.Values
    ensures t.Valid() && t.lps == old(t.lps) && Next(old(t.Now()), Step.EvictRelease(p), t.Now())
    ensures t.inHand == old(t.inHand) && t.history == old(t.history) + [Step.EvictRelease(p)]
    ensures t.pool.heap == old(t.pool.heap) && t.pool.orders == old(t.pool.orders)
    ensures var (o, a) := (t.pool.heap[p], t.pool.heap[p].lpAddress);
            t.Table() == if a !in t.lps then old(t.Table())
                         else old(t.Table())[a := old(t.lps[a].Val()).(funds := Funds(
                                old(t.lps[a].balance), SubOrEmpty(old(t.lps[a].reservedFunds), o.price)))]
  {
    hide OrderTracker.Valid, OrderTracker.AddressKeyed, OrderTracker.Table, Sound, Exec, Enabled, Apply, Minus,
         ReleaseOrder;
    ghost var s := t.Now();
    t.Past();
    EvictingIs(s, p);
    t.Place(t.copies[p := Minus(t.copies[p], Evicting)], t.sent);
    t.ReleaseFor(p);
    t.LogStep(s, Step.EvictRelease(p));
  }

  method Retry(t: OrderTracker, p: Ptr)
    requires t.Valid() && At(t.Now(), p, Checking)
    modifies t, t.pool, t.lps.Values
    ensures t.Valid() && t.lps == old(t.lps) && Next(old(t.Now()), Step.Retry(p), t.Now())
    ensures t.inHand == old(t.inHand) && t.history == old(t.history) + [Step.Retry(p)]
    ensures t.pool.heap == old(t.pool.heap)[p := old(t.pool.heap[p]).(checking := false)]
    ensures t.pool.orders == old(t.pool.orders) && t.Table() == old(t.Table())
  {
    hide OrderTracker.Valid, OrderTracker.AddressKeyed, OrderTracker.Table, Sound, Exec, Enabled, Apply, Minus;
    ghost var s := t.Now();
    t.Past();
    CheckingIs(s, p);
    t.Place(t.copies[p := Minus(t.copies[p], Checking)], t.sent);
    t.Rewrite(t.pool.heap[p := t.pool.heap[p].(checking := false)]);
    t.LogStep(s, Step.Retry(p));
  }

  ghost method Send(t: OrderTracker, p: Ptr)
    requires t.Valid() && At(t.Now(), p, Validated)
    modifies t, t.pool, t.lps.Values
    ensures t.Valid() && t.lps == old(t.lps) && Next(old(t.Now()), Step.Dispatch(p), t.Now())
    ensures t.inHand == old(t.inHand) && t.history == old(t.history) + [Step.Dispatch(p)]
  {
    hide OrderTracker.Valid, OrderTracker.AddressKeyed, OrderTracker.Table, Sound, Exec, Enabled, Apply, Minus;
    ghost var s := t.Now();
    t.Past();
    WorkIs(s, p);
    t.Place(t.copies[p := Minus(t.copies[p], Validated) + [Sent]], t.sent + {t.pool.heap[p].id});
    t.LogStep(s, Step.Dispatch(p));
  }

  lemma {:induction false} PickedDistinct(ps: seq<Ptr>, marks: seq<bool>)
    requires |ps| == |marks| && Distinct(ps)
    ensures Distinct(Picked(ps, marks))
  {
    if ps != [] {
      PickedDistinct(ps[1..], marks[1..]);
      PickedMembers(ps[1..], marks[1..]);
      var rest := Picked(ps[1..], marks[1..]);
      forall j | 0 <= j < |rest| ensures ps[0] != rest[j] {
        assert rest[j] in ps[1..];
      }
    }
  }

  // ---------------------------------------------------------------- one order, checked

  /** What `BlockValidated` said, and the clock when it said no. */
  datatype Verdict = Errored | IsValid | NotYet(expired: bool)

  /** What became of the order. */
  datatype Fate = SendOut | TryAgain | Gone

  /** The order's steps: a validation error leaves it marked; an order not valid yet is evicted when
      it has expired or no LP can take it, and otherwise unmarked for another try. */
  predicate Answered(steps: seq<Step>, p: Ptr, v: Verdict, fate: Fate) {
    match v
    case Errored => fate == Gone && steps == [Step.Stall(p)]
    case IsValid => fate == SendOut && steps == [Step.Validate(p)]
    case NotYet(expired) =>
      if expired || fate == Gone then fate == Gone && steps == [Step.Evict(p), Step.EvictRelease(p)]
      else
        && fate == TryAgain && |steps| == 2 && steps[1] == Step.Retry(p)
        && (steps[0] == Step.Keep(p) || (steps[0].Reselect? && steps[0].p == p))
  }

  lemma IsThere(s: State, p: Ptr, stage: Stage)
    requires At(s, p, stage)
    ensures p < |s.heap|
  {}

  /** An order that is not valid yet keeps its LP or gets another, and is unmarked. */
  method Refit(t: OrderTracker, p: Ptr) returns (ok: bool, ghost steps: seq<Step>)
    requires t.Valid() && At(t.Now(), p, Checking)
    modifies t, t.pool, t.lps.Values
    ensures t.Valid() && t.lps == old(t.lps) && t.inHand == old(t.inHand)
    ensures ok <==> exists a :: a in old(t.lps) && Eligible(old(t.lps[a].Val()), old(t.pool.heap[p]))
    ensures !ok ==> t.Now() == old(t.Now()) && t.history == old(t.history)
    ensures !ok ==> forall a :: a in t.lps ==> t.lps[a].FundsNow() == old(t.lps[a].FundsNow())
    ensures ok ==> Exec(old(t.Now()), steps) == Some(t.Now()) && t.history == old(t.history) + steps
    ensures ok ==> |steps| == 2 && steps[1] == Step.Retry(p)
    ensures ok ==> steps[0] == Step.Keep(p) || (steps[0].Reselect? && steps[0].p == p)
    ensures ok ==>
              && t.pool.orders == old(t.pool.orders)
              && var (o, own) := (old(t.pool.heap[p]), old(t.pool.heap[p]).lpAddress);
              if own != "" && own in old(t.lps) && Eligible(old(t.lps[own].Val()), o) then
                && o.rollappId in t.lps[own].rollapps && t.Table() == old(t.Table())
                && t.pool.heap == old(t.pool.heap)[p := o.(checking := false,
                     settlementValidated := t.lps[own].rollapps[o.rollappId].settlementValidated)]
              else
                steps[0].Reselect? && var a := steps[0].lp;
                && a in old(t.lps) && Eligible(old(t.lps[a].Val()), o) && o.rollappId in t.lps[a].rollapps
                && t.pool.heap == old(t.pool.heap)[p := o.(checking := false, lpAddress := a,
                     settlementValidated := t.lps[a].rollapps[o.rollappId].settlementValidated,
                     operatorFeePart := t.lps[a].rollapps[o.rollappId].operatorFeeShare)]
                && t.Table() == old(t.Table())[a := old(t.lps[a].Val()).(funds :=
                     Funds(old(t.lps[a].balance), Add(old(t.lps[a].reservedFunds), o.price)))]
  {
    hide *;
    t.HeapIsHeap();
    IsThere(t.Now(), p, Checking);
    ghost var s := t.Now();
    ghost var st;
    ok, st := t.FindLpForPooled(p);
    if !ok {
      return false, [];
    }
    ghost var u := t.Now();
    UpdateTwice(old(t.pool.heap), p, t.pool.heap[p], t.pool.heap[p].(checking := false));
    Retry(t, p);
    ExecTwo(s, st, u, Step.Retry(p), t.Now());
    assert [st] + [Step.Retry(p)] == [st, Step.Retry(p)];
    steps := [st, Step.Retry(p)];
  }

  lemma UpdateTwice(heap: seq<Order>, p: Ptr, o: Order, q: Order)
    requires p < |heap|
    ensures heap[p := o][p] == o && heap[p := o][p := q] == heap[p := q]
  {}

  /** The body of the loop in `getValidAndRetryOrders`. */
  method CheckOne(t: OrderTracker, p: Ptr, v: Verdict) returns (fate: Fate, ghost steps: seq<Step>)
    requires t.Valid() && At(t.Now(), p, Checking)
    modifies t, t.pool, t.lps.Values
    ensures t.Valid() && t.lps == old(t.lps) && t.inHand == old(t.inHand)
    ensures Exec(old(t.Now()), steps) == Some(t.Now()) && Answered(steps, p, v, fate)
    ensures t.history == old(t.history) + steps
    ensures v.Errored? ==>
              && fate.Gone? && t.pool.heap == old(t.pool.heap) && t.pool.orders == old(t.pool.orders)
              && t.Table() == old(t.Table())
    ensures v.IsValid? ==>
              && fate.SendOut? && t.pool.heap == old(t.pool.heap)[p := old(t.pool.heap[p]).(valid := true)]
              && t.pool.orders == old(t.pool.orders) && t.Table() == old(t.Table())
    ensures v.NotYet? ==>
              (fate.Gone? <==>
                 v.expired || forall a :: a in old(t.lps) ==> !Eligible(old(t.lps[a].Val()), old(t.pool.heap[p])))
    ensures v.NotYet? && fate.Gone? ==>
              && t.pool.heap == old(t.pool.heap) && t.pool.orders == old(t.pool.orders) - {t.pool.heap[p].id}
              && var (o, a) := (t.pool.heap[p], t.pool.heap[p].lpAddress);
              t.Table() == if a !in t.lps then old(t.Table())
                           else old(t.Table())[a := old(t.lps[a].Val()).(funds := Funds(
                                  old(t.lps[a].balance), SubOrEmpty(old(t.lps[a].reservedFunds), o.price)))]
    ensures v.NotYet? && !fate.Gone? ==>
              && fate.TryAgain? && |steps| > 0
              && t.pool.orders == old(t.pool.orders)
              && var (o, own) := (old(t.pool.heap[p]), old(t.pool.heap[p]).lpAddress);
              if own != "" && own in old(t.lps) && Eligible(old(t.lps[own].Val()), o) then
                && o.rollappId in t.lps[own].rollapps && t.Table() == old(t.Table())
                && t.pool.heap == old(t.pool.heap)[p := o.(checking := false,
                     settlementValidated := t.lps[own].rollapps[o.rollappId].settlementValidated)]
              else
                steps[0].Reselect? && var a := steps[0].lp;
                && a in old(t.lps) && Eligible(old(t.lps[a].Val()), o) && o.rollappId in t.lps[a].rollapps
                && t.pool.heap == old(t.pool.heap)[p := o.(checking := false, lpAddress := a,
                     settlementValidated := t.lps[a].rollapps[o.rollappId].settlementValidated,
                     operatorFeePart := t.lps[a].rollapps[o.rollappId].operatorFeeShare)]
                && t.Table() == old(t.Table())[a := old(t.lps[a].Val()).(funds :=
                     Funds(old(t.lps[a].balance), Add(old(t.lps[a].reservedFunds), o.price)))]
  {
    hide Sound, Enabled, Apply, Exec, Eligible, OrderTracker.Valid, OrderTracker.Table;
    ghost var s := t.Now();
    match v {
      case Errored =>
        Stall(t, p);
        ExecSingle(s, Step.Stall(p), t.Now());
        return Gone, [Step.Stall(p)];
      case IsValid =>
        Validate(t, p);
        ExecSingle(s, Step.Validate(p), t.Now());
        return SendOut, [Step.Validate(p)];
      case NotYet(expired) =>
        if expired {
          Evict(t, p);
          return Gone, [Step.Evict(p), Step.EvictRelease(p)];
        }
        var fulfillable;
        ghost var again;
        fulfillable, again := Refit(t, p);
        if !fulfillable {
          Evict(t, p);
          return Gone, [Step.Evict(p), Step.EvictRelease(p)];
        }
        return TryAgain, again;
    }
  }

  // ---------------------------------------------------------------- a batch, checked

  /** The orders of the list from `i` on have a copy at the stage. */
  ghost predicate AllAt(s: State, ps: seq<Ptr>, i: nat, stage: Stage) {
    forall j :: i <= j < |ps| ==> At(s, ps[j], stage)
  }

  /** Ids and proof heights of orders never change. */
  ghost predicate SameOrders(before: seq<Order>, after: seq<Order>) {
    |after| == |before| && forall p :: 0 <= p < |before| ==>
      after[p].id == before[p].id && after[p].proofHeight == before[p].proofHeight
  }

  lemma StepMovesOne(s: State, st: Step, p: Ptr, q: Ptr, stage: Stage)
    requires Enabled(s, st) && (CheckStep(st) || st.Dispatch?) && st.p == p
    ensures SameOrders(s.heap, Apply(s, st).heap)
    ensures q != p && At(s, q, stage) ==> At(Apply(s, st), q, stage)
    ensures q != p && q < |s.heap| ==> SameTerms(s.heap[q], Apply(s, st).heap[q])
  {
    hide Enabled, Apply, CheckStep, SameTerms;
    StepKeepsTerms(s, st, q);
    if q != p && At(s, q, stage) {
      StepMovesNoOther(s, st, q);
    }
    forall r | 0 <= r < |s.heap|
      ensures Apply(s, st).heap[r].id == s.heap[r].id && Apply(s, st).heap[r].proofHeight == s.heap[r].proofHeight {
      StepKeepsTerms(s, st, r);
    }
  }

  lemma StepMovesNoOther(s: State, st: Step, q: Ptr)
    requires Enabled(s, st) && (CheckStep(st) || st.Dispatch?) && st.p != q && q < |s.copies|
    ensures q < |Apply(s, st).copies| && Apply(s, st).copies[q] == s.copies[q]
  {
    hide Keeps, BestChoice, ReleaseFunds, MarkValid;
  }

  lemma StepKeepsTerms(s: State, st: Step, q: Ptr)
    requires Enabled(s, st) && (CheckStep(st) || st.Dispatch?)
    ensures |Apply(s, st).heap| == |s.heap|
    ensures q < |s.heap| ==> Apply(s, st).heap[q].id == s.heap[q].id
                             && Apply(s, st).heap[q].proofHeight == s.heap[q].proofHeight
    ensures q != st.p && q < |s.heap| ==> SameTerms(s.heap[q], Apply(s, st).heap[q])
  {
    hide Keeps, BestChoice, ReleaseFunds;
  }

  lemma {:induction false} StepsMoveOne(s: State, steps: seq<Step>, t: State, p: Ptr, q: Ptr, stage: Stage)
    requires Exec(s, steps) == Some(t)
    requires forall st :: st in steps ==> (CheckStep(st) || st.Dispatch?) && st.p == p
    ensures SameOrders(s.heap, t.heap)
    ensures q != p && At(s, q, stage) ==> At(t, q, stage)
    ensures q != p && q < |s.heap| ==> SameTerms(s.heap[q], t.heap[q])
  {
    hide Enabled, Apply, CheckStep, At;
    if steps != [] {
      var init, last := steps[..|steps| - 1], steps[|steps| - 1];
      assert last in steps;
      StepsMoveOne(s, init, Exec(s, init).value, p, q, stage);
      StepMovesOne(Exec(s, init).value, last, p, q, stage);
    }
  }

  lemma AnswerMovesOne(s: State, steps: seq<Step>, t: State, p: Ptr, v: Verdict, fate: Fate)
    requires Exec(s, steps) == Some(t) && Answered(steps, p, v, fate)
    ensures SameOrders(s.heap, t.heap)
    ensures forall q, stage :: q != p && At(s, q, stage) ==> At(t, q, stage)
    ensures forall q: Ptr :: q != p && q < |s.heap| ==> SameTerms(s.heap[q], t.heap[q])
  {
    hide Exec;
    StepsMoveOne(s, steps, t, p, p, Checking);
    forall q: Ptr | q != p && q < |s.heap| ensures SameTerms(s.heap[q], t.heap[q]) {
      StepsMoveOne(s, steps, t, p, q, Checking);
    }
    forall q, stage | q != p && At(s, q, stage) ensures At(t, q, stage) {
      StepsMoveOne(s, steps, t, p, q, stage);
    }
  }

  lemma SentOutIsValidated(s: State, steps: seq<Step>, t: State, p: Ptr)
    requires Exec(s, steps) == Some(t) && steps == [Step.Validate(p)]
    ensures At(t, p, Validated)
  {
    assert steps[..0] == [];
  }

  function ValidMarks(verdicts: seq<Verdict>): (r: seq<bool>)
    ensures |r| == |verdicts|
  {
    seq(|verdicts|, i requires 0 <= i < |verdicts| => verdicts[i].IsValid?)
  }

  function RetryMarks(fates: seq<Fate>): (r: seq<bool>)
    ensures |r| == |fates|
  {
    seq(|fates|, i requires 0 <= i < |fates| => fates[i].TryAgain?)
  }

  /** What the loop has done when it gets to order `i`. */
  ghost predicate CheckedUpTo(s: State, t: State, orders: seq<Ptr>, verdicts: seq<Verdict>, i: nat,
                              valid: seq<Ptr>, retry: seq<Ptr>, fates: seq<Fate>, steps: seq<seq<Step>>)
    requires i <= |orders| && |verdicts| == i
  {
    && |fates| == |steps| == i
    && Exec(s, Flatten(steps)) == Some(t)
    && (forall k :: 0 <= k < i ==> Answered(steps[k], orders[k], verdicts[k], fates[k]))
    && valid == Picked(orders[..i], ValidMarks(verdicts))
    && retry == Picked(orders[..i], RetryMarks(fates))
    && AllAt(t, valid, 0, Validated)
    && SameOrders(s.heap, t.heap)
  }

  lemma CheckedOneMore(s: State, t: State, orders: seq<Ptr>, verdicts: seq<Verdict>, i: nat,
                       valid: seq<Ptr>, retry: seq<Ptr>, fates: seq<Fate>, steps: seq<seq<Step>>,
                       u: State, v: Verdict, fate: Fate, more: seq<Step>)
    requires i < |orders| && |verdicts| == i && Distinct(orders)
    requires CheckedUpTo(s, t, orders, verdicts, i, valid, retry, fates, steps) && AllAt(t, orders, i, Checking)
    requires Exec(t, more) == Some(u) && Answered(more, orders[i], v, fate)
    ensures CheckedUpTo(s, u, orders, verdicts + [v], i + 1,
                        valid + if fate.SendOut? then [orders[i]] else [],
                        retry + if fate.TryAgain? then [orders[i]] else [], fates + [fate], steps + [more])
    ensures AllAt(u, orders, i + 1, Checking)
  {
    hide Exec, At;
    var p := orders[i];
    AnswerMovesOne(t, more, u, p, v, fate);
    FlattenConcat(steps, [more]);
    FlattenOne(more);
    ExecThen(s, Flatten(steps), t, more, u);
    PickedSnoc(orders[..i], ValidMarks(verdicts), p, v.IsValid?);
    PickedSnoc(orders[..i], RetryMarks(fates), p, fate.TryAgain?);
    assert orders[..i + 1] == orders[..i] + [p];
    assert ValidMarks(verdicts + [v]) == ValidMarks(verdicts) + [v.IsValid?];
    assert RetryMarks(fates + [fate]) == RetryMarks(fates) + [fate.TryAgain?];
    PickedMembers(orders[..i], ValidMarks(verdicts));
    forall j | 0 <= j < |valid| ensures At(u, valid[j], Validated) {
      assert valid[j] in orders[..i];
    }
    if fate.SendOut? {
      SentOutIsValidated(t, more, u, p);
    }
  }

  // ---------------------------------------------------------------- asking the nodes

  /** What the nodes answer about an order's block, and whether its deadline has passed by then. */
  datatype NodeReply = NodeReply(answers: seq<Answer>, expired: bool)

  /** Orders that require settlement validation are checked at that level, all others at the lower one. */
  function LevelFor(o: Order): Level {
    if o.settlementValidated then 2 else 1
  }

  function QueryFor(o: Order, answers: seq<Answer>): Query {
    Query(o.rollappId, o.proofHeight, LevelFor(o), answers)
  }

  function VerdictOf(valid: Option<bool>, expired: bool): Verdict {
    match valid case None => Errored case Some(yes) => if yes then IsValid else NotYet(expired)
  }

  /** The queries made for the first orders, and the verdicts they led to. */
  ghost predicate AskedUpTo(rollapps: map<RollappId, RollappConfig>, before: seq<Query>, heap: seq<Order>,
                            orders: seq<Ptr>, replies: seq<NodeReply>, queries: seq<Query>, verdicts: seq<Verdict>)
    requires Within(orders, heap)
  {
    && |queries| == |verdicts| <= |orders| == |replies|
    && forall k :: 0 <= k < |queries| ==>
         && queries[k] == QueryFor(heap[orders[k]], replies[k].answers)
         && verdicts[k]
              == VerdictOf(Ask(rollapps, After(rollapps, before + queries[..k]), queries[k]).0, replies[k].expired)
  }

  /** An order is sent out exactly when, at that moment, at least the configured number of its rollapp's
      nodes report level 2, if it requires settlement validation, or level 1, if it does not; provided
      levels never rise with the height nor fall with time, and the cache, if it answers, was filled at a
      level at least that. */
  lemma SentOutMeansConfirmed(
    w: World, rollapps: map<RollappId, RollappConfig>, before: seq<Query>, heap: seq<Order>, orders: seq<Ptr>,
    replies: seq<NodeReply>, queries: seq<Query>, verdicts: seq<Verdict>, k: nat)
    requires Within(orders, heap) && AskedUpTo(rollapps, before, heap, orders, replies, queries, verdicts)
    requires Settling(w) && AnsweredBy(w, rollapps, before + queries)
    requires k < |queries| && !verdicts[k].Errored? && Covered(rollapps, before + queries[..k], queries[k])
    ensures var (o, config) := (heap[orders[k]], ConfigOf(rollapps, heap[orders[k]].rollappId));
            && (o.settlementValidated ==>
                  (verdicts[k].IsValid? <==>
                     DirectCount(w, |before| + k, o.rollappId, |config.fullNodes|, o.proofHeight, 2)
                       >= config.minConfirmations))
            && (!o.settlementValidated ==>
                  (verdicts[k].IsValid? <==>
                     DirectCount(w, |before| + k, o.rollappId, |config.fullNodes|, o.proofHeight, 1)
                       >= config.minConfirmations))
  {
    hide Ask, After, Settling, DirectCount, AnsweredBy, Covered, AskedUpTo, QueryFor;
    QueryTerms(rollapps, before, heap, orders, replies, queries, verdicts, k);
    var calls := before + queries[..k];
    assert calls + [queries[k]] <= before + queries by {
      assert (before + queries)[..|before| + k + 1] == calls + [queries[k]];
    }
    PrefixIsAnswered(w, rollapps, before + queries, calls + [queries[k]]);
    AnswersAreDirect(w, rollapps, calls, queries[k]);
  }

  lemma AllTerms(rollapps: map<RollappId, RollappConfig>, before: seq<Query>, heap: seq<Order>, orders: seq<Ptr>,
                 replies: seq<NodeReply>, queries: seq<Query>, verdicts: seq<Verdict>)
    requires Within(orders, heap) && AskedUpTo(rollapps, before, heap, orders, replies, queries, verdicts)
    ensures forall k :: 0 <= k < |queries| ==>
              && k < |orders| && queries[k].rollapp == heap[orders[k]].rollappId
              && queries[k].height == heap[orders[k]].proofHeight
              && queries[k].expected == if heap[orders[k]].settlementValidated then 2 else 1
  {
    hide Ask, After;
  }

  lemma QueryTerms(rollapps: map<RollappId, RollappConfig>, before: seq<Query>, heap: seq<Order>, orders: seq<Ptr>,
                   replies: seq<NodeReply>, queries: seq<Query>, verdicts: seq<Verdict>, k: nat)
    requires Within(orders, heap) && AskedUpTo(rollapps, before, heap, orders, replies, queries, verdicts)
    requires k < |queries|
    ensures |queries| == |verdicts| <= |orders| == |replies|
    ensures var (o, q) := (heap[orders[k]], queries[k]);
            && q.rollapp == o.rollappId && q.height == o.proofHeight && q.answers == replies[k].answers
            && q.expected == if o.settlementValidated then 2 else 1
    ensures match Ask(rollapps, After(rollapps, before + queries[..k]), queries[k]).0
            case None => verdicts[k] == Errored
            case Some(yes) => verdicts[k] == if yes then IsValid else NotYet(replies[k].expired)
  {
    hide Ask, After;
  }

  lemma PrefixIsAnswered(w: World, rollapps: map<RollappId, RollappConfig>, all: seq<Query>, first: seq<Query>)
    requires AnsweredBy(w, rollapps, all) && first <= all
    ensures AnsweredBy(w, rollapps, first)
  {
    hide AnsweredAt;
    forall t | 0 <= t < |first| ensures AnsweredAt(w, rollapps, first[t], t) {
      assert AnsweredAt(w, rollapps, all[t], t);
    }
  }

  /** Rollapp, proof height and the settlement requirement: what the nodes are asked with. */
  predicate SameTerms(a: Order, b: Order) {
    a.rollappId == b.rollappId && a.proofHeight == b.proofHeight && a.settlementValidated == b.settlementValidated
  }

  /** The orders from `i` on would still be asked about as at the start. */
  ghost predicate Unasked(before: seq<Order>, after: seq<Order>, orders: seq<Ptr>, i: nat) {
    forall j :: i <= j < |orders| ==>
      orders[j] < |before| && orders[j] < |after| && SameTerms(before[orders[j]], after[orders[j]])
  }

  lemma UnaskedStays(before: seq<Order>, s: State, steps: seq<Step>, t: State, orders: seq<Ptr>, i: nat,
                     v: Verdict, fate: Fate)
    requires i < |orders| && Distinct(orders) && Unasked(before, s.heap, orders, i)
    requires Exec(s, steps) == Some(t) && Answered(steps, orders[i], v, fate)
    ensures Unasked(before, t.heap, orders, i + 1)
  {
    hide Exec, Answered;
    AnswerMovesOne(s, steps, t, orders[i], v, fate);
    forall j | i + 1 <= j < |orders| ensures SameTerms(before[orders[j]], t.heap[orders[j]]) {
      assert orders[j] != orders[i];
    }
  }

  /** Asking changes the client's cache and nothing else. */
  method AskNodes(t: OrderTracker, c: NodeClient, p: Ptr, reply: NodeReply) returns (v: Verdict, ghost q: Query)
    requires c.Valid() && p < |t.pool.heap|
    requires |reply.answers| == |ConfigOf(c.rollapps, t.pool.heap[p].rollappId).fullNodes|
    modifies c
    ensures c.Valid() && c.calls == old(c.calls) + [q] && t.Now() == old(t.Now()) && t.Valid() == old(t.Valid())
    ensures t.history == old(t.history)
    ensures q == QueryFor(t.pool.heap[p], reply.answers)
    ensures q.rollapp == t.pool.heap[p].rollappId && q.height == t.pool.heap[p].proofHeight
    ensures q.expected == (if t.pool.heap[p].settlementValidated then 2 else 1) && q.answers == reply.answers
    ensures match Ask(c.rollapps, After(c.rollapps, old(c.calls)), q).0
            case None => v == Errored
            case Some(yes) => v == if yes then IsValid else NotYet(reply.expired)
    ensures v == VerdictOf(Ask(c.rollapps, After(c.rollapps, old(c.calls)), q).0, reply.expired)
  {
    hide Sound, Ask, After;
    var o := t.pool.heap[p];
    var query := QueryFor(o, reply.answers);
    ClientCache(c);
    q := query;
    var valid := c.BlockValidated(query);
    v := VerdictOf(valid, reply.expired);
  }

  lemma ClientCache(c: NodeClient)
    requires c.Valid()
    ensures c.lastValidHeight == After(c.rollapps, c.calls)
  {}

  lemma AskedOneMore(rollapps: map<RollappId, RollappConfig>, before: seq<Query>, heap: seq<Order>,
                     orders: seq<Ptr>, replies: seq<NodeReply>, queries: seq<Query>, verdicts: seq<Verdict>,
                     q: Query, v: Verdict)
    requires Within(orders, heap) && AskedUpTo(rollapps, before, heap, orders, replies, queries, verdicts)
    requires |queries| < |orders| && q == QueryFor(heap[orders[|queries|]], replies[|queries|].answers)
    requires v == VerdictOf(Ask(rollapps, After(rollapps, before + queries), q).0, replies[|queries|].expired)
    ensures AskedUpTo(rollapps, before, heap, orders, replies, queries + [q], verdicts + [v])
  {
    hide Ask, After;
    var n, more := |queries|, queries + [q];
    assert more[..n] == queries;
    forall k | 0 <= k < n ensures more[..k] == queries[..k] {}
  }

  /** Every order's rollapp has as many nodes as there are answers about it. */
  predicate Answerable(rollapps: map<RollappId, RollappConfig>, heap: seq<Order>, orders: seq<Ptr>,
                       replies: seq<NodeReply>)
    requires Within(orders, heap)
  {
    |replies| == |orders| && forall k :: 0 <= k < |orders| ==>
      |replies[k].answers| == |ConfigOf(rollapps, heap[orders[k]].rollappId).fullNodes|
  }

  /** `getValidAndRetryOrders`: the valid orders keep the order of the list, and so do those to try
      again. Every order's copy is at the validator on entry. */
  method GetValidAndRetryOrders(t: OrderTracker, c: NodeClient, orders: seq<Ptr>, replies: seq<NodeReply>)
    returns (valid: seq<Ptr>, retry: seq<Ptr>, ghost queries: seq<Query>, ghost verdicts: seq<Verdict>,
             ghost fates: seq<Fate>, ghost steps: seq<seq<Step>>)
    requires t.Valid() && c.Valid() && Distinct(orders) && AllAt(t.Now(), orders, 0, Checking)
    requires Within(orders, t.pool.heap) && Answerable(c.rollapps, t.pool.heap, orders, replies)
    modifies t, t.pool, t.lps.Values, c
    ensures t.Valid() && c.Valid() && t.lps == old(t.lps) && c.calls == old(c.calls) + queries
    ensures t.inHand == old(t.inHand) && t.history == old(t.history) + Flatten(steps)
    ensures AskedUpTo(c.rollapps, old(c.calls), old(t.pool.heap), orders, replies, queries, verdicts)
    ensures |verdicts| == |queries| == |orders|
    ensures forall k :: 0 <= k < |orders| ==>
              && queries[k].rollapp == old(t.pool.heap)[orders[k]].rollappId
              && queries[k].height == old(t.pool.heap)[orders[k]].proofHeight
              && queries[k].expected == if old(t.pool.heap)[orders[k]].settlementValidated then 2 else 1
    ensures CheckedUpTo(old(t.Now()), t.Now(), orders, verdicts, |orders|, valid, retry, fates, steps)
  {
    hide CheckedUpTo, AskedUpTo, Unasked, Answerable, OrderTracker.Valid, NodeClient.Valid, Answered, Exec, At,
         Ask, After;
    ghost var s, calls, past := t.Now(), c.calls, t.history;
    valid, retry, queries, verdicts, fates, steps := [], [], [], [], [], [];
    NothingChecked(s, orders);
    NothingAsked(c.rollapps, calls, s.heap, orders, replies);
    for i := 0 to |orders|
      invariant t.Valid() && c.Valid() && t.lps == old(t.lps) && c.calls == calls + queries
      invariant t.inHand == old(t.inHand) && t.history == past + Flatten(steps)
      invariant |verdicts| == |queries| == i
      invariant AskedUpTo(c.rollapps, calls, s.heap, orders, replies, queries, verdicts)
      invariant CheckedUpTo(s, t.Now(), orders, verdicts, i, valid, retry, fates, steps)
      invariant AllAt(t.Now(), orders, i, Checking) && Unasked(s.heap, t.pool.heap, orders, i)
    {
      ghost var before := t.Now();
      var v, fate;
      ghost var q, more;
      NextIsAskable(c.rollapps, s.heap, t.pool.heap, orders, replies, i);
      v, q := AskNodes(t, c, orders[i], replies[i]);
      AskedOneMore(c.rollapps, calls, s.heap, orders, replies, queries, verdicts, q, v);
      assert t.Now() == before;
      fate, more := CheckOne(t, orders[i], v);
      CheckedOneMore(s, before, orders, verdicts, i, valid, retry, fates, steps, t.Now(), v, fate, more);
      UnaskedStays(s.heap, before, more, t.Now(), orders, i, v, fate);
      assert calls + queries + [q] == calls + (queries + [q]);
      OneMoreList(past, steps, more);
      valid := valid + if fate.SendOut? then [orders[i]] else [];
      retry := retry + if fate.TryAgain? then [orders[i]] else [];
      queries, verdicts, fates, steps := queries + [q], verdicts + [v], fates + [fate], steps + [more];
    }
    AllTerms(c.rollapps, calls, s.heap, orders, replies, queries, verdicts);
  }

  lemma OneMoreList(past: seq<Step>, steps: seq<seq<Step>>, more: seq<Step>)
    ensures past + Flatten(steps) + more == past + Flatten(steps + [more])
  {
    FlattenConcat(steps, [more]);
    FlattenOne(more);
  }

  lemma NothingChecked(s: State, orders: seq<Ptr>)
    ensures CheckedUpTo(s, s, orders, [], 0, [], [], [], [])
  {}

  lemma NothingAsked(rollapps: map<RollappId, RollappConfig>, calls: seq<Query>, heap: seq<Order>,
                     orders: seq<Ptr>, replies: seq<NodeReply>)
    requires Within(orders, heap) && Answerable(rollapps, heap, orders, replies)
    ensures AskedUpTo(rollapps, calls, heap, orders, replies, [], []) && Unasked(heap, heap, orders, 0)
    ensures |replies| == |orders| && calls + [] == calls
  {}

  lemma NextIsAskable(rollapps: map<RollappId, RollappConfig>, before: seq<Order>, after: seq<Order>,
                      orders: seq<Ptr>, replies: seq<NodeReply>, i: nat)
    requires Within(orders, before) && Answerable(rollapps, before, orders, replies)
    requires i < |orders| && Unasked(before, after, orders, i)
    ensures orders[i] < |after| && |replies| == |orders|
    ensures |replies[i].answers| == |ConfigOf(rollapps, after[orders[i]].rollappId).fullNodes|
    ensures QueryFor(after[orders[i]], replies[i].answers) == QueryFor(before[orders[i]], replies[i].answers)
  {}

  // ---------------------------------------------------------------- sending and putting back

  /** The orders of the list from `lo` up to `hi` go into the channel. */
  ghost method SendRange(t: OrderTracker, ps: seq<Ptr>, lo: nat, hi: nat)
    requires t.Valid() && lo <= hi <= |ps| && Distinct(ps) && AllAt(t.Now(), ps, lo, Validated)
    modifies t, t.pool, t.lps.Values
    ensures t.Valid() && t.lps == old(t.lps) && SameOrders(old(t.pool.heap), t.pool.heap)
    ensures Exec(old(t.Now()), Sends(ps[lo..hi])) == Some(t.Now()) && AllAt(t.Now(), ps, hi, Validated)
    ensures t.inHand == old(t.inHand) && t.history == old(t.history) + Sends(ps[lo..hi])
  {
    hide OrderTracker.Valid, Exec, At, Enabled, Apply;
    ghost var s := t.Now();
    NoSteps(s);
    assert Sends(ps[lo..lo]) == [];
    for i := lo to hi
      invariant t.Valid() && t.lps == old(t.lps) && SameOrders(s.heap, t.pool.heap)
      invariant Exec(s, Sends(ps[lo..i])) == Some(t.Now())
      invariant t.inHand == old(t.inHand) && t.history == old(t.history) + Sends(ps[lo..i])
      invariant AllAt(t.Now(), ps, i, Validated)
    {
      ghost var before := t.Now();
      Send(t, ps[i]);
      OthersStay(before, t.Now(), ps, i);
      ExecOne(s, Sends(ps[lo..i]), before, Step.Dispatch(ps[i]), t.Now());
      assert Sends(ps[lo..i + 1]) == Sends(ps[lo..i]) + [Step.Dispatch(ps[i])];
    }
  }

  function Sends(ps: seq<Ptr>): seq<Step> {
    seq(|ps|, i requires 0 <= i < |ps| => Step.Dispatch(ps[i]))
  }

  lemma OthersStay(s: State, t: State, ps: seq<Ptr>, i: nat)
    requires i < |ps| && Distinct(ps) && AllAt(s, ps, i, Validated) && Next(s, Step.Dispatch(ps[i]), t)
    ensures AllAt(t, ps, i + 1, Validated) && SameOrders(s.heap, t.heap)
  {
    hide Enabled, Apply, At;
    StepMovesOne(s, Step.Dispatch(ps[i]), ps[i], ps[i], Validated);
    forall j | i + 1 <= j < |ps| ensures At(t, ps[j], Validated) {
      StepMovesOne(s, Step.Dispatch(ps[i]), ps[i], ps[j], Validated);
    }
  }

  /** The valid orders leave in batches. With no fulfillers the code divides by zero, and with no
      orders per transaction the fulfillers' own chunking panics. */
  method SendBatches(t: OrderTracker, valid: seq<Ptr>, maxOrdersPerTx: nat, numFulfillers: nat)
    returns (out: seq<seq<Ptr>>)
    requires t.Valid() && Distinct(valid) && AllAt(t.Now(), valid, 0, Validated)
    requires maxOrdersPerTx >= 1 && numFulfillers >= 1
    modifies t, t.pool, t.lps.Values
    ensures t.Valid() && t.lps == old(t.lps) && SameOrders(old(t.pool.heap), t.pool.heap)
    ensures Exec(old(t.Now()), Sends(valid)) == Some(t.Now())
    ensures t.inHand == old(t.inHand) && t.history == old(t.history) + Sends(valid)
    ensures out == Batches(valid, maxOrdersPerTx, numFulfillers) && Flatten(out) == valid
    ensures forall i :: 0 <= i < |out| - 1 ==>
              |out[i]| == if maxOrdersPerTx > |valid| / numFulfillers then maxOrdersPerTx else |valid| / numFulfillers
  {
    hide OrderTracker.Valid, Exec, AllAt, Distinct, Chunk, Enabled, Apply, SameOrders, Sends, OrderTracker.Now;
    ghost var s, past := t.Now(), t.history;
    out := [];
    NoSteps(s);
    SameOrdersAlways(s.heap, s.heap, s.heap);
    SendsInParts(past, valid, 0, 0);
    HeapNow(t);
    NoChunks(valid, BatchSize(maxOrdersPerTx, |valid|, numFulfillers));
    if |valid| > 0 {
      var share := |valid| / numFulfillers;
      var chunkSize := if maxOrdersPerTx > share then maxOrdersPerTx else share;
      var done := 0;
      assert valid[..0] == [] && valid[0..] == valid;
      while done < |valid|
        invariant done <= |valid| && t.Valid() && t.lps == old(t.lps) && SameOrders(s.heap, t.pool.heap)
        invariant out + Chunk(valid[done..], chunkSize) == Chunk(valid, chunkSize)
        invariant Exec(s, Sends(valid[..done])) == Some(t.Now()) && AllAt(t.Now(), valid, done, Validated)
        invariant t.inHand == old(t.inHand) && t.history == past + Sends(valid[..done])
      {
        var next := if done + chunkSize < |valid| then done + chunkSize else |valid|;
        OneMoreBatch(out, Chunk(valid, chunkSize), valid, chunkSize, done, next);
        out := out + [valid[done..next]];
        ghost var before := t.Now();
        HeapNow(t);
        SendRange(t, valid, done, next);
        SameOrdersAlways(s.heap, before.heap, t.pool.heap);
        ExecThen(s, Sends(valid[..done]), before, Sends(valid[done..next]), t.Now());
        SendsInParts(past, valid, done, next);
        done := next;
      }
      assert valid[..|valid|] == valid;
      NoChunks(valid[|valid|..], chunkSize);
    }
    BatchesAreFull(valid, maxOrdersPerTx, numFulfillers);
  }

  lemma OneMoreBatch(out: seq<seq<Ptr>>, all: seq<seq<Ptr>>, valid: seq<Ptr>, n: nat, done: nat, next: nat)
    requires n >= 1 && done < |valid| && next == (if done + n < |valid| then done + n else |valid|)
    requires out + Chunk(valid[done..], n) == all
    ensures out + [valid[done..next]] + Chunk(valid[next..], n) == all
  {
    hide Chunk;
    ChunkNext(valid, n, done, next);
  }

  lemma SendsInParts(past: seq<Step>, ps: seq<Ptr>, i: nat, j: nat)
    requires i <= j <= |ps|
    ensures Sends(ps[..j]) == Sends(ps[..i]) + Sends(ps[i..j])
    ensures past + Sends(ps[..j]) == past + Sends(ps[..i]) + Sends(ps[i..j])
    ensures Sends([]) == [] && past + Sends([]) == past
  {}

  lemma HeapNow(t: OrderTracker)
    ensures t.Now().heap == t.pool.heap
  {}

  lemma SameOrdersAlways(a: seq<Order>, b: seq<Order>, c: seq<Order>)
    ensures SameOrders(a, a)
    ensures SameOrders(a, b) && SameOrders(b, c) ==> SameOrders(a, c)
  {}

  lemma NoChunks<T>(s: seq<T>, n: nat)
    requires n >= 1
    ensures s == [] ==> Chunk(s, n) == []
  {}

  /** `addOrder` for the orders to try again. */
  method PutBack(t: OrderTracker, ps: seq<Ptr>)
    requires t.Valid() && Within(ps, t.pool.heap) && forall i :: 0 <= i < |ps| ==> ps[i] !in t.inHand
    modifies t, t.pool, t.lps.Values
    ensures t.Valid() && t.lps == old(t.lps) && t.pool.heap == old(t.pool.heap)
    ensures Exec(old(t.Now()), AddBacks(ps)) == Some(t.Now()) && t.history == old(t.history) + AddBacks(ps)
  {
    hide OrderTracker.Valid, OrderTracker.AddressKeyed, OrderTracker.Table, Sound, Exec;
    ghost var s := t.Now();
    t.Past();
    AddBackRun(s, ps);
    SoundRun(s, AddBacks(ps));
    SoundHasCopies(s);
    t.AddBackOrders(ps);
    t.Log(s, AddBacks(ps));
  }

  // ---------------------------------------------------------------- the goroutines' bodies

  function HeightOf(heap: seq<Order>, p: Ptr): int {
    if p < |heap| then heap[p].proofHeight else 0
  }

  function HeightsOf(heap: seq<Order>, ps: seq<Ptr>): (r: seq<int>)
    ensures |r| == |ps|
  {
    seq(|ps|, i requires 0 <= i < |ps| => HeightOf(heap, ps[i]))
  }

  lemma {:induction false} PickedHeights(heap: seq<Order>, ps: seq<Ptr>, marks: seq<bool>)
    requires |ps| == |marks|
    ensures HeightsOf(heap, Picked(ps, marks)) == Picked(HeightsOf(heap, ps), marks)
  {
    if ps != [] {
      PickedHeights(heap, ps[1..], marks[1..]);
      assert HeightsOf(heap, ps)[1..] == HeightsOf(heap, ps[1..]);
    }
  }

  /** The valid orders of a list in non-increasing proof height, planned into transactions:
      each exactly once, in that order still, within the limits. */
  lemma ValidOrdersArePlanned(heap: seq<Order>, orders: seq<Ptr>, verdicts: seq<Verdict>,
                              maxOrdersPerTx: nat, numFulfillers: nat)
    requires |verdicts| == |orders| && maxOrdersPerTx >= 1 && numFulfillers >= 1
    requires NonIncreasing(HeightsOf(heap, orders))
    ensures var valid := Picked(orders, ValidMarks(verdicts));
            var batches := Batches(valid, maxOrdersPerTx, numFulfillers);
            var txs := Planned(batches, maxOrdersPerTx);
            && |batches| <= 2 * numFulfillers - 1
            && Flatten(txs) == valid && NonIncreasing(HeightsOf(heap, Flatten(txs)))
            && forall i :: 0 <= i < |txs| ==> 1 <= |txs[i]| <= maxOrdersPerTx
  {
    hide Batches, Planned, Picked;
    DispatchIsCompleteAndBounded(Picked(orders, ValidMarks(verdicts)), maxOrdersPerTx, numFulfillers);
    PickedKeepsOrder(HeightsOf(heap, orders), ValidMarks(verdicts));
    PickedHeights(heap, orders, ValidMarks(verdicts));
  }

  /** One turn of `enqueueValidOrders`. */
  method EnqueueValidOrders(t: OrderTracker, c: NodeClient, orders: seq<Ptr>, replies: seq<NodeReply>,
                            maxOrdersPerTx: nat, numFulfillers: nat)
    returns (out: seq<seq<Ptr>>, ghost queries: seq<Query>, ghost verdicts: seq<Verdict>,
             ghost fates: seq<Fate>, ghost steps: seq<seq<Step>>)
    requires t.Valid() && c.Valid() && Distinct(orders) && AllAt(t.Now(), orders, 0, Checking)
    requires Within(orders, t.pool.heap) && Answerable(c.rollapps, t.pool.heap, orders, replies)
    requires maxOrdersPerTx >= 1 && numFulfillers >= 1
    modifies t, t.pool, t.lps.Values, c
    ensures t.Valid() && c.Valid() && t.lps == old(t.lps) && c.calls == old(c.calls) + queries
    ensures AskedUpTo(c.rollapps, old(c.calls), old(t.pool.heap), orders, replies, queries, verdicts)
    ensures |queries| == |verdicts| == |fates| == |steps| == |orders|
    ensures forall k :: 0 <= k < |orders| ==>
              && queries[k].rollapp == old(t.pool.heap)[orders[k]].rollappId
              && queries[k].height == old(t.pool.heap)[orders[k]].proofHeight
              && queries[k].expected == if old(t.pool.heap)[orders[k]].settlementValidated then 2 else 1
    ensures forall k :: 0 <= k < |orders| ==> Answered(steps[k], orders[k], verdicts[k], fates[k])
    ensures out == Batches(Picked(orders, ValidMarks(verdicts)), maxOrdersPerTx, numFulfillers)
    ensures var all := Flatten(steps) + Sends(Picked(orders, ValidMarks(verdicts)))
                         + AddBacks(Picked(orders, RetryMarks(fates)));
            Exec(old(t.Now()), all) == Some(t.Now()) && t.history == old(t.history) + all
  {
    hide *;
    ghost var s, past := t.Now(), t.history;
    t.Past();
    t.HeapIsHeap();
    var valid, retry;
    valid, retry, queries, verdicts, fates, steps := GetValidAndRetryOrders(t, c, orders, replies);
    ghost var checked := t.Now();
    t.HeapIsHeap();
    CheckedFacts(s, checked, orders, verdicts, valid, retry, fates, steps);
    PickedDistinct(orders, ValidMarks(verdicts));
    out := SendBatches(t, valid, maxOrdersPerTx, numFulfillers);
    ghost var sentOut := t.Now();
    t.HeapIsHeap();
    ExecThen(s, Flatten(steps), checked, Sends(valid), sentOut);
    NoneInHand(t.cfg, past, s, orders, RetryMarks(fates));
    RetriesArePooled(s.heap, checked.heap, t.pool.heap, orders, RetryMarks(fates));
    PutBack(t, retry);
    ExecThen(s, Flatten(steps) + Sends(valid), sentOut, AddBacks(retry), t.Now());
    assert past + Flatten(steps) + Sends(valid) + AddBacks(retry)
        == past + (Flatten(steps) + Sends(valid) + AddBacks(retry));
  }

  lemma CheckedFacts(s: State, t: State, orders: seq<Ptr>, verdicts: seq<Verdict>, valid: seq<Ptr>, retry: seq<Ptr>,
                     fates: seq<Fate>, steps: seq<seq<Step>>)
    requires |verdicts| == |orders| && CheckedUpTo(s, t, orders, verdicts, |orders|, valid, retry, fates, steps)
    ensures |fates| == |steps| == |orders| && Exec(s, Flatten(steps)) == Some(t)
    ensures forall k :: 0 <= k < |orders| ==> Answered(steps[k], orders[k], verdicts[k], fates[k])
    ensures valid == Picked(orders, ValidMarks(verdicts)) && retry == Picked(orders, RetryMarks(fates))
    ensures AllAt(t, valid, 0, Validated) && SameOrders(s.heap, t.heap)
  {
    hide Exec, Answered, At, SameOrders;
    assert orders[..|orders|] == orders;
  }

  /** Orders under check are not in hand. */
  lemma NoneInHand(cfg: Config, past: seq<Step>, s: State, orders: seq<Ptr>, marks: seq<bool>)
    requires Exec(Init(cfg), past) == Some(s) && AllAt(s, orders, 0, Checking) && |orders| == |marks|
    ensures var r := Picked(orders, marks); forall i :: 0 <= i < |r| ==> r[i] !in s.inHand
  {
    hide Exec, Orderly;
    ReachedIsOrderly(cfg, past, s);
    PickedMembers(orders, marks);
    var r := Picked(orders, marks);
    forall i | 0 <= i < |r| ensures r[i] !in s.inHand {
      assert r[i] in orders;
      assert At(s, r[i], Checking);
      CheckedIsNotInHand(s, r[i]);
    }
  }

  lemma CheckedIsNotInHand(s: State, p: Ptr)
    requires Orderly(s) && At(s, p, Checking)
    ensures p !in s.inHand
  {
    assert TidyAt(s, p);
  }

  lemma AllAtWithin(s: State, ps: seq<Ptr>, stage: Stage)
    requires AllAt(s, ps, 0, stage)
    ensures Within(ps, s.heap)
  {
    forall i | 0 <= i < |ps| ensures ps[i] < |s.heap| {
      assert At(s, ps[i], stage);
    }
  }

  lemma RetriesArePooled(a: seq<Order>, b: seq<Order>, c: seq<Order>, orders: seq<Ptr>, marks: seq<bool>)
    requires |orders| == |marks| && Within(orders, a) && SameOrders(a, b) && SameOrders(b, c)
    ensures Within(Picked(orders, marks), c)
  {
    PickedMembers(orders, marks);
    var r := Picked(orders, marks);
    forall i | 0 <= i < |r| ensures r[i] < |c| {
      assert r[i] in orders;
    }
  }

  /** `checkOrders`: at most a hundred unmarked orders, the highest proof first. */
  method CheckOrders(t: OrderTracker) returns (orders: seq<Ptr>, ghost popped: seq<Ptr>)
    requires t.Valid()
    modifies t, t.pool, t.lps.Values
    ensures t.Valid() && t.lps == old(t.lps)
    ensures Exec(old(t.Now()), Pops(popped)) == Some(t.Now()) && t.history == old(t.history) + Pops(popped)
    ensures multiset(orders) == multiset(popped) && |orders| <= NEW_ORDER_BUFFER_SIZE
    ensures Distinct(orders) && AllAt(t.Now(), orders, 0, Checking)
    ensures NonIncreasing(HeightsOf(t.pool.heap, orders))
    ensures |t.pool.heap| == |old(t.pool.heap)|
    ensures forall i :: 0 <= i < |orders| ==>
              && orders[i] < |t.pool.heap| && t.pool.heap[orders[i]].checking
              && !old(t.pool.heap)[orders[i]].checking && !old(t.pool.heap)[orders[i]].valid
    ensures forall i, j :: 0 <= i < j < |orders| ==>
              t.pool.heap[orders[i]].proofHeight >= t.pool.heap[orders[j]].proofHeight
    ensures forall q :: 0 <= q < |t.pool.heap| && q !in orders ==> t.pool.heap[q] == old(t.pool.heap)[q]
  {
    hide OrderTracker.Valid, Exec, At, Distinct;
    var list := t.PopOrders(NEW_ORDER_BUFFER_SIZE);
    popped := list;
    var heap := t.pool.heap;
    SortBySorts(list, Higher(heap));
    orders := SortBy(list, Higher(heap));
    SortedHeights(heap, orders);
    PermutedAt(t.Now(), list, orders);
    SameElements(list, orders);
    HeightsMeant(heap, orders);
  }

  lemma SameElements(list: seq<Ptr>, orders: seq<Ptr>)
    requires multiset(orders) == multiset(list)
    ensures forall p :: p in orders <==> p in list
    ensures forall i :: 0 <= i < |orders| ==> exists j :: 0 <= j < |list| && list[j] == orders[i]
  {
    assert forall p :: p in orders <==> p in multiset(orders);
    assert forall p :: p in list <==> p in multiset(list);
    forall i | 0 <= i < |orders| ensures exists j :: 0 <= j < |list| && list[j] == orders[i] {
      assert orders[i] in orders;
    }
  }

  lemma HeightsMeant(heap: seq<Order>, ps: seq<Ptr>)
    requires NonIncreasing(HeightsOf(heap, ps))
    ensures forall i, j :: 0 <= i < j < |ps| && ps[i] < |heap| && ps[j] < |heap| ==>
              heap[ps[i]].proofHeight >= heap[ps[j]].proofHeight
  {
    forall i, j | 0 <= i < j < |ps| && ps[i] < |heap| && ps[j] < |heap|
      ensures heap[ps[i]].proofHeight >= heap[ps[j]].proofHeight {
      assert HeightsOf(heap, ps)[i] >= HeightsOf(heap, ps)[j];
    }
  }

  const NEW_ORDER_BUFFER_SIZE: nat := 100

  /** The comparison `checkOrders` sorts by. */
  function Higher(heap: seq<Order>): (Ptr, Ptr) -> bool {
    (p: Ptr, q: Ptr) => HeightOf(heap, p) > HeightOf(heap, q)
  }

  lemma SortedHeights(heap: seq<Order>, ps: seq<Ptr>)
    requires SortedBy(ps, Higher(heap))
    ensures NonIncreasing(HeightsOf(heap, ps))
  {
    forall i, j | 0 <= i < j < |ps| ensures HeightOf(heap, ps[i]) >= HeightOf(heap, ps[j]) {
      assert !Higher(heap)(ps[j], ps[i]);
    }
  }

  lemma PermutedAt(s: State, list: seq<Ptr>, orders: seq<Ptr>)
    requires multiset(orders) == multiset(list) && Distinct(list) && AllAt(s, list, 0, Checking)
    ensures |orders| == |list| && Distinct(orders) && AllAt(s, orders, 0, Checking)
  {
    assert |orders| == |multiset(orders)| && |list| == |multiset(list)|;
    forall i, j | 0 <= i < j < |orders| ensures orders[i] != orders[j] {
      DistinctOnce(list, orders[i]);
      if orders[i] == orders[j] {
        TwiceCounts(orders, i, j);
      }
    }
    forall i | 0 <= i < |orders| ensures At(s, orders[i], Checking) {
      assert orders[i] in multiset(orders);
      assert orders[i] in list;
    }
  }

  lemma {:induction false} DistinctOnce(ps: seq<Ptr>, p: Ptr)
    requires Distinct(ps)
    ensures multiset(ps)[p] <= 1
  {
    if ps != [] {
      DistinctOnce(ps[1..], p);
      assert ps == [ps[0]] + ps[1..];
      if ps[0] == p {
        assert p !in ps[1..];
      }
    }
  }

  lemma TwiceCounts(ps: seq<Ptr>, i: nat, j: nat)
    requires i < j < |ps| && ps[i] == ps[j]
    ensures multiset(ps)[ps[i]] >= 2
  {
    assert ps == ps[..j] + [ps[j]] + ps[j + 1..];
    assert ps[i] in ps[..j] && ps[i] in multiset(ps[..j]);
  }

  /** `trackOrders`, up to the check it starts. */
  method TrackOrders(t: OrderTracker, ps: seq<Ptr>)
    requires t.Valid() && Within(ps, t.pool.heap)
    modifies t, t.pool, t.lps.Values
    ensures t.Valid() && t.lps == old(t.lps) && t.pool.heap == old(t.pool.heap)
    ensures Exec(old(t.Now()), Upserts(ps)) == Some(t.Now()) && t.history == old(t.history) + Upserts(ps)
  {
    hide OrderTracker.Valid, OrderTracker.AddressKeyed, OrderTracker.Table, Sound, Exec;
    ghost var s := t.Now();
    t.Past();
    UpsertRun(s, ps);
    SoundRun(s, Upserts(ps));
    SoundHasCopies(s);
    t.UpsertOrders(ps);
    t.Enter(t.copies, Offered(t.inHand, ps));
    t.Log(s, Upserts(ps));
  }
}
