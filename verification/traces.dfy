/** Lists of steps and where they lead: what ties a method over a batch to single-order steps. */
module Traces {
  import opened SdkCoins
  import opened LpModel
  import opened Protocol
  import opened InFlight
  import opened Links
  import opened Pool
  import opened LpFloor

  lemma ExecOne(s: State, steps: seq<Step>, t: State, st: Step, u: State)
    requires Exec(s, steps) == Some(t) && Next(t, st, u)
    ensures Exec(s, steps + [st]) == Some(u)
  {
    hide Enabled, Apply;
    assert (steps + [st])[..|steps|] == steps;
  }

  lemma NoSteps(s: State)
    ensures Exec(s, []) == Some(s)
  {}

  lemma ExecSingle(s: State, st: Step, t: State)
    requires Next(s, st, t)
    ensures Exec(s, [st]) == Some(t)
  {
    hide Enabled, Apply;
    assert Exec(s, []) == Some(s);
    ExecOne(s, [], s, st, t);
    assert [] + [st] == [st];
  }

  lemma ExecTwo(s: State, st1: Step, t: State, st2: Step, u: State)
    requires Next(s, st1, t) && Next(t, st2, u)
    ensures Exec(s, [st1, st2]) == Some(u)
  {
    hide Enabled, Apply;
    ExecSingle(s, st1, t);
    assert [st1] + [st2] == [st1, st2];
    ExecOne(s, [st1], t, st2, u);
  }

  lemma SingleExec(s: State, st: Step, t: State)
    requires Exec(s, [st]) == Some(t)
    ensures Next(s, st, t)
  {
    hide Enabled, Apply;
    assert [st][..0] == [] && Exec(s, []) == Some(s);
  }

  lemma TwoExec(s: State, st1: Step, st2: Step, u: State)
    requires Exec(s, [st1, st2]) == Some(u)
    ensures Enabled(s, st1) && Next(Apply(s, st1), st2, u)
  {
    hide Enabled, Apply;
    assert [st1, st2][..1] == [st1] && [st1][..0] == [] && Exec(s, []) == Some(s);
  }

  lemma ExecThen(s: State, xs: seq<Step>, t: State, ys: seq<Step>, u: State)
    requires Exec(s, xs) == Some(t) && Exec(t, ys) == Some(u)
    ensures Exec(s, xs + ys) == Some(u)
  {
    ExecConcat(s, xs, ys);
  }

  /** What every reachable state satisfies, with `Covers` for refreshed balances. */
  ghost predicate Sound(s: State) {
    FlightInv(s) && AllSolvent(s.lps)
  }

  lemma SoundStep(s: State, st: Step)
    requires Sound(s) && Enabled(s, st) && Covers(s, st)
    ensures Sound(Apply(s, st))
  {
    hide Enabled, Apply, FlightInv, AllSolvent, Covers;
    StepKeeps(s, st);
    StepSolvent(s, st);
  }

  /** Soundness through a run that refreshes no balance. */
  lemma {:induction false} SoundRun(s: State, steps: seq<Step>)
    requires Sound(s) && Exec(s, steps).Some? && forall st :: st in steps ==> !st.Refresh?
    ensures Sound(Exec(s, steps).value)
  {
    hide Sound, Enabled, Apply;
    if steps != [] {
      var init, last := steps[..|steps| - 1], steps[|steps| - 1];
      assert last in steps;
      SoundRun(s, init);
      SoundStep(Exec(s, init).value, last);
    }
  }

  /** What a list of steps leads to is a state of a run. */
  lemma ReachedIsOrderly(cfg: Config, steps: seq<Step>, s: State)
    requires Exec(Init(cfg), steps) == Some(s)
    ensures Orderly(s)
  {
    hide Orderly, Exec, IsRun;
    var states := ExecIsRun(cfg, steps);
    RunOrderly(cfg, states, steps, |steps|);
  }

  // ---------------------------------------------------------------- what single steps come to

  lemma AcceptIs(s: State, o: Order, a: Addr)
    requires !o.Flagged() && o.lpAddress == "" && BestChoice(s.lps, o, a)
    ensures o.rollappId in s.lps[a].rollapps && Next(s, Accept(o, a), Accepted(s, o, a))
    ensures Covers(s, Accept(o, a))
  {
    hide Accepted;
  }

  lemma AcceptedParts(s: State, o: Order, a: Addr)
    requires a in s.lps && o.rollappId in s.lps[a].rollapps
    ensures var (n, terms) := (|s.heap|, s.lps[a].rollapps[o.rollappId]);
            Accepted(s, o, a)
              == Reserved(s, n, a, o.price).(
                   heap := s.heap + [o.(lpAddress := a, settlementValidated := terms.settlementValidated,
                                        operatorFeePart := terms.operatorFeeShare)],
                   copies := s.copies + [[]], inHand := s.inHand + {n})
  {}

  lemma KeepIs(s: State, p: Ptr)
    requires At(s, p, Checking) && Keeps(s.lps, s.heap[p])
    requires s.heap[p].lpAddress in s.lps && s.heap[p].rollappId in s.lps[s.heap[p].lpAddress].rollapps
    ensures Next(s, Step.Keep(p), s.(heap := s.heap[p := Refreshed(s.heap[p], s.lps)])) && Covers(s, Step.Keep(p))
  {
    hide Keeps;
  }

  lemma ReselectIs(s: State, p: Ptr, a: Addr)
    requires At(s, p, Checking) && !Keeps(s.lps, s.heap[p]) && BestChoice(s.lps, s.heap[p], a)
    ensures s.heap[p].rollappId in s.lps[a].rollapps && Next(s, Step.Reselect(p, a), Reselected(s, p, a))
    ensures Covers(s, Step.Reselect(p, a))
    ensures var t := Reselected(s, p, a);
            t.copies == s.copies && t.inHand == s.inHand && |t.heap| == |s.heap| && t.heap[p].lpAddress == a
  {
    hide Reserved, Keeps, MinFee, Funds.Has, IsAllGTE, IsAnyGT;
  }

  lemma UpsertStepIs(s: State, p: Ptr)
    requires p < |s.heap|
    ensures Next(s, Upsert(p), Upserted(s, p))
  {
    hide Upserted;
  }

  lemma CheckingIs(s: State, p: Ptr)
    requires At(s, p, Checking)
    ensures Next(s, Step.Stall(p), Leave(s, p, Checking)) && Next(s, Step.Retry(p), Retried(s, p))
    ensures Next(s, Step.Validate(p), FoundValid(s, p)) && Next(s, Step.Evict(p), Evicted(s, p))
  {
    hide Leave, Retried, FoundValid, Evicted;
  }

  lemma EvictingIs(s: State, p: Ptr)
    requires At(s, p, Evicting)
    ensures Next(s, Step.EvictRelease(p), ReleaseOrder(Leave(s, p, Evicting), p))
  {
    hide ReleaseOrder;
  }

  lemma WorkIs(s: State, p: Ptr)
    ensures At(s, p, Validated) ==> Next(s, Step.Dispatch(p), Dispatched(s, p))
    ensures At(s, p, Sent) ==> Next(s, Step.Take(p), Move(s, p, Sent, Working))
    ensures At(s, p, Working) ==> Next(s, Step.Abandon(p), Leave(s, p, Working))
    ensures At(s, p, Settled) ==> Next(s, Step.Settle(p), Handled(s, p))
  {
    hide Dispatched, Move, Leave, Handled;
  }

  lemma FulfilIs(s: State, p: Ptr, rpc: bool)
    requires At(s, p, Working)
    ensures Next(s, Step.Debit(p), Fulfilled(s, p)) && Next(s, Step.Fail(p, rpc), Failed(s, p, rpc))
  {
    hide Fulfilled, Failed;
  }

  lemma WriteIs(s: State, p: Ptr, fee: Coin, price: Coins)
    requires p < |s.heap|
    ensures Next(s, Write(p, fee, price), s.(heap := s.heap[p := s.heap[p].(fee := fee, price := price)]))
  {}

  lemma InstallIs(s: State, lp: LpVal)
    requires lp.funds.reserved == map[] && Granted(s.cfg, lp)
    ensures Next(s, Step.Install(lp), Installed(s, lp)) && Covers(s, Step.Install(lp))
  {}

  lemma RefreshIs(s: State, a: Addr, b: Coins)
    requires a in s.lps
    ensures Next(s, Step.Refresh(a, b), Rebalanced(s, a, b))
  {
    hide Rebalanced;
  }

  lemma RevokeIs(s: State, a: Addr)
    requires a in s.lps
    ensures Next(s, Step.Revoke(a), s.(lps := s.lps - {a})) && Covers(s, Step.Revoke(a))
  {}

  function Upserts(ps: seq<Ptr>): seq<Step> {
    seq(|ps|, i requires 0 <= i < |ps| => Upsert(ps[i]))
  }

  function AddBacks(ps: seq<Ptr>): seq<Step> {
    seq(|ps|, i requires 0 <= i < |ps| => AddBack(ps[i]))
  }

  function Pops(ps: seq<Ptr>): seq<Step> {
    seq(|ps|, i requires 0 <= i < |ps| => Pop(ps[i]))
  }

  /** Who is still in hand after the list was offered to the pool. */
  function Offered(hands: set<Ptr>, ps: seq<Ptr>): set<Ptr> {
    if ps == [] then hands else Offered(hands, ps[..|ps| - 1]) - {ps[|ps| - 1]}
  }

  lemma {:induction false} UpsertRun(s: State, ps: seq<Ptr>)
    requires Within(ps, s.heap)
    ensures Exec(s, Upserts(ps)) == Some(s.(pool := UpsertAll(s.pool, s.heap, ps), inHand := Offered(s.inHand, ps)))
  {
    if ps != [] {
      var init, last := ps[..|ps| - 1], ps[|ps| - 1];
      UpsertRun(s, init);
      assert Upserts(ps) == Upserts(init) + [Upsert(last)];
      var t := s.(pool := UpsertAll(s.pool, s.heap, init), inHand := Offered(s.inHand, init));
      ExecOne(s, Upserts(init), t, Upsert(last),
              s.(pool := UpsertAll(s.pool, s.heap, ps), inHand := Offered(s.inHand, ps)));
    }
  }

  lemma {:induction false} AddBackRun(s: State, ps: seq<Ptr>)
    requires Within(ps, s.heap) && forall i :: 0 <= i < |ps| ==> ps[i] !in s.inHand
    ensures Exec(s, AddBacks(ps)) == Some(s.(pool := AddAll(s.pool, s.heap, ps)))
  {
    if ps != [] {
      var init, last := ps[..|ps| - 1], ps[|ps| - 1];
      AddBackRun(s, init);
      assert AddBacks(ps) == AddBacks(init) + [AddBack(last)];
      var t := s.(pool := AddAll(s.pool, s.heap, init));
      ExecOne(s, AddBacks(init), t, AddBack(last), s.(pool := AddAll(s.pool, s.heap, ps)));
    }
  }

  /** The copies after a pop of the list. */
  function Checked(copies: seq<seq<Stage>>, ps: seq<Ptr>): (r: seq<seq<Stage>>)
    ensures |r| == |copies|
  {
    if ps == [] then copies
    else
      var r := Checked(copies, ps[..|ps| - 1]);
      var p := ps[|ps| - 1];
      if p < |r| then r[p := r[p] + [Checking]] else r
  }

  lemma {:induction false} CheckedAt(copies: seq<seq<Stage>>, ps: seq<Ptr>, p: Ptr)
    requires p < |copies| && Distinct(ps)
    ensures Checked(copies, ps)[p] == if p in ps then copies[p] + [Checking] else copies[p]
  {
    if ps != [] {
      var init := ps[..|ps| - 1];
      assert ps == init + [ps[|ps| - 1]];
      CheckedAt(copies, init, p);
    }
  }

  /** Popping a list of distinct unmarked entries is a run of pops. */
  lemma {:induction false} PopRun(s: State, ps: seq<Ptr>)
    requires |s.copies| == |s.heap| && Distinct(ps)
    requires forall i :: 0 <= i < |ps| ==> Poppable(s.heap, s.pool, ps[i])
    ensures Exec(s, Pops(ps)) == Some(s.(heap := MarkAll(s.heap, ps), copies := Checked(s.copies, ps)))
  {
    if ps != [] {
      var init, last := ps[..|ps| - 1], ps[|ps| - 1];
      PopRun(s, init);
      assert Pops(ps) == Pops(init) + [Pop(last)];
      assert last !in init;
      MarkAllAt(s.heap, init, last);
      assert Poppable(s.heap, s.pool, last);
      var t := s.(heap := MarkAll(s.heap, init), copies := Checked(s.copies, init));
      PopIs(t, last);
      ExecOne(s, Pops(init), t, Pop(last), s.(heap := MarkAll(s.heap, ps), copies := Checked(s.copies, ps)));
    }
    hide Exec, Enabled, Apply;
  }

  lemma PopIs(s: State, p: Ptr)
    requires |s.copies| == |s.heap| && Poppable(s.heap, s.pool, p)
    ensures Next(s, Pop(p), s.(heap := s.heap[p := s.heap[p].(checking := true)],
                               copies := s.copies[p := s.copies[p] + [Checking]]))
  {}
}
