/** Three short runs: funds stay reserved for an order that is nowhere, or for nothing at all, and an
    order stays in the pool for good. */
module ConcreteRuns {
  import opened SdkCoins
  import opened LpModel
  import opened Protocol
  import opened InFlight
  import opened Links
  import opened Money
  import opened MoneyTheorems
  import opened LostFunds
  import opened StuckOrders
  import opened Traces

  const CONFIG := Config({"rollapp"}, 0)

  /** So many units of the one denom. */
  function D(n: nat): Coins {
    if n == 0 then map[] else map["adym" := n]
  }

  function TheLp(balance: nat, reserved: nat): LpVal {
    LpVal("lp", map["rollapp" := Criteria({}, map[], D(1000), 0, 0, false)], Funds(D(balance), D(reserved)))
  }

  /** The one order of these runs as the chain has it, and as it stands once the LP took it. */
  const FRESH := Order("order", "rollapp", D(10), 20, Coin("adym", 1), 7, false, 0, "", false, false)

  function Taken(checking: bool, valid: bool): Order {
    FRESH.(lpAddress := "lp", checking := checking, valid := valid)
  }

  lemma Sums(m: nat, n: nat)
    ensures Add(D(m), D(n)) == D(m + n)
    ensures IsAllGTE(D(m), D(n)) <==> m >= n
    ensures SubOrEmpty(D(m), D(n)) == if m >= n then D(m - n) else D(0)
  {
    SameAmounts(Add(D(m), D(n)), D(m + n));
    SameAmounts(SubOrEmpty(D(m), D(n)), if m >= n then D(m - n) else D(0));
  }

  lemma HasRoom(balance: nat, reserved: nat)
    requires reserved + 10 <= balance
    ensures Funds(D(balance), D(reserved)).Has(D(10))
    ensures Funds(D(balance), D(reserved)).Reserve(D(10)) == Funds(D(balance), D(reserved + 10))
  {
    Sums(reserved, 10);
    HasMeansRoom(Funds(D(balance), D(reserved)), D(10));
    hide Funds.Has, Add, SubOrEmpty, IsAllGTE;
  }

  /** The LP takes the order while it has room. */
  lemma LpTakes(balance: nat, reserved: nat)
    requires reserved + 10 <= balance
    ensures Eligible(TheLp(balance, reserved), FRESH)
  {
    HasRoom(balance, reserved);
    FeeIsEnough();
    WithinLimit();
    hide D, Funds.Has, Funds.Reserve, MinFee, IsAllGTE;
  }

  lemma WithinLimit()
    ensures IsAllGTE(D(1000), FRESH.price) && FRESH.price == D(10)
  {}

  lemma FeeIsEnough()
    ensures MinFee(20, 0) == 0
  {
    MinFeeIsExact(20, 0);
  }

  // ---------------------------------------------------------------- up to the fulfiller

  /** A state with the one order, pooled. */
  function Pooled(o: Order, copies: seq<Stage>, sent: set<OrderId>): State {
    State(CONFIG, [o], map["order" := 0], map["lp" := TheLp(100, 10)], [copies], {},
          [Entry("lp", D(10), Open)], map[0 := 0], map["lp" := D(100)], sent)
  }

  function Installed(): State {
    Init(CONFIG).(lps := map["lp" := TheLp(100, 0)], base := map["lp" := D(100)])
  }

  lemma InstallStep()
    ensures Next(Init(CONFIG), Install(TheLp(100, 0)), Installed())
  {
    Sums(100, 0);
    assert Spent([], "lp") == D(0);
  }

  lemma AcceptStep()
    ensures Next(Installed(), Accept(FRESH, "lp"), InHand())
  {
    HasRoom(100, 0);
    LpTakes(100, 0);
    AcceptIs(Installed(), FRESH, "lp");
    hide Eligible, Funds.Reserve, D, Apply;
  }

  lemma SeatStep()
    ensures Next(InHand(), Upsert(0),
                 Pooled(Taken(false, false), [], {}))
  {}

  /** With one order, what an update of its entry and its copies comes to. */
  lemma OneOrder(o: Order, x: Order, c: seq<Stage>, d: seq<Stage>)
    ensures [o][0 := x] == [x] && [c][0 := d] == [d]
  {}

  lemma PopStep()
    ensures Next(Pooled(Taken(false, false), [], {}), Pop(0), Pooled(Taken(true, false), [Checking], {}))
  {
    OneOrder(Taken(false, false), Taken(true, false), [], [Checking]);
    assert [] + [Checking] == [Checking];
    PopIs(Pooled(Taken(false, false), [], {}), 0);
    hide D, TheLp, Enabled, Apply;
  }

  lemma ValidateStep()
    ensures Next(Pooled(Taken(true, false), [Checking], {}), Validate(0), Pooled(Taken(true, true), [Validated], {}))
  {
    OneOrder(Taken(true, false), Taken(true, true), [Checking], [Validated]);
    assert Minus([Checking], Checking) + [Validated] == [Validated];
    CheckingIs(Pooled(Taken(true, false), [Checking], {}), 0);
    hide D, Minus, TheLp, Enabled, Apply;
  }

  lemma DispatchStep()
    ensures Next(Pooled(Taken(true, true), [Validated], {}), Dispatch(0), Pooled(Taken(true, true), [Sent], {"order"}))
  {
    OneOrder(Taken(true, true), Taken(true, true), [Validated], [Sent]);
    assert Minus([Validated], Validated) + [Sent] == [Sent];
    WorkIs(Pooled(Taken(true, true), [Validated], {}), 0);
    hide D, Minus, TheLp, Enabled, Apply;
  }

  lemma TakeStep()
    ensures Next(Pooled(Taken(true, true), [Sent], {"order"}), Take(0), AtWork())
  {
    OneOrder(Taken(true, true), Taken(true, true), [Sent], [Working]);
    assert Minus([Sent], Sent) + [Working] == [Working];
    WorkIs(Pooled(Taken(true, true), [Sent], {"order"}), 0);
    hide D, TheLp, Minus, Enabled, Apply;
  }

  /** Taken in, not yet pooled. */
  function InHand(): State {
    Pooled(Taken(false, false), [], {}).(pool := map[], inHand := {0})
  }

  function AtWork(): State { Pooled(Taken(true, true), [Working], {"order"}) }

  // ---------------------------------------------------------------- runs, step by step

  lemma MoreSteps(states: seq<State>, steps: seq<Step>, st: Step, t: State)
    requires IsRun(CONFIG, states, steps) && Next(states[|steps|], st, t)
    ensures IsRun(CONFIG, states + [t], steps + [st])
    ensures SteadyRun(CONFIG, states, steps) && Steady(states[|steps|], st) ==>
              SteadyRun(CONFIG, states + [t], steps + [st])
  {
    hide Enabled, Apply, Steady;
    var (more, all) := (states + [t], steps + [st]);
    forall i | 0 <= i < |all| ensures Next(more[i], all[i], more[i + 1]) {
      assert i < |steps| ==> Next(states[i], steps[i], states[i + 1]);
    }
    if SteadyRun(CONFIG, states, steps) && Steady(states[|steps|], st) {
      forall i | 0 <= i < |all| ensures SteadyAt(more, all, i) {
        assert i < |steps| ==> SteadyAt(states, steps, i);
      }
    }
  }

  lemma OneStep(states: seq<State>, steps: seq<Step>, st: Step, t: State) returns (more: seq<State>, all: seq<Step>)
    requires SteadyRun(CONFIG, states, steps) && Next(states[|steps|], st, t) && Steady(states[|steps|], st)
    ensures SteadyRun(CONFIG, more, all) && all == steps + [st] && more[|all|] == t
  {
    hide Enabled, Apply, Steady;
    MoreSteps(states, steps, st, t);
    more, all := states + [t], steps + [st];
  }

  lemma ToCheck() returns (states: seq<State>, steps: seq<Step>)
    ensures SteadyRun(CONFIG, states, steps) && states[|steps|] == Pooled(Taken(true, false), [Checking], {})
  {
    hide Enabled, Apply, Owed;
    states, steps := [Init(CONFIG)], [];
    InstallStep();
    FreshLedger();
    states, steps := OneStep(states, steps, Install(TheLp(100, 0)), Installed());
    AcceptStep();
    states, steps := OneStep(states, steps, Accept(FRESH, "lp"), InHand());
    SeatStep();
    states, steps := OneStep(states, steps, Upsert(0), Pooled(Taken(false, false), [], {}));
    PopStep();
    states, steps := OneStep(states, steps, Pop(0), Pooled(Taken(true, false), [Checking], {}));
  }

  lemma ToWork() returns (states: seq<State>, steps: seq<Step>)
    ensures SteadyRun(CONFIG, states, steps) && states[|steps|] == AtWork()
  {
    hide Enabled, Apply;
    states, steps := ToCheck();
    ValidateStep();
    states, steps := OneStep(states, steps, Validate(0), Pooled(Taken(true, true), [Validated], {}));
    DispatchStep();
    states, steps := OneStep(states, steps, Dispatch(0), Pooled(Taken(true, true), [Sent], {"order"}));
    TakeStep();
    states, steps := OneStep(states, steps, Take(0), AtWork());
  }

  lemma FreshLedger()
    ensures Init(CONFIG).ledger == [] && Owed([], TheLp(100, 0).address) == map[]
  {}

  // ---------------------------------------------------------------- an order read twice

  /** The same order, read again from its event while the first is at work. */
  function Twice(hands: set<Ptr>): State {
    AtWork().(heap := [Taken(true, true), Taken(false, false)], copies := [[Working], []], inHand := hands,
              lps := map["lp" := TheLp(100, 20)],
              ledger := [Entry("lp", D(10), Open), Entry("lp", D(10), Open)], link := map[0 := 0, 1 := 1])
  }

  lemma LpReserves(balance: nat, reserved: nat, more: nat)
    ensures SetFunds(map["lp" := TheLp(balance, reserved)], "lp", Funds(D(balance), D(more)))
         == map["lp" := TheLp(balance, more)]
  {
    hide D;
  }

  lemma ReservesAgain()
    ensures Reserved(AtWork(), 1, "lp", D(10))
         == AtWork().(lps := map["lp" := TheLp(100, 20)], link := map[0 := 0, 1 := 1],
                      ledger := [Entry("lp", D(10), Open), Entry("lp", D(10), Open)])
  {
    HasRoom(100, 10);
    LpReserves(100, 10, 20);
    assert TheLp(100, 10).funds == Funds(D(100), D(10));
    assert [Entry("lp", D(10), Open)] + [Entry("lp", D(10), Open)]
        == [Entry("lp", D(10), Open), Entry("lp", D(10), Open)];
    assert map[0 as Ptr := 0 as nat][1 := 1] == map[0 := 0, 1 := 1];
    hide Funds.Reserve, SetFunds, D, Taken;
  }

  lemma SecondOrder()
    ensures [Taken(true, true)] + [Assign(FRESH, map["lp" := TheLp(100, 10)], "lp")]
         == [Taken(true, true), Taken(false, false)]
    ensures [[Working]] + [[]] == [[Working], []] && {} + {1 as Ptr} == {1}
  {}

  lemma AcceptAgainStep()
    ensures Next(AtWork(), Accept(FRESH, "lp"), Twice({1}))
  {
    LpTakes(100, 10);
    assert Enabled(AtWork(), Accept(FRESH, "lp"));
    AcceptIs(AtWork(), FRESH, "lp");
    ReservesAgain();
    SecondOrder();
    hide Eligible, Reserved, D, Apply;
  }

  lemma SkippedStep()
    ensures Next(Twice({1}), Upsert(1), Twice({}))
  {
    UpsertStepIs(Twice({1}), 1);
    assert {1 as Ptr} - {1} == {};
    hide D, TheLp, Enabled, Apply;
  }

  /** The first order is fulfilled; the second is nowhere. */
  function Paid(copies: seq<Stage>): State {
    Twice({}).(copies := [copies, []], lps := map["lp" := TheLp(90, 10)],
               ledger := [Entry("lp", D(10), Debited), Entry("lp", D(10), Open)], link := map[1 := 1])
  }

  lemma Pays()
    ensures DebitFunds(map["lp" := TheLp(100, 20)], "lp", D(10)) == map["lp" := TheLp(90, 10)]
  {
    Sums(100, 10);
    Sums(20, 10);
    hide D, SubOrEmpty;
  }

  lemma FirstIsClosed(places: seq<seq<Stage>>)
    ensures Closed(Twice({}).(copies := places), 0, Debited)
         == Twice({}).(copies := places, ledger := [Entry("lp", D(10), Debited), Entry("lp", D(10), Open)],
                       link := map[1 := 1])
  {
    OneOfTwo(Entry("lp", D(10), Open), Entry("lp", D(10), Debited));
    assert map[0 := 0, 1 := 1] - {0} == map[1 := 1];
    hide D, TheLp, AtWork;
  }

  lemma OneOfTwo(e: Entry, f: Entry)
    ensures [e, e][0 := f] == [f, e]
  {}

  lemma FirstMoves(c: seq<Stage>, d: seq<Stage>, e: seq<Stage>)
    ensures [c, d][0 := e] == [e, d]
  {}

  lemma DebitStep()
    ensures Next(Twice({}), Step.Debit(0), Paid([Settled]))
  {
    Pays();
    FirstMoves([Working], [], [Settled]);
    assert Minus([Working], Working) + [Settled] == [Settled];
    FirstIsClosed([[Settled], []]);
    FulfilIs(Twice({}), 0, false);
    hide D, TheLp, Closed, DebitFunds, Minus, Enabled, Apply;
  }

  lemma SettleStep()
    ensures Next(Paid([Settled]), Step.Settle(0), Paid([]).(pool := map[], sent := {}))
  {
    FirstMoves([Settled], [], []);
    assert Minus([Settled], Settled) == [];
    PoolEmpties();
    WorkIs(Paid([Settled]), 0);
    hide D, TheLp, Minus, Enabled, Apply;
  }

  lemma PoolEmpties()
    ensures map["order" := 0 as Ptr] - {"order"} == map[] && {"order"} - {"order"} == {}
  {}

  /** An order that is read again while it is marked reserves funds a second time, and the pool does not
      take the second: once everything is settled and the pool is empty, funds are still reserved. */
  lemma SkippedOrderLeaks() returns (states: seq<State>, steps: seq<Step>)
    ensures BalancedRun(CONFIG, states, steps)
    ensures var s := states[|steps|];
            Idle(s) && s.pool == map[] && "lp" in s.lps && s.lps["lp"].funds.reserved == map["adym" := 10]
  {
    hide Enabled, Apply, Idle, BalancedAt, AtWork, Twice, Paid, IsRun, SteadyAt;
    states, steps := ToWork();
    AcceptAgainStep();
    states, steps := OneStep(states, steps, Accept(FRESH, "lp"), Twice({1}));
    SkippedStep();
    states, steps := OneStep(states, steps, Upsert(1), Twice({}));
    DebitStep();
    states, steps := OneStep(states, steps, Step.Debit(0), Paid([Settled]));
    SettleStep();
    states, steps := OneStep(states, steps, Step.Settle(0), Paid([]).(pool := map[], sent := {}));
    SteadyRunIsBalanced(CONFIG, states, steps);
    NothingToDo();
    RunEnds(states, steps);
  }

  lemma RunEnds(states: seq<State>, steps: seq<Step>)
    requires IsRun(CONFIG, states, steps)
    ensures |states| == |steps| + 1
  {}

  lemma NothingToDo()
    ensures var s := Paid([]).(pool := map[], sent := {});
            Idle(s) && "lp" in s.lps && s.lps["lp"].funds.reserved == map["adym" := 10]
  {}

  // ---------------------------------------------------------------- a price overwritten at work

  function Cheaper(o: Order): Order {
    o.(fee := Coin("adym", 7), price := D(4))
  }

  lemma WriteStep()
    ensures Next(AtWork(), Write(0, Coin("adym", 7), D(4)), AtWork().(heap := [Cheaper(Taken(true, true))]))
  {
    OneOrder(Taken(true, true), Cheaper(Taken(true, true)), [], []);
    hide D;
  }

  /** After the failure. */
  function GivenBack(copies: seq<Stage>): State {
    AtWork().(heap := [Cheaper(Taken(true, true))], copies := [copies], lps := map["lp" := TheLp(100, 6)],
              ledger := [Entry("lp", D(10), Released)], link := map[])
  }

  lemma GivesBackLess()
    ensures ReleaseFunds(map["lp" := TheLp(100, 10)], "lp", D(4)) == map["lp" := TheLp(100, 6)]
  {
    Sums(10, 4);
    hide D, SubOrEmpty;
  }

  lemma OnlyOneIsClosed(s: State)
    requires s.ledger == [Entry("lp", D(10), Open)] && s.link == map[0 := 0]
    ensures Closed(s, 0, Released) == s.(ledger := [Entry("lp", D(10), Released)], link := map[])
  {
    hide D;
  }

  lemma FailStep()
    ensures Next(AtWork().(heap := [Cheaper(Taken(true, true))]), Step.Fail(0, false), GivenBack([Settled]))
  {
    GivesBackLess();
    OneOrder(FRESH, FRESH, [Working], [Settled]);
    assert Minus([Working], Working) + [Settled] == [Settled];
    OnlyOneIsClosed(AtWork().(heap := [Cheaper(Taken(true, true))], copies := [[Settled]]));
    FulfilIs(AtWork().(heap := [Cheaper(Taken(true, true))]), 0, false);
    hide D, TheLp, Closed, ReleaseFunds, Minus, Enabled, Apply;
  }

  lemma SettleCheaperStep()
    ensures Next(GivenBack([Settled]), Step.Settle(0), GivenBack([]).(pool := map[], sent := {}))
  {
    OneOrder(FRESH, FRESH, [Settled], []);
    assert Minus([Settled], Settled) == [];
    PoolEmpties();
    WorkIs(GivenBack([Settled]), 0);
    hide D, TheLp, Minus, Enabled, Apply;
  }

  /** An update that lowers the price of an order at work makes the release fall short: nothing is owed any
      more, and funds are still reserved. */
  lemma OverwrittenPriceLeaks() returns (states: seq<State>, steps: seq<Step>)
    ensures IsRun(CONFIG, states, steps)
    ensures var s := states[|steps|];
            && s.pool == map[] && "lp" in s.lps && Owed(s.ledger, "lp") == map[]
            && s.lps["lp"].funds.reserved == map["adym" := 6]
    ensures exists i :: 0 <= i < |steps| && steps[i].Write? && steps[|steps| - 2].Fail?
  {
    hide Enabled, Apply, Steady, SteadyAt, SteadyRun;
    states, steps := ToWork();
    var n := |steps|;
    assert IsRun(CONFIG, states, steps) by { IsARun(states, steps); }
    WriteStep();
    var (cheaper, write) := (AtWork().(heap := [Cheaper(Taken(true, true))]), Write(0, Coin("adym", 7), D(4)));
    MoreSteps(states, steps, write, cheaper);
    states, steps := states + [cheaper], steps + [write];
    FailStep();
    MoreSteps(states, steps, Step.Fail(0, false), GivenBack([Settled]));
    states, steps := states + [GivenBack([Settled])], steps + [Step.Fail(0, false)];
    SettleCheaperStep();
    MoreSteps(states, steps, Step.Settle(0), GivenBack([]).(pool := map[], sent := {}));
    states, steps := states + [GivenBack([]).(pool := map[], sent := {})], steps + [Step.Settle(0)];
    assert steps[n].Write?;
  }

  lemma IsARun(states: seq<State>, steps: seq<Step>)
    requires SteadyRun(CONFIG, states, steps)
    ensures IsRun(CONFIG, states, steps)
  {}

  // ---------------------------------------------------------------- an order that is not checked

  lemma StallStep()
    ensures Next(Pooled(Taken(true, false), [Checking], {}), Stall(0), Pooled(Taken(true, false), [], {}))
  {
    OneOrder(FRESH, FRESH, [Checking], []);
    assert Minus([Checking], Checking) == [];
    CheckingIs(Pooled(Taken(true, false), [Checking], {}), 0);
    hide D, TheLp, Minus, Enabled, Apply;
  }

  /** One validation error leaves an order stuck, with its funds. */
  lemma ValidationErrorSticks() returns (states: seq<State>, steps: seq<Step>)
    ensures BalancedRun(CONFIG, states, steps)
    ensures var s := states[|steps|];
            && Stuck(s, 0) && 0 in s.link && Idle(s)
            && "lp" in s.lps && s.lps["lp"].funds.reserved == map["adym" := 10]
  {
    hide Enabled, Apply, BalancedAt;
    states, steps := ToCheck();
    StallStep();
    states, steps := OneStep(states, steps, Stall(0), Pooled(Taken(true, false), [], {}));
    SteadyRunIsBalanced(CONFIG, states, steps);
  }
}
