/** The reservation ledger: what LP funds mean, over every interleaving. */
module Money {
  import opened SdkCoins
  import opened LpModel
  import opened Protocol
  import opened InFlight
  import opened Links

  // ---------------------------------------------------------------- totals under updates

  lemma TotalAppend(ledger: seq<Entry>, e: Entry, a: Addr, x: Status)
    ensures Total(ledger + [e], a, x)
         == if e.lp == a && e.status == x then Add(Total(ledger, a, x), e.amount) else Total(ledger, a, x)
  {
    assert (ledger + [e])[..|ledger|] == ledger;
  }

  /** What one entry adds to a total. */
  function Share(e: Entry, a: Addr, x: Status): Coins {
    if e.lp == a && e.status == x then e.amount else map[]
  }

  lemma AddSwap(a: Coins, b: Coins, c: Coins)
    ensures Add(Add(a, b), c) == Add(Add(a, c), b)
  {
    SameAmounts(Add(Add(a, b), c), Add(Add(a, c), b));
  }

  lemma TotalReplaceLast(rest: seq<Entry>, last: Entry, e: Entry, a: Addr, x: Status)
    ensures Add(Total(rest + [e], a, x), Share(last, a, x)) == Add(Total(rest + [last], a, x), Share(e, a, x))
  {
    TotalAppend(rest, e, a, x);
    TotalAppend(rest, last, a, x);
    AddNothing(Total(rest, a, x));
    AddNothing(Total(rest + [e], a, x));
    AddNothing(Total(rest + [last], a, x));
    AddSwap(Total(rest, a, x), Share(e, a, x), Share(last, a, x));
  }

  lemma {:induction false} TotalUpdate(ledger: seq<Entry>, k: nat, e: Entry, a: Addr, x: Status)
    requires k < |ledger|
    ensures Add(Total(ledger[k := e], a, x), Share(ledger[k], a, x)) == Add(Total(ledger, a, x), Share(e, a, x))
    decreases |ledger|
  {
    hide *;
    var n := |ledger| - 1;
    var (rest, last) := (ledger[..n], ledger[n]);
    assert ledger == rest + [last];
    if k < n {
      TotalUpdate(rest, k, e, a, x);
      assert ledger[k := e] == rest[k := e] + [last];
      TotalGrows(rest, rest[k := e], last, ledger[k], e, a, x);
    } else {
      assert ledger[k := e] == rest + [e];
      TotalReplaceLast(rest, last, e, a, x);
    }
  }

  lemma TotalGrows(rest: seq<Entry>, changed: seq<Entry>, last: Entry, was: Entry, e: Entry, a: Addr, x: Status)
    requires Add(Total(changed, a, x), Share(was, a, x)) == Add(Total(rest, a, x), Share(e, a, x))
    ensures Add(Total(changed + [last], a, x), Share(was, a, x)) == Add(Total(rest + [last], a, x), Share(e, a, x))
  {
    TotalAppend(rest, last, a, x);
    TotalAppend(changed, last, a, x);
    AddSwap(Total(changed, a, x), last.amount, Share(was, a, x));
    AddSwap(Total(rest, a, x), last.amount, Share(e, a, x));
    hide Total, Share, Add;
  }

  lemma AddNothing(a: Coins)
    ensures Add(a, map[]) == a
  {
    SameAmounts(Add(a, map[]), a);
  }

  /** Closing entry `k` takes its amount out of what its LP owes; debiting adds it to what was spent. */
  lemma CloseTotals(ledger: seq<Entry>, k: nat, x: Status)
    requires k < |ledger| && ledger[k].status == Open && x != Open
    ensures var (a, amount, after) := (ledger[k].lp, ledger[k].amount, ledger[k := ledger[k].(status := x)]);
            && Add(Owed(after, a), amount) == Owed(ledger, a)
            && Spent(after, a) == if x == Debited then Add(Spent(ledger, a), amount) else Spent(ledger, a)
  {
    var (a, amount, e) := (ledger[k].lp, ledger[k].amount, ledger[k].(status := x));
    TotalUpdate(ledger, k, e, a, Open);
    TotalUpdate(ledger, k, e, a, Debited);
    AddNothing(Owed(ledger, a));
    AddNothing(Spent(ledger, a));
    AddNothing(Spent(ledger[k := e], a));
  }

  // ---------------------------------------------------------------- LP funds against the ledger

  /** Reserved funds are what is owed; they are covered; balance and debits add up to the base. */
  ghost predicate Accounted(f: Funds, ledger: seq<Entry>, a: Addr, base: Coins) {
    f.reserved == Owed(ledger, a) && f.Solvent() && Add(f.balance, Spent(ledger, a)) == base
  }

  ghost predicate Books(lps: LpTable, ledger: seq<Entry>, base: map<Addr, Coins>) {
    forall a :: a in lps ==> a in base && Accounted(lps[a].funds, ledger, a, base[a])
  }

  lemma ReserveAccounted(f: Funds, ledger: seq<Entry>, a: Addr, base: Coins, amount: Coins)
    requires Accounted(f, ledger, a, base) && f.Has(amount)
    ensures Accounted(f.Reserve(amount), ledger + [Entry(a, amount, Open)], a, base)
  {
    ReserveKeepsSolvent(f, amount);
    TotalAppend(ledger, Entry(a, amount, Open), a, Open);
    TotalAppend(ledger, Entry(a, amount, Open), a, Debited);
  }

  lemma ReserveElsewhere(f: Funds, ledger: seq<Entry>, e: Entry, b: Addr, base: Coins)
    requires Accounted(f, ledger, b, base) && e.lp != b
    ensures Accounted(f, ledger + [e], b, base)
  {
    TotalAppend(ledger, e, b, Open);
    TotalAppend(ledger, e, b, Debited);
  }

  lemma ReserveBooks(lps: LpTable, ledger: seq<Entry>, base: map<Addr, Coins>, a: Addr, amount: Coins)
    requires Books(lps, ledger, base) && a in lps && lps[a].funds.Has(amount)
    ensures Books(SetFunds(lps, a, lps[a].funds.Reserve(amount)), ledger + [Entry(a, amount, Open)], base)
  {
    hide Accounted, Funds.Has, Funds.Reserve;
    ReserveAccounted(lps[a].funds, ledger, a, base[a], amount);
    forall b | b in lps && b != a ensures Accounted(lps[b].funds, ledger + [Entry(a, amount, Open)], b, base[b]) {
      ReserveElsewhere(lps[b].funds, ledger, Entry(a, amount, Open), b, base[b]);
    }
  }

  /** Closing an open reservation never takes a clamp: reserved funds and balance both cover it. */
  lemma OpenIsCovered(f: Funds, ledger: seq<Entry>, k: nat, base: Coins)
    requires k < |ledger| && ledger[k].status == Open
    requires Accounted(f, ledger, ledger[k].lp, base)
    ensures IsAllGTE(f.reserved, ledger[k].amount) && IsAllGTE(f.balance, ledger[k].amount)
  {
    CloseTotals(ledger, k, Released);
    AllGTE(f.balance, f.reserved);
    AllGTE(f.reserved, ledger[k].amount);
    AllGTE(f.balance, ledger[k].amount);
  }

  /** What subtraction undoes. */
  lemma SubUndoesAdd(a: Coins, b: Coins, c: Coins)
    requires Add(a, b) == c
    ensures SubOrEmpty(c, b) == a
  {
    AllGTE(c, b);
    forall d: Denom ensures AmountOf(SubOrEmpty(c, b), d) == AmountOf(a, d) {
      assert AmountOf(c, d) == AmountOf(a, d) + AmountOf(b, d);
    }
    SameAmounts(SubOrEmpty(c, b), a);
  }

  /** What leaves the balance turns up among what was spent. */
  lemma SpentGrows(balance: Coins, spent: Coins, amount: Coins)
    requires IsAllGTE(balance, amount)
    ensures Add(SubOrEmpty(balance, amount), Add(spent, amount)) == Add(balance, spent)
  {
    SameAmounts(Add(SubOrEmpty(balance, amount), Add(spent, amount)), Add(balance, spent));
  }

  // ---------------------------------------------------------------- closing at another price

  /** What is left is nothing exactly when the amount was everything. */
  lemma NothingLeft(rest: Coins, amount: Coins)
    ensures rest == map[] <==> Add(rest, amount) == amount
  {
    if rest == map[] {
      SameAmounts(Add(rest, amount), amount);
    }
    if Add(rest, amount) == amount {
      forall d: Denom ensures AmountOf(rest, d) == AmountOf(map[], d) {
        assert AmountOf(Add(rest, amount), d) == AmountOf(amount, d);
      }
      SameAmounts(rest, map[]);
    }
  }

  lemma SamePart(whole: Coins, a: Coins, b: Coins)
    requires IsAllGTE(whole, a) && IsAllGTE(whole, b) && SubOrEmpty(whole, a) == SubOrEmpty(whole, b)
    ensures a == b
  {
    forall d: Denom ensures AmountOf(a, d) == AmountOf(b, d) {
      assert AmountOf(SubOrEmpty(whole, a), d) == AmountOf(SubOrEmpty(whole, b), d);
      AllGTE(whole, a);
      AllGTE(whole, b);
    }
    SameAmounts(a, b);
  }

  /** Taking `price` off a whole of which `amount` is a part leaves the rest, if the price is the amount,
      or if it hits the clamp and the amount was everything; and not otherwise. */
  predicate TakesOff(whole: Coins, amount: Coins, price: Coins) {
    price == amount || (!IsAllGTE(whole, price) && amount == whole)
  }

  lemma TakesOffExactly(whole: Coins, rest: Coins, amount: Coins, price: Coins)
    requires Add(rest, amount) == whole
    ensures SubOrEmpty(whole, price) == rest <==> TakesOff(whole, amount, price)
  {
    SubUndoesAdd(rest, amount, whole);
    AllGTE(whole, amount);
    if IsAllGTE(whole, price) {
      if SubOrEmpty(whole, price) == rest {
        SamePart(whole, price, amount);
      }
    } else {
      NothingLeft(rest, amount);
      SameAmounts(SubOrEmpty(whole, price), map[]);
    }
  }

  /** A release at `price` keeps the LP's account exactly when it takes the reserved amount off. */
  lemma ReleaseAccounted(f: Funds, ledger: seq<Entry>, k: nat, base: Coins, price: Coins)
    requires k < |ledger| && ledger[k].status == Open
    requires Accounted(f, ledger, ledger[k].lp, base)
    ensures Accounted(f.Release(price), ledger[k := ledger[k].(status := Released)], ledger[k].lp, base)
       <==> TakesOff(f.reserved, ledger[k].amount, price)
  {
    var rest := Owed(ledger[k := ledger[k].(status := Released)], ledger[k].lp);
    CloseTotals(ledger, k, Released);
    ReleaseAndDebitKeepSolvent(f, price);
    TakesOffExactly(f.reserved, rest, ledger[k].amount, price);
  }

  /** A debit keeps it exactly when it takes the amount off both the reserved funds and the balance. */
  lemma DebitAccounted(f: Funds, ledger: seq<Entry>, k: nat, base: Coins, price: Coins)
    requires k < |ledger| && ledger[k].status == Open
    requires Accounted(f, ledger, ledger[k].lp, base)
    ensures Accounted(f.Debit(price), ledger[k := ledger[k].(status := Debited)], ledger[k].lp, base)
       <==> TakesOff(f.reserved, ledger[k].amount, price) && TakesOff(f.balance, ledger[k].amount, price)
  {
    hide IsAllGTE, TakesOff;
    var (a, amount) := (ledger[k].lp, ledger[k].amount);
    var left := SubOrEmpty(f.balance, amount);
    CloseTotals(ledger, k, Debited);
    OpenIsCovered(f, ledger, k, base);
    ReleaseAndDebitKeepSolvent(f, price);
    TakesOffExactly(f.reserved, Owed(ledger[k := ledger[k].(status := Debited)], a), amount, price);
    SpentGrows(f.balance, Spent(ledger, a), amount);
    SubOfCovered(f.balance, amount);
    TakesOffExactly(f.balance, left, amount, price);
    if Add(f.Debit(price).balance, Add(Spent(ledger, a), amount)) == base {
      SameRest(f.Debit(price).balance, left, Add(Spent(ledger, a), amount));
    }
  }

  lemma SubOfCovered(a: Coins, b: Coins)
    requires IsAllGTE(a, b)
    ensures Add(SubOrEmpty(a, b), b) == a
  {
    SameAmounts(Add(SubOrEmpty(a, b), b), a);
  }

  lemma SameRest(a: Coins, b: Coins, c: Coins)
    requires Add(a, c) == Add(b, c)
    ensures a == b
  {
    forall d: Denom ensures AmountOf(a, d) == AmountOf(b, d) {
      assert AmountOf(Add(a, c), d) == AmountOf(Add(b, c), d);
    }
    SameAmounts(a, b);
  }

  /** A status change leaves every other LP's account alone. */
  lemma CloseElsewhere(f: Funds, ledger: seq<Entry>, k: nat, x: Status, b: Addr, base: Coins)
    requires k < |ledger| && ledger[k].lp != b && Accounted(f, ledger, b, base)
    ensures Accounted(f, ledger[k := ledger[k].(status := x)], b, base)
  {
    var e := ledger[k].(status := x);
    TotalUpdate(ledger, k, e, b, Open);
    TotalUpdate(ledger, k, e, b, Debited);
    AddNothing(Owed(ledger, b));
    AddNothing(Owed(ledger[k := e], b));
    AddNothing(Spent(ledger, b));
    AddNothing(Spent(ledger[k := e], b));
  }

  /** An entry is closed: the books stay in order exactly when its LP's account does. */
  lemma CloseBooks(lps: LpTable, ledger: seq<Entry>, base: map<Addr, Coins>, k: nat, x: Status, f: Funds)
    requires Books(lps, ledger, base) && k < |ledger|
    ensures var (a, after) := (ledger[k].lp, ledger[k := ledger[k].(status := x)]);
            && (Books(if a in lps then SetFunds(lps, a, f) else lps, after, base)
                <==> (a in lps ==> Accounted(f, after, a, base[a])))
  {
    hide Accounted;
    var (a, after) := (ledger[k].lp, ledger[k := ledger[k].(status := x)]);
    forall b | b in lps && b != a ensures Accounted(lps[b].funds, after, b, base[b]) {
      CloseElsewhere(lps[b].funds, ledger, k, x, b, base[b]);
    }
    if a in lps && Books(SetFunds(lps, a, f), after, base) {
      assert a in SetFunds(lps, a, f);
    }
  }

  lemma ReleaseBooks(lps: LpTable, ledger: seq<Entry>, base: map<Addr, Coins>, k: nat, price: Coins)
    requires Books(lps, ledger, base) && k < |ledger| && ledger[k].status == Open
    ensures Books(ReleaseFunds(lps, ledger[k].lp, price), ledger[k := ledger[k].(status := Released)], base)
       <==> (ledger[k].lp in lps ==> TakesOff(lps[ledger[k].lp].funds.reserved, ledger[k].amount, price))
  {
    var a := ledger[k].lp;
    if a in lps {
      ReleaseAccounted(lps[a].funds, ledger, k, base[a], price);
      CloseBooks(lps, ledger, base, k, Released, lps[a].funds.Release(price));
    } else {
      CloseBooks(lps, ledger, base, k, Released, Funds(map[], map[]));
    }
    hide Books, Accounted, TakesOff, SetFunds, Funds.Release;
  }

  lemma DebitBooks(lps: LpTable, ledger: seq<Entry>, base: map<Addr, Coins>, k: nat, price: Coins)
    requires Books(lps, ledger, base) && k < |ledger| && ledger[k].status == Open
    ensures Books(DebitFunds(lps, ledger[k].lp, price), ledger[k := ledger[k].(status := Debited)], base)
       <==> (ledger[k].lp in lps ==>
               && TakesOff(lps[ledger[k].lp].funds.reserved, ledger[k].amount, price)
               && TakesOff(lps[ledger[k].lp].funds.balance, ledger[k].amount, price))
  {
    var a := ledger[k].lp;
    if a in lps {
      DebitAccounted(lps[a].funds, ledger, k, base[a], price);
      CloseBooks(lps, ledger, base, k, Debited, lps[a].funds.Debit(price));
    } else {
      CloseBooks(lps, ledger, base, k, Debited, Funds(map[], map[]));
    }
    hide Books, Accounted, TakesOff, SetFunds, Funds.Debit;
  }

  lemma RefreshAccounted(f: Funds, ledger: seq<Entry>, a: Addr, base: Coins, b: Coins)
    requires Accounted(f, ledger, a, base)
    ensures Accounted(f.(balance := b), ledger, a, Add(b, Spent(ledger, a))) <==> IsAllGTE(b, f.reserved)
  {}

  /** One LP's entry is replaced, and the others' accounts do not read it. */
  lemma OneEntryBooks(lps: LpTable, ledger: seq<Entry>, base: map<Addr, Coins>, a: Addr, lp: LpVal, b: Coins)
    requires Books(lps, ledger, base)
    ensures Books(lps[a := lp], ledger, base[a := b]) <==> Accounted(lp.funds, ledger, a, b)
  {
    hide Accounted;
    var (after, base') := (lps[a := lp], base[a := b]);
    if Books(after, ledger, base') {
      assert a in after;
    }
    if Accounted(lp.funds, ledger, a, b) {
      forall x | x in after ensures x in base' && Accounted(after[x].funds, ledger, x, base'[x]) {
        assert x != a ==> x in lps;
      }
    }
  }

  lemma RefreshBooks(lps: LpTable, ledger: seq<Entry>, base: map<Addr, Coins>, a: Addr, b: Coins)
    requires Books(lps, ledger, base) && a in lps
    ensures Books(SetFunds(lps, a, lps[a].funds.(balance := b)), ledger, base[a := Add(b, Spent(ledger, a))])
       <==> IsAllGTE(b, lps[a].funds.reserved)
  {
    RefreshAccounted(lps[a].funds, ledger, a, base[a], b);
    OneEntryBooks(lps, ledger, base, a, lps[a].(funds := lps[a].funds.(balance := b)), Add(b, Spent(ledger, a)));
    hide Books, Accounted, IsAllGTE, Add, Spent;
  }

  lemma InstallBooks(lps: LpTable, ledger: seq<Entry>, base: map<Addr, Coins>, lp: LpVal)
    requires Books(lps, ledger, base) && lp.funds.reserved == map[]
    ensures Books(lps[lp.address := lp], ledger, base[lp.address := Add(lp.funds.balance, Spent(ledger, lp.address))])
       <==> Owed(ledger, lp.address) == map[]
  {
    FreshAccounted(lp.funds, ledger, lp.address);
    OneEntryBooks(lps, ledger, base, lp.address, lp, Add(lp.funds.balance, Spent(ledger, lp.address)));
    hide Books, Accounted, Add, Spent, Owed;
  }

  lemma FreshAccounted(f: Funds, ledger: seq<Entry>, a: Addr)
    requires f.reserved == map[]
    ensures Accounted(f, ledger, a, Add(f.balance, Spent(ledger, a))) <==> Owed(ledger, a) == map[]
  {}

  // ---------------------------------------------------------------- the exact condition, step by step

  /** What order `p` reserved, while it holds a reservation. */
  function ReservedFor(s: State, p: Ptr): Coins {
    if p in s.link && s.link[p] < |s.ledger| then s.ledger[s.link[p]].amount else map[]
  }

  /** What a step must be for funds and ledger to stay in agreement. An order's reservation ends right if
      it ends at the price it was made at, or hits the clamps when it was all there was; a fresh LP must
      owe nothing; a refreshed balance must cover what is reserved. All other steps, overwriting a price
      among them, are harmless in themselves. */
  predicate Balanced(s: State, st: Step)
    requires Enabled(s, st)
  {
    match st
    case EvictRelease(p) => ReleasesRight(s, p)
    case Fail(p, _) => ReleasesRight(s, p)
    case Debit(p) => DebitsRight(s, p)
    case Install(lp) => Owed(s.ledger, lp.address) == map[]
    case Refresh(a, b) => IsAllGTE(b, s.lps[a].funds.reserved)
    case _ => true
  }

  predicate ReleasesRight(s: State, p: Ptr)
    requires p < |s.heap|
  {
    s.heap[p].lpAddress in s.lps ==>
      TakesOff(s.lps[s.heap[p].lpAddress].funds.reserved, ReservedFor(s, p), s.heap[p].price)
  }

  predicate DebitsRight(s: State, p: Ptr)
    requires p < |s.heap|
  {
    s.heap[p].lpAddress in s.lps ==>
      && TakesOff(s.lps[s.heap[p].lpAddress].funds.reserved, ReservedFor(s, p), s.heap[p].price)
      && TakesOff(s.lps[s.heap[p].lpAddress].funds.balance, ReservedFor(s, p), s.heap[p].price)
  }

  ghost predicate InBooks(s: State) {
    Books(s.lps, s.ledger, s.base)
  }

  lemma EvictReleaseExact(s: State, p: Ptr)
    requires Orderly(s) && InBooks(s) && At(s, p, Evicting)
    ensures InBooks(Apply(s, Step.EvictRelease(p))) <==> ReleasesRight(s, p)
  {
    EndHolds(s, p, Evicting);
    ReleaseBooks(s.lps, s.ledger, s.base, s.link[p], s.heap[p].price);
    hide Books, Orderly, TakesOff, ReleaseFunds;
  }

  lemma FailExact(s: State, p: Ptr, rpc: bool)
    requires Orderly(s) && InBooks(s) && At(s, p, Working)
    ensures InBooks(Apply(s, Step.Fail(p, rpc))) <==> ReleasesRight(s, p)
  {
    EndHolds(s, p, Working);
    ResultTakesPlace(s, p);
    ReleaseBooks(s.lps, s.ledger, s.base, s.link[p], s.heap[p].price);
    hide Books, Orderly, TakesOff, ReleaseFunds;
  }

  lemma DebitExact(s: State, p: Ptr)
    requires Orderly(s) && InBooks(s) && At(s, p, Working)
    ensures InBooks(Apply(s, Step.Debit(p))) <==> DebitsRight(s, p)
  {
    EndHolds(s, p, Working);
    ResultTakesPlace(s, p);
    DebitBooks(s.lps, s.ledger, s.base, s.link[p], s.heap[p].price);
    hide Books, Orderly, TakesOff, DebitFunds;
  }

  lemma ReserveStepBooks(s: State, st: Step)
    requires InBooks(s) && Enabled(s, st) && (st.Accept? || st.Reselect?)
    ensures InBooks(Apply(s, st))
  {
    hide Books, Funds.Has;
    ReserveBooks(s.lps, s.ledger, s.base, st.lp, if st.Accept? then st.order.price else s.heap[st.p].price);
  }

  lemma QuietPoolBooks(s: State, st: Step)
    requires InBooks(s) && Enabled(s, st) && PoolStep(st) && !st.Accept?
    ensures InBooks(Apply(s, st))
  {
    hide Books;
  }

  lemma QuietCheckBooks(s: State, st: Step)
    requires InBooks(s) && Enabled(s, st) && CheckStep(st) && !st.Reselect? && !st.EvictRelease?
    ensures InBooks(Apply(s, st))
  {
    hide Books, Keeps;
  }

  lemma QuietWorkBooks(s: State, st: Step)
    requires InBooks(s) && Enabled(s, st) && WorkStep(st) && !st.Debit? && !st.Fail?
    ensures InBooks(Apply(s, st))
  {
    hide Books;
  }

  lemma RevokeBooks(s: State, a: Addr)
    requires InBooks(s)
    ensures InBooks(s.(lps := s.lps - {a}))
  {
    hide Accounted;
  }

  /** Funds and ledger stay in agreement through a step exactly when the step is balanced. */
  lemma StepBooks(s: State, st: Step)
    requires Orderly(s) && InBooks(s) && Enabled(s, st)
    ensures InBooks(Apply(s, st)) <==> Balanced(s, st)
  {
    hide Orderly, ReleasesRight, DebitsRight, ApplyToPool, ApplyToCheck, ApplyToWork, Spent;
    if st.Debit? {
      DebitExact(s, st.p);
    } else if st.Fail? {
      FailExact(s, st.p, st.rpc);
    } else if st.EvictRelease? {
      EvictReleaseExact(s, st.p);
    } else if st.Install? {
      InstallBooks(s.lps, s.ledger, s.base, st.entry);
    } else if st.Refresh? {
      RefreshBooks(s.lps, s.ledger, s.base, st.lp, st.balance);
    } else if st.Revoke? {
      RevokeBooks(s, st.lp);
    } else if st.Accept? || st.Reselect? {
      ReserveStepBooks(s, st);
    } else if PoolStep(st) {
      QuietPoolBooks(s, st);
    } else if CheckStep(st) {
      QuietCheckBooks(s, st);
    } else {
      QuietWorkBooks(s, st);
    }
  }

  // ---------------------------------------------------------------- over runs

  ghost predicate BalancedAt(states: seq<State>, steps: seq<Step>, i: nat)
    requires i < |states| && i < |steps|
  {
    Enabled(states[i], steps[i]) && Balanced(states[i], steps[i])
  }

  lemma {:induction false} RunBooks(cfg: Config, states: seq<State>, steps: seq<Step>, n: nat)
    requires IsRun(cfg, states, steps) && n <= |steps|
    requires forall i :: 0 <= i < n ==> BalancedAt(states, steps, i)
    ensures Orderly(states[n]) && InBooks(states[n])
  {
    hide Enabled, Apply, Balanced, Orderly, Books;
    RunOrderly(cfg, states, steps, n);
    if n == 0 {
      StartsInBooks(cfg);
    } else {
      RunBooks(cfg, states, steps, n - 1);
      assert Next(states[n - 1], steps[n - 1], states[n]);
      assert BalancedAt(states, steps, n - 1);
      StepBooks(states[n - 1], steps[n - 1]);
    }
  }

  lemma StartsInBooks(cfg: Config)
    ensures InBooks(Init(cfg))
  {}
}
