/** The LP table, reloaded from the grants on chain and refreshed with balances. */
module LoadLps {
  import opened SdkCoins
  import opened LpModel
  import opened LpObject
  import opened Protocol
  import opened InFlight
  import opened LpFloor
  import opened Traces
  import opened Tracker

  /** What a grant's authorization holds: nothing at all, an empty value, bytes that do not decode, or
      criteria per rollapp. An empty value decodes to no criteria. */
  datatype Authorization = Nil | NoValue | Malformed | Decoded(terms: seq<Terms>)

  datatype Terms = Terms(rollappId: RollappId, criteria: Criteria)

  datatype Grant = Grant(granter: Addr, grantee: Addr, authorization: Authorization)

  // ---------------------------------------------------------------- what a grant means

  /** The last criteria given for each supported rollapp, where the operator gets its minimum share. */
  function Allowed(cfg: Config, terms: seq<Terms>): map<RollappId, Criteria> {
    if terms == [] then map[]
    else
      var (rest, last) := (Allowed(cfg, terms[..|terms| - 1]), terms[|terms| - 1]);
      if last.rollappId in cfg.supported && last.criteria.operatorFeeShare >= cfg.minShare
      then rest[last.rollappId := last.criteria] else rest
  }

  function TermsOf(g: Grant): seq<Terms> {
    if g.authorization.Decoded? then g.authorization.terms else []
  }

  /** The first grant of an LP decides whether it is still granted. */
  predicate StillGranted(grants: seq<Grant>, a: Addr) {
    grants != []
    && if grants[0].granter == a then grants[0].authorization.Malformed? || grants[0].authorization.Decoded?
       else StillGranted(grants[1..], a)
  }

  /** There is a grant by the LP, and the first one has an authorization with a value. */
  lemma {:induction false} GrantedMeans(grants: seq<Grant>, a: Addr)
    ensures StillGranted(grants, a)
       <==> (exists i :: 0 <= i < |grants| && grants[i].granter == a
               && (forall j :: 0 <= j < i ==> grants[j].granter != a)
               && (grants[i].authorization.Malformed? || grants[i].authorization.Decoded?))
  {
    if grants != [] && grants[0].granter != a {
      GrantedMeans(grants[1..], a);
      if StillGranted(grants[1..], a) {
        var i :| 0 <= i < |grants[1..]| && grants[1..][i].granter == a
              && (forall j :: 0 <= j < i ==> grants[1..][j].granter != a)
              && (grants[1..][i].authorization.Malformed? || grants[1..][i].authorization.Decoded?);
        forall j | 0 <= j < i + 1 ensures grants[j].granter != a {
          assert j > 0 ==> grants[j] == grants[1..][j - 1];
        }
        assert grants[i + 1].granter == a;
      }
      if i :|
           && 0 <= i < |grants| && grants[i].granter == a
           && (forall j :: 0 <= j < i ==> grants[j].granter != a)
           && (grants[i].authorization.Malformed? || grants[i].authorization.Decoded?) {
        assert grants[1..][i - 1] == grants[i];
        forall j | 0 <= j < i - 1 ensures grants[1..][j].granter != a {
          assert grants[1..][j] == grants[j + 1];
        }
      }
    }
  }

  lemma EachGranted(grants: seq<Grant>)
    ensures forall a ::
              StillGranted(grants, a)
              <==> (exists i :: 0 <= i < |grants| && grants[i].granter == a
                      && (forall j :: 0 <= j < i ==> grants[j].granter != a)
                      && (grants[i].authorization.Malformed? || grants[i].authorization.Decoded?))
  {
    forall a
      ensures StillGranted(grants, a)
         <==> (exists i :: 0 <= i < |grants| && grants[i].granter == a
                 && (forall j :: 0 <= j < i ==> grants[j].granter != a)
                 && (grants[i].authorization.Malformed? || grants[i].authorization.Decoded?)) {
      GrantedMeans(grants, a);
    }
  }

  /** What one grant leads to: it is passed over, ends the reload, or puts an LP into the table. */
  datatype Effect = Pass | Stop | Put(lp: LpVal)

  function EffectOf(cfg: Config, g: Grant, balance: Option<Coins>): Effect {
    if g.authorization.Nil? || g.granter == "" || g.grantee == "" then Pass
    else if g.authorization.Malformed? || balance.None? then Stop
    else if Allowed(cfg, TermsOf(g)) == map[] then Pass
    else Put(LpVal(g.granter, Allowed(cfg, TermsOf(g)), Funds(balance.value, map[])))
  }

  /** The LPs the grants put into the table, up to the one that ends the reload. */
  function Puts(cfg: Config, grants: seq<Grant>, balances: seq<Option<Coins>>): (seq<LpVal>, bool)
    requires |grants| == |balances|
  {
    if grants == [] then ([], true)
    else
      match EffectOf(cfg, grants[0], balances[0])
      case Stop => ([], false)
      case Pass => Puts(cfg, grants[1..], balances[1..])
      case Put(lp) =>
        var (rest, ok) := Puts(cfg, grants[1..], balances[1..]);
        ([lp] + rest, ok)
  }

  function Installs(puts: seq<LpVal>): seq<Step> {
    seq(|puts|, i requires 0 <= i < |puts| => Step.Install(puts[i]))
  }

  function Revokes(addrs: seq<Addr>): seq<Step> {
    seq(|addrs|, i requires 0 <= i < |addrs| => Step.Revoke(addrs[i]))
  }

  lemma InstallsMore(puts: seq<LpVal>, lp: LpVal)
    ensures Installs(puts + [lp]) == Installs(puts) + [Step.Install(lp)] && Installs([]) == []
  {}

  lemma RevokesMore(addrs: seq<Addr>, a: Addr)
    ensures Revokes(addrs + [a]) == Revokes(addrs) + [Step.Revoke(a)] && Revokes([]) == []
  {}

  lemma {:induction false} AllowedIsGranted(cfg: Config, terms: seq<Terms>, r: RollappId)
    requires r in Allowed(cfg, terms)
    ensures r in cfg.supported && Allowed(cfg, terms)[r].operatorFeeShare >= cfg.minShare
    ensures exists i :: 0 <= i < |terms| && terms[i] == Terms(r, Allowed(cfg, terms)[r])
  {
    var n := |terms| - 1;
    if r in Allowed(cfg, terms[..n]) {
      AllowedIsGranted(cfg, terms[..n], r);
    }
    assert terms[n].rollappId == r ==> Allowed(cfg, terms)[r] in {terms[n].criteria, Allowed(cfg, terms)[r]};
  }

  /** And whatever passes the operator's conditions is allowed. */
  lemma {:induction false} PassingIsAllowed(cfg: Config, terms: seq<Terms>, k: nat)
    requires k < |terms| && terms[k].rollappId in cfg.supported
    requires terms[k].criteria.operatorFeeShare >= cfg.minShare
    ensures terms[k].rollappId in Allowed(cfg, terms)
  {
    if k < |terms| - 1 {
      PassingIsAllowed(cfg, terms[..|terms| - 1], k);
    }
  }

  /** Of several criteria for a rollapp that pass, the last count. */
  lemma {:induction false} LastAllowed(cfg: Config, terms: seq<Terms>, k: nat)
    requires k < |terms| && terms[k].rollappId in cfg.supported
    requires terms[k].criteria.operatorFeeShare >= cfg.minShare
    requires forall j :: k < j < |terms| && terms[j].rollappId == terms[k].rollappId ==>
               terms[j].criteria.operatorFeeShare < cfg.minShare
    ensures terms[k].rollappId in Allowed(cfg, terms)
    ensures Allowed(cfg, terms)[terms[k].rollappId] == terms[k].criteria
  {
    var n := |terms| - 1;
    if k < n {
      LastAllowed(cfg, terms[..n], k);
    }
  }

  /** A grant is passed over, ends the reload, or puts its granter into the table with the balance just
      asked for, nothing reserved, and what it allows. */
  lemma EffectMeans(cfg: Config, g: Grant, balance: Option<Coins>)
    ensures EffectOf(cfg, g, balance).Stop?
       <==> !g.authorization.Nil? && g.granter != "" && g.grantee != "" && (g.authorization.Malformed? || balance.None?)
    ensures EffectOf(cfg, g, balance).Put?
       <==> g.granter != "" && g.grantee != "" && g.authorization.Decoded? && balance.Some?
            && exists t :: t in g.authorization.terms && t.rollappId in cfg.supported
                           && t.criteria.operatorFeeShare >= cfg.minShare
    ensures EffectOf(cfg, g, balance).Put? ==>
              var lp := EffectOf(cfg, g, balance).lp;
              && lp.address == g.granter && lp.funds == Funds(balance.value, map[])
              && lp.rollapps == Allowed(cfg, g.authorization.terms)
  {
    if g.authorization.Decoded? {
      SomeAllowed(cfg, g.authorization.terms);
    }
    hide Allowed;
    assert Allowed(cfg, []) == map[] by { SomeAllowed(cfg, []); }
  }

  lemma SomeAllowed(cfg: Config, terms: seq<Terms>)
    ensures Allowed(cfg, terms) != map[]
       <==> exists t :: t in terms && t.rollappId in cfg.supported && t.criteria.operatorFeeShare >= cfg.minShare
  {
    if t :| t in terms && t.rollappId in cfg.supported && t.criteria.operatorFeeShare >= cfg.minShare {
      var k :| 0 <= k < |terms| && terms[k] == t;
      PassingIsAllowed(cfg, terms, k);
    }
    if r :| r in Allowed(cfg, terms) {
      AllowedIsGranted(cfg, terms, r);
    }
    hide Allowed;
  }

  /** A reload installs what the grants from `i` on put, in their order, up to the first that ends it. */
  lemma {:induction false} PutsMean(cfg: Config, grants: seq<Grant>, balances: seq<Option<Coins>>, i: nat)
    returns (n: nat, ks: seq<nat>)
    requires i <= |grants| == |balances|
    ensures var (puts, done) := Puts(cfg, grants[i..], balances[i..]);
            && i <= n <= |grants| && (forall x :: i <= x < n ==> !EffectOf(cfg, grants[x], balances[x]).Stop?)
            && (done <==> n == |grants|) && (!done ==> EffectOf(cfg, grants[n], balances[n]).Stop?)
            && |ks| == |puts| && (forall x, y :: 0 <= x < y < |ks| ==> ks[x] < ks[y])
            && (forall j :: 0 <= j < |ks| ==>
                  i <= ks[j] < n && EffectOf(cfg, grants[ks[j]], balances[ks[j]]) == Put(puts[j]))
            && (forall x :: i <= x < n && EffectOf(cfg, grants[x], balances[x]).Put? ==> x in ks)
    decreases |grants| - i
  {
    hide EffectOf;
    n, ks := i, [];
    if i < |grants| {
      assert grants[i..][1..] == grants[i + 1..] && balances[i..][1..] == balances[i + 1..];
      if !EffectOf(cfg, grants[i], balances[i]).Stop? {
        n, ks := PutsMean(cfg, grants, balances, i + 1);
        ks := if EffectOf(cfg, grants[i], balances[i]).Put? then [i] + ks else ks;
      }
    }
  }

  /** Whatever is put into the table passed the operator's conditions. */
  lemma EffectIsGranted(cfg: Config, g: Grant, balance: Option<Coins>)
    requires EffectOf(cfg, g, balance).Put?
    ensures Granted(cfg, EffectOf(cfg, g, balance).lp)
  {
    var m := Allowed(cfg, TermsOf(g));
    forall r | r in m ensures r in cfg.supported && m[r].operatorFeeShare >= cfg.minShare {
      AllowedIsGranted(cfg, TermsOf(g), r);
    }
  }

  // ---------------------------------------------------------------- the reload

  /** The inner loop over an LP's grants. */
  method FindRevoked(grants: seq<Grant>, a: Addr) returns (revoked: bool)
    ensures revoked <==> !StillGranted(grants, a)
    ensures revoked <==>
              !exists i :: 0 <= i < |grants| && grants[i].granter == a
                 && (forall j :: 0 <= j < i ==> grants[j].granter != a)
                 && (grants[i].authorization.Malformed? || grants[i].authorization.Decoded?)
  {
    GrantedMeans(grants, a);
    var found := false;
    revoked := false;
    var i := 0;
    while i < |grants|
      invariant 0 <= i <= |grants| && !found && !revoked
      invariant StillGranted(grants, a) == StillGranted(grants[i..], a)
    {
      var g := grants[i];
      assert grants[i..][1..] == grants[i + 1..];
      if g.granter == a {
        found := true;
        if g.authorization.Nil? || g.authorization.NoValue? {
          revoked := true;
        }
        break;
      }
      i := i + 1;
    }
    if !found {
      revoked := true;
    }
  }

  /** The inner loop over a grant's criteria. */
  method CriteriaOf(cfg: Config, terms: seq<Terms>) returns (rollapps: map<RollappId, Criteria>)
    ensures rollapps == Allowed(cfg, terms)
  {
    rollapps := map[];
    for i := 0 to |terms|
      invariant rollapps == Allowed(cfg, terms[..i])
    {
      assert terms[..i + 1][..i] == terms[..i];
      var term := terms[i];
      if term.rollappId !in cfg.supported {
        continue;
      }
      if term.criteria.operatorFeeShare < cfg.minShare {
        continue;
      }
      rollapps := rollapps[term.rollappId := term.criteria];
    }
    assert terms[..|terms|] == terms;
  }

  /** The first loop over the table: which LPs are no longer granted, each once. */
  method FindAllRevoked(t: OrderTracker, grants: seq<Grant>) returns (toDelete: seq<Addr>)
    ensures forall a :: a in toDelete <==> a in t.lps && !StillGranted(grants, a)
    ensures forall a :: a in toDelete <==>
              a in t.lps
              && !exists i :: 0 <= i < |grants| && grants[i].granter == a
                    && (forall j :: 0 <= j < i ==> grants[j].granter != a)
                    && (grants[i].authorization.Malformed? || grants[i].authorization.Decoded?)
    ensures forall i, j :: 0 <= i < j < |toDelete| ==> toDelete[i] != toDelete[j]
  {
    hide StillGranted;
    EachGranted(grants);
    toDelete := [];
    var left := t.lps.Keys;
    while left != {}
      invariant left <= t.lps.Keys
      invariant forall a :: a in toDelete <==> a in t.lps && a !in left && !StillGranted(grants, a)
      invariant forall i, j :: 0 <= i < j < |toDelete| ==> toDelete[i] != toDelete[j]
      decreases left
    {
      var a :| a in left;
      left := left - {a};
      var gone := FindRevoked(grants, a);
      if gone {
        toDelete := toDelete + [a];
      }
    }
  }

  /** LPs whose grant is gone leave the table. */
  method DropRevoked(t: OrderTracker, grants: seq<Grant>) returns (toDelete: seq<Addr>)
    requires t.Valid()
    modifies t
    ensures t.Valid() && forall a :: a in t.lps <==> a in old(t.lps) && StillGranted(grants, a)
    ensures forall a :: a in toDelete <==> a in old(t.lps) && !StillGranted(grants, a)
    ensures forall a :: a in t.lps <==>
              a in old(t.lps)
              && exists i :: 0 <= i < |grants| && grants[i].granter == a
                   && (forall j :: 0 <= j < i ==> grants[j].granter != a)
                   && (grants[i].authorization.Malformed? || grants[i].authorization.Decoded?)
    ensures forall a :: a in t.lps ==> t.lps[a] == old(t.lps)[a]
    ensures Exec(old(t.Now()), Revokes(toDelete)) == Some(t.Now()) && t.history == old(t.history) + Revokes(toDelete)
  {
    hide OrderTracker.Valid, Exec, Enabled, Apply, OrderTracker.Table, Revokes, StillGranted;
    EachGranted(grants);
    ghost var s := t.Now();
    toDelete := FindAllRevoked(t, grants);
    RevokesMore([], "");
    NoSteps(s);
    for i := 0 to |toDelete|
      invariant t.Valid() && forall a :: a in t.lps <==> a in old(t.lps) && a !in toDelete[..i]
      invariant forall a :: a in t.lps ==> t.lps[a] == old(t.lps)[a]
      invariant Exec(s, Revokes(toDelete[..i])) == Some(t.Now()) && t.history == old(t.history) + Revokes(toDelete[..i])
    {
      ghost var before := t.Now();
      assert toDelete[..i + 1] == toDelete[..i] + [toDelete[i]];
      assert toDelete[i] in toDelete && toDelete[i] !in toDelete[..i];
      t.Revoke(toDelete[i]);
      RevokesMore(toDelete[..i], toDelete[i]);
      ExecOne(s, Revokes(toDelete[..i]), before, Step.Revoke(toDelete[i]), t.Now());
    }
    assert toDelete[..|toDelete|] == toDelete;
  }

  /** The body of the loop over the grants. */
  method LoadGrant(t: OrderTracker, g: Grant, balance: Option<Coins>) returns (ok: bool)
    requires t.Valid()
    modifies t
    ensures t.Valid() && (ok <==> !EffectOf(t.cfg, g, balance).Stop?)
    ensures ok <==> g.authorization.Nil? || g.granter == "" || g.grantee == ""
                    || (!g.authorization.Malformed? && balance.Some?)
    ensures if g.granter != "" && g.grantee != "" && g.authorization.Decoded? && balance.Some?
               && exists x :: x in g.authorization.terms && x.rollappId in t.cfg.supported
                              && x.criteria.operatorFeeShare >= t.cfg.minShare then
              && t.lps.Keys == old(t.lps).Keys + {g.granter}
              && (forall a :: a in t.lps && a != g.granter ==> t.lps[a] == old(t.lps)[a])
              && var lp := t.lps[g.granter];
              && lp.address == g.granter && lp.balance == balance.value && lp.reservedFunds == map[]
              && lp.rollapps == Allowed(t.cfg, g.authorization.terms)
            else t.lps == old(t.lps)
    ensures match EffectOf(t.cfg, g, balance)
            case Put(lp) =>
              Next(old(t.Now()), Step.Install(lp), t.Now()) && t.history == old(t.history) + [Step.Install(lp)]
            case _ => t.Now() == old(t.Now()) && t.history == old(t.history)
  {
    hide OrderTracker.Valid, Enabled, Apply, Granted, Allowed;
    if g.authorization.Nil? {
      return true;
    }
    if g.granter == "" || g.grantee == "" {
      return true;
    }
    if g.authorization.Malformed? {
      return false;
    }
    if balance.None? {
      return false;
    }
    var rollapps := CriteriaOf(t.cfg, TermsOf(g));
    EffectMeans(t.cfg, g, balance);
    if |rollapps| == 0 {
      return true;
    }
    EffectIsGranted(t.cfg, g, balance);
    AddLp(t, g.granter, rollapps, balance.value);
    return true;
  }

  method AddLp(t: OrderTracker, a: Addr, rollapps: map<RollappId, Criteria>, balance: Coins)
    requires t.Valid() && Granted(t.cfg, LpVal(a, rollapps, Funds(balance, map[])))
    modifies t
    ensures t.Valid()
    ensures var lp := LpVal(a, rollapps, Funds(balance, map[]));
            Next(old(t.Now()), Step.Install(lp), t.Now()) && t.history == old(t.history) + [Step.Install(lp)]
    ensures t.lps.Keys == old(t.lps).Keys + {a} && forall b :: b in t.lps && b != a ==> t.lps[b] == old(t.lps)[b]
    ensures t.lps[a].address == a && t.lps[a].rollapps == rollapps && t.lps[a].balance == balance
    ensures t.lps[a].reservedFunds == map[]
  {
    hide OrderTracker.Valid, Enabled, Apply, Granted;
    var lp := new Lp(a, rollapps, balance);
    t.Install(lp);
  }

  /** `loadLPs`. `grants` is the answer of the grant query, `balances` those of the balance queries.
      A reload that fails midway keeps what it did so far. */
  method LoadLps(t: OrderTracker, grants: Option<seq<Grant>>, balances: seq<Option<Coins>>)
    returns (ok: bool, ghost revoked: seq<Addr>)
    requires t.Valid() && (grants.Some? ==> |grants.value| == |balances|)
    modifies t
    ensures t.Valid()
    ensures grants.None? ==> !ok && t.Now() == old(t.Now()) && t.history == old(t.history)
    ensures grants.Some? ==>
              var (puts, done) := Puts(t.cfg, grants.value, balances);
              && ok == done && Exec(old(t.Now()), Revokes(revoked) + Installs(puts)) == Some(t.Now())
              && t.history == old(t.history) + (Revokes(revoked) + Installs(puts))
    ensures grants.Some? ==>
              forall a :: a in revoked <==>
                a in old(t.lps)
                && !exists i :: 0 <= i < |grants.value| && grants.value[i].granter == a
                      && (forall j :: 0 <= j < i ==> grants.value[j].granter != a)
                      && (grants.value[i].authorization.Malformed? || grants.value[i].authorization.Decoded?)
  {
    hide *;
    ghost var s := t.Now();
    revoked := [];
    if grants.None? {
      return false, [];
    }
    revoked := DropRevoked(t, grants.value);
    ghost var dropped, past := t.Now(), t.history;
    ghost var puts: seq<LpVal> := [];
    NoSteps(dropped);
    InstallsMore([], LpVal("", map[], Funds(map[], map[])));
    StartLoading(t.cfg, grants.value, balances);
    ok := true;
    var i := 0;
    while i < |balances|
      invariant i <= |balances| && t.Valid() && ok
      invariant Exec(dropped, Installs(puts)) == Some(t.Now()) && t.history == past + Installs(puts)
      invariant Loading(t.cfg, grants.value, balances, i, puts)
    {
      ghost var before := t.Now();
      ghost var effect := EffectOf(t.cfg, grants.value[i], balances[i]);
      NextPut(t.cfg, grants.value, balances, i, puts);
      ok := LoadGrant(t, grants.value[i], balances[i]);
      if !ok {
        break;
      }
      if effect.Put? {
        ExecOne(dropped, Installs(puts), before, Step.Install(effect.lp), t.Now());
        InstallsMore(puts, effect.lp);
        puts := puts + [effect.lp];
      }
      i := i + 1;
    }
    EndLoading(t.cfg, grants.value, balances, i, puts);
    ExecThen(s, Revokes(revoked), dropped, Installs(puts), t.Now());
  }

  /** After `i` grants the LPs in `puts` are in the table. */
  ghost predicate Loading(cfg: Config, grants: seq<Grant>, balances: seq<Option<Coins>>, i: nat, puts: seq<LpVal>)
    requires i <= |grants| == |balances|
  {
    && Puts(cfg, grants, balances).0 == puts + Puts(cfg, grants[i..], balances[i..]).0
    && Puts(cfg, grants, balances).1 == Puts(cfg, grants[i..], balances[i..]).1
  }

  lemma StartLoading(cfg: Config, grants: seq<Grant>, balances: seq<Option<Coins>>)
    requires |grants| == |balances|
    ensures Loading(cfg, grants, balances, 0, [])
  {
    assert grants[0..] == grants && balances[0..] == balances;
  }

  lemma EndLoading(cfg: Config, grants: seq<Grant>, balances: seq<Option<Coins>>, i: nat, puts: seq<LpVal>)
    requires i <= |grants| == |balances| && Loading(cfg, grants, balances, i, puts)
    ensures i == |grants| ==> Puts(cfg, grants, balances) == (puts, true)
    ensures i < |grants| && EffectOf(cfg, grants[i], balances[i]).Stop? ==>
              Puts(cfg, grants, balances) == (puts, false)
  {
    hide EffectOf;
    assert i < |grants| ==> grants[i..][0] == grants[i] && balances[i..][0] == balances[i];
    assert puts + [] == puts;
  }

  lemma NextPut(cfg: Config, grants: seq<Grant>, balances: seq<Option<Coins>>, i: nat, puts: seq<LpVal>)
    requires i < |grants| == |balances| && Loading(cfg, grants, balances, i, puts)
    ensures match EffectOf(cfg, grants[i], balances[i])
            case Stop => true
            case Pass => Loading(cfg, grants, balances, i + 1, puts)
            case Put(lp) => Loading(cfg, grants, balances, i + 1, puts + [lp])
  {
    assert grants[i..][1..] == grants[i + 1..] && balances[i..][1..] == balances[i + 1..];
  }

  // ---------------------------------------------------------------- refreshed balances

  function Refreshes(done: seq<Addr>, replies: map<Addr, Coins>): seq<Step> {
    seq(|done|, i requires 0 <= i < |done| =>
      Step.Refresh(done[i], if done[i] in replies then replies[done[i]] else map[]))
  }

  lemma RefreshesMore(done: seq<Addr>, a: Addr, replies: map<Addr, Coins>)
    ensures a in replies ==>
              Refreshes(done + [a], replies) == Refreshes(done, replies) + [Step.Refresh(a, replies[a])]
    ensures Refreshes([], replies) == []
  {}

  ghost predicate AllCovered(lps: LpTable, addrs: set<Addr>, replies: map<Addr, Coins>) {
    forall a :: a in addrs && a in replies ==> a in lps && IsAllGTE(replies[a], lps[a].funds.reserved)
  }

  lemma RefreshKeepsReserved(s: State, a: Addr, b: Coins, t: State, left: set<Addr>, replies: map<Addr, Coins>)
    requires Next(s, Step.Refresh(a, b), t) && AllCovered(s.lps, left, replies)
    ensures AllCovered(t.lps, left, replies)
  {
    hide IsAllGTE;
  }

  method RefreshOne(t: OrderTracker, a: Addr, replies: map<Addr, Coins>, ghost left: set<Addr>)
    requires t.Valid() && a in t.lps && a in replies && a in left && AllCovered(t.Now().lps, left, replies)
    modifies t, t.pool, t.lps.Values
    ensures t.Valid() && t.lps == old(t.lps) && AllCovered(t.Now().lps, left, replies)
    ensures t.history == old(t.history) + [Step.Refresh(a, replies[a])]
    ensures a in old(t.Table())
    ensures t.Table() == SetFunds(old(t.Table()), a, old(t.Table())[a].funds.(balance := replies[a]))
    ensures Next(old(t.Now()), Step.Refresh(a, replies[a]), t.Now())
  {
    hide OrderTracker.Valid, Enabled, Apply, IsAllGTE, OrderTracker.Table;
    t.TableKeys();
    ghost var before := t.Now();
    t.Refresh(a, replies[a]);
    RefreshKeepsReserved(before, a, replies[a], t.Now(), left, replies);
  }

  /** The LPs in `done` have the balances they were told, the others their own, and reservations are as before. */
  ghost predicate Balances(before: LpTable, after: LpTable, done: seq<Addr>, replies: map<Addr, Coins>) {
    && after.Keys == before.Keys && (forall a :: a in done ==> a in replies)
    && forall a :: a in before ==>
         after[a].funds == Funds(if a in done then replies[a] else before[a].funds.balance, before[a].funds.reserved)
  }

  lemma OneMoreBalance(before: LpTable, after: LpTable, done: seq<Addr>, replies: map<Addr, Coins>, a: Addr)
    requires Balances(before, after, done, replies) && a in after && a in replies
    ensures Balances(before, SetFunds(after, a, after[a].funds.(balance := replies[a])), done + [a], replies)
  {}

  lemma NoBalances(before: LpTable, replies: map<Addr, Coins>)
    ensures Balances(before, before, [], replies)
  {}

  /** `refreshBalances`. `replies` is what each balance query answers, if it answers; an answer must
      cover what is reserved, or the next `spendableBalance` panics. */
  method RefreshBalances(t: OrderTracker, replies: map<Addr, Coins>) returns (ghost done: seq<Addr>)
    requires t.Valid() && AllCovered(t.Now().lps, t.lps.Keys, replies)
    modifies t, t.pool, t.lps.Values
    ensures t.Valid() && t.lps == old(t.lps)
    ensures forall a :: a in done <==> a in t.lps && a in replies
    ensures t.Table().Keys == old(t.Table()).Keys == t.lps.Keys
    ensures forall a :: a in t.Table() ==>
              var f := old(t.Table())[a].funds;
              t.Table()[a].funds == Funds(if a in replies then replies[a] else f.balance, f.reserved)
    ensures Exec(old(t.Now()), Refreshes(done, replies)) == Some(t.Now())
    ensures t.history == old(t.history) + Refreshes(done, replies)
  {
    hide *;
    ghost var (s, start) := (t.Now(), t.Table());
    t.TableKeys();
    done := [];
    NoSteps(s);
    NoBalances(start, replies);
    RefreshesMore([], "", replies);
    NoneRefreshed(t.lps.Keys, replies);
    var left := t.lps.Keys;
    while left != {}
      invariant t.Valid() && t.lps == old(t.lps) && left <= t.lps.Keys
      invariant AllCovered(t.Now().lps, t.lps.Keys, replies)
      invariant Refreshed(done, t.lps.Keys, left, replies)
      invariant Balances(start, t.Table(), done, replies)
      invariant Exec(s, Refreshes(done, replies)) == Some(t.Now())
      invariant t.history == old(t.history) + Refreshes(done, replies)
      decreases left
    {
      var a :| a in left;
      RefreshedMore(done, t.lps.Keys, left, replies, a);
      left := left - {a};
      if a in replies {
        ghost var before := t.Now();
        t.TermsInTable(a);
        OneMoreBalance(start, t.Table(), done, replies, a);
        RefreshOne(t, a, replies, t.lps.Keys);
        ExecOne(s, Refreshes(done, replies), before, Step.Refresh(a, replies[a]), t.Now());
        RefreshesMore(done, a, replies);
        done := done + [a];
      }
    }
    t.TableKeys();
    AllRefreshed(done, t.lps.Keys, replies);
    BalancesMean(start, t.Table(), done, replies);
  }

  /** The LPs among those looked at whose balance query answered. */
  ghost predicate Refreshed(done: seq<Addr>, all: set<Addr>, left: set<Addr>, replies: map<Addr, Coins>) {
    forall a :: a in done <==> a in all && a !in left && a in replies
  }

  lemma RefreshedMore(done: seq<Addr>, all: set<Addr>, left: set<Addr>, replies: map<Addr, Coins>, a: Addr)
    requires Refreshed(done, all, left, replies) && a in left && a in all
    ensures Refreshed(if a in replies then done + [a] else done, all, left - {a}, replies)
  {}

  lemma NoneRefreshed(all: set<Addr>, replies: map<Addr, Coins>)
    ensures Refreshed([], all, all, replies)
  {}

  lemma AllRefreshed(done: seq<Addr>, all: set<Addr>, replies: map<Addr, Coins>)
    requires Refreshed(done, all, {}, replies)
    ensures forall a :: a in done <==> a in all && a in replies
  {}

  lemma BalancesMean(before: LpTable, after: LpTable, done: seq<Addr>, replies: map<Addr, Coins>)
    requires Balances(before, after, done, replies)
    ensures forall a :: a in done ==> a in replies
    ensures forall a :: a in before ==>
              && a in after
              && after[a].funds
                   == Funds(if a in done then replies[a] else before[a].funds.balance, before[a].funds.reserved)
  {}
}
