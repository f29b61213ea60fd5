/** Asking the full nodes whether a block is validated, with a cache of the last height per rollapp. */
module NodeClients {
  import opened SdkCoins
  import opened LpModel

  /** `validationLevel`: 0 none, 1 peer to peer, 2 settlement. A node may report any number. */
  type Level = int

  datatype RollappConfig = RollappConfig(fullNodes: seq<string>, minConfirmations: int)

  /** `valid`: the last height asked about and how many nodes confirmed it. */
  datatype Confirmed = Confirmed(height: int, confirmations: int)

  type Cache = map<RollappId, Confirmed>

  /** A node's answer: an error, or a chain id and a level. */
  datatype Answer = Failure | Reported(chainId: string, level: Level)

  /** `nodeBlockValidated`: an error, the wrong chain, or whether the level is reached. */
  function NodeValidated(rollapp: RollappId, a: Answer, expected: Level): Option<bool> {
    if a.Failure? || a.chainId != rollapp then None else Some(a.level >= expected)
  }

  function ConfigOf(rollapps: map<RollappId, RollappConfig>, r: RollappId): RollappConfig {
    if r in rollapps then rollapps[r] else RollappConfig([], 0)
  }

  function CachedOf(cache: Cache, r: RollappId): Confirmed {
    if r in cache then cache[r] else Confirmed(0, 0)
  }

  /** How many nodes confirm. */
  function Count(rollapp: RollappId, answers: seq<Answer>, expected: Level): nat {
    if answers == [] then 0
    else
      var n := |answers| - 1;
      Count(rollapp, answers[..n], expected)
        + if NodeValidated(rollapp, answers[n], expected) == Some(true) then 1 else 0
  }

  /** The nodes whose answer is from the right chain and reaches the level. */
  function Confirming(rollapp: RollappId, answers: seq<Answer>, expected: Level): set<nat> {
    set i: nat | i < |answers| && answers[i].Reported? && answers[i].chainId == rollapp && answers[i].level >= expected
  }

  lemma {:induction false} CountIsCardinality(rollapp: RollappId, answers: seq<Answer>, expected: Level)
    ensures Count(rollapp, answers, expected) == |Confirming(rollapp, answers, expected)|
  {
    if answers != [] {
      var n := |answers| - 1;
      CountIsCardinality(rollapp, answers[..n], expected);
      var (before, all) := (Confirming(rollapp, answers[..n], expected), Confirming(rollapp, answers, expected));
      assert all - {n} == before;
    }
  }

  predicate AllAnswer(rollapp: RollappId, answers: seq<Answer>) {
    forall i :: 0 <= i < |answers| ==> answers[i].Reported? && answers[i].chainId == rollapp
  }

  /** One call: the query, and what the nodes would answer at that moment. */
  datatype Query = Query(rollapp: RollappId, height: int, expected: Level, answers: seq<Answer>)

  /** `BlockValidated`: the answer, if it is not an error, and the new cache. */
  function Ask(rollapps: map<RollappId, RollappConfig>, cache: Cache, q: Query): (Option<bool>, Cache) {
    var (config, last) := (ConfigOf(rollapps, q.rollapp), CachedOf(cache, q.rollapp));
    if q.height <= last.height && last.confirmations >= config.minConfirmations then (Some(true), cache)
    else if !AllAnswer(q.rollapp, q.answers) then (None, cache)
    else
      var n := Count(q.rollapp, q.answers, q.expected);
      (Some(n >= config.minConfirmations), cache[q.rollapp := Confirmed(q.height, n)])
  }

  /** The cache after a list of calls. */
  function After(rollapps: map<RollappId, RollappConfig>, calls: seq<Query>): Cache {
    if calls == [] then map[]
    else Ask(rollapps, After(rollapps, calls[..|calls| - 1]), calls[|calls| - 1]).1
  }

  class NodeClient {
    const rollapps: map<RollappId, RollappConfig>
    var lastValidHeight: Cache
    ghost var calls: seq<Query>

    constructor (rollapps: map<RollappId, RollappConfig>)
      ensures this.rollapps == rollapps && calls == [] && Valid()
    {
      this.rollapps := rollapps;
      lastValidHeight := map[];
      calls := [];
    }

    ghost predicate Valid()
      reads this
    {
      lastValidHeight == After(rollapps, calls)
    }

    /** The nodes are asked one by one here; the source asks them at the same time and adds up. */
    method BlockValidated(q: Query) returns (valid: Option<bool>)
      requires Valid() && |q.answers| == |ConfigOf(rollapps, q.rollapp).fullNodes|
      modifies this
      ensures Valid() && calls == old(calls) + [q]
      ensures valid == Ask(rollapps, old(lastValidHeight), q).0
    {
      assert (calls + [q])[..|calls|] == calls;
      calls := calls + [q];
      var config := ConfigOf(rollapps, q.rollapp);
      var last := CachedOf(lastValidHeight, q.rollapp);
      if q.height <= last.height && last.confirmations >= config.minConfirmations {
        return Some(true);
      }
      var validatedNodes := 0;
      var failed := false;
      for i := 0 to |q.answers|
        invariant failed <==> !AllAnswer(q.rollapp, q.answers[..i])
        invariant validatedNodes == Count(q.rollapp, q.answers[..i], q.expected)
      {
        assert q.answers[..i + 1][..i] == q.answers[..i];
        var validated := NodeValidated(q.rollapp, q.answers[i], q.expected);
        match validated {
          case None => failed := true;
          case Some(yes) =>
            if yes {
              validatedNodes := validatedNodes + 1;
            }
        }
      }
      assert q.answers[..|q.answers|] == q.answers;
      if failed {
        return None;
      }
      lastValidHeight := lastValidHeight[q.rollapp := Confirmed(q.height, validatedNodes)];
      return Some(validatedNodes >= config.minConfirmations);
    }
  }

  /** `newNodeClient` rejects a rollapp with no confirmations asked for, or with more than it has nodes. */
  predicate Accepts(config: RollappConfig) {
    config.minConfirmations != 0 && |config.fullNodes| >= config.minConfirmations
  }

  method NewNodeClient(rollapps: map<RollappId, RollappConfig>) returns (client: Option<NodeClient>)
    ensures client.Some? <==>
              forall r :: r in rollapps ==>
                rollapps[r].minConfirmations != 0 && rollapps[r].minConfirmations <= |rollapps[r].fullNodes|
    ensures client.Some? ==> fresh(client.value) && client.value.rollapps == rollapps
                             && client.value.Valid() && client.value.calls == []
  {
    var left := rollapps.Keys;
    while left != {}
      invariant left <= rollapps.Keys
      invariant forall r :: r in rollapps && r !in left ==> Accepts(rollapps[r])
      decreases left
    {
      var r :| r in left;
      left := left - {r};
      if rollapps[r].minConfirmations == 0 {
        return None;
      }
      if |rollapps[r].fullNodes| < rollapps[r].minConfirmations {
        return None;
      }
    }
    var n := new NodeClient(rollapps);
    client := Some(n);
  }

  // ---------------------------------------------------------------- when the cache is right

  /** What node `node` of a rollapp reports for a height at the time of call number `time`. */
  type World = (nat, RollappId, nat, int) -> Level

  /** The calls were answered by this world, wherever a node gave a proper answer. */
  ghost predicate AnsweredBy(w: World, rollapps: map<RollappId, RollappConfig>, calls: seq<Query>) {
    forall t :: 0 <= t < |calls| ==> AnsweredAt(w, rollapps, calls[t], t)
  }

  predicate AnsweredAt(w: World, rollapps: map<RollappId, RollappConfig>, q: Query, t: nat) {
    && |q.answers| == |ConfigOf(rollapps, q.rollapp).fullNodes|
    && forall i :: 0 <= i < |q.answers| && q.answers[i].Reported? && q.answers[i].chainId == q.rollapp ==>
         q.answers[i].level == w(t, q.rollapp, i, q.height)
  }

  /** Levels never rise with the height and never fall with time. */
  ghost predicate Settling(w: World) {
    forall t: nat, u: nat, r, i: nat, h: int, k: int ::
      t <= u && h <= k ==> w(u, r, i, h) >= w(t, r, i, k)
  }

  /** How many of the first `n` nodes report the level, asked directly. */
  function DirectCount(w: World, t: nat, r: RollappId, n: nat, height: int, expected: Level): nat {
    if n == 0 then 0
    else DirectCount(w, t, r, n - 1, height, expected) + if w(t, r, n - 1, height) >= expected then 1 else 0
  }

  /** So it is a number of nodes. */
  lemma {:induction false} DirectCountIsCardinality(w: World, t: nat, r: RollappId, n: nat, height: int,
                                                    expected: Level)
    ensures DirectCount(w, t, r, n, height, expected) == |set i: nat | i < n && w(t, r, i, height) >= expected|
  {
    if n > 0 {
      DirectCountIsCardinality(w, t, r, n - 1, height, expected);
      var before := set i: nat | i < n - 1 && w(t, r, i, height) >= expected;
      var all := set i: nat | i < n && w(t, r, i, height) >= expected;
      assert all - {n - 1} == before;
    }
  }

  lemma {:induction false} CountIsDirect(w: World, t: nat, r: RollappId, answers: seq<Answer>, height: int,
                                         expected: Level)
    requires forall i :: 0 <= i < |answers| ==> answers[i] == Reported(r, w(t, r, i, height))
    ensures Count(r, answers, expected) == DirectCount(w, t, r, |answers|, height, expected)
  {
    if answers != [] {
      CountIsDirect(w, t, r, answers[..|answers| - 1], height, expected);
    }
  }

  lemma {:induction false} CountGrows(w: World, t: nat, u: nat, r: RollappId, n: nat, h: int, k: int,
                                      low: Level, high: Level)
    requires Settling(w) && t <= u && h <= k && low <= high
    ensures DirectCount(w, u, r, n, h, low) >= DirectCount(w, t, r, n, k, high)
  {
    if n > 0 {
      CountGrows(w, t, u, r, n - 1, h, k, low, high);
      assert w(u, r, n - 1, h) >= w(t, r, n - 1, k);
    }
  }

  // ---------------------------------------------------------------- where a cached count comes from

  /** The rollapp's entry answers for heights up to `height`. */
  predicate AnswersUpTo(rollapps: map<RollappId, RollappConfig>, cache: Cache, r: RollappId, height: int) {
    var last := CachedOf(cache, r);
    height <= last.height && last.confirmations >= ConfigOf(rollapps, r).minConfirmations
  }

  /** The call is answered from the cache. */
  predicate Hit(rollapps: map<RollappId, RollappConfig>, cache: Cache, q: Query) {
    AnswersUpTo(rollapps, cache, q.rollapp, q.height)
  }

  /** The call that filled the rollapp's entry. */
  function Filler(rollapps: map<RollappId, RollappConfig>, calls: seq<Query>, r: RollappId): (t: Option<nat>)
    ensures t.Some? ==> t.value < |calls|
  {
    if calls == [] then None
    else
      var (n, last) := (|calls| - 1, calls[|calls| - 1]);
      var missed := !Hit(rollapps, After(rollapps, calls[..n]), last);
      if last.rollapp == r && missed && AllAnswer(r, last.answers) then Some(n)
      else Filler(rollapps, calls[..n], r)
  }

  /** The entry is what the nodes said then; and since then each call about the rollapp either was answered
      from that entry or failed. */
  ghost predicate FilledBy(rollapps: map<RollappId, RollappConfig>, calls: seq<Query>, r: RollappId, t: nat) {
    && t < |calls| && calls[t].rollapp == r && AllAnswer(r, calls[t].answers)
    && r in After(rollapps, calls)
    && After(rollapps, calls)[r] == Confirmed(calls[t].height, Count(r, calls[t].answers, calls[t].expected))
    && forall u :: t < u < |calls| && calls[u].rollapp == r ==>
         !AllAnswer(r, calls[u].answers) || calls[u].height <= calls[t].height
  }

  lemma {:induction false} FillerFills(rollapps: map<RollappId, RollappConfig>, calls: seq<Query>, r: RollappId)
    ensures match Filler(rollapps, calls, r)
            case None => r !in After(rollapps, calls)
            case Some(t) => FilledBy(rollapps, calls, r, t)
  {
    if calls != [] {
      var (n, last) := (|calls| - 1, calls[|calls| - 1]);
      FillerFills(rollapps, calls[..n], r);
      var t := Filler(rollapps, calls[..n], r);
      if t.Some? && Filler(rollapps, calls, r) == t {
        forall u | t.value < u < |calls| && calls[u].rollapp == r
          ensures !AllAnswer(r, calls[u].answers) || calls[u].height <= calls[t.value].height {
          assert u < n ==> calls[u] == calls[..n][u];
        }
      }
    }
  }

  /** If the cache answers, it was filled at a level at least the one asked about. */
  predicate Covered(rollapps: map<RollappId, RollappConfig>, calls: seq<Query>, q: Query) {
    Hit(rollapps, After(rollapps, calls), q) ==>
      match Filler(rollapps, calls, q.rollapp)
      case None => true
      case Some(t) => q.expected <= calls[t].expected
  }

  lemma AnsweredCount(w: World, rollapps: map<RollappId, RollappConfig>, q: Query, t: nat)
    requires AnsweredAt(w, rollapps, q, t) && AllAnswer(q.rollapp, q.answers)
    ensures Count(q.rollapp, q.answers, q.expected)
         == DirectCount(w, t, q.rollapp, |ConfigOf(rollapps, q.rollapp).fullNodes|, q.height, q.expected)
  {
    CountIsDirect(w, t, q.rollapp, q.answers, q.height, q.expected);
  }

  /** Over every sequence of calls, failed ones included, an answer that the cache covers is a direct
      count: whether at least the configured number of nodes report the level now, however the heights and
      levels asked about overwrote the cache. There is an answer whenever no node fails. */
  lemma AnswersAreDirect(w: World, rollapps: map<RollappId, RollappConfig>, calls: seq<Query>, q: Query)
    requires Settling(w) && AnsweredBy(w, rollapps, calls + [q]) && Covered(rollapps, calls, q)
    ensures var (config, answer) := (ConfigOf(rollapps, q.rollapp), Ask(rollapps, After(rollapps, calls), q).0);
            && (AllAnswer(q.rollapp, q.answers) ==> answer.Some?)
            && (answer.Some? ==>
                  (answer.value <==> DirectCount(w, |calls|, q.rollapp, |config.fullNodes|, q.height, q.expected)
                                       >= config.minConfirmations))
  {
    hide Settling;
    var (n, r, nodes) := (|calls|, q.rollapp, |ConfigOf(rollapps, q.rollapp).fullNodes|);
    var all := calls + [q];
    assert all[n] == q && AnsweredAt(w, rollapps, all[n], n);
    if AllAnswer(r, q.answers) {
      AnsweredCount(w, rollapps, q, n);
    }
    FillerFills(rollapps, calls, r);
    var filler := Filler(rollapps, calls, r);
    if filler.Some? && Hit(rollapps, After(rollapps, calls), q) {
      var t := filler.value;
      assert all[t] == calls[t] && AnsweredAt(w, rollapps, all[t], t);
      AnsweredCount(w, rollapps, calls[t], t);
      CountGrows(w, t, n, r, nodes, q.height, calls[t].height, q.expected, calls[t].expected);
    }
  }

  // ---------------------------------------------------------------- when every world gets a right answer

  /** What is asked, and whether some node fails to answer. */
  datatype Question = Question(rollapp: RollappId, height: int, expected: Level, fails: bool)

  /** The call as the world answers it at time `t`. */
  ghost function AskedIn(w: World, rollapps: map<RollappId, RollappConfig>, q: Question, t: nat): (c: Query)
    ensures AnsweredAt(w, rollapps, c, t)
  {
    var nodes := |ConfigOf(rollapps, q.rollapp).fullNodes|;
    Query(q.rollapp, q.height, q.expected,
          seq(nodes, i requires 0 <= i < nodes =>
            if q.fails then Failure else Reported(q.rollapp, w(t, q.rollapp, i, q.height))))
  }

  ghost function AllAskedIn(w: World, rollapps: map<RollappId, RollappConfig>, qs: seq<Question>): (calls: seq<Query>)
    ensures |calls| == |qs|
  {
    seq(|qs|, t requires 0 <= t < |qs| => AskedIn(w, rollapps, qs[t], t))
  }

  /** The last answer, if there is one, is the direct count. */
  ghost predicate RightAnswer(w: World, rollapps: map<RollappId, RollappConfig>, qs: seq<Question>, q: Question) {
    var (config, n) := (ConfigOf(rollapps, q.rollapp), |qs|);
    match Ask(rollapps, After(rollapps, AllAskedIn(w, rollapps, qs)), AskedIn(w, rollapps, q, n)).0
    case None => true
    case Some(answer) =>
      answer <==> DirectCount(w, n, q.rollapp, |config.fullNodes|, q.height, q.expected) >= config.minConfirmations
  }

  /** Question `t` was put at a lower level about the same height or a higher one, no node failed, and all
      questions about the rollapp since then were about heights no higher, or failed. */
  ghost predicate ExposedBy(qs: seq<Question>, q: Question, t: nat) {
    && t < |qs| && qs[t].rollapp == q.rollapp && !qs[t].fails
    && q.height <= qs[t].height && qs[t].expected < q.expected
    && forall u :: t < u < |qs| && qs[u].rollapp == q.rollapp ==> qs[u].fails || qs[u].height <= qs[t].height
  }

  ghost predicate Exposed(qs: seq<Question>, q: Question) {
    exists t: nat :: ExposedBy(qs, q, t)
  }

  lemma AnswersOf(w: World, rollapps: map<RollappId, RollappConfig>, q: Question, t: nat)
    requires |ConfigOf(rollapps, q.rollapp).fullNodes| >= 1
    ensures AllAnswer(q.rollapp, AskedIn(w, rollapps, q, t).answers) <==> !q.fails
  {
    assert q.fails ==> AskedIn(w, rollapps, q, t).answers[0] == Failure;
  }

  lemma UnexposedIsRight(w: World, rollapps: map<RollappId, RollappConfig>, qs: seq<Question>, q: Question)
    requires Settling(w) && !Exposed(qs, q) && |ConfigOf(rollapps, q.rollapp).fullNodes| >= 1
    ensures RightAnswer(w, rollapps, qs, q)
  {
    hide Settling, Ask, AskedIn;
    var (calls, c) := (AllAskedIn(w, rollapps, qs), AskedIn(w, rollapps, q, |qs|));
    assert AnsweredBy(w, rollapps, calls + [c]);
    TermsOf(w, rollapps, q, |qs|);
    FillerFills(rollapps, calls, q.rollapp);
    var filler := Filler(rollapps, calls, q.rollapp);
    if filler.Some? && Hit(rollapps, After(rollapps, calls), c) {
      var t := filler.value;
      forall u: nat | u < |qs|
        ensures calls[u].rollapp == qs[u].rollapp && calls[u].height == qs[u].height
        ensures calls[u].expected == qs[u].expected
        ensures qs[u].rollapp == q.rollapp ==> (AllAnswer(q.rollapp, calls[u].answers) <==> !qs[u].fails) {
        TermsOf(w, rollapps, qs[u], u);
        if qs[u].rollapp == q.rollapp {
          AnswersOf(w, rollapps, qs[u], u);
        }
      }
      assert !ExposedBy(qs, q, t);
    }
    AnswersAreDirect(w, rollapps, calls, c);
  }

  lemma TermsOf(w: World, rollapps: map<RollappId, RollappConfig>, q: Question, t: nat)
    ensures var c := AskedIn(w, rollapps, q, t);
            c.rollapp == q.rollapp && c.height == q.height && c.expected == q.expected
  {}

  /** In a world where every node reports the level just below the one asked about, the entry an exposing
      question leaves behind, or one that covers it, is still there when the last question is put. */
  lemma {:induction false} EntryStays(w: World, rollapps: map<RollappId, RollappConfig>, qs: seq<Question>,
                                      q: Question, t: nat, n: nat)
    requires ExposedBy(qs, q, t) && t < n <= |qs|
    requires 1 <= ConfigOf(rollapps, q.rollapp).minConfirmations <= |ConfigOf(rollapps, q.rollapp).fullNodes|
    requires forall u: nat, i: nat, h: int :: w(u, q.rollapp, i, h) == q.expected - 1
    ensures AnswersUpTo(rollapps, After(rollapps, AllAskedIn(w, rollapps, qs)[..n]), q.rollapp, qs[t].height)
    decreases n
  {
    var (calls, r) := (AllAskedIn(w, rollapps, qs), q.rollapp);
    var last := calls[n - 1];
    assert calls[..n][..n - 1] == calls[..n - 1] && calls[..n][n - 1] == last;
    if qs[n - 1].rollapp == r {
      AnswersOf(w, rollapps, qs[n - 1], n - 1);
    }
    if n - 1 == t {
      AnsweredCount(w, rollapps, last, t);
      ConstantCount(w, t, r, |ConfigOf(rollapps, r).fullNodes|, last.height, last.expected, q.expected - 1);
    } else {
      EntryStays(w, rollapps, qs, q, t, n - 1);
    }
  }

  lemma ExposedIsWrong(rollapps: map<RollappId, RollappConfig>, qs: seq<Question>, q: Question) returns (w: World)
    requires Exposed(qs, q)
    requires 1 <= ConfigOf(rollapps, q.rollapp).minConfirmations <= |ConfigOf(rollapps, q.rollapp).fullNodes|
    ensures Settling(w) && !RightAnswer(w, rollapps, qs, q)
  {
    var level := q.expected - 1;
    w := (t, s, i, h) => level;
    var t: nat :| ExposedBy(qs, q, t);
    var calls := AllAskedIn(w, rollapps, qs);
    EntryStays(w, rollapps, qs, q, t, |qs|);
    assert calls[..|qs|] == calls;
    ConstantCount(w, |qs|, q.rollapp, |ConfigOf(rollapps, q.rollapp).fullNodes|, q.height, q.expected, level);
  }

  /** The answer to a question, after any sequence of questions, is right in every world exactly when no
      earlier question has exposed it. */
  lemma CacheIsRightExactly(rollapps: map<RollappId, RollappConfig>, qs: seq<Question>, q: Question)
    requires 1 <= ConfigOf(rollapps, q.rollapp).minConfirmations <= |ConfigOf(rollapps, q.rollapp).fullNodes|
    ensures (forall w: World :: Settling(w) ==> RightAnswer(w, rollapps, qs, q)) <==> !Exposed(qs, q)
  {
    hide Settling, RightAnswer, Exposed;
    if Exposed(qs, q) {
      var w := ExposedIsWrong(rollapps, qs, q);
      assert Settling(w) && !RightAnswer(w, rollapps, qs, q);
    } else {
      forall w: World | Settling(w) ensures RightAnswer(w, rollapps, qs, q) {
        UnexposedIsRight(w, rollapps, qs, q);
      }
    }
  }

  /** One node, one confirmation asked for. The node reports level 1 for height 5; asked about level 1, the
      client stores that; asked about level 2, it says yes although no node confirms. */
  lemma LowerLevelAnswersForHigher()
    ensures var rollapps := map["rollapp" := RollappConfig(["node"], 1)];
            var answers := [Reported("rollapp", 1)];
            var (first, second) := (Query("rollapp", 5, 1, answers), Query("rollapp", 5, 2, answers));
            && Accepts(rollapps["rollapp"])
            && Ask(rollapps, map[], first).0 == Some(true)
            && Ask(rollapps, After(rollapps, [first]), second).0 == Some(true)
            && Count("rollapp", answers, 2) == 0
  {
    var rollapps := map["rollapp" := RollappConfig(["node"], 1)];
    var answers := [Reported("rollapp", 1)];
    var first := Query("rollapp", 5, 1, answers);
    assert answers[..0] == [] && [first][..0] == [];
    assert Count("rollapp", answers, 1) == 1 && Count("rollapp", answers, 2) == 0;
    assert After(rollapps, [first]) == Ask(rollapps, map[], first).1;
  }

  lemma {:induction false} ConstantCount(w: World, t: nat, r: RollappId, n: nat, height: int,
                                         expected: Level, level: Level)
    requires forall i: nat :: w(t, r, i, height) == level
    ensures DirectCount(w, t, r, n, height, expected) == if level >= expected then n else 0
  {
    if n > 0 {
      ConstantCount(w, t, r, n - 1, height, expected, level);
    }
  }

  // ---------------------------------------------------------------- negative confirmations

  /** No node confirms anything, ever, and yet the last call is answered with yes. */
  predicate TrueForNothing(rollapps: map<RollappId, RollappConfig>, calls: seq<Query>, q: Query) {
    && |q.answers| == |ConfigOf(rollapps, q.rollapp).fullNodes|
    && Count(q.rollapp, q.answers, q.expected) == 0
    && (forall t :: 0 <= t < |calls| ==> Count(calls[t].rollapp, calls[t].answers, calls[t].expected) == 0)
    && Ask(rollapps, After(rollapps, calls), q).0 == Some(true)
  }

  lemma {:induction false} NothingConfirmed(rollapps: map<RollappId, RollappConfig>, calls: seq<Query>, r: RollappId)
    requires forall t :: 0 <= t < |calls| ==> Count(calls[t].rollapp, calls[t].answers, calls[t].expected) == 0
    ensures CachedOf(After(rollapps, calls), r).confirmations == 0
  {
    if calls != [] {
      NothingConfirmed(rollapps, calls[..|calls| - 1], r);
    }
  }

  lemma {:induction false} FailuresConfirmNothing(rollapp: RollappId, answers: seq<Answer>, expected: Level)
    requires forall i :: 0 <= i < |answers| ==> answers[i] == Failure
    ensures Count(rollapp, answers, expected) == 0
  {
    if answers != [] {
      FailuresConfirmNothing(rollapp, answers[..|answers| - 1], expected);
    }
  }

  /** `newNodeClient` accepts a rollapp for which the client can say yes with no node ever confirming
      anything exactly if the number of confirmations asked for is negative. */
  lemma NegativeConfirmations(rollapps: map<RollappId, RollappConfig>, r: RollappId)
    requires r in rollapps && Accepts(rollapps[r])
    ensures (exists calls: seq<Query>, q: Query :: q.rollapp == r && TrueForNothing(rollapps, calls, q))
       <==> rollapps[r].minConfirmations < 0
  {
    if rollapps[r].minConfirmations < 0 {
      var answers := seq(|rollapps[r].fullNodes|, i => Failure);
      FailuresConfirmNothing(r, answers, 1);
      assert TrueForNothing(rollapps, [], Query(r, 0, 1, answers));
    } else {
      forall calls: seq<Query>, q: Query | q.rollapp == r ensures !TrueForNothing(rollapps, calls, q) {
        if forall t :: 0 <= t < |calls| ==> Count(calls[t].rollapp, calls[t].answers, calls[t].expected) == 0 {
          NothingConfirmed(rollapps, calls, r);
        }
      }
    }
  }

  lemma {:induction false} CachedCountsAreCounts(rollapps: map<RollappId, RollappConfig>, calls: seq<Query>,
                                                 r: RollappId)
    ensures CachedOf(After(rollapps, calls), r).confirmations >= 0
  {
    if calls != [] {
      CachedCountsAreCounts(rollapps, calls[..|calls| - 1], r);
    }
  }

  /** With a negative number the client never says no: it says yes up to the last height it got answers
      about, and wherever no node fails; and otherwise there is an error. */
  lemma NegativeNeverRefuses(rollapps: map<RollappId, RollappConfig>, calls: seq<Query>, q: Query)
    requires ConfigOf(rollapps, q.rollapp).minConfirmations < 0
    ensures var cache := After(rollapps, calls);
            Ask(rollapps, cache, q).0
              == if q.height <= CachedOf(cache, q.rollapp).height || AllAnswer(q.rollapp, q.answers) then Some(true)
                 else None
  {
    CachedCountsAreCounts(rollapps, calls, q.rollapp);
  }
}
