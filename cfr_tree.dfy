/// The full-tree walk `_cfr` of src/kuhn/vanilla_cfr.py and
/// src/kuhn/gemini/cfr_backend.py as a function on game values and node
/// tables: what one call returns (the value in player 0's frame) and what the
/// node table is afterwards.  Both solvers train the two-player game with
/// ante and bet 1.0, so one definition specifies both.
module CfrTree {
  import opened KuhnRules
  import opened KuhnInvariant
  import opened InfoState
  import opened Regrets

  /// The game the solvers train: two players, ante 1.0, bet 1.0.
  const Cfg: Config := Config(2, 1.0, 1.0)

  /// The solver's nodes, by information-set key.
  type Table = map<string, NodeValue>

  /// Every node holds one entry per action (PASS, BET).
  predicate ValidTable(t: Table)
  {
    forall k :: k in t ==> |t[k].regretSum| == 2 && |t[k].strategySum| == 2
  }

  /// A two-player hand lasts at most five actions: two deals and at most
  /// three decisions (pass, bet, call).
  lemma HistoryLimit(g: Game)
    requires Reachable(Cfg, g)
    ensures Shaped(2, g) && |g.history| <= 5
    ensures !IsTerminal(g) ==> |g.history| < 5
  {
    ReachableInv(Cfg, g);
    HistoryBound(Cfg, g);
  }

  /// At a chance node the outcomes are the undealt cards, each of which may
  /// be dealt.
  lemma ChanceOutcomesStep(g: Game)
    requires Reachable(Cfg, g) && Shaped(2, g) && !IsTerminal(g) && IsChanceNode(2, g)
    ensures |LegalActions(2, g)| > 0
    ensures var outs := Uniform(LegalActions(2, g));
      forall i :: 0 <= i < |outs| ==> CanStep(2, g, outs[i].0)
  {
    ReachableInv(Cfg, g);
    LegalActionsSpec(Cfg, g);
    var acts := LegalActions(2, g);
    UniformIsDistribution(acts);
    forall i | 0 <= i < |Uniform(acts)|
      ensures CanStep(2, g, Uniform(acts)[i].0)
    {
      assert acts[i] in acts;
    }
  }

  /// The state after an allowed action: reachable again, one action longer.
  ghost function Child(g: Game, a: int): (c: Game)
    requires Reachable(Cfg, g) && CanStep(2, g, a)
    ensures Reachable(Cfg, c) && c == Step(Cfg, g, a) && c.history == g.history + [a]
  {
    ReachableStep(Cfg, g, a);
    Step(Cfg, g, a)
  }

  /// `_cfr(state, p0, p1)`: the returns of player 0 at a terminal state, the
  /// probability-weighted sum over the chance outcomes at a chance node, and
  /// the regret-matching update at a decision node.
  ghost function CfrValue(t: Table, g: Game, p0: real, p1: real): (r: (real, Table))
    requires Reachable(Cfg, g) && ValidTable(t)
    ensures ValidTable(r.1) && t.Keys <= r.1.Keys
    decreases 5 - |g.history|, 3, 0
  {
    HistoryLimit(g);
    if IsTerminal(g) then (Returns(2, g)[0], t)
    else if IsChanceNode(2, g) then
      ChanceOutcomesStep(g);
      var outs := Uniform(LegalActions(2, g));
      var r := ChanceChildren(t, g, outs, |outs|, p0, p1);
      (WeightedSum(outs, r.0), r.1)
    else DecisionValue(t, g, p0, p1)
  }

  /// `train_step`: the table after one walk from the initial state with both
  /// reaches 1.0.
  ghost function TrainStepTable(t: Table): (r: Table)
    requires ValidTable(t)
    ensures ValidTable(r) && t.Keys <= r.Keys
  {
    InitialReachable(Cfg);
    CfrValue(t, Initial(Cfg), 1.0, 1.0).1
  }

  /// The first n turns of the chance loop: the values of the first n
  /// outcomes' children, each walked with the reaches unchanged on the table
  /// the previous child left.
  ghost function ChanceChildren(t: Table, g: Game, outs: seq<(int, real)>, n: nat, p0: real, p1: real): (r: (seq<real>, Table))
    requires Reachable(Cfg, g) && ValidTable(t) && n <= |outs|
    requires forall i :: 0 <= i < |outs| ==> CanStep(2, g, outs[i].0)
    ensures |r.0| == n && ValidTable(r.1) && t.Keys <= r.1.Keys
    decreases 5 - |g.history|, 1, n
  {
    if n == 0 then ([], t)
    else
      HistoryLimit(g);
      var prev := ChanceChildren(t, g, outs, n - 1, p0, p1);
      var c := CfrValue(prev.1, Child(g, outs[n - 1].0), p0, p1);
      (prev.0 + [c.0], c.1)
  }

  /// The probability-weighted sum of the children's values, accumulated from
  /// the first outcome on.
  function WeightedSum(outs: seq<(int, real)>, values: seq<real>): real
    requires |outs| == |values|
    decreases |outs|
  {
    if outs == [] then 0.0
    else WeightedSum(outs[..|outs| - 1], values[..|values| - 1]) + outs[|outs| - 1].1 * values[|values| - 1]
  }

  /// One turn of the chance loop: after the child of outcome i returned `u`
  /// and left table `t'`, the values so far are those of the first i + 1
  /// outcomes.
  lemma ChanceStep(t0: Table, t: Table, t': Table, g: Game, outs: seq<(int, real)>, i: nat,
                   done: seq<real>, u: real, p0: real, p1: real)
    requires Reachable(Cfg, g) && ValidTable(t0) && i < |outs|
    requires forall j :: 0 <= j < |outs| ==> CanStep(2, g, outs[j].0)
    requires done == ChanceChildren(t0, g, outs, i, p0, p1).0 && t == ChanceChildren(t0, g, outs, i, p0, p1).1
    requires u == CfrValue(t, Child(g, outs[i].0), p0, p1).0 && t' == CfrValue(t, Child(g, outs[i].0), p0, p1).1
    ensures done + [u] == ChanceChildren(t0, g, outs, i + 1, p0, p1).0
    ensures t' == ChanceChildren(t0, g, outs, i + 1, p0, p1).1
  {
  }

  /// The running sum of the chance loop after one more outcome.
  lemma AccumulateStep(outs: seq<(int, real)>, done: seq<real>, i: int, u: real, acc: real, prob: real, acc': real)
    requires 0 <= i < |outs| && |done| == i && acc == WeightedSum(outs[..i], done)
    requires prob == outs[i].1 && acc' == acc + prob * u
    ensures acc' == WeightedSum(outs[..i + 1], done + [u])
  {
    assert outs[..i + 1][..i] == outs[..i];
    assert (done + [u])[..i] == done;
  }

  /// One child of a decision node, with the actor's reach scaled by the
  /// probability `prob` of the action, and its value in the actor's frame
  /// (player 1 negates).
  ghost function ChildValue(t: Table, g: Game, action: int, prob: real, p0: real, p1: real): (r: (real, Table))
    requires Reachable(Cfg, g) && ValidTable(t) && !IsTerminal(g) && !IsChanceNode(2, g)
    ensures ValidTable(r.1) && t.Keys <= r.1.Keys
    decreases 5 - |g.history|, 0, 0
  {
    HistoryLimit(g);
    var child := Child(g, action);
    if CurrentPlayer(2, g) == 0 then CfrValue(t, child, p0 * prob, p1)
    else var r := CfrValue(t, child, p0, p1 * prob); (-r.0, r.1)
  }

  /// The two actions of a decision node, in the order they are walked.
  const Actions: seq<int> := [PASS, BET]

  /// The first `i` children of a decision node, walked in order on the table
  /// the previous one left (callers pass `|s|` rather than the literal 2, so
  /// that the walk is not unfolded where it is only referred to).
  ghost function DecisionChildren(t: Table, g: Game, s: seq<real>, i: nat, p0: real, p1: real): (r: (seq<real>, Table))
    requires Reachable(Cfg, g) && ValidTable(t) && !IsTerminal(g) && !IsChanceNode(2, g)
    requires i <= 2 && |s| == 2
    ensures |r.0| == i && ValidTable(r.1) && t.Keys <= r.1.Keys
    decreases 5 - |g.history|, 1, i
  {
    if i == 0 then ([], t)
    else
      var prev := DecisionChildren(t, g, s, i - 1, p0, p1);
      var r := ChildValue(prev.1, g, Actions[i - 1], s[i - 1], p0, p1);
      (prev.0 + [r.0], r.1)
  }

  /// The information-set key of the player to act.
  function NodeKey(g: Game): string
  {
    Key(2, g.history, CurrentPlayer(2, g))
  }

  /// The node a decision starts from: the stored one, or a zero node when
  /// the key is new.
  function NodeAt(t: Table, key: string): NodeValue
  {
    if key in t then t[key] else NewNode(2)
  }

  /// The reach of the player to act, which weighs its strategy sum.
  function OwnReach(g: Game, p0: real, p1: real): real
  {
    if CurrentPlayer(2, g) == 0 then p0 else p1
  }

  /// The reach of the other player, which weighs the regret update.
  function OpponentReach(g: Game, p0: real, p1: real): real
  {
    if CurrentPlayer(2, g) == 0 then p1 else p0
  }

  /// A decision node: fetch or create the node, update its strategy with the
  /// actor's reach, walk PASS then BET, then move every action's regret by
  /// its excess over the node value, weighted by the opponent's reach.
  ghost function DecisionValue(t: Table, g: Game, p0: real, p1: real): (r: (real, Table))
    requires Reachable(Cfg, g) && ValidTable(t) && !IsTerminal(g) && !IsChanceNode(2, g)
    ensures ValidTable(r.1) && t.Keys <= r.1.Keys
    decreases 5 - |g.history|, 2, 0
  {
    var key := NodeKey(g);
    var node := GetStrategy(NodeAt(t, key), OwnReach(g, p0, p1));
    var children := DecisionChildren(t[key := node], g, node.strategy, |node.strategy|, p0, p1);
    var nodeUtil := Dot(node.strategy, children.0);
    var last := children.1[key];
    var updated := last.(regretSum := UpdateRegrets(last.regretSum, children.0, nodeUtil, OpponentReach(g, p0, p1)));
    (if CurrentPlayer(2, g) == 0 then nodeUtil else -nodeUtil, children.1[key := updated])
  }

  /// The end of the chance loop: the values collected and the running sum
  /// are the chance node's result.
  lemma ChanceFinish(t0: Table, t: Table, g: Game, outs: seq<(int, real)>, done: seq<real>, acc: real, p0: real, p1: real)
    requires Reachable(Cfg, g) && ValidTable(t0)
    requires !IsTerminal(g) && IsChanceNode(2, g)
    requires Shaped(2, g) && |LegalActions(2, g)| > 0 && outs == Uniform(LegalActions(2, g))
    requires forall j :: 0 <= j < |outs| ==> CanStep(2, g, outs[j].0)
    requires done == ChanceChildren(t0, g, outs, |outs|, p0, p1).0 && t == ChanceChildren(t0, g, outs, |outs|, p0, p1).1
    requires acc == WeightedSum(outs[..|outs|], done)
    ensures acc == CfrValue(t0, g, p0, p1).0 && t == CfrValue(t0, g, p0, p1).1
  {
    ChanceValue(t0, g, outs, p0, p1);
    assert outs[..|outs|] == outs;
  }

  /// `CfrValue` at a chance node, unfolded once.
  lemma ChanceValue(t0: Table, g: Game, outs: seq<(int, real)>, p0: real, p1: real)
    requires Reachable(Cfg, g) && ValidTable(t0)
    requires !IsTerminal(g) && IsChanceNode(2, g)
    requires Shaped(2, g) && |LegalActions(2, g)| > 0 && outs == Uniform(LegalActions(2, g))
    requires forall j :: 0 <= j < |outs| ==> CanStep(2, g, outs[j].0)
    ensures CfrValue(t0, g, p0, p1).0 == WeightedSum(outs, ChanceChildren(t0, g, outs, |outs|, p0, p1).0)
    ensures CfrValue(t0, g, p0, p1).1 == ChanceChildren(t0, g, outs, |outs|, p0, p1).1
  {
    HistoryLimit(g);
  }

  /// A decision node's result, once its two children have been walked on
  /// the table with the node's strategy updated.
  lemma DecisionResult(t0: Table, g: Game, p0: real, p1: real, util: seq<real>, t2: Table)
    requires Reachable(Cfg, g) && ValidTable(t0) && !IsTerminal(g) && !IsChanceNode(2, g)
    requires var key := NodeKey(g);
      var node := GetStrategy(NodeAt(t0, key), OwnReach(g, p0, p1));
      var children := DecisionChildren(t0[key := node], g, node.strategy, |node.strategy|, p0, p1);
      util == children.0 && t2 == children.1
    ensures NodeKey(g) in t2 && |t2[NodeKey(g)].regretSum| == |util| == 2
    ensures var key := NodeKey(g);
      var nodeUtil := Dot(GetStrategy(NodeAt(t0, key), OwnReach(g, p0, p1)).strategy, util);
      && CfrValue(t0, g, p0, p1).0 == (if CurrentPlayer(2, g) == 0 then nodeUtil else -nodeUtil)
      && CfrValue(t0, g, p0, p1).1 ==
           t2[key := t2[key].(regretSum := UpdateRegrets(t2[key].regretSum, util, nodeUtil, OpponentReach(g, p0, p1)))]
  {
    HistoryLimit(g);
    assert CfrValue(t0, g, p0, p1) == DecisionValue(t0, g, p0, p1);
  }

  /// One turn of the action loop: after the child of action i returned `u`
  /// and left table `t'`, the values so far, with `u` in the actor's frame,
  /// are the first i + 1 children.
  lemma DecisionStep(t1: Table, t: Table, t': Table, g: Game, s: seq<real>, i: nat,
                     done: seq<real>, u: real, p0: real, p1: real)
    requires Reachable(Cfg, g) && ValidTable(t1) && !IsTerminal(g) && !IsChanceNode(2, g)
    requires i < |s| == 2 && done == DecisionChildren(t1, g, s, i, p0, p1).0 && t == DecisionChildren(t1, g, s, i, p0, p1).1
    requires CanStep(2, g, Actions[i])
    requires CurrentPlayer(2, g) == 0 ==>
      u == CfrValue(t, Child(g, Actions[i]), p0 * s[i], p1).0 && t' == CfrValue(t, Child(g, Actions[i]), p0 * s[i], p1).1
    requires CurrentPlayer(2, g) != 0 ==>
      u == CfrValue(t, Child(g, Actions[i]), p0, p1 * s[i]).0 && t' == CfrValue(t, Child(g, Actions[i]), p0, p1 * s[i]).1
    ensures done + [if CurrentPlayer(2, g) == 0 then u else -u] == DecisionChildren(t1, g, s, i + 1, p0, p1).0
    ensures t' == DecisionChildren(t1, g, s, i + 1, p0, p1).1
  {
  }

  /// The running node value of the decision loop after one more action.
  lemma {:induction false} DotStep(s: seq<real>, u: seq<real>, i: int, acc: real, acc': real)
    requires 0 <= i < |s| == |u| && acc == Dot(s[..i], u[..i])
    requires acc' == acc + s[i] * u[i]
    ensures acc' == Dot(s[..i + 1], u[..i + 1])
    decreases i
  {
    if i > 0 {
      DotStep(s[1..], u[1..], i - 1, Dot(s[1..][..i - 1], u[1..][..i - 1]), Dot(s[1..][..i - 1], u[1..][..i - 1]) + s[i] * u[i]);
      assert s[..i + 1][1..] == s[1..][..i] && u[..i + 1][1..] == u[1..][..i];
      assert s[..i][1..] == s[1..][..i - 1] && u[..i][1..] == u[1..][..i - 1];
    }
  }

  /// One entry of `get_snapshot`: copies of the average strategy, the regrets
  /// and the current strategy.
  datatype Snapshot = Snapshot(avgStrategy: seq<real>, regret: seq<real>, currentStrategy: seq<real>)

  function SnapshotOf(node: NodeValue): Snapshot
  {
    Snapshot(AverageStrategy(node.strategySum), node.regretSum, node.strategy)
  }

  /// `get_snapshot` of a whole table.
  function Snapshots(t: Table): map<string, Snapshot>
  {
    map k | k in t :: SnapshotOf(t[k])
  }
}
