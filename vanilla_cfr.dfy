/// `CFRSolver` of src/kuhn/vanilla_cfr.py: full-tree vanilla CFR over the
/// configurable implementation with its default configuration (two players,
/// ante and bet 1.0, no checks).  The solver's table maps each
/// information-set string to the contents of its node, and every update of a
/// node replaces its entry.
module VanillaCfr {
  import opened KuhnRules
  import opened KuhnInvariant
  import opened InfoState
  import opened Regrets
  import opened CfrTree
  import KuhnPoker

  /// `KuhnPokerGame()`'s configuration.
  const DefaultConfig: KuhnPoker.KuhnConfig := KuhnPoker.KuhnConfig(2, 1.0, 1.0, false)

  class CFRSolver {
    const game: KuhnPoker.KuhnPokerGame
    /// `nodes`: the contents of each information set's node, by key.
    var nodes: Table

    ghost predicate Valid()
      reads this
    {
      game.config == DefaultConfig && ValidTable(nodes)
    }

    /// `CFRSolver()`: the default game and an empty table.
    constructor ()
      ensures Valid() && nodes == map[]
    {
      game := new KuhnPoker.KuhnPokerGame(DefaultConfig);
      nodes := map[];
    }

    /// `_get_node(info_set, num_actions)`: a zero node is inserted only when
    /// the key is absent; an existing node is returned as it is and no other
    /// entry changes.
    method GetNode(infoSet: string, numActions: nat) returns (node: NodeValue)
      modifies this
      ensures infoSet in nodes && node == nodes[infoSet]
      ensures infoSet in old(nodes) ==> nodes == old(nodes)
      ensures infoSet !in old(nodes) ==> node == NewNode(numActions) && nodes == old(nodes)[infoSet := node]
    {
      if infoSet !in nodes {
        nodes := nodes[infoSet := NewNode(numActions)];
      }
      node := nodes[infoSet];
    }

    /// `train_step`: one walk of the whole tree from the initial state with
    /// both reaches 1.0.
    method TrainStep()
      requires Valid()
      modifies this
      ensures Valid() && nodes == TrainStepTable(old(nodes))
    {
      var state := game.NewInitialState();
      var _ := Cfr(state, 1.0, 1.0);
    }

    /// `_cfr(state, p0, p1)`: returns and leaves the table as `CfrValue`
    /// says; the state walked is not changed (children are walked on clones).
    method Cfr(state: KuhnPoker.KuhnState, p0: real, p1: real) returns (v: real)
      requires Valid() && state.Valid() && state.config == DefaultConfig
      modifies this
      ensures Valid() && v == CfrValue(old(nodes), state.View(), p0, p1).0 && nodes == CfrValue(old(nodes), state.View(), p0, p1).1
      decreases 5 - |state.history|, 4
    {
      ghost var g := state.View();
      HistoryLimit(g);
      if state.IsTerminal() {
        var outcomes := state.Returns();
        return outcomes[0];
      }
      if state.IsChanceNode() {
        v := ChanceNode(state, p0, p1);
        return;
      }
      v := DecisionNode(state, p0, p1);
    }

    /// The loop body shared by both branches of `_cfr`: clone the state,
    /// apply one action and walk the child with the given reaches.
    method Visit(state: KuhnPoker.KuhnState, action: int, p0: real, p1: real) returns (u: real)
      requires Valid() && state.Valid() && state.config == DefaultConfig
      requires CanStep(2, state.View(), action)
      modifies this
      ensures Valid() && u == CfrValue(old(nodes), Child(old(state.View()), action), p0, p1).0
      ensures nodes == CfrValue(old(nodes), Child(old(state.View()), action), p0, p1).1
      decreases 5 - |state.history|, 0
    {
      ghost var g := state.View();
      HistoryLimit(g);
      var nextState := state.Clone();
      var _ := nextState.ApplyAction(action);
      assert nextState.View() == Child(g, action);
      u := Cfr(nextState, p0, p1);
    }

    /// The chance branch of `_cfr`: every outcome's child, weighted by its
    /// probability, summed in order.
    method ChanceNode(state: KuhnPoker.KuhnState, p0: real, p1: real) returns (expectedUtil: real)
      requires Valid() && state.Valid() && state.config == DefaultConfig
      requires !IsTerminal(state.View()) && IsChanceNode(2, state.View())
      modifies this
      ensures Valid() && expectedUtil == CfrValue(old(nodes), state.View(), p0, p1).0 && nodes == CfrValue(old(nodes), state.View(), p0, p1).1
      decreases 5 - |state.history|, 3
    {
      ghost var g := state.View();
      HistoryLimit(g);
      ChanceOutcomesStep(g);
      var outcomes := state.ChanceOutcomes();
      var strategy := outcomes.value;
      ghost var T0 := nodes;
      expectedUtil := WalkOutcomes(state, strategy, p0, p1);
      assert strategy[..|strategy|] == strategy;
      ChanceFinish(T0, nodes, g, strategy, ChanceChildren(T0, g, strategy, |strategy|, p0, p1).0, expectedUtil, p0, p1);
    }

    /// The loop of the chance branch: every outcome's child visited in order,
    /// its value weighted by the outcome's probability and summed.
    method WalkOutcomes(state: KuhnPoker.KuhnState, strategy: seq<(int, real)>, p0: real, p1: real) returns (expectedUtil: real)
      requires Valid() && state.Valid() && state.config == DefaultConfig
      requires !IsTerminal(state.View())
      requires forall j :: 0 <= j < |strategy| ==> CanStep(2, state.View(), strategy[j].0)
      modifies this
      ensures Valid()
      ensures expectedUtil == WeightedSum(strategy, ChanceChildren(old(nodes), old(state.View()), strategy, |strategy|, p0, p1).0)
      ensures nodes == ChanceChildren(old(nodes), old(state.View()), strategy, |strategy|, p0, p1).1
      decreases 5 - |state.history|, 2
    {
      ghost var g := state.View();
      HistoryLimit(g);
      ghost var T0 := nodes;
      ghost var done: seq<real> := [];
      expectedUtil := 0.0;
      var i := 0;
      while i < |strategy|
        invariant 0 <= i <= |strategy| && |done| == i
        invariant Valid() && state.View() == g
        invariant expectedUtil == WeightedSum(strategy[..i], done)
        invariant done == ChanceChildren(T0, g, strategy, i, p0, p1).0 && nodes == ChanceChildren(T0, g, strategy, i, p0, p1).1
      {
        var (action, prob) := strategy[i];
        ghost var before := nodes;
        var u := Visit(state, action, p0, p1);
        ChanceStep(T0, before, nodes, g, strategy, i, done, u, p0, p1);
        ghost var acc := expectedUtil;
        expectedUtil := expectedUtil + prob * u;
        AccumulateStep(strategy, done, i, u, acc, prob, expectedUtil);
        done := done + [u];
        i := i + 1;
      }
      assert strategy[..i] == strategy;
    }

    /// The decision branch of `_cfr`: update the node's strategy with the
    /// actor's reach, walk PASS then BET, then move the node's regrets by
    /// each action's excess over the node value, weighted by the opponent's
    /// reach.
    method DecisionNode(state: KuhnPoker.KuhnState, p0: real, p1: real) returns (v: real)
      requires Valid() && state.Valid() && state.config == DefaultConfig
      requires !IsTerminal(state.View()) && !IsChanceNode(2, state.View())
      modifies this
      ensures Valid() && v == CfrValue(old(nodes), state.View(), p0, p1).0 && nodes == CfrValue(old(nodes), state.View(), p0, p1).1
      decreases 5 - |state.history|, 3
    {
      ghost var g := state.View();
      ghost var T0 := nodes;
      var infoSet, strategy, player := StartDecision(state, p0, p1);
      var util, nodeUtil := WalkActions(state, strategy, p0, p1);
      DecisionResult(T0, g, p0, p1, util, nodes);
      var opponentReach := if player == 0 then p1 else p0;
      FinishDecision(infoSet, util, nodeUtil, opponentReach);
      v := if player == 0 then nodeUtil else -nodeUtil;
    }

    /// The start of a decision node: fetch or create the node of the actor's
    /// information set and refresh its strategy with the actor's reach.
    method StartDecision(state: KuhnPoker.KuhnState, p0: real, p1: real) returns (infoSet: string, strategy: seq<real>, player: int)
      requires Valid() && state.Valid() && state.config == DefaultConfig
      requires !IsTerminal(state.View()) && !IsChanceNode(2, state.View())
      modifies this
      ensures Valid() && infoSet == NodeKey(state.View()) && player == CurrentPlayer(2, state.View())
      ensures var node := GetStrategy(NodeAt(old(nodes), infoSet), OwnReach(state.View(), p0, p1));
        strategy == node.strategy && nodes == old(nodes)[infoSet := node]
      ensures |strategy| == 2
    {
      ghost var T0 := nodes;
      var infoSetString := state.InformationStateString(None);
      infoSet := infoSetString.value;
      var node := GetNode(infoSet, 2);
      assert node == NodeAt(T0, infoSet);
      player := state.CurrentPlayer();
      var realizationWeight := if player == 0 then p0 else p1;
      node := GetStrategy(node, realizationWeight);
      nodes := nodes[infoSet := node];
      strategy := node.strategy;
    }

    /// The end of a decision node: the regret update of the node at `infoSet`.
    method FinishDecision(infoSet: string, util: seq<real>, nodeUtil: real, opponentReach: real)
      requires Valid() && infoSet in nodes && |util| == 2
      modifies this
      ensures Valid()
      ensures nodes == old(nodes)[infoSet := old(nodes)[infoSet].(regretSum :=
        UpdateRegrets(old(nodes)[infoSet].regretSum, util, nodeUtil, opponentReach))]
    {
      var node := nodes[infoSet];
      node := AccumulateRegrets(node, util, nodeUtil, opponentReach);
      nodes := nodes[infoSet := node];
    }

    /// The action loop of a decision node: PASS then BET, each child walked
    /// with the actor's reach scaled by the action's probability, and the
    /// node value as the strategy-weighted sum of the children's values.
    method WalkActions(state: KuhnPoker.KuhnState, strategy: seq<real>, p0: real, p1: real) returns (util: seq<real>, nodeUtil: real)
      requires Valid() && state.Valid() && state.config == DefaultConfig
      requires !IsTerminal(state.View()) && !IsChanceNode(2, state.View()) && |strategy| == 2
      modifies this
      ensures Valid() && util == DecisionChildren(old(nodes), state.View(), strategy, |strategy|, p0, p1).0
      ensures nodes == DecisionChildren(old(nodes), state.View(), strategy, |strategy|, p0, p1).1
      ensures nodeUtil == Dot(strategy, util)
      decreases 5 - |state.history|, 2
    {
      ghost var g := state.View();
      util := [0.0, 0.0];
      nodeUtil := 0.0;
      ghost var T1 := nodes;
      for i := 0 to 2
        invariant Valid() && state.View() == g && |util| == 2
        invariant util[..i] == DecisionChildren(T1, g, strategy, i, p0, p1).0 && nodes == DecisionChildren(T1, g, strategy, i, p0, p1).1
        invariant nodeUtil == Dot(strategy[..i], util[..i])
      {
        var u := ActionValue(state, strategy, i, T1, util[..i], p0, p1);
        util := util[i := u];
        assert util[..i + 1] == util[..i] + [u];
        ghost var acc := nodeUtil;
        nodeUtil := nodeUtil + strategy[i] * util[i];
        DotStep(strategy, util, i, acc, nodeUtil);
      }
      assert util[..2] == util && strategy[..2] == strategy;
    }

    /// One turn of the action loop: the child of action i walked with the
    /// actor's reach scaled by the action's probability, its value negated
    /// for player 1 so that it is in the actor's frame.
    method ActionValue(state: KuhnPoker.KuhnState, strategy: seq<real>, i: nat, ghost T1: Table, ghost done: seq<real>, p0: real, p1: real) returns (u: real)
      requires Valid() && state.Valid() && state.config == DefaultConfig
      requires !IsTerminal(state.View()) && !IsChanceNode(2, state.View()) && i < |strategy| == 2
      requires ValidTable(T1)
      requires done == DecisionChildren(T1, state.View(), strategy, i, p0, p1).0
      requires nodes == DecisionChildren(T1, state.View(), strategy, i, p0, p1).1
      modifies this
      ensures Valid() && done + [u] == DecisionChildren(T1, old(state.View()), strategy, i + 1, p0, p1).0
      ensures nodes == DecisionChildren(T1, old(state.View()), strategy, i + 1, p0, p1).1
      decreases 5 - |state.history|, 1
    {
      ghost var g := state.View();
      HistoryLimit(g);
      ghost var before := nodes;
      var actions := [PASS, BET];
      if state.CurrentPlayer() == 0 {
        u := Visit(state, actions[i], p0 * strategy[i], p1);
        DecisionStep(T1, before, nodes, g, strategy, i, done, u, p0, p1);
      } else {
        var v := Visit(state, actions[i], p0, p1 * strategy[i]);
        DecisionStep(T1, before, nodes, g, strategy, i, done, v, p0, p1);
        u := -v;
      }
    }

    /// `get_snapshot`: for every key, the average strategy, the regrets and
    /// the current strategy; the table is not changed.
    method GetSnapshot() returns (snapshot: map<string, Snapshot>)
      requires Valid()
      ensures snapshot == Snapshots(nodes)
    {
      snapshot := map[];
      var remaining := nodes.Keys;
      while remaining != {}
        invariant remaining <= nodes.Keys
        invariant snapshot.Keys == nodes.Keys - remaining
        invariant forall k :: k in snapshot ==> snapshot[k] == SnapshotOf(nodes[k])
        decreases |remaining|
      {
        var infoSet :| infoSet in remaining;
        var node := nodes[infoSet];
        var avgStrat := AverageStrategy(node.strategySum);
        snapshot := snapshot[infoSet := Snapshot(avgStrat, node.regretSum, node.strategy)];
        remaining := remaining - {infoSet};
      }
    }
  }
}
