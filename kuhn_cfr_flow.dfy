/// src/kuhn/kuhn_cfr_flow.py: a self-contained two-player Kuhn CFR trainer.
/// A hand is a pair of distinct cards and a string history over 'p' (pass or
/// check) and 'b' (bet or call); values are in the frame of the player to act
/// and every child value is negated on the way up.  The trainer's table maps
/// each information-set key to the contents of its `KuhnNode`.
module KuhnCfrFlow {
  import opened KuhnRules
  import opened InfoState
  import opened Regrets
  import opened CfrTree

  const CARDS: seq<int> := [0, 1, 2]
  const NUM_ACTIONS: nat := 2

  // ---------------------------------------------------------------- KuhnNode

  /// The first loop of `KuhnNode.get_strategy`: every regret clipped at
  /// zero, and their total.
  method PositiveLoop(rs: seq<real>) returns (strategy: seq<real>, normalizingSum: real)
    requires |rs| == NUM_ACTIONS
    ensures strategy == PositivePart(rs) && normalizingSum == Sum(strategy)
  {
    strategy := Zeros(NUM_ACTIONS);
    normalizingSum := 0.0;
    for a := 0 to NUM_ACTIONS
      invariant |strategy| == NUM_ACTIONS
      invariant forall j :: 0 <= j < a ==> strategy[j] == PositivePart(rs)[j]
      invariant normalizingSum == Sum(PositivePart(rs)[..a])
    {
      strategy := strategy[a := if rs[a] > 0.0 then rs[a] else 0.0];
      SumPrefix(PositivePart(rs), a);
      normalizingSum := normalizingSum + strategy[a];
    }
    assert PositivePart(rs)[..NUM_ACTIONS] == PositivePart(rs);
  }

  /// The second loop of `KuhnNode.get_strategy`: the clipped regrets
  /// normalised (or 1/2 each when their total is not positive), and each
  /// entry, weighted, added to the cumulative strategy.
  method NormaliseLoop(rs: seq<real>, positive: seq<real>, normalizingSum: real, sums: seq<real>, realizationWeight: real)
    returns (strategy: seq<real>, strategySum: seq<real>)
    requires |rs| == |sums| == NUM_ACTIONS
    requires positive == PositivePart(rs) && normalizingSum == Sum(positive)
    ensures strategy == RegretMatching(rs)
    ensures strategySum == AddScaled(sums, strategy, realizationWeight)
  {
    ghost var target := RegretMatching(rs);
    strategy := positive;
    strategySum := sums;
    for a := 0 to NUM_ACTIONS
      invariant |strategy| == |strategySum| == NUM_ACTIONS
      invariant forall j :: 0 <= j < NUM_ACTIONS ==> strategy[j] == if j < a then target[j] else positive[j]
      invariant forall j :: 0 <= j < NUM_ACTIONS ==>
        strategySum[j] == if j < a then sums[j] + target[j] * realizationWeight else sums[j]
    {
      RegretMatchingAt(rs, a);
      if normalizingSum > 0.0 {
        strategy := strategy[a := strategy[a] / normalizingSum];
      } else {
        strategy := strategy[a := 1.0 / (NUM_ACTIONS as real)];
      }
      strategySum := strategySum[a := strategySum[a] + strategy[a] * realizationWeight];
    }
    assert |target| == NUM_ACTIONS;
    assert strategy == target;
    assert forall j :: 0 <= j < NUM_ACTIONS ==> strategySum[j] == AddScaled(sums, strategy, realizationWeight)[j];
  }

  /// `KuhnNode.get_strategy(realization_weight)` on the node's contents.
  method StrategyLoop(node: NodeValue, realizationWeight: real) returns (r: NodeValue)
    requires |node.regretSum| == |node.strategySum| == NUM_ACTIONS
    ensures r == Regrets.GetStrategy(node, realizationWeight)
  {
    var positive, normalizingSum := PositiveLoop(node.regretSum);
    var strategy, strategySum := NormaliseLoop(node.regretSum, positive, normalizingSum, node.strategySum, realizationWeight);
    r := NodeValue(node.regretSum, strategySum, strategy);
  }

  /// `KuhnNode.get_average_strategy`: the normalised cumulative strategy
  /// entry by entry, or 1/2 each when its total is not positive.
  method AverageLoop(strategySum: seq<real>) returns (avgStrategy: seq<real>)
    requires |strategySum| == NUM_ACTIONS
    ensures avgStrategy == AverageStrategy(strategySum)
  {
    avgStrategy := Zeros(NUM_ACTIONS);
    var normalizingSum := Sum(strategySum);
    for a := 0 to NUM_ACTIONS
      invariant |avgStrategy| == NUM_ACTIONS
      invariant forall j :: 0 <= j < a ==> avgStrategy[j] == AverageStrategy(strategySum)[j]
    {
      if normalizingSum > 0.0 {
        avgStrategy := avgStrategy[a := strategySum[a] / normalizingSum];
      } else {
        avgStrategy := avgStrategy[a := 1.0 / (NUM_ACTIONS as real)];
      }
    }
  }

  /// `KuhnNode`: its key and three two-entry vectors.
  class KuhnNode {
    const key: string
    var regretSum: seq<real>
    var strategySum: seq<real>
    var strategy: seq<real>

    function Value(): NodeValue
      reads this
    {
      NodeValue(regretSum, strategySum, strategy)
    }

    ghost predicate Valid()
      reads this
    {
      |regretSum| == |strategySum| == |strategy| == NUM_ACTIONS
    }

    /// `KuhnNode(key)`: the key and three zero vectors.
    constructor (key: string)
      ensures Valid() && this.key == key && Value() == NewNode(NUM_ACTIONS)
    {
      this.key := key;
      regretSum := Zeros(NUM_ACTIONS);
      strategySum := Zeros(NUM_ACTIONS);
      strategy := Zeros(NUM_ACTIONS);
    }

    /// `get_strategy(realization_weight)`: the stored strategy is the regret
    /// matching one, a distribution; the regrets stay; the cumulative
    /// strategy grows entry by entry by the weighted strategy.
    method GetStrategy(realizationWeight: real) returns (s: seq<real>)
      requires Valid()
      modifies this
      ensures Valid() && Value() == Regrets.GetStrategy(old(Value()), realizationWeight)
      ensures s == strategy == RegretMatching(regretSum) && IsDistribution(s)
      ensures forall a :: 0 <= a < NUM_ACTIONS ==>
        strategySum[a] == old(strategySum[a]) + realizationWeight * strategy[a]
    {
      RegretMatchingIsDistribution(regretSum);
      var r := StrategyLoop(Value(), realizationWeight);
      strategySum := r.strategySum;
      strategy := r.strategy;
      s := strategy;
    }

    /// `get_average_strategy`: the node is not changed and the result sums
    /// to 1.
    method GetAverageStrategy() returns (avgStrategy: seq<real>)
      requires Valid()
      ensures avgStrategy == AverageStrategy(strategySum) && Sum(avgStrategy) == 1.0
    {
      AverageStrategySpec(strategySum);
      avgStrategy := AverageLoop(strategySum);
    }
  }

  // ---------------------------------------------------------------- hands

  /// The histories a hand passes through from the empty one.
  predicate FlowHistory(h: string)
  {
    && (forall i :: 0 <= i < |h| ==> h[i] == 'p' || h[i] == 'b')
    && (|h| <= 2 || (|h| == 3 && h[0] == 'p' && h[1] == 'b'))
  }

  /// `get_terminal_utility(cards, history, player)`: the payoff of `player`
  /// (the one to move, `len(history) % 2`) when the hand is over, None
  /// otherwise.
  function TerminalUtility(cards: seq<int>, history: string, player: int): Option<real>
    requires |cards| == 2 && 0 <= player < 2
  {
    var plays := |history|;
    var opponent := 1 - player;
    if plays >= 2 then
      var isPlayerCardHigher := cards[player] > cards[opponent];
      if history == "pp" then Some(if isPlayerCardHigher then 1.0 else -1.0)
      else if history == "pbb" || history == "bb" then Some(if isPlayerCardHigher then 2.0 else -2.0)
      else if history == "pbp" then Some(1.0)
      else if history == "bp" then Some(1.0)
      else None
    else None
  }

  /// The information-set key of `cfr`: the actor's card digit and the
  /// history.
  function FlowKey(cards: seq<int>, history: string): string
    requires |cards| == 2
  {
    IntToString(cards[|history| % 2]) + history
  }

  /// The character `cfr` appends for action index `a`.
  function FlowChar(a: int): char
  {
    if a == 0 then 'p' else 'b'
  }

  // ---------------------------------------------------------------- cfr

  /// `cfr(cards, history, p0, p1)` on the table: the payoff at a hand's end,
  /// otherwise the regret-matching update of the actor's node.  Values are
  /// in the actor's frame.
  ghost function FlowValue(t: Table, cards: seq<int>, h: string, p0: real, p1: real): (r: (real, Table))
    requires |cards| == 2 && FlowHistory(h) && ValidTable(t)
    ensures ValidTable(r.1) && t.Keys <= r.1.Keys
    decreases 3 - |h|, 3, 0
  {
    var player := |h| % 2;
    var terminal := TerminalUtility(cards, h, player);
    if terminal.Some? then (terminal.value, t)
    else FlowDecision(t, cards, h, p0, p1)
  }

  /// A hand that is not over continues with 'p' or 'b' to a history of the
  /// hand.
  lemma FlowNext(cards: seq<int>, h: string, c: char)
    requires |cards| == 2 && FlowHistory(h) && TerminalUtility(cards, h, |h| % 2).None?
    requires c == 'p' || c == 'b'
    ensures |h| <= 2 && FlowHistory(h + [c])
  {
    if h == "" {
      if c == 'p' {
        assert h + [c] == "p";
      } else {
        assert h + [c] == "b";
      }
    } else if h == "p" {
      if c == 'p' {
        assert h + [c] == "pp";
      } else {
        assert h + [c] == "pb";
      }
    } else if h == "b" {
      if c == 'p' {
        assert h + [c] == "bp";
      } else {
        assert h + [c] == "bb";
      }
    } else if h == "pb" {
      if c == 'p' {
        assert h + [c] == "pbp";
      } else {
        assert h + [c] == "pbb";
      }
    } else {
      assert false;
    }
  }

  /// The reach of the actor at history `h`.
  function FlowOwnReach(h: string, p0: real, p1: real): real
  {
    if |h| % 2 == 0 then p0 else p1
  }

  /// The reach of the actor's opponent at history `h`.
  function FlowOpponentReach(h: string, p0: real, p1: real): real
  {
    if |h| % 2 == 0 then p1 else p0
  }

  /// A decision of `cfr`: fetch or create the node, update its strategy with
  /// the actor's reach, walk 'p' then 'b', then move every action's regret
  /// by its excess over the node value weighted by the opponent's reach.
  ghost function FlowDecision(t: Table, cards: seq<int>, h: string, p0: real, p1: real): (r: (real, Table))
    requires |cards| == 2 && FlowHistory(h) && ValidTable(t)
    requires TerminalUtility(cards, h, |h| % 2).None?
    ensures ValidTable(r.1) && t.Keys <= r.1.Keys
    decreases 3 - |h|, 2, 0
  {
    var key := FlowKey(cards, h);
    var node := GetStrategy(NodeAt(t, key), FlowOwnReach(h, p0, p1));
    var children := FlowChildren(t[key := node], cards, h, node.strategy, |node.strategy|, p0, p1);
    var nodeUtil := Dot(node.strategy, children.0);
    var last := children.1[key];
    var updated := last.(regretSum := UpdateRegrets(last.regretSum, children.0, nodeUtil, FlowOpponentReach(h, p0, p1)));
    (nodeUtil, children.1[key := updated])
  }

  /// The first i turns of the action loop of `cfr`, each child's value
  /// negated into the actor's frame.
  ghost function FlowChildren(t: Table, cards: seq<int>, h: string, s: seq<real>, i: nat, p0: real, p1: real): (r: (seq<real>, Table))
    requires |cards| == 2 && FlowHistory(h) && ValidTable(t)
    requires TerminalUtility(cards, h, |h| % 2).None?
    requires i <= |s| == NUM_ACTIONS
    ensures |r.0| == i && ValidTable(r.1) && t.Keys <= r.1.Keys
    decreases 3 - |h|, 1, i
  {
    if i == 0 then ([], t)
    else
      var prev := FlowChildren(t, cards, h, s, i - 1, p0, p1);
      var child := FlowChild(prev.1, cards, h, i - 1, s[i - 1], p0, p1);
      (prev.0 + [-child.0], child.1)
  }

  /// The child of action `a` walked with the actor's reach scaled by the
  /// action's probability `w`; the value is in the child's actor's frame.
  ghost function FlowChild(t: Table, cards: seq<int>, h: string, a: int, w: real, p0: real, p1: real): (r: (real, Table))
    requires |cards| == 2 && FlowHistory(h) && ValidTable(t)
    requires TerminalUtility(cards, h, |h| % 2).None? && 0 <= a < NUM_ACTIONS
    ensures ValidTable(r.1) && t.Keys <= r.1.Keys
    decreases 3 - |h|, 0, 0
  {
    FlowNext(cards, h, FlowChar(a));
    if |h| % 2 == 0 then FlowValue(t, cards, h + [FlowChar(a)], p0 * w, p1)
    else FlowValue(t, cards, h + [FlowChar(a)], p0, p1 * w)
  }

  /// `FlowDecision` unfolded: the value and table of `cfr` at a decision from
  /// the children's values `util` and the table `t2` the action loop leaves.
  lemma FlowDecisionResult(t0: Table, cards: seq<int>, h: string, p0: real, p1: real, util: seq<real>, t2: Table)
    requires |cards| == 2 && FlowHistory(h) && ValidTable(t0) && TerminalUtility(cards, h, |h| % 2).None?
    requires var key := FlowKey(cards, h);
      var node := GetStrategy(NodeAt(t0, key), FlowOwnReach(h, p0, p1));
      var children := FlowChildren(t0[key := node], cards, h, node.strategy, |node.strategy|, p0, p1);
      util == children.0 && t2 == children.1
    ensures FlowKey(cards, h) in t2 && |t2[FlowKey(cards, h)].regretSum| == |util| == NUM_ACTIONS
    ensures var key := FlowKey(cards, h);
      var nodeUtil := Dot(GetStrategy(NodeAt(t0, key), FlowOwnReach(h, p0, p1)).strategy, util);
      && FlowValue(t0, cards, h, p0, p1).0 == nodeUtil
      && FlowValue(t0, cards, h, p0, p1).1 ==
           t2[key := t2[key].(regretSum := UpdateRegrets(t2[key].regretSum, util, nodeUtil, FlowOpponentReach(h, p0, p1)))]
  {
    assert FlowValue(t0, cards, h, p0, p1) == FlowDecision(t0, cards, h, p0, p1);
  }

  /// One turn of the action loop of `cfr`, as `FlowChildren` takes it.
  lemma FlowChildStep(t1: Table, t: Table, t': Table, cards: seq<int>, h: string, s: seq<real>, i: nat,
                      done: seq<real>, u: real, p0: real, p1: real)
    requires |cards| == 2 && FlowHistory(h) && ValidTable(t1) && TerminalUtility(cards, h, |h| % 2).None?
    requires i < |s| == NUM_ACTIONS
    requires done == FlowChildren(t1, cards, h, s, i, p0, p1).0 && t == FlowChildren(t1, cards, h, s, i, p0, p1).1
    requires u == FlowChild(t, cards, h, i, s[i], p0, p1).0 && t' == FlowChild(t, cards, h, i, s[i], p0, p1).1
    ensures done + [-u] == FlowChildren(t1, cards, h, s, i + 1, p0, p1).0
    ensures t' == FlowChildren(t1, cards, h, s, i + 1, p0, p1).1
  {
  }

  // ---------------------------------------------------------------- trainer

  /// `KuhnCFRTrainer`: the node map, one entry per information-set key.
  class KuhnCFRTrainer {
    var nodeMap: Table

    ghost predicate Valid()
      reads this
    {
      ValidTable(nodeMap)
    }

    /// `KuhnCFRTrainer()`: an empty node map.
    constructor ()
      ensures Valid() && nodeMap == map[]
    {
      nodeMap := map[];
    }

    /// `cfr(cards, history, p0, p1)`: the payoff of the player to act when
    /// the hand is over, otherwise the decision's value; the node map becomes
    /// the one `FlowValue` describes.
    method Cfr(cards: seq<int>, history: string, p0: real, p1: real) returns (v: real)
      requires Valid() && |cards| == 2 && FlowHistory(history)
      modifies this
      ensures Valid() && v == FlowValue(old(nodeMap), cards, history, p0, p1).0
      ensures nodeMap == FlowValue(old(nodeMap), cards, history, p0, p1).1
      decreases 3 - |history|, 5
    {
      var plays := |history|;
      var player := plays % 2;
      var terminalUtility := TerminalUtility(cards, history, player);
      if terminalUtility.Some? {
        return terminalUtility.value;
      }
      v := DecisionNode(cards, history, p0, p1);
    }

    /// A decision of `cfr`: the node's strategy, the action loop, the regret
    /// update.
    method DecisionNode(cards: seq<int>, history: string, p0: real, p1: real) returns (nodeUtility: real)
      requires Valid() && |cards| == 2 && FlowHistory(history)
      requires TerminalUtility(cards, history, |history| % 2).None?
      modifies this
      ensures Valid() && nodeUtility == FlowValue(old(nodeMap), cards, history, p0, p1).0
      ensures nodeMap == FlowValue(old(nodeMap), cards, history, p0, p1).1
      decreases 3 - |history|, 4
    {
      ghost var T0 := nodeMap;
      var player := |history| % 2;
      var infoSet, currentStrategy := StartNode(cards, history, p0, p1);
      var actionUtilities;
      actionUtilities, nodeUtility := WalkActions(cards, history, currentStrategy, p0, p1);
      FlowDecisionResult(T0, cards, history, p0, p1, actionUtilities, nodeMap);
      var opponentReachProb := if player == 0 then p1 else p0;
      FinishNode(infoSet, actionUtilities, nodeUtility, opponentReachProb);
    }

    /// Fetch or create the node of `str(cards[player]) + history` and refresh
    /// its strategy with the actor's reach.
    method StartNode(cards: seq<int>, history: string, p0: real, p1: real) returns (infoSet: string, strategy: seq<real>)
      requires Valid() && |cards| == 2
      modifies this
      ensures Valid() && infoSet == FlowKey(cards, history)
      ensures var node := GetStrategy(NodeAt(old(nodeMap), infoSet), FlowOwnReach(history, p0, p1));
        strategy == node.strategy && nodeMap == old(nodeMap)[infoSet := node]
      ensures |strategy| == NUM_ACTIONS
    {
      var player := |history| % 2;
      infoSet := IntToString(cards[player]) + history;
      if infoSet !in nodeMap {
        nodeMap := nodeMap[infoSet := NewNode(NUM_ACTIONS)];
      }
      var node := nodeMap[infoSet];
      node := StrategyLoop(node, if player == 0 then p0 else p1);
      nodeMap := nodeMap[infoSet := node];
      strategy := node.strategy;
    }

    /// The regret update of the node at `infoSet`.
    method FinishNode(infoSet: string, util: seq<real>, nodeUtility: real, opponentReachProb: real)
      requires Valid() && infoSet in nodeMap && |util| == NUM_ACTIONS
      modifies this
      ensures Valid()
      ensures nodeMap == old(nodeMap)[infoSet := old(nodeMap)[infoSet].(regretSum :=
        UpdateRegrets(old(nodeMap)[infoSet].regretSum, util, nodeUtility, opponentReachProb))]
    {
      var node := nodeMap[infoSet];
      node := AccumulateRegrets(node, util, nodeUtility, opponentReachProb);
      nodeMap := nodeMap[infoSet := node];
    }

    /// The action loop of `cfr`: 'p' then 'b', each child's value negated,
    /// the node value as the strategy-weighted sum.
    method WalkActions(cards: seq<int>, history: string, strategy: seq<real>, p0: real, p1: real)
      returns (actionUtilities: seq<real>, nodeUtility: real)
      requires Valid() && |cards| == 2 && FlowHistory(history)
      requires TerminalUtility(cards, history, |history| % 2).None? && |strategy| == NUM_ACTIONS
      modifies this
      ensures Valid() && actionUtilities == FlowChildren(old(nodeMap), cards, history, strategy, |strategy|, p0, p1).0
      ensures nodeMap == FlowChildren(old(nodeMap), cards, history, strategy, |strategy|, p0, p1).1
      ensures nodeUtility == Dot(strategy, actionUtilities)
      decreases 3 - |history|, 3
    {
      actionUtilities := Zeros(NUM_ACTIONS);
      nodeUtility := 0.0;
      ghost var T1 := nodeMap;
      for a := 0 to NUM_ACTIONS
        invariant Valid() && |actionUtilities| == NUM_ACTIONS
        invariant actionUtilities[..a] == FlowChildren(T1, cards, history, strategy, a, p0, p1).0
        invariant nodeMap == FlowChildren(T1, cards, history, strategy, a, p0, p1).1
        invariant nodeUtility == Dot(strategy[..a], actionUtilities[..a])
      {
        var u := ActionValue(cards, history, strategy, a, T1, actionUtilities[..a], p0, p1);
        actionUtilities := actionUtilities[a := u];
        assert actionUtilities[..a + 1] == actionUtilities[..a] + [u];
        ghost var acc := nodeUtility;
        nodeUtility := nodeUtility + strategy[a] * actionUtilities[a];
        DotStep(strategy, actionUtilities, a, acc, nodeUtility);
      }
      assert actionUtilities[..NUM_ACTIONS] == actionUtilities && strategy[..NUM_ACTIONS] == strategy;
    }

    /// One turn of the action loop: the child's value negated into the
    /// actor's frame.
    method ActionValue(cards: seq<int>, history: string, strategy: seq<real>, a: nat,
                       ghost T1: Table, ghost done: seq<real>, p0: real, p1: real) returns (u: real)
      requires Valid() && |cards| == 2 && FlowHistory(history) && ValidTable(T1)
      requires TerminalUtility(cards, history, |history| % 2).None? && a < |strategy| == NUM_ACTIONS
      requires done == FlowChildren(T1, cards, history, strategy, a, p0, p1).0
      requires nodeMap == FlowChildren(T1, cards, history, strategy, a, p0, p1).1
      modifies this
      ensures Valid() && done + [u] == FlowChildren(T1, cards, history, strategy, a + 1, p0, p1).0
      ensures nodeMap == FlowChildren(T1, cards, history, strategy, a + 1, p0, p1).1
      decreases 3 - |history|, 2
    {
      ghost var before := nodeMap;
      var v := Visit(cards, history, a, strategy[a], p0, p1);
      u := -v;
      FlowChildStep(T1, before, nodeMap, cards, history, strategy, a, done, v, p0, p1);
    }

    /// The recursive call of the action loop: the history extended by 'p'
    /// or 'b', the actor's reach scaled by the action's probability `w`.
    method Visit(cards: seq<int>, history: string, a: nat, w: real, p0: real, p1: real) returns (v: real)
      requires Valid() && |cards| == 2 && FlowHistory(history)
      requires TerminalUtility(cards, history, |history| % 2).None? && a < NUM_ACTIONS
      modifies this
      ensures Valid() && v == FlowChild(old(nodeMap), cards, history, a, w, p0, p1).0
      ensures nodeMap == FlowChild(old(nodeMap), cards, history, a, w, p0, p1).1
      decreases 3 - |history|, 0
    {
      var nextHistory := history + (if a == 0 then "p" else "b");
      assert nextHistory == history + [FlowChar(a)];
      FlowNext(cards, history, FlowChar(a));
      if |history| % 2 == 0 {
        v := Cfr(cards, nextHistory, p0 * w, p1);
      } else {
        v := Cfr(cards, nextHistory, p0, p1 * w);
      }
    }
  }
}
