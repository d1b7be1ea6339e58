/// `CFRNode` of src/kuhn/vanilla_cfr.py and src/kuhn/gemini/cfr_backend.py
/// (the two files define it identically): a mutable information-set node whose
/// numpy vectors are reassigned or updated in place.
module CfrNodes {
  import opened KuhnRules
  import opened Regrets

  class CFRNode {
    var regretSum: seq<real>
    var strategySum: seq<real>
    var strategy: seq<real>

    /// The node's current contents.
    function Value(): NodeValue
      reads this
    {
      NodeValue(regretSum, strategySum, strategy)
    }

    /// `CFRNode(num_actions)`: three zero vectors.
    constructor (numActions: nat)
      ensures Value() == NewNode(numActions)
    {
      regretSum := Zeros(numActions);
      strategySum := Zeros(numActions);
      strategy := Zeros(numActions);
    }

    /// `get_strategy(realization_weight)`: regret matching on `regretSum`,
    /// accumulated into `strategySum` with the given weight and stored as the
    /// current strategy.  The result is a distribution, the regrets stay, and
    /// for a non-negative weight no cumulative entry decreases.
    method GetStrategy(realizationWeight: real) returns (s: seq<real>)
      requires |strategySum| == |regretSum| > 0
      modifies this
      ensures Value() == Regrets.GetStrategy(old(Value()), realizationWeight)
      ensures s == strategy == RegretMatching(regretSum) && IsDistribution(s)
      ensures regretSum == old(regretSum) && |strategySum| == |regretSum|
      ensures Sum(strategySum) == Sum(old(strategySum)) + realizationWeight
      ensures realizationWeight >= 0.0 ==>
        forall i :: 0 <= i < |strategySum| ==> strategySum[i] >= old(strategySum[i])
    {
      GetStrategySpec(Value(), realizationWeight);
      var positiveRegret := PositivePart(regretSum);
      var sumPosRegret := Sum(positiveRegret);
      if sumPosRegret > 0.0 {
        s := Divide(positiveRegret, sumPosRegret);
      } else {
        s := UniformVector(|regretSum|);
      }
      strategySum := AddScaled(strategySum, s, realizationWeight);
      strategy := s;
    }

    /// `get_average_strategy`: reads the node and changes nothing; the result
    /// always sums to 1.
    method GetAverageStrategy() returns (avg: seq<real>)
      requires |strategySum| > 0
      ensures avg == AverageStrategy(strategySum)
      ensures |avg| == |strategySum| && Sum(avg) == 1.0
    {
      AverageStrategySpec(strategySum);
      var total := Sum(strategySum);
      if total > 0.0 {
        return Divide(strategySum, total);
      }
      return UniformVector(|strategySum|);
    }
  }
}
