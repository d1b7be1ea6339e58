/// The contents of an information-set node of the CFR solvers (`CFRNode` of
/// src/kuhn/vanilla_cfr.py and src/kuhn/gemini/cfr_backend.py, `KuhnNode` of
/// src/kuhn/kuhn_cfr_flow.py) as a value: cumulative regrets, the cumulative
/// strategy and the current strategy, one entry per action, and the vector
/// arithmetic of regret matching on them.
module Regrets {
  import opened KuhnRules

  datatype NodeValue = NodeValue(regretSum: seq<real>, strategySum: seq<real>, strategy: seq<real>)

  function Zeros(k: nat): seq<real>
  {
    seq(k, _ => 0.0)
  }

  /// A fresh node: all three vectors zero.
  function NewNode(numActions: nat): (node: NodeValue)
    ensures |node.regretSum| == |node.strategySum| == |node.strategy| == numActions
  {
    NodeValue(Zeros(numActions), Zeros(numActions), Zeros(numActions))
  }

  function Max0(x: real): real
  {
    if x > 0.0 then x else 0.0
  }

  /// `np.maximum(v, 0)`.
  function PositivePart(v: seq<real>): seq<real>
  {
    seq(|v|, i requires 0 <= i < |v| => Max0(v[i]))
  }

  /// `np.ones(k) / k`.
  function UniformVector(k: nat): seq<real>
  {
    seq(k, i requires 0 <= i < k => 1.0 / (k as real))
  }

  /// `v / t`.
  function Divide(v: seq<real>, t: real): seq<real>
    requires t != 0.0
  {
    seq(|v|, i requires 0 <= i < |v| => v[i] / t)
  }

  /// `a + b * w`.
  function AddScaled(a: seq<real>, b: seq<real>, w: real): seq<real>
    requires |a| == |b|
  {
    seq(|a|, i requires 0 <= i < |a| => a[i] + b[i] * w)
  }

  /// `sum_i s[i] * u[i]`, accumulated from the first entry on.
  function Dot(s: seq<real>, u: seq<real>): real
    requires |s| == |u|
  {
    if s == [] then 0.0 else s[0] * u[0] + Dot(s[1..], u[1..])
  }

  /// Regret matching: the positive regrets normalised, or uniform when no
  /// regret is positive.
  function RegretMatching(regretSum: seq<real>): (s: seq<real>)
    ensures |s| == |regretSum|
  {
    var positive := PositivePart(regretSum);
    var total := Sum(positive);
    if total > 0.0 then Divide(positive, total) else UniformVector(|regretSum|)
  }

  /// `get_strategy(realization_weight)` on the node contents: the strategy
  /// is the regret-matching one, added to `strategySum` with the given weight.
  function GetStrategy(node: NodeValue, realizationWeight: real): (r: NodeValue)
    requires |node.strategySum| == |node.regretSum|
    ensures r.regretSum == node.regretSum && |r.strategySum| == |r.strategy| == |node.regretSum|
  {
    var strategy := RegretMatching(node.regretSum);
    node.(strategySum := AddScaled(node.strategySum, strategy, realizationWeight), strategy := strategy)
  }

  /// `get_average_strategy`: the cumulative strategy normalised, or uniform
  /// when its total is not positive.
  function AverageStrategy(strategySum: seq<real>): seq<real>
  {
    var total := Sum(strategySum);
    if total > 0.0 then Divide(strategySum, total) else UniformVector(|strategySum|)
  }

  /// The regret update: every action's regret grows by its value's excess
  /// over the node value, weighted by the opponent's reach.
  function UpdateRegrets(regretSum: seq<real>, util: seq<real>, nodeUtil: real, opponentReach: real): (r: seq<real>)
    requires |regretSum| == |util|
    ensures |r| == |regretSum|
  {
    seq(|regretSum|, i requires 0 <= i < |regretSum| => regretSum[i] + (util[i] - nodeUtil) * opponentReach)
  }

  predicate IsDistribution(s: seq<real>)
  {
    (forall i :: 0 <= i < |s| ==> 0.0 <= s[i]) && Sum(s) == 1.0
  }

  // ---------------------------------------------------------------- sums

  lemma {:induction false} SumNonnegative(v: seq<real>)
    requires forall i :: 0 <= i < |v| ==> 0.0 <= v[i]
    ensures 0.0 <= Sum(v)
    ensures Sum(v) > 0.0 <==> exists i :: 0 <= i < |v| && v[i] > 0.0
  {
    if v != [] {
      SumNonnegative(v[1..]);
      if exists i :: 0 <= i < |v| && v[i] > 0.0 {
        var i :| 0 <= i < |v| && v[i] > 0.0;
        if i > 0 {
          assert v[1..][i - 1] > 0.0;
        }
      }
    }
  }

  /// A non-negative vector with a positive entry has a positive sum.
  lemma {:induction false} SumPositive(v: seq<real>, k: int)
    requires forall i :: 0 <= i < |v| ==> 0.0 <= v[i]
    requires 0 <= k < |v| && v[k] > 0.0
    ensures Sum(v) > 0.0
  {
    SumNonnegative(v[1..]);
    if k > 0 {
      SumPositive(v[1..], k - 1);
    }
  }

  /// The running sum of a left-to-right loop over `s`.
  lemma {:induction false} SumPrefix(s: seq<real>, a: int)
    requires 0 <= a < |s|
    ensures Sum(s[..a + 1]) == Sum(s[..a]) + s[a]
    decreases a
  {
    if a > 0 {
      assert s[..a + 1][1..] == s[1..][..a];
      assert s[..a][1..] == s[1..][..a - 1];
      SumPrefix(s[1..], a - 1);
    } else {
      assert s[..1] == [s[0]];
    }
  }

  lemma {:induction false} SumDivide(v: seq<real>, t: real)
    requires t != 0.0
    ensures Sum(Divide(v, t)) == Sum(v) / t
  {
    if v != [] {
      assert Divide(v, t)[1..] == Divide(v[1..], t);
      SumDivide(v[1..], t);
    }
  }

  lemma {:induction false} SumAddScaled(a: seq<real>, b: seq<real>, w: real)
    requires |a| == |b|
    ensures Sum(AddScaled(a, b, w)) == Sum(a) + w * Sum(b)
  {
    if a != [] {
      var r := AddScaled(a, b, w);
      AddScaledTail(a, b, w);
      SumAddScaled(a[1..], b[1..], w);
      assert Sum(b) == b[0] + Sum(b[1..]);
      ScaleSum(w, b[0], Sum(b[1..]), Sum(b));
    }
  }

  lemma AddScaledTail(a: seq<real>, b: seq<real>, w: real)
    requires |a| == |b| > 0
    ensures AddScaled(a, b, w)[0] == a[0] + b[0] * w
    ensures AddScaled(a, b, w)[1..] == AddScaled(a[1..], b[1..], w)
  {
    var r := AddScaled(a, b, w);
    forall i | 0 <= i < |a| - 1
      ensures r[1..][i] == AddScaled(a[1..], b[1..], w)[i]
    {
    }
  }

  lemma ScaleSum(w: real, x: real, y: real, s: real)
    requires s == x + y
    ensures x * w + w * y == w * s
  {
  }

  lemma {:induction false} SumUniformVector(k: nat, x: real)
    ensures Sum(seq(k, i requires 0 <= i < k => x)) == (k as real) * x
  {
    if k > 0 {
      var v := seq(k, i requires 0 <= i < k => x);
      assert v[1..] == seq(k - 1, i requires 0 <= i < k - 1 => x);
      SumUniformVector(k - 1, x);
      assert Sum(v) == v[0] + Sum(v[1..]);
      OneMoreTimes(k, x);
    }
  }

  lemma UniformVectorIsDistribution(k: nat)
    requires k > 0
    ensures IsDistribution(UniformVector(k))
  {
    SumUniformVector(k, 1.0 / (k as real));
  }

  /// The increments `(u[i] - c) * w`, built from the first entry on.
  function Increments(u: seq<real>, c: real, w: real): (r: seq<real>)
    ensures |r| == |u|
  {
    if u == [] then [] else [(u[0] - c) * w] + Increments(u[1..], c, w)
  }

  lemma {:induction false} IncrementsAt(u: seq<real>, c: real, w: real, i: int)
    requires 0 <= i < |u|
    ensures Increments(u, c, w)[i] == (u[i] - c) * w
    decreases i
  {
    if i > 0 {
      IncrementsAt(u[1..], c, w, i - 1);
    }
  }

  /// Weighting the increments `(u[i] - c) * w` by `s` gives
  /// `(s . u - c * sum(s)) * w`.
  lemma {:induction false} DotIncrements(s: seq<real>, u: seq<real>, c: real, w: real)
    requires |s| == |u|
    ensures Dot(s, Increments(u, c, w)) == (Dot(s, u) - c * Sum(s)) * w
  {
    if s != [] {
      var inc := Increments(u, c, w);
      assert inc[0] == (u[0] - c) * w && inc[1..] == Increments(u[1..], c, w);
      DotIncrements(s[1..], u[1..], c, w);
      IncrementAlgebra(s[0], u[0], c, w, Dot(s[1..], u[1..]), Sum(s[1..]));
    }
  }

  lemma IncrementAlgebra(a: real, b: real, c: real, w: real, d: real, e: real)
    ensures a * ((b - c) * w) + (d - c * e) * w == (a * b + d - c * (a + e)) * w
  {
  }

  lemma DivideSelf(t: real)
    requires t != 0.0
    ensures t / t == 1.0
  {
  }

  lemma MultiplyNonnegative(x: real, y: real)
    requires 0.0 <= x && 0.0 <= y
    ensures 0.0 <= x * y
  {
  }

  lemma DivideNonnegative(v: seq<real>, t: real)
    requires t > 0.0
    requires forall i :: 0 <= i < |v| ==> 0.0 <= v[i]
    ensures forall i :: 0 <= i < |v| ==> 0.0 <= Divide(v, t)[i]
  {
    forall i | 0 <= i < |v|
      ensures 0.0 <= Divide(v, t)[i]
    {
      var x := v[i];
      assert Divide(v, t)[i] == x / t;
    }
  }

  lemma DivideTimes(v: seq<real>, t: real)
    requires t != 0.0
    ensures forall i :: 0 <= i < |v| ==> Divide(v, t)[i] * t == v[i]
  {
    forall i | 0 <= i < |v|
      ensures Divide(v, t)[i] * t == v[i]
    {
      var x := v[i];
      assert Divide(v, t)[i] == x / t;
    }
  }

  // ---------------------------------------------------------------- properties

  /// A non-negative vector divided by its positive total is a distribution,
  /// each entry scaled back by the total giving the original entry.
  lemma NormalisedIsDistribution(v: seq<real>, total: real, d: seq<real>)
    requires total > 0.0 && Sum(v) == total && d == Divide(v, total)
    requires forall i :: 0 <= i < |v| ==> 0.0 <= v[i]
    ensures IsDistribution(d)
  {
    SumDivide(v, total);
    DivideSelf(total);
    DivideNonnegative(v, total);
  }

  /// With some positive regret, regret matching is the positive regrets
  /// normalised.
  lemma RegretMatchingPositive(regretSum: seq<real>, k: int)
    requires 0 <= k < |regretSum| && regretSum[k] > 0.0
    ensures Sum(PositivePart(regretSum)) > 0.0
    ensures RegretMatching(regretSum) == Divide(PositivePart(regretSum), Sum(PositivePart(regretSum)))
    ensures IsDistribution(RegretMatching(regretSum))
  {
    var positive := PositivePart(regretSum);
    SumPositive(positive, k);
    var total := Sum(positive);
    NormalisedIsDistribution(positive, total, RegretMatching(regretSum));
  }

  /// With some positive regret, each action's probability times the
  /// positive total gives back that action's clipped regret: the strategy
  /// is proportional to the positive regrets.
  lemma RegretMatchingProportional(regretSum: seq<real>, k: int)
    requires 0 <= k < |regretSum| && regretSum[k] > 0.0
    ensures forall i :: 0 <= i < |regretSum| ==>
      RegretMatching(regretSum)[i] * Sum(PositivePart(regretSum)) == Max0(regretSum[i])
  {
    var positive := PositivePart(regretSum);
    SumPositive(positive, k);
    var total := Sum(positive);
    DivideTimes(positive, total);
    assert RegretMatching(regretSum) == Divide(positive, total);
  }

  /// With no positive regret, regret matching is uniform.
  lemma RegretMatchingNonPositive(regretSum: seq<real>)
    requires |regretSum| > 0
    requires forall i :: 0 <= i < |regretSum| ==> regretSum[i] <= 0.0
    ensures RegretMatching(regretSum) == UniformVector(|regretSum|)
    ensures IsDistribution(RegretMatching(regretSum))
  {
    var positive := PositivePart(regretSum);
    SumNonnegative(positive);
    UniformVectorIsDistribution(|regretSum|);
  }

  /// Regret matching always yields a probability distribution over the
  /// actions.
  lemma RegretMatchingIsDistribution(regretSum: seq<real>)
    requires |regretSum| > 0
    ensures |RegretMatching(regretSum)| == |regretSum|
    ensures IsDistribution(RegretMatching(regretSum))
  {
    if k :| 0 <= k < |regretSum| && regretSum[k] > 0.0 {
      RegretMatchingPositive(regretSum, k);
    } else {
      RegretMatchingNonPositive(regretSum);
    }
  }

  /// No entry of a nonnegative vector exceeds its sum.
  lemma {:induction false} EntryAtMostSum(s: seq<real>, i: int)
    requires 0 <= i < |s| && forall j :: 0 <= j < |s| ==> 0.0 <= s[j]
    ensures s[i] <= Sum(s)
  {
    SumNonnegative(s[1..]);
    if i > 0 {
      EntryAtMostSum(s[1..], i - 1);
    }
  }

  /// The reach passed to a child, `reach * strategy[a]`, stays between 0 and
  /// the parent's reach: reaches that start at 1.0 stay in [0, 1].
  lemma ReachStaysInRange(regretSum: seq<real>, reach: real, a: int)
    requires 0 <= a < |regretSum| && 0.0 <= reach
    ensures 0.0 <= reach * RegretMatching(regretSum)[a] <= reach
  {
    var s := RegretMatching(regretSum);
    RegretMatchingIsDistribution(regretSum);
    EntryAtMostSum(s, a);
    MultiplyNonnegative(s[a], reach);
    MultiplyAtMost(reach, s[a]);
  }

  lemma MultiplyAtMost(x: real, y: real)
    requires 0.0 <= x && y <= 1.0
    ensures x * y <= x
  {
  }

  /// `get_strategy` leaves the regrets alone, stores a distribution as the
  /// current strategy, and (for a non-negative weight) never decreases the
  /// cumulative strategy, whose total grows by exactly the weight.
  lemma GetStrategySpec(node: NodeValue, w: real)
    requires |node.strategySum| == |node.regretSum| > 0
    ensures var node' := GetStrategy(node, w);
      && node'.regretSum == node.regretSum
      && node'.strategy == RegretMatching(node.regretSum)
      && IsDistribution(node'.strategy)
      && |node'.strategySum| == |node.strategySum|
      && Sum(node'.strategySum) == Sum(node.strategySum) + w
      && (w >= 0.0 ==> forall i :: 0 <= i < |node.strategySum| ==> node'.strategySum[i] >= node.strategySum[i])
  {
    RegretMatchingIsDistribution(node.regretSum);
    AccumulateDistribution(node.strategySum, RegretMatching(node.regretSum), w);
  }

  /// Adding a distribution with weight `w` adds `w` to the total, and for a
  /// non-negative weight no entry decreases.
  lemma AccumulateDistribution(a: seq<real>, d: seq<real>, w: real)
    requires |a| == |d| && IsDistribution(d)
    ensures Sum(AddScaled(a, d, w)) == Sum(a) + w
    ensures w >= 0.0 ==> forall i :: 0 <= i < |a| ==> AddScaled(a, d, w)[i] >= a[i]
  {
    SumAddScaled(a, d, w);
    assert Sum(AddScaled(a, d, w)) == Sum(a) + w * 1.0;
    if w >= 0.0 {
      AddScaledGrows(a, d, w);
    }
  }

  lemma AddScaledGrows(a: seq<real>, b: seq<real>, w: real)
    requires |a| == |b| && 0.0 <= w
    requires forall i :: 0 <= i < |b| ==> 0.0 <= b[i]
    ensures forall i :: 0 <= i < |a| ==> AddScaled(a, b, w)[i] >= a[i]
  {
    forall i | 0 <= i < |a|
      ensures AddScaled(a, b, w)[i] >= a[i]
    {
      var x := b[i];
      MultiplyNonnegative(x, w);
      assert AddScaled(a, b, w)[i] == a[i] + x * w;
    }
  }

  /// The average strategy always sums to 1, and is a distribution whenever
  /// the cumulative strategy is non-negative.
  lemma AverageStrategySpec(strategySum: seq<real>)
    requires |strategySum| > 0
    ensures |AverageStrategy(strategySum)| == |strategySum|
    ensures Sum(AverageStrategy(strategySum)) == 1.0
    ensures (forall i :: 0 <= i < |strategySum| ==> 0.0 <= strategySum[i]) ==> IsDistribution(AverageStrategy(strategySum))
  {
    var total := Sum(strategySum);
    if total > 0.0 {
      AveragePositive(strategySum, total);
      AverageNonnegative(strategySum, total);
    } else {
      AverageFallback(strategySum);
    }
  }

  /// With a total that is not positive, the average strategy is uniform.
  lemma AverageFallback(strategySum: seq<real>)
    requires |strategySum| > 0 && Sum(strategySum) <= 0.0
    ensures AverageStrategy(strategySum) == UniformVector(|strategySum|)
    ensures |AverageStrategy(strategySum)| == |strategySum| && IsDistribution(AverageStrategy(strategySum))
  {
    UniformVectorIsDistribution(|strategySum|);
  }

  /// With a positive total, the average strategy is the cumulative strategy
  /// normalised: it sums to 1 and scales back to the cumulative strategy.
  lemma AveragePositive(strategySum: seq<real>, total: real)
    requires total == Sum(strategySum) && total > 0.0
    ensures AverageStrategy(strategySum) == Divide(strategySum, total)
    ensures |AverageStrategy(strategySum)| == |strategySum| && Sum(AverageStrategy(strategySum)) == 1.0
    ensures forall i :: 0 <= i < |strategySum| ==> AverageStrategy(strategySum)[i] * total == strategySum[i]
  {
    SumDivide(strategySum, total);
    DivideSelf(total);
    DivideTimes(strategySum, total);
  }

  /// With a positive total and no negative entry, the average strategy is a
  /// distribution.
  lemma AverageNonnegative(strategySum: seq<real>, total: real)
    requires total == Sum(strategySum) && total > 0.0
    ensures (forall i :: 0 <= i < |strategySum| ==> 0.0 <= strategySum[i]) ==> IsDistribution(AverageStrategy(strategySum))
  {
    if forall i :: 0 <= i < |strategySum| ==> 0.0 <= strategySum[i] {
      NormalisedIsDistribution(strategySum, total, AverageStrategy(strategySum));
    }
  }

  /// One entry of regret matching: the clipped regret over the clipped
  /// total, or one over the number of actions.
  lemma RegretMatchingAt(regretSum: seq<real>, j: int)
    requires 0 <= j < |regretSum|
    ensures var total := Sum(PositivePart(regretSum));
      RegretMatching(regretSum)[j] ==
        if total > 0.0 then PositivePart(regretSum)[j] / total else 1.0 / (|regretSum| as real)
  {
  }

  /// Under a strategy that is a distribution, the strategy-weighted regret
  /// increments of one update cancel out.
  lemma RegretIncrementsCancel(regretSum: seq<real>, strategy: seq<real>, util: seq<real>, opponentReach: real)
    requires |regretSum| == |strategy| == |util|
    requires Sum(strategy) == 1.0
    ensures var updated := UpdateRegrets(regretSum, util, Dot(strategy, util), opponentReach);
      Dot(strategy, seq(|util|, i requires 0 <= i < |util| => updated[i] - regretSum[i])) == 0.0
  {
    var c := Dot(strategy, util);
    var updated := UpdateRegrets(regretSum, util, c, opponentReach);
    UpdateIncrements(regretSum, util, c, opponentReach);
    assert seq(|util|, i requires 0 <= i < |util| => updated[i] - regretSum[i]) == Increments(util, c, opponentReach);
    DotIncrements(strategy, util, c, opponentReach);
    NoExcess(Dot(strategy, Increments(util, c, opponentReach)), c, Sum(strategy), opponentReach);
  }

  /// Entry by entry, the regret update adds the increments.
  lemma UpdateIncrements(regretSum: seq<real>, util: seq<real>, c: real, w: real)
    requires |regretSum| == |util|
    ensures forall i :: 0 <= i < |util| ==>
      UpdateRegrets(regretSum, util, c, w)[i] - regretSum[i] == Increments(util, c, w)[i]
  {
    forall i | 0 <= i < |util|
      ensures UpdateRegrets(regretSum, util, c, w)[i] - regretSum[i] == Increments(util, c, w)[i]
    {
      IncrementsAt(util, c, w, i);
    }
  }

  lemma NoExcess(d: real, c: real, e: real, w: real)
    requires e == 1.0 && d == (c - c * e) * w
    ensures d == 0.0
  {
  }

  /// The regret loop after one more action: the first `i + 1` entries are
  /// updated, the rest are as they were.
  lemma UpdateRegretsStep(rs: seq<real>, cur: seq<real>, util: seq<real>, nodeUtil: real, reach: real, i: int, x: real)
    requires |rs| == |util| && 0 <= i < |rs|
    requires cur == UpdateRegrets(rs, util, nodeUtil, reach)[..i] + rs[i..]
    requires x == cur[i] + (util[i] - nodeUtil) * reach
    ensures cur[i := x] == UpdateRegrets(rs, util, nodeUtil, reach)[..i + 1] + rs[i + 1..]
  {
  }

  /// The regret loop of a decision node: each action's regret grows by its
  /// excess over the node value, weighted by the opponent's reach; the
  /// cumulative and current strategies are kept.
  method AccumulateRegrets(node: NodeValue, util: seq<real>, nodeUtil: real, opponentReach: real) returns (updated: NodeValue)
    requires |node.regretSum| == |util| == 2
    ensures updated == node.(regretSum := UpdateRegrets(node.regretSum, util, nodeUtil, opponentReach))
  {
    updated := node;
    for i := 0 to 2
      invariant |updated.regretSum| == 2
      invariant updated == node.(regretSum := UpdateRegrets(node.regretSum, util, nodeUtil, opponentReach)[..i] + node.regretSum[i..])
    {
      var regret := util[i] - nodeUtil;
      ghost var before := updated.regretSum;
      updated := updated.(regretSum := updated.regretSum[i := updated.regretSum[i] + regret * opponentReach]);
      UpdateRegretsStep(node.regretSum, before, util, nodeUtil, opponentReach, i, updated.regretSum[i]);
    }
  }
}
