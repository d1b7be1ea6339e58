/// The invariant of every state reachable from `Initial` by `Step`, for any
/// player count, and what follows from it: the deal is a one-to-one assignment
/// of n of the n + 1 cards, the showdown always finds a winner, the hand ends
/// within 3n - 1 actions, and the returns are zero-sum.
module KuhnInvariant {
  import opened KuhnRules

  function Min(a: int, b: int): int
  {
    if a < b then a else b
  }

  /// The first min(|history|, n) entries are the deals: deal i gave card
  /// history[i] to player i, and the card table holds exactly those deals.
  ghost predicate DealsRecorded(n: int, g: Game)
    requires Shaped(n, g)
  {
    var dealt := Min(|g.history|, n);
    && (forall i :: 0 <= i < dealt ==> 0 <= g.history[i] <= n && g.cardDealt[g.history[i]] == i)
    && (forall c :: 0 <= c <= n && g.cardDealt[c] != NO_PLAYER ==>
          0 <= g.cardDealt[c] < dealt && g.history[g.cardDealt[c]] == c)
    && |UndealtBelow(g.cardDealt, n + 1)| == n + 1 - dealt
  }

  /// Where the first bet can be: nobody bet and at most one round was played,
  /// or `firstBettor` bet in the first round after everyone before it passed,
  /// and at most the answers of the players before it followed.
  ghost predicate BettingShape(n: int, g: Game)
  {
    var h := |g.history|;
    if g.firstBettor == NO_PLAYER then
      h <= 2 * n && forall j :: n <= j < h ==> g.history[j] != BET
    else
      && 0 <= g.firstBettor < n
      && n + g.firstBettor < h <= 2 * n + g.firstBettor
      && g.history[n + g.firstBettor] == BET
      && forall j :: n <= j < n + g.firstBettor ==> g.history[j] != BET
  }

  /// The pot is what the players put in, and each put in the ante plus one bet
  /// exactly when it bet or called.
  ghost predicate Stakes(cfg: Config, g: Game)
    requires |g.contrib| == cfg.numPlayers
  {
    && g.pot == Sum(g.contrib)
    && forall p :: 0 <= p < cfg.numPlayers ==>
         g.contrib[p] == cfg.ante + (if DidBet(cfg.numPlayers, g, p) then cfg.betSize else 0.0)
  }

  /// The hand is over exactly when the terminal rule fires, and then the
  /// winner is the player the rule names.
  ghost predicate Finished(n: int, g: Game)
    requires Shaped(n, g)
  {
    && (IsTerminal(g) <==> HandOver(n, g))
    && (IsTerminal(g) ==> g.winner == ShowdownWinner(n, g) && 0 <= g.winner < n)
  }

  ghost predicate Inv(cfg: Config, g: Game)
  {
    && ValidConfig(cfg)
    && Shaped(cfg.numPlayers, g)
    && DealsRecorded(cfg.numPlayers, g)
    && BettingShape(cfg.numPlayers, g)
    && Stakes(cfg, g)
    && Finished(cfg.numPlayers, g)
  }

  // ---------------------------------------------------------------- helpers

  lemma {:induction false} UndealtBelowMembers(cd: seq<int>, k: int)
    requires 0 <= k <= |cd|
    ensures forall x :: x in UndealtBelow(cd, k) <==> 0 <= x < k && cd[x] == NO_PLAYER
    ensures forall i, j :: 0 <= i < j < |UndealtBelow(cd, k)| ==> UndealtBelow(cd, k)[i] < UndealtBelow(cd, k)[j]
  {
    if k > 0 {
      UndealtBelowMembers(cd, k - 1);
      var u := UndealtBelow(cd, k - 1);
      forall i | 0 <= i < |u|
        ensures u[i] < k - 1
      {
        assert u[i] in u;
      }
    }
  }

  lemma {:induction false} UndealtBelowAfterDeal(cd: seq<int>, a: int, x: int, k: int)
    requires 0 <= a < |cd| && cd[a] == NO_PLAYER && x != NO_PLAYER
    requires 0 <= k <= |cd|
    ensures |UndealtBelow(cd[a := x], k)| == |UndealtBelow(cd, k)| - (if a < k then 1 else 0)
  {
    if k > 0 {
      UndealtBelowAfterDeal(cd, a, x, k - 1);
    }
  }

  lemma {:induction false} UndealtBelowAllUndealt(cd: seq<int>, k: int)
    requires 0 <= k <= |cd|
    requires forall c :: 0 <= c < |cd| ==> cd[c] == NO_PLAYER
    ensures |UndealtBelow(cd, k)| == k
  {
    if k > 0 {
      UndealtBelowAllUndealt(cd, k - 1);
    }
  }

  lemma TwoUndealt(cd: seq<int>, c1: int, c2: int, k: int)
    requires 0 <= c1 < c2 < k <= |cd|
    requires cd[c1] == NO_PLAYER && cd[c2] == NO_PLAYER
    ensures |UndealtBelow(cd, k)| >= 2
  {
    UndealtBelowMembers(cd, k);
    var u := UndealtBelow(cd, k);
    assert c1 in u && c2 in u;
    var i :| 0 <= i < |u| && u[i] == c1;
    var j :| 0 <= j < |u| && u[j] == c2;
    assert i != j;
  }

  lemma {:induction false} SumConstant(k: nat, x: real)
    ensures Sum(seq(k, _ => x)) == (k as real) * x
  {
    if k > 0 {
      var v := seq(k, _ => x);
      assert v[1..] == seq(k - 1, _ => x);
      SumConstant(k - 1, x);
      assert Sum(v) == x + Sum(v[1..]);
      OneMoreTimes(k, x);
    }
  }

  lemma {:induction false} SumAdd(s: seq<real>, i: int, x: real)
    requires 0 <= i < |s|
    ensures Sum(s[i := s[i] + x]) == Sum(s) + x
  {
    if i > 0 {
      assert s[i := s[i] + x][1..] == s[1..][i - 1 := s[i] + x];
      SumAdd(s[1..], i - 1, x);
    }
  }

  /// Who acts at history position h once the cards are dealt.
  lemma ActorIndex(n: int, h: int)
    requires n > 0 && n <= h < 3 * n
    ensures h % n == if h < 2 * n then h - n else h - 2 * n
  {
    var q, r := h / n, h % n;
    assert h == n * q + r && 0 <= r < n;
    assert n * q > 0;
    assert n * q < 3 * n;
    assert 0 < q < 3;
  }

  // ---------------------------------------------------------------- showdown

  /// The scan finds the owner of the highest card (at or below `card`) among
  /// the players who bet, and finds nobody only when no such owner exists.
  lemma {:induction false} BestBettorFromSpec(n: int, g: Game, card: int)
    requires -1 <= card < |g.cardDealt|
    ensures var w := BestBettorFrom(n, g, card);
      && (w == NO_PLAYER <==>
            forall c :: 0 <= c <= card && g.cardDealt[c] != NO_PLAYER ==> !DidBet(n, g, g.cardDealt[c]))
      && (w != NO_PLAYER ==>
            exists c :: 0 <= c <= card && g.cardDealt[c] == w && DidBet(n, g, w) &&
              forall c' :: c < c' <= card && g.cardDealt[c'] != NO_PLAYER ==> !DidBet(n, g, g.cardDealt[c']))
    decreases card + 1
  {
    if card >= 0 {
      BestBettorFromSpec(n, g, card - 1);
      var w := BestBettorFrom(n, g, card);
      if g.cardDealt[card] != NO_PLAYER && DidBet(n, g, g.cardDealt[card]) {
        assert g.cardDealt[card] == w;
      } else if w != NO_PLAYER {
        var c :| 0 <= c <= card - 1 && g.cardDealt[c] == w && DidBet(n, g, w) &&
              forall c' :: c < c' <= card - 1 && g.cardDealt[c'] != NO_PLAYER ==> !DidBet(n, g, g.cardDealt[c']);
        assert forall c' :: c < c' <= card && g.cardDealt[c'] != NO_PLAYER ==> !DidBet(n, g, g.cardDealt[c']);
      }
    }
  }

  /// Once the cards are dealt the terminal rule always names a player: with no
  /// bet one of the two top cards is dealt, and after a bet the first bettor
  /// holds a card and did bet, so the scan stops at or above that card.  This is
  /// why the "no winner" error of the gpt implementation cannot occur.
  lemma ShowdownFindsWinner(n: int, g: Game)
    requires Shaped(n, g) && DealsRecorded(n, g) && BettingShape(n, g)
    requires |g.history| >= n
    ensures 0 <= ShowdownWinner(n, g) < n
  {
    if g.firstBettor == NO_PLAYER {
      if g.cardDealt[n] == NO_PLAYER && g.cardDealt[n - 1] == NO_PLAYER {
        TwoUndealt(g.cardDealt, n - 1, n, n + 1);
      }
    } else {
      var fb := g.firstBettor;
      var c := g.history[fb];
      assert g.cardDealt[c] == fb && DidBet(n, g, fb);
      BestBettorFromSpec(n, g, n);
    }
  }

  // ---------------------------------------------------------------- steps

  lemma InitialInv(cfg: Config)
    requires ValidConfig(cfg)
    ensures Inv(cfg, Initial(cfg))
  {
    var n := cfg.numPlayers;
    var g := Initial(cfg);
    UndealtBelowAllUndealt(g.cardDealt, n + 1);
    SumConstant(n, cfg.ante);
  }

  lemma DealStepInv(cfg: Config, g: Game, a: int)
    requires Inv(cfg, g) && CanStep(cfg.numPlayers, g, a)
    requires |g.history| < cfg.numPlayers
    ensures Inv(cfg, Step(cfg, g, a))
  {
    var g' := Act(cfg, g, a);
    assert Settle(cfg.numPlayers, g') == g';
    DealRecorded(cfg, g, a);
  }

  /// A deal records the card against the next player and takes it out of
  /// the undealt cards.
  lemma DealRecorded(cfg: Config, g: Game, a: int)
    requires Inv(cfg, g) && CanStep(cfg.numPlayers, g, a)
    requires |g.history| < cfg.numPlayers
    ensures DealsRecorded(cfg.numPlayers, Act(cfg, g, a))
  {
    var n := cfg.numPlayers;
    var h := |g.history|;
    UndealtBelowAfterDeal(g.cardDealt, a, h, n + 1);
    forall i | 0 <= i < h
      ensures g.history[i] != a
    {
      assert g.cardDealt[g.history[i]] == i;
    }
  }

  /// A decision changes `did_bet` for nobody except a betting actor, who had
  /// not bet before.
  lemma DecisionDidBet(cfg: Config, g: Game, a: int, p: int)
    requires Inv(cfg, g) && CanStep(cfg.numPlayers, g, a)
    requires |g.history| >= cfg.numPlayers
    requires 0 <= p < cfg.numPlayers
    ensures var n, actor := cfg.numPlayers, |g.history| % cfg.numPlayers;
      && DidBet(n, Act(cfg, g, a), p) == (DidBet(n, g, p) || (a == BET && p == actor))
      && (a == BET ==> !DidBet(n, g, actor))
  {
    var n, h := cfg.numPlayers, |g.history|;
    var g' := Act(cfg, g, a);
    assert h < 3 * n;
    ActorIndex(n, h);
  }

  lemma DecisionStepShape(cfg: Config, g: Game, a: int)
    requires Inv(cfg, g) && CanStep(cfg.numPlayers, g, a)
    requires |g.history| >= cfg.numPlayers
    ensures var g' := Act(cfg, g, a);
      Shaped(cfg.numPlayers, g') && DealsRecorded(cfg.numPlayers, g') && BettingShape(cfg.numPlayers, g')
  {
    DecisionKeepsDeals(cfg, g, a);
    DecisionBetting(cfg, g, a);
  }

  /// A decision leaves the card table and the deals alone.
  lemma DecisionKeepsDeals(cfg: Config, g: Game, a: int)
    requires Inv(cfg, g) && CanStep(cfg.numPlayers, g, a)
    requires |g.history| >= cfg.numPlayers
    ensures Shaped(cfg.numPlayers, Act(cfg, g, a)) && DealsRecorded(cfg.numPlayers, Act(cfg, g, a))
  {
    var n := cfg.numPlayers;
    var g' := Act(cfg, g, a);
    assert g'.cardDealt == g.cardDealt && g'.history[..n] == g.history[..n];
    assert forall i :: 0 <= i < n ==> g'.history[i] == g.history[..n][i];
  }

  /// A decision keeps the first bet where the betting order allows it.
  lemma DecisionBetting(cfg: Config, g: Game, a: int)
    requires Inv(cfg, g) && CanStep(cfg.numPlayers, g, a)
    requires |g.history| >= cfg.numPlayers
    ensures BettingShape(cfg.numPlayers, Act(cfg, g, a))
  {
    var n, h := cfg.numPlayers, |g.history|;
    var g' := Act(cfg, g, a);
    ActorIndex(n, h);
    assert forall j :: 0 <= j < h ==> g'.history[j] == g.history[j];
  }

  lemma DecisionStepStakes(cfg: Config, g: Game, a: int)
    requires Inv(cfg, g) && CanStep(cfg.numPlayers, g, a)
    requires |g.history| >= cfg.numPlayers
    ensures Stakes(cfg, Act(cfg, g, a))
  {
    var n, h := cfg.numPlayers, |g.history|;
    var g' := Act(cfg, g, a);
    forall p | 0 <= p < n
      ensures g'.contrib[p] == cfg.ante + (if DidBet(n, g', p) then cfg.betSize else 0.0)
    {
      DecisionDidBet(cfg, g, a, p);
    }
    if a == BET {
      SumAdd(g.contrib, h % n, cfg.betSize);
    }
  }

  /// The scan does not look at the winner field.
  lemma {:induction false} BestBettorIgnoresWinner(n: int, g: Game, w: int, card: int)
    requires -1 <= card < |g.cardDealt|
    ensures BestBettorFrom(n, g.(winner := w), card) == BestBettorFrom(n, g, card)
    decreases card + 1
  {
    if card >= 0 {
      BestBettorIgnoresWinner(n, g, w, card - 1);
    }
  }

  /// The terminal check keeps the invariant of a state that was not over.
  lemma SettleInv(cfg: Config, g: Game)
    requires ValidConfig(cfg) && Shaped(cfg.numPlayers, g)
    requires DealsRecorded(cfg.numPlayers, g) && BettingShape(cfg.numPlayers, g) && Stakes(cfg, g)
    requires !IsTerminal(g) && |g.history| >= cfg.numPlayers
    ensures Inv(cfg, Settle(cfg.numPlayers, g))
  {
    var n := cfg.numPlayers;
    if HandOver(n, g) {
      ShowdownFindsWinner(n, g);
      var w := ShowdownWinner(n, g);
      assert Settle(n, g) == g.(winner := w);
      WinnerKeepsShape(cfg, g, w);
      BestBettorIgnoresWinner(n, g, w, n);
      assert ShowdownWinner(n, g.(winner := w)) == w;
    } else {
      assert Settle(n, g) == g;
    }
  }

  /// Recording a winner changes neither the deals, nor the betting, nor
  /// the stakes.
  lemma WinnerKeepsShape(cfg: Config, g: Game, w: int)
    requires ValidConfig(cfg) && Shaped(cfg.numPlayers, g)
    requires DealsRecorded(cfg.numPlayers, g) && BettingShape(cfg.numPlayers, g) && Stakes(cfg, g)
    ensures var g' := g.(winner := w);
      && Shaped(cfg.numPlayers, g') && DealsRecorded(cfg.numPlayers, g')
      && BettingShape(cfg.numPlayers, g') && Stakes(cfg, g')
  {
    var n := cfg.numPlayers;
    assert forall p :: DidBet(n, g.(winner := w), p) == DidBet(n, g, p);
  }

  lemma DecisionStepInv(cfg: Config, g: Game, a: int)
    requires Inv(cfg, g) && CanStep(cfg.numPlayers, g, a)
    requires |g.history| >= cfg.numPlayers
    ensures Inv(cfg, Step(cfg, g, a))
  {
    DecisionStepShape(cfg, g, a);
    DecisionStepStakes(cfg, g, a);
    SettleInv(cfg, Act(cfg, g, a));
  }

  /// `Step` keeps the invariant.
  lemma StepInv(cfg: Config, g: Game, a: int)
    requires Inv(cfg, g) && CanStep(cfg.numPlayers, g, a)
    ensures Inv(cfg, Step(cfg, g, a))
    ensures |Step(cfg, g, a).history| == |g.history| + 1
  {
    if |g.history| < cfg.numPlayers {
      DealStepInv(cfg, g, a);
    } else {
      DecisionStepInv(cfg, g, a);
    }
  }

  // ---------------------------------------------------------------- consequences

  /// Termination measure of the tree walk: a hand never exceeds 3n - 1 actions
  /// (n deals, at most 2n - 1 decisions).
  lemma HistoryBound(cfg: Config, g: Game)
    requires Inv(cfg, g)
    ensures |g.history| <= 3 * cfg.numPlayers - 1
    ensures !IsTerminal(g) ==> |g.history| < 3 * cfg.numPlayers - 1
  {
  }

  /// After the deal exactly one card is undealt, every other card has an owner,
  /// and each player 0..n-1 owns exactly one card.
  lemma DealComplete(cfg: Config, g: Game)
    requires Inv(cfg, g) && |g.history| >= cfg.numPlayers
    ensures var n := cfg.numPlayers;
      && (exists c :: 0 <= c <= n && g.cardDealt[c] == NO_PLAYER)
      && (forall c1, c2 :: 0 <= c1 < c2 <= n && g.cardDealt[c1] == NO_PLAYER ==> g.cardDealt[c2] != NO_PLAYER)
      && (forall c :: 0 <= c <= n && g.cardDealt[c] != NO_PLAYER ==> 0 <= g.cardDealt[c] < n)
      && (forall p :: 0 <= p < n ==> 0 <= g.history[p] <= n && g.cardDealt[g.history[p]] == p)
  {
    var n := cfg.numPlayers;
    UndealtBelowMembers(g.cardDealt, n + 1);
    var u := UndealtBelow(g.cardDealt, n + 1);
    assert u[0] in u;
    forall c1, c2 | 0 <= c1 < c2 <= n && g.cardDealt[c1] == NO_PLAYER
      ensures g.cardDealt[c2] != NO_PLAYER
    {
      if g.cardDealt[c2] == NO_PLAYER {
        TwoUndealt(g.cardDealt, c1, c2, n + 1);
      }
    }
  }

  lemma {:induction false} PayoutsSum(stakes: seq<real>, w: int, pot: real)
    ensures Sum(Payouts(stakes, w, pot)) == (if 0 <= w < |stakes| then pot else 0.0) - Sum(stakes)
    decreases |stakes|
  {
    if stakes != [] {
      assert Payouts(stakes, w, pot)[1..] == Payouts(stakes[1..], w - 1, pot);
      PayoutsSum(stakes[1..], w - 1, pot);
    }
  }

  /// The returns of a reachable state sum to zero.
  lemma ReturnsZeroSum(cfg: Config, g: Game)
    requires Inv(cfg, g)
    ensures Sum(Returns(cfg.numPlayers, g)) == 0.0
  {
    if IsTerminal(g) {
      PayoutsSum(g.contrib, g.winner, g.pot);
    } else {
      SumConstant(cfg.numPlayers, 0.0);
    }
  }

  /// With ante and bet size 1 the fixed 2/1 stakes of the gpt and gemini
  /// implementations are the recorded contributions, so their returns agree
  /// with the contribution-based ones and are zero-sum too.
  lemma FixedStakeReturnsAgree(cfg: Config, g: Game)
    requires Inv(cfg, g) && cfg.ante == 1.0 && cfg.betSize == 1.0
    ensures FixedStakeReturns(cfg.numPlayers, g) == Returns(cfg.numPlayers, g)
    ensures Sum(FixedStakeReturns(cfg.numPlayers, g)) == 0.0
  {
    assert FixedStakes(cfg.numPlayers, g) == g.contrib;
    ReturnsZeroSum(cfg, g);
  }

  /// The winner of a hand that went to a bet holds the highest card among the
  /// players who bet or called; a player who folded never wins it.
  lemma WinnerHoldsBestBettingCard(cfg: Config, g: Game)
    requires Inv(cfg, g) && IsTerminal(g) && g.firstBettor != NO_PLAYER
    ensures var n := cfg.numPlayers;
      && DidBet(n, g, g.winner)
      && exists c :: 0 <= c <= n && g.cardDealt[c] == g.winner &&
           forall c' :: c < c' <= n && g.cardDealt[c'] != NO_PLAYER ==> !DidBet(n, g, g.cardDealt[c'])
  {
    BestBettorFromSpec(cfg.numPlayers, g, cfg.numPlayers);
  }

  /// The winner of a hand nobody bet in holds the highest dealt card.
  lemma WinnerHoldsTopCard(cfg: Config, g: Game)
    requires Inv(cfg, g) && IsTerminal(g) && g.firstBettor == NO_PLAYER
    ensures var n := cfg.numPlayers;
      exists c :: 0 <= c <= n && g.cardDealt[c] == g.winner &&
        forall c' :: c < c' <= n ==> g.cardDealt[c'] == NO_PLAYER
  {
    var n := cfg.numPlayers;
    assert g.winner == ShowdownWinner(n, g);
    var c := if g.cardDealt[n] == NO_PLAYER then n - 1 else n;
    assert g.cardDealt[c] == g.winner;
    assert forall c' :: c < c' <= n ==> g.cardDealt[c'] == NO_PLAYER;
  }

  /// The legal actions of a reachable state: none once the hand is over; at
  /// a chance node the undealt cards, ascending, one per card not yet dealt;
  /// otherwise PASS and BET.
  lemma LegalActionsSpec(cfg: Config, g: Game)
    requires Inv(cfg, g)
    ensures var n := cfg.numPlayers; var acts := LegalActions(n, g);
      && (IsTerminal(g) <==> acts == [])
      && (IsChanceNode(n, g) ==>
            && |acts| == n + 1 - |g.history| >= 2
            && (forall c :: c in acts <==> 0 <= c <= n && g.cardDealt[c] == NO_PLAYER)
            && (forall i, j :: 0 <= i < j < |acts| ==> acts[i] < acts[j]))
      && (!IsTerminal(g) && !IsChanceNode(n, g) ==> acts == [PASS, BET])
  {
    UndealtBelowMembers(g.cardDealt, cfg.numPlayers + 1);
  }

  lemma {:induction false} ProbabilitySumConstant(actions: seq<int>, prob: real)
    ensures ProbabilitySum(seq(|actions|, i requires 0 <= i < |actions| => (actions[i], prob))) == (|actions| as real) * prob
    decreases |actions|
  {
    if actions != [] {
      var s := seq(|actions|, i requires 0 <= i < |actions| => (actions[i], prob));
      assert s[1..] == seq(|actions[1..]|, i requires 0 <= i < |actions[1..]| => (actions[1..][i], prob));
      ProbabilitySumConstant(actions[1..], prob);
      OneMoreTimes(|actions|, prob);
    }
  }

  /// `chance_outcomes` is a probability distribution over the given actions.
  lemma UniformIsDistribution(actions: seq<int>)
    requires |actions| > 0
    ensures ProbabilitySum(Uniform(actions)) == 1.0
    ensures forall i :: 0 <= i < |actions| ==> Uniform(actions)[i] == (actions[i], 1.0 / (|actions| as real))
  {
    ProbabilitySumConstant(actions, 1.0 / (|actions| as real));
  }

  // ------------------------------------------------------------ reachability

  /// A state the game reaches: some sequence of allowed actions leads to it
  /// from the initial state.
  ghost predicate Reachable(cfg: Config, g: Game)
  {
    ValidConfig(cfg) && exists actions: seq<int> :: Play(cfg, Initial(cfg), actions) == Some(g)
  }

  lemma {:induction false} PlayAppend(cfg: Config, g: Game, actions: seq<int>, g': Game, a: int)
    requires Play(cfg, g, actions) == Some(g') && CanStep(cfg.numPlayers, g', a)
    ensures Play(cfg, g, actions + [a]) == Some(Step(cfg, g', a))
    decreases |actions|
  {
    if actions == [] {
      assert ([] + [a])[1..] == [];
    } else {
      assert (actions + [a])[1..] == actions[1..] + [a];
      PlayAppend(cfg, Step(cfg, g, actions[0]), actions[1..], g', a);
    }
  }

  lemma {:induction false} PlayInv(cfg: Config, g: Game, actions: seq<int>, g': Game)
    requires Inv(cfg, g) && Play(cfg, g, actions) == Some(g')
    ensures Inv(cfg, g')
    decreases |actions|
  {
    if actions != [] {
      StepInv(cfg, g, actions[0]);
      PlayInv(cfg, Step(cfg, g, actions[0]), actions[1..], g');
    }
  }

  lemma InitialReachable(cfg: Config)
    requires ValidConfig(cfg)
    ensures Reachable(cfg, Initial(cfg))
  {
    assert Play(cfg, Initial(cfg), []) == Some(Initial(cfg));
  }

  /// An allowed action from a reachable state leads to a reachable state.
  lemma ReachableStep(cfg: Config, g: Game, a: int)
    requires Reachable(cfg, g) && CanStep(cfg.numPlayers, g, a)
    ensures Reachable(cfg, Step(cfg, g, a))
  {
    var actions :| Play(cfg, Initial(cfg), actions) == Some(g);
    PlayAppend(cfg, Initial(cfg), actions, g, a);
  }

  /// Every reachable state satisfies the invariant.
  lemma ReachableInv(cfg: Config, g: Game)
    requires Reachable(cfg, g)
    ensures Inv(cfg, g)
  {
    var actions :| Play(cfg, Initial(cfg), actions) == Some(g);
    InitialInv(cfg);
    PlayInv(cfg, Initial(cfg), actions, g);
  }

  /// A deal never ends the hand.
  lemma ReachableDealIsAct(cfg: Config, g: Game, a: int)
    requires Reachable(cfg, g) && CanStep(cfg.numPlayers, g, a)
    requires |g.history| < cfg.numPlayers
    ensures Step(cfg, g, a) == Act(cfg, g, a)
  {
    ReachableInv(cfg, g);
  }

  /// After a decision in a reachable state the showdown always names a
  /// player, so the "no winner" error of the gpt implementation is never raised.
  lemma ReachableShowdownFindsWinner(cfg: Config, g: Game, a: int)
    requires Reachable(cfg, g) && CanStep(cfg.numPlayers, g, a)
    requires |g.history| >= cfg.numPlayers
    ensures 0 <= ShowdownWinner(cfg.numPlayers, Act(cfg, g, a)) < cfg.numPlayers
  {
    ReachableInv(cfg, g);
    DecisionStepShape(cfg, g, a);
    ShowdownFindsWinner(cfg.numPlayers, Act(cfg, g, a));
  }

  /// In a reachable state every card owner is a player and the first bettor,
  /// once set, is a player.
  lemma ReachableBounds(cfg: Config, g: Game)
    requires Reachable(cfg, g)
    ensures Shaped(cfg.numPlayers, g)
    ensures forall c :: 0 <= c < |g.cardDealt| ==> NO_PLAYER <= g.cardDealt[c] < cfg.numPlayers
    ensures g.firstBettor == NO_PLAYER || 0 <= g.firstBettor < cfg.numPlayers
  {
    ReachableInv(cfg, g);
  }
}
