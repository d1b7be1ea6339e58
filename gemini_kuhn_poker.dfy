/// src/kuhn/gemini/kuhn_poker.py: the unvalidated implementation behind the
/// CFR backend, fixed at ante 1.0 and bet 1.0.  Nothing is checked, so the
/// caller must only make moves the rules allow.
module GeminiKuhnPoker {
  import opened KuhnRules
  import opened KuhnInvariant
  import opened InfoState

  const DEFAULT_PLAYERS: int := 2
  const ANTE: real := 1.0

  /// The rules this implementation plays: ante and bet both 1.0.
  function Rules(numPlayers: int): (cfg: Config)
    ensures numPlayers >= 2 ==> ValidConfig(cfg)
    ensures cfg.numPlayers == numPlayers && cfg.ante == ANTE && cfg.betSize == 1.0
  {
    Config(numPlayers, ANTE, 1.0)
  }

  class KuhnState {
    const numPlayers: int
    var history: seq<int>
    var cardDealt: array<int>   // card -> owner
    var firstBettor: int
    var winner: int
    var pot: real
    var ante: array<real>       // player -> amount put in

    function View(): Game
      reads this, cardDealt, ante
    {
      Game(history, cardDealt[..], firstBettor, winner, pot, ante[..])
    }

    ghost predicate Valid()
      reads this, cardDealt, ante
    {
      && numPlayers >= 2
      && cardDealt.Length == numPlayers + 1
      && ante.Length == numPlayers
      && Reachable(Rules(numPlayers), View())
    }

    /// The source does not validate the player count; fewer than two players
    /// is outside the game.
    constructor (numPlayers: int)
      requires numPlayers >= 2
      ensures Valid() && fresh(cardDealt) && fresh(ante)
      ensures this.numPlayers == numPlayers && View() == Initial(Rules(numPlayers))
    {
      this.numPlayers := numPlayers;
      history := [];
      cardDealt := new int[numPlayers + 1](_ => NO_PLAYER);
      firstBettor := NO_PLAYER;
      winner := NO_PLAYER;
      pot := ANTE * (numPlayers as real);
      ante := new real[numPlayers](_ => ANTE);
      new;
      assert View() == Initial(Rules(numPlayers));
      InitialReachable(Rules(numPlayers));
    }

    function CurrentPlayer(): (r: int)
      requires numPlayers > 0
      reads this, cardDealt, ante
      ensures r == KuhnRules.CurrentPlayer(numPlayers, View())
    {
      if IsTerminal() then -2
      else if |history| < numPlayers then -1
      else |history| % numPlayers
    }

    /// `is_chance_node`: cards are still being dealt in a hand that is not
    /// over.
    predicate IsChanceNode()
      requires numPlayers > 0
      reads this, cardDealt, ante
      ensures IsChanceNode() == KuhnRules.IsChanceNode(numPlayers, View())
      ensures IsChanceNode() <==> !IsTerminal() && |history| < numPlayers
    {
      CurrentPlayer() == -1
    }

    /// `is_terminal`: a winner has been recorded.
    predicate IsTerminal()
      reads this, cardDealt, ante
      ensures IsTerminal() == KuhnRules.IsTerminal(View())
    {
      winner != NO_PLAYER
    }

    /// `apply_action`, for an action the rules allow.
    method ApplyAction(action: int)
      requires Valid() && CanStep(numPlayers, View(), action)
      modifies this, cardDealt, ante
      ensures Valid() && cardDealt == old(cardDealt) && ante == old(ante)
      ensures View() == Step(Rules(numPlayers), old(View()), action)
    {
      ghost var before := View();
      ReachableBounds(Rules(numPlayers), before);
      var currPlayer := CurrentPlayer();
      if |history| < numPlayers {
        var playerReceivingCard := |history|;
        cardDealt[action] := playerReceivingCard;
      } else if action == BET {
        if firstBettor == NO_PLAYER {
          firstBettor := currPlayer;
        }
        pot := pot + 1.0;
        ante[currPlayer] := ante[currPlayer] + 1.0;
      }
      history := history + [action];
      assert View() == Act(Rules(numPlayers), before, action);
      if |before.history| >= numPlayers {
        ReachableShowdownFindsWinner(Rules(numPlayers), before, action);
      }
      SettleHand();
      ReachableStep(Rules(numPlayers), before, action);
    }

    /// The terminal check that ends `apply_action`.  After a decision the
    /// scan always meets a bettor, so every `_did_bet` it makes is in range.
    method SettleHand()
      requires numPlayers >= 2 && cardDealt.Length == numPlayers + 1 && ante.Length == numPlayers
      requires !IsTerminal()
      requires HandOver(numPlayers, View()) ==> ShowdownWinner(numPlayers, View()) != NO_PLAYER
      requires forall c :: 0 <= c < cardDealt.Length ==> NO_PLAYER <= cardDealt[c] < numPlayers
      requires firstBettor == NO_PLAYER || 0 <= firstBettor < numPlayers
      modifies this
      ensures cardDealt == old(cardDealt) && ante == old(ante)
      ensures View() == KuhnRules.Settle(numPlayers, old(View()))
    {
      ghost var acted := View();
      var numActions := |history| - numPlayers;
      if firstBettor == NO_PLAYER && numActions == numPlayers {
        if cardDealt[numPlayers] != NO_PLAYER {
          winner := cardDealt[numPlayers];
        } else {
          winner := cardDealt[numPlayers - 1];
        }
      } else if firstBettor != NO_PLAYER && numActions == numPlayers + firstBettor {
        var card := numPlayers;
        while card >= 0
          invariant -1 <= card <= numPlayers
          invariant cardDealt == old(cardDealt) && ante == old(ante) && View() == acted
          invariant BestBettorFrom(numPlayers, acted, card) == BestBettorFrom(numPlayers, acted, numPlayers)
        {
          var player := cardDealt[card];
          if player != NO_PLAYER {
            IndexedDidBetAgrees(numPlayers, View(), player);
          }
          if player != NO_PLAYER && DidBet(player) {
            winner := player;
            break;
          }
          card := card - 1;
        }
      }
    }

    /// Where `_did_bet` indexes the history (unguarded for a player after the
    /// first bettor, guarded only at the end before it), the index must exist,
    /// counting a negative one from the end.
    predicate InRangeForDidBet(player: int)
      reads this
    {
      firstBettor == NO_PLAYER || player == firstBettor ||
      if player > firstBettor then -|history| <= numPlayers + player < |history|
      else -|history| <= 2 * numPlayers + player
    }

    /// `_did_bet`: unlike the other implementations it raises IndexError for
    /// a later player whose first-round action is not in the history yet.
    predicate DidBet(player: int)
      requires InRangeForDidBet(player)
      reads this, cardDealt, ante
      ensures DidBetIndexable(numPlayers, View(), player)
      ensures DidBet(player) == IndexedDidBet(numPlayers, View(), player)
    {
      if firstBettor == NO_PLAYER then false
      else if player == firstBettor then true
      else if player > firstBettor then
        var idx := numPlayers + player;
        history[if idx < 0 then |history| + idx else idx] == BET
      else
        var idx := numPlayers * 2 + player;
        if idx < |history| then history[if idx < 0 then |history| + idx else idx] == BET else false
    }

    /// `legal_actions`.
    method LegalActions() returns (actions: seq<int>)
      requires Valid()
      ensures actions == KuhnRules.LegalActions(numPlayers, View())
    {
      if IsTerminal() {
        return [];
      }
      if IsChanceNode() {
        actions := [];
        var card := 0;
        while card < cardDealt.Length
          invariant 0 <= card <= cardDealt.Length
          invariant actions == UndealtBelow(cardDealt[..], card)
        {
          if cardDealt[card] == NO_PLAYER {
            actions := actions + [card];
          }
          card := card + 1;
        }
        return;
      }
      return [PASS, BET];
    }

    /// `returns`: stakes of 2.0 for a bettor and 1.0 otherwise; with ante and
    /// bet 1.0 these are the contribution-based returns, and they sum to zero.
    method Returns() returns (outcomes: seq<real>)
      requires Valid()
      ensures outcomes == FixedStakeReturns(numPlayers, View())
      ensures outcomes == KuhnRules.Returns(numPlayers, View())
      ensures Sum(outcomes) == 0.0
    {
      ReachableInv(Rules(numPlayers), View());
      FixedStakeReturnsAgree(Rules(numPlayers), View());
      if !IsTerminal() {
        return seq(numPlayers, _ => 0.0);
      }
      outcomes := seq(numPlayers, _ => 0.0);
      for p := 0 to numPlayers
        invariant |outcomes| == numPlayers
        invariant forall q :: 0 <= q < p ==> outcomes[q] == Payouts(FixedStakes(numPlayers, View()), winner, pot)[q]
      {
        var bet := if DidBet(p) then 2.0 else 1.0;
        if p == winner {
          outcomes := outcomes[p := pot - bet];
        } else {
          outcomes := outcomes[p := -bet];
        }
      }
    }

    /// `information_state_string`, always for the current player.
    method InformationStateString() returns (r: string)
      requires numPlayers > 0
      ensures r == Key(numPlayers, history, CurrentPlayer())
    {
      var player := CurrentPlayer();
      if player < 0 {
        return "Chance";
      }
      var result := "";
      if |history| > player {
        result := result + IntToString(history[player]);
      }
      assert result == if |history| > player then IntToString(history[player]) else "";
      result := AppendDecisions(result);
      return result;
    }

    /// The loop of `information_state_string` over the actions after the
    /// deal: 'b' for a bet and 'p' otherwise, appended to `card`.
    method AppendDecisions(card: string) returns (result: string)
      requires numPlayers >= 0
      ensures result == card + BetString(Decisions(numPlayers, history))
    {
      result := card;
      var i := numPlayers;
      while i < |history|
        invariant numPlayers <= i
        invariant |history| >= numPlayers ==> i <= |history| && result == card + BetString(history[numPlayers..i])
        invariant |history| < numPlayers ==> i == numPlayers && result == card
      {
        BetStringExtend(card, history, numPlayers, i);
        result := result + [BetChar(history[i])];
        i := i + 1;
      }
      if |history| < numPlayers {
        assert BetString(Decisions(numPlayers, history)) == [];
      }
    }

    /// `chance_outcomes`: uniform over the legal actions, also at a decision
    /// node; at a terminal state it divides by zero.
    method ChanceOutcomes() returns (outcomes: seq<(int, real)>)
      requires Valid() && !IsTerminal()
      ensures var actions := KuhnRules.LegalActions(numPlayers, View());
        |actions| > 0 && outcomes == Uniform(actions)
    {
      var actions := LegalActions();
      ReachableInv(Rules(numPlayers), View());
      LegalActionsSpec(Rules(numPlayers), View());
      outcomes := Uniform(actions);
    }

    /// `clone`.
    method Clone() returns (c: KuhnState)
      requires Valid()
      ensures fresh(c) && fresh(c.cardDealt) && fresh(c.ante)
      ensures c.Valid() && c.numPlayers == numPlayers && c.View() == View()
    {
      c := new KuhnState(numPlayers);
      c.history := history;
      var cards, stakes := cardDealt, ante;
      c.cardDealt := new int[numPlayers + 1](i requires 0 <= i < numPlayers + 1 reads cards => cards[i]);
      c.firstBettor := firstBettor;
      c.winner := winner;
      c.pot := pot;
      c.ante := new real[numPlayers](i requires 0 <= i < numPlayers reads stakes => stakes[i]);
      assert c.cardDealt[..] == cardDealt[..];
      assert c.ante[..] == ante[..];
      assert c.View() == View();
    }
  }

  /// `KuhnPokerGame`.
  class KuhnPokerGame {
    const numPlayers: int

    constructor (numPlayers: int)
      ensures this.numPlayers == numPlayers
    {
      this.numPlayers := numPlayers;
    }

    /// `new_initial_state`.
    method NewInitialState() returns (s: KuhnState)
      requires numPlayers >= 2
      ensures fresh(s) && fresh(s.cardDealt) && fresh(s.ante)
      ensures s.Valid() && s.numPlayers == numPlayers && s.View() == Initial(Rules(numPlayers))
    {
      s := new KuhnState(numPlayers);
    }
  }

  /// A clone is independent: `apply_action` on it moves the clone by `Step`,
  /// and the original stays as it was.
  method CloneIsIndependent(s: KuhnState, action: int) returns (moved: Game)
    requires s.Valid() && CanStep(s.numPlayers, s.View(), action)
    ensures s.View() == old(s.View())
    ensures moved == Step(Rules(s.numPlayers), s.View(), action)
  {
    var c := s.Clone();
    c.ApplyAction(action);
    moved := c.View();
  }
}
