/// src/kuhn/kuhn_poker.py: the configurable implementation.  Validation of
/// actions is optional (`enable_checks`); without it the caller must only make
/// moves the rules allow.
module KuhnPoker {
  import opened KuhnRules
  import opened KuhnInvariant
  import opened InfoState

  /// `KuhnConfig`.
  datatype KuhnConfig = KuhnConfig(numPlayers: int, ante: real, betSize: real, enableChecks: bool)
  {
    function Rules(): Config
    {
      Config(numPlayers, ante, betSize)
    }
  }

  /// `KuhnConfig(...)`: ValueError for fewer than two players or a
  /// non-positive ante or bet size.
  function MakeConfig(numPlayers: int, ante: real, betSize: real, enableChecks: bool): (r: Result<KuhnConfig>)
    ensures r.Ok? <==> numPlayers >= 2 && ante > 0.0 && betSize > 0.0
    ensures r.Ok? ==> r.value == KuhnConfig(numPlayers, ante, betSize, enableChecks) && ValidConfig(r.value.Rules())
    ensures r.Err? ==> r.error == InvalidConfig
  {
    if numPlayers < 2 then Err(InvalidConfig)
    else if ante <= 0.0 || betSize <= 0.0 then Err(InvalidConfig)
    else Ok(KuhnConfig(numPlayers, ante, betSize, enableChecks))
  }

  class KuhnState {
    const config: KuhnConfig
    const numPlayers: int
    const deckSize: int
    const betSize: real
    const enableChecks: bool
    var history: seq<int>
    var cardDealt: array<int>   // card -> owner
    var firstBettor: int
    var winner: int
    var pot: real
    var ante: array<real>       // player -> amount put in

    function View(): Game
      reads this, cardDealt, ante
    {
      Game(history, cardDealt[..], firstBettor, winner, pot, ante[..])
    }

    ghost predicate Valid()
      reads this, cardDealt, ante
    {
      && numPlayers == config.numPlayers
      && deckSize == numPlayers + 1
      && betSize == config.betSize
      && enableChecks == config.enableChecks
      && cardDealt.Length == deckSize
      && ante.Length == numPlayers
      && ValidConfig(config.Rules())
      && Reachable(config.Rules(), View())
    }

    constructor (config: KuhnConfig)
      requires ValidConfig(config.Rules())
      ensures Valid() && fresh(cardDealt) && fresh(ante)
      ensures this.config == config && View() == Initial(config.Rules())
    {
      this.config := config;
      numPlayers := config.numPlayers;
      deckSize := config.numPlayers + 1;
      betSize := config.betSize;
      enableChecks := config.enableChecks;
      history := [];
      cardDealt := new int[config.numPlayers + 1](_ => NO_PLAYER);
      firstBettor := NO_PLAYER;
      winner := NO_PLAYER;
      pot := config.ante * (config.numPlayers as real);
      ante := new real[config.numPlayers](_ => config.ante);
      new;
      assert View() == Initial(config.Rules());
      InitialReachable(config.Rules());
    }

    /// `is_terminal`: a winner has been recorded.
    predicate IsTerminal()
      reads this, cardDealt, ante
      ensures IsTerminal() == KuhnRules.IsTerminal(View())
    {
      winner != NO_PLAYER
    }

    function CurrentPlayer(): (r: int)
      requires numPlayers > 0
      reads this, cardDealt, ante
      ensures r == KuhnRules.CurrentPlayer(numPlayers, View())
    {
      if IsTerminal() then TERMINAL_PLAYER
      else if |history| < numPlayers then CHANCE_PLAYER
      else |history| % numPlayers
    }

    /// `is_chance_node`: cards are still being dealt in a hand that is not
    /// over.
    predicate IsChanceNode()
      requires numPlayers > 0
      reads this, cardDealt, ante
      ensures IsChanceNode() == KuhnRules.IsChanceNode(numPlayers, View())
      ensures IsChanceNode() <==> !IsTerminal() && |history| < numPlayers
    {
      CurrentPlayer() == CHANCE_PLAYER
    }

    /// `did_bet`: both branches guard only the end of the history, so a
    /// negative index counts from the end as on a Python list, and one below
    /// -len(history) would raise IndexError.
    predicate DidBet(player: int)
      requires DidBetIndexable(numPlayers, View(), player)
      reads this, cardDealt, ante
      ensures DidBet(player) == IndexedDidBet(numPlayers, View(), player)
    {
      if firstBettor == NO_PLAYER then false
      else if player == firstBettor then true
      else if player > firstBettor then
        var idx := numPlayers + player;
        if idx >= |history| then false else history[if idx < 0 then |history| + idx else idx] == BET
      else
        var idx := numPlayers * 2 + player;
        if idx < |history| then history[if idx < 0 then |history| + idx else idx] == BET else false
    }

    /// `apply_action`: with checks on, an illegal action raises and changes
    /// nothing; otherwise the state becomes `Step` of the old one, which keeps
    /// the reachability invariant.
    method ApplyAction(action: int) returns (err: Option<Error>)
      requires Valid()
      requires !enableChecks ==> CanStep(numPlayers, View(), action)
      modifies this, cardDealt, ante
      ensures Valid() && cardDealt == old(cardDealt) && ante == old(ante)
      ensures err == (if enableChecks then ActionError(numPlayers, old(View()), action) else None)
      ensures View() == if err.None? then Step(config.Rules(), old(View()), action) else old(View())
    {
      if enableChecks && IsTerminal() {
        return Some(TerminalState);
      }
      ghost var before := View();
      ReachableBounds(config.Rules(), before);
      var currPlayer := CurrentPlayer();
      if |history| < numPlayers {
        if enableChecks {
          if !(0 <= action < deckSize) {
            return Some(CardOutOfRange);
          }
          if cardDealt[action] != NO_PLAYER {
            return Some(CardAlreadyDealt);
          }
        }
        cardDealt[action] := |history|;
      } else {
        if enableChecks && action != PASS && action != BET {
          return Some(InvalidMove);
        }
        if action == BET {
          if firstBettor == NO_PLAYER {
            firstBettor := currPlayer;
          }
          pot := pot + betSize;
          ante[currPlayer] := ante[currPlayer] + betSize;
        }
      }
      history := history + [action];
      assert View() == Act(config.Rules(), before, action);

      SettleHand();
      ReachableStep(config.Rules(), before, action);
      err := None;
    }

    /// The terminal check that ends `apply_action`.
    method SettleHand()
      requires numPlayers >= 2 && cardDealt.Length == numPlayers + 1 && ante.Length == numPlayers
      requires !IsTerminal()
      requires forall c :: 0 <= c < cardDealt.Length ==> NO_PLAYER <= cardDealt[c] < numPlayers
      requires firstBettor == NO_PLAYER || 0 <= firstBettor < numPlayers
      modifies this
      ensures cardDealt == old(cardDealt) && ante == old(ante)
      ensures View() == KuhnRules.Settle(numPlayers, old(View()))
    {
      ghost var acted := View();
      var numActions := |history| - numPlayers;
      if firstBettor == NO_PLAYER && numActions == numPlayers {
        if cardDealt[numPlayers] != NO_PLAYER {
          winner := cardDealt[numPlayers];
        } else {
          winner := cardDealt[numPlayers - 1];
        }
      } else if firstBettor != NO_PLAYER && numActions == numPlayers + firstBettor {
        var card := numPlayers;
        while card >= 0
          invariant -1 <= card <= numPlayers
          invariant cardDealt == old(cardDealt) && ante == old(ante) && View() == acted
          invariant BestBettorFrom(numPlayers, acted, card) == BestBettorFrom(numPlayers, acted, numPlayers)
        {
          var player := cardDealt[card];
          if player != NO_PLAYER {
            IndexedDidBetAgrees(numPlayers, View(), player);
          }
          if player != NO_PLAYER && DidBet(player) {
            winner := player;
            break;
          }
          card := card - 1;
        }
      }
    }

    /// `legal_actions`.
    method LegalActions() returns (actions: seq<int>)
      requires Valid()
      ensures actions == KuhnRules.LegalActions(numPlayers, View())
    {
      if IsTerminal() {
        return [];
      }
      if IsChanceNode() {
        actions := [];
        var card := 0;
        while card < cardDealt.Length
          invariant 0 <= card <= cardDealt.Length
          invariant actions == UndealtBelow(cardDealt[..], card)
        {
          if cardDealt[card] == NO_PLAYER {
            actions := actions + [card];
          }
          card := card + 1;
        }
        return;
      }
      return [PASS, BET];
    }

    /// `returns`: the winner's gain and everybody's loss of stake; zero-sum.
    method Returns() returns (outcomes: seq<real>)
      requires Valid()
      ensures outcomes == KuhnRules.Returns(numPlayers, View())
      ensures Sum(outcomes) == 0.0
    {
      ReachableInv(config.Rules(), View());
      ReturnsZeroSum(config.Rules(), View());
      if !IsTerminal() {
        return seq(numPlayers, _ => 0.0);
      }
      outcomes := seq(numPlayers, _ => 0.0);
      for p := 0 to numPlayers
        invariant |outcomes| == numPlayers
        invariant forall q :: 0 <= q < p ==> outcomes[q] == Payouts(ante[..], winner, pot)[q]
      {
        var bet := ante[p];
        if p == winner {
          outcomes := outcomes[p := pot - bet];
        } else {
          outcomes := outcomes[p := -bet];
        }
      }
    }

    /// `information_state_string(player)`; `None` stands for the default
    /// argument, the current player.
    method InformationStateString(player: Option<int>) returns (r: Result<string>)
      requires numPlayers > 0
      ensures var p := if player.Some? then player.value else CurrentPlayer();
        r == if 0 <= p && enableChecks && p >= numPlayers then Err(PlayerOutOfRange)
             else Ok(Key(numPlayers, history, p))
    {
      var p := if player.Some? then player.value else CurrentPlayer();
      if p < 0 {
        return Ok("Chance");
      }
      if enableChecks && p >= numPlayers {
        return Err(PlayerOutOfRange);
      }
      var result := "";
      if |history| > p {
        result := result + IntToString(history[p]);
      }
      assert result == if |history| > p then IntToString(history[p]) else "";
      result := AppendDecisions(result);
      return Ok(result);
    }

    /// The loop of `information_state_string` over the actions after the
    /// deal: 'b' for a bet and 'p' otherwise, appended to `card`.
    method AppendDecisions(card: string) returns (result: string)
      requires numPlayers >= 0
      ensures result == card + BetString(Decisions(numPlayers, history))
    {
      result := card;
      var i := numPlayers;
      while i < |history|
        invariant numPlayers <= i
        invariant |history| >= numPlayers ==> i <= |history| && result == card + BetString(history[numPlayers..i])
        invariant |history| < numPlayers ==> i == numPlayers && result == card
      {
        BetStringExtend(card, history, numPlayers, i);
        result := result + [BetChar(history[i])];
        i := i + 1;
      }
      if |history| < numPlayers {
        assert BetString(Decisions(numPlayers, history)) == [];
      }
    }

    /// `chance_outcomes`: uniform over the legal actions.  With checks on it
    /// raises off a chance node; without, the caller must not ask at a terminal
    /// state (the division by zero).
    method ChanceOutcomes() returns (r: Result<seq<(int, real)>>)
      requires Valid()
      requires !enableChecks ==> !IsTerminal()
      ensures enableChecks && !IsChanceNode() ==> r == Err(NotChanceNode)
      ensures !(enableChecks && !IsChanceNode()) ==>
        var actions := KuhnRules.LegalActions(numPlayers, View());
        |actions| > 0 && r == Ok(Uniform(actions))
    {
      if enableChecks && !IsChanceNode() {
        return Err(NotChanceNode);
      }
      var actions := LegalActions();
      ReachableInv(config.Rules(), View());
      LegalActionsSpec(config.Rules(), View());
      r := Ok(Uniform(actions));
    }

    /// `clone`: a copy with fresh lists.
    method Clone() returns (c: KuhnState)
      requires Valid()
      ensures fresh(c) && fresh(c.cardDealt) && fresh(c.ante)
      ensures c.Valid() && c.config == config && c.View() == View()
    {
      c := new KuhnState(config);
      c.history := history;
      var cards, stakes := cardDealt, ante;
      c.cardDealt := new int[deckSize](i requires 0 <= i < deckSize reads cards => cards[i]);
      c.firstBettor := firstBettor;
      c.winner := winner;
      c.pot := pot;
      c.ante := new real[numPlayers](i requires 0 <= i < numPlayers reads stakes => stakes[i]);
      assert c.cardDealt[..] == cardDealt[..];
      assert c.ante[..] == ante[..];
      assert c.View() == View();
    }
  }

  /// `KuhnPokerGame`: a validated configuration and its fresh initial states.
  class KuhnPokerGame {
    const config: KuhnConfig
    const numPlayers: int

    constructor (config: KuhnConfig)
      requires ValidConfig(config.Rules())
      ensures this.config == config && numPlayers == config.numPlayers
    {
      this.config := config;
      numPlayers := config.numPlayers;
    }

    /// `KuhnPokerGame(...)`: raises like `KuhnConfig`.
    static method Create(numPlayers: int, ante: real, betSize: real, enableChecks: bool)
      returns (r: Result<KuhnPokerGame>)
      ensures r.Ok? <==> MakeConfig(numPlayers, ante, betSize, enableChecks).Ok?
      ensures r.Ok? ==> fresh(r.value) && r.value.config == MakeConfig(numPlayers, ante, betSize, enableChecks).value
      ensures r.Err? ==> r.error == InvalidConfig
    {
      var cfg := MakeConfig(numPlayers, ante, betSize, enableChecks);
      if cfg.Err? {
        return Err(cfg.error);
      }
      var game := new KuhnPokerGame(cfg.value);
      return Ok(game);
    }

    /// `new_initial_state`.
    method NewInitialState() returns (s: KuhnState)
      requires ValidConfig(config.Rules())
      ensures fresh(s) && fresh(s.cardDealt) && fresh(s.ante)
      ensures s.Valid() && s.config == config && s.View() == Initial(config.Rules())
    {
      s := new KuhnState(config);
    }
  }

  /// A clone is independent: `apply_action` on it moves the clone as on the
  /// original, and the original stays as it was.
  method CloneIsIndependent(s: KuhnState, action: int) returns (moved: Game)
    requires s.Valid() && (s.enableChecks || CanStep(s.numPlayers, s.View(), action))
    ensures s.View() == old(s.View())
    ensures moved == if s.enableChecks && ActionError(s.numPlayers, s.View(), action).Some? then s.View()
                     else Step(s.config.Rules(), s.View(), action)
  {
    var c := s.Clone();
    var _ := c.ApplyAction(action);
    moved := c.View();
  }
}
