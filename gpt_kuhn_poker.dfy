/// src/kuhn/gpt/kuhn_poker.py: the implementation fixed at ante 1 and bet 1,
/// with integer chips, a history of (player, action) items and every action
/// validated.  An unset owner, first bettor or winner (Python's `None`) is
/// NO_PLAYER here.
module GptKuhnPoker {
  import opened KuhnRules
  import opened KuhnInvariant
  import opened InfoState

  /// `KuhnConfig`.
  datatype GptConfig = GptConfig(numPlayers: int, ante: int, betSize: int)
  {
    function Rules(): Config
    {
      Config(numPlayers, ante as real, betSize as real)
    }
  }

  /// `KuhnConfig(...)`: ValueError unless 2 <= num_players <= 10, ante == 1
  /// and bet_size == 1.
  function MakeConfig(numPlayers: int, ante: int, betSize: int): (r: Result<GptConfig>)
    ensures r.Ok? <==> 2 <= numPlayers <= 10 && ante == 1 && betSize == 1
    ensures r.Ok? ==> r.value == GptConfig(numPlayers, ante, betSize) && ValidConfig(r.value.Rules())
    ensures r.Err? ==> r.error == InvalidConfig
  {
    if !(2 <= numPlayers <= 10) then Err(InvalidConfig)
    else if ante != 1 || betSize != 1 then Err(InvalidConfig)
    else Ok(GptConfig(numPlayers, ante, betSize))
  }

  /// `HistoryItem`: who acted, and the card dealt or the move made.
  datatype HistoryItem = HistoryItem(player: int, action: int)

  function Actions(items: seq<HistoryItem>): seq<int>
  {
    seq(|items|, i requires 0 <= i < |items| => items[i].action)
  }

  function Chips(s: seq<int>): seq<real>
  {
    seq(|s|, i requires 0 <= i < |s| => s[i] as real)
  }

  lemma ActionsAppend(items: seq<HistoryItem>, item: HistoryItem)
    ensures Actions(items + [item]) == Actions(items) + [item.action]
  {
  }

  /// Chance items carry CHANCE_PLAYER and decision items the player whose
  /// turn it was.
  ghost predicate PlayersTagged(n: int, items: seq<HistoryItem>)
    requires n > 0
  {
    forall i :: 0 <= i < |items| ==> items[i].player == if i < n then CHANCE_PLAYER else i % n
  }

  lemma TaggedAppend(n: int, items: seq<HistoryItem>, item: HistoryItem)
    requires n > 0 && PlayersTagged(n, items)
    requires item.player == if |items| < n then CHANCE_PLAYER else |items| % n
    ensures PlayersTagged(n, items + [item])
  {
  }

  class KuhnState {
    const cfg: GptConfig
    var cardDealt: array<int>   // card -> owner
    var firstBettor: int
    var pot: int
    var anteContrib: array<int>
    var winner: int
    var history: seq<HistoryItem>

    function View(): Game
      reads this, cardDealt, anteContrib
    {
      Game(Actions(history), cardDealt[..], firstBettor, winner, pot as real, Chips(anteContrib[..]))
    }

    /// Besides reachability: chance items carry CHANCE_PLAYER and decision
    /// items the player whose turn it was.
    ghost predicate Valid()
      reads this, cardDealt, anteContrib
    {
      && cfg.numPlayers >= 2 && cfg.ante == 1 && cfg.betSize == 1
      && cardDealt.Length == cfg.numPlayers + 1
      && anteContrib.Length == cfg.numPlayers
      && PlayersTagged(cfg.numPlayers, history)
      && Reachable(cfg.Rules(), View())
    }

    constructor (cfg: GptConfig)
      requires MakeConfig(cfg.numPlayers, cfg.ante, cfg.betSize).Ok?
      ensures Valid() && fresh(cardDealt) && fresh(anteContrib)
      ensures this.cfg == cfg && View() == Initial(cfg.Rules())
    {
      this.cfg := cfg;
      cardDealt := new int[cfg.numPlayers + 1](_ => NO_PLAYER);
      firstBettor := NO_PLAYER;
      pot := cfg.ante * cfg.numPlayers;
      anteContrib := new int[cfg.numPlayers](_ => cfg.ante);
      winner := NO_PLAYER;
      history := [];
      new;
      assert View() == Initial(cfg.Rules());
      InitialReachable(cfg.Rules());
    }

    /// `is_terminal`: a winner has been recorded.
    predicate IsTerminal()
      reads this, cardDealt, anteContrib
      ensures IsTerminal() == KuhnRules.IsTerminal(View())
    {
      winner != NO_PLAYER
    }

    /// `is_chance_node`: never at a terminal state, else while dealing; it
    /// agrees with the rules' chance test.
    predicate IsChanceNode()
      reads this, cardDealt, anteContrib
      ensures cfg.numPlayers > 0 ==> IsChanceNode() == KuhnRules.IsChanceNode(cfg.numPlayers, View())
    {
      !IsTerminal() && |history| < cfg.numPlayers
    }

    function CurrentPlayer(): (r: int)
      requires cfg.numPlayers > 0
      reads this, cardDealt, anteContrib
      ensures r == KuhnRules.CurrentPlayer(cfg.numPlayers, View())
    {
      if IsTerminal() then TERMINAL_PLAYER
      else if IsChanceNode() then CHANCE_PLAYER
      else |history| % cfg.numPlayers
    }

    /// `legal_actions`.
    method LegalActions() returns (actions: seq<int>)
      requires Valid()
      ensures actions == KuhnRules.LegalActions(cfg.numPlayers, View())
    {
      if IsTerminal() {
        return [];
      }
      if IsChanceNode() {
        actions := [];
        var card := 0;
        while card < cardDealt.Length
          invariant 0 <= card <= cardDealt.Length
          invariant actions == UndealtBelow(cardDealt[..], card)
        {
          if cardDealt[card] == NO_PLAYER {
            actions := actions + [card];
          }
          card := card + 1;
        }
        return;
      }
      return [PASS, BET];
    }

    /// `chance_outcomes`: RuntimeError off a chance node, otherwise uniform
    /// over the undealt cards.
    method ChanceOutcomes() returns (r: Result<seq<(int, real)>>)
      requires Valid()
      ensures !IsChanceNode() ==> r == Err(NotChanceNode)
      ensures IsChanceNode() ==>
        var cards := UndealtBelow(cardDealt[..], cfg.numPlayers + 1);
        |cards| >= 2 && r == Ok(Uniform(cards))
    {
      if !IsChanceNode() {
        return Err(NotChanceNode);
      }
      var remaining := LegalActions();
      ReachableInv(cfg.Rules(), View());
      LegalActionsSpec(cfg.Rules(), View());
      r := Ok(Uniform(remaining));
    }

    /// `apply_action`: every illegal action raises and changes nothing; a
    /// legal one performs `Step`.  The showdown's "no winner" error is never
    /// raised from a reachable state.
    method ApplyAction(action: int) returns (err: Option<Error>)
      requires Valid()
      modifies this, cardDealt, anteContrib
      ensures Valid() && cardDealt == old(cardDealt) && anteContrib == old(anteContrib)
      ensures err == ActionError(cfg.numPlayers, old(View()), action)
      ensures View() == if err.None? then Step(cfg.Rules(), old(View()), action) else old(View())
    {
      if IsTerminal() {
        return Some(TerminalState);
      }
      if IsChanceNode() {
        err := ApplyChance(action);
      } else {
        err := ApplyDecision(action);
      }
    }

    /// `_apply_chance`.
    method ApplyChance(card: int) returns (err: Option<Error>)
      requires Valid() && IsChanceNode()
      modifies this, cardDealt
      ensures Valid() && cardDealt == old(cardDealt) && anteContrib == old(anteContrib)
      ensures err == ActionError(cfg.numPlayers, old(View()), card)
      ensures View() == if err.None? then Step(cfg.Rules(), old(View()), card) else old(View())
    {
      if !(0 <= card < cardDealt.Length) {
        return Some(CardOutOfRange);
      }
      if cardDealt[card] != NO_PLAYER {
        return Some(CardAlreadyDealt);
      }
      ghost var before := View();
      var dealingTo := |history|;
      cardDealt[card] := dealingTo;
      ActionsAppend(history, HistoryItem(CHANCE_PLAYER, card));
      TaggedAppend(cfg.numPlayers, history, HistoryItem(CHANCE_PLAYER, card));
      history := history + [HistoryItem(CHANCE_PLAYER, card)];
      assert View() == Act(cfg.Rules(), before, card);
      ReachableDealIsAct(cfg.Rules(), before, card);
      ReachableStep(cfg.Rules(), before, card);
      err := None;
    }

    /// `_apply_decision`.
    method ApplyDecision(move: int) returns (err: Option<Error>)
      requires Valid() && !IsTerminal() && !IsChanceNode()
      modifies this, anteContrib
      ensures Valid() && cardDealt == old(cardDealt) && anteContrib == old(anteContrib)
      ensures err == ActionError(cfg.numPlayers, old(View()), move)
      ensures View() == if err.None? then Step(cfg.Rules(), old(View()), move) else old(View())
    {
      if move != PASS && move != BET {
        return Some(InvalidMove);
      }
      ghost var before := View();
      var p := CurrentPlayer();
      if move == BET {
        if firstBettor == NO_PLAYER {
          firstBettor := p;
        }
        pot := pot + cfg.betSize;
        anteContrib[p] := anteContrib[p] + cfg.betSize;
      }
      ActionsAppend(history, HistoryItem(p, move));
      TaggedAppend(cfg.numPlayers, history, HistoryItem(p, move));
      history := history + [HistoryItem(p, move)];
      assert View() == Act(cfg.Rules(), before, move);
      ReachableShowdownFindsWinner(cfg.Rules(), before, move);
      err := MaybeSetTerminal();
      assert err == None && View() == Step(cfg.Rules(), before, move);
      ReachableStep(cfg.Rules(), before, move);
    }

    /// `_maybe_set_terminal`: RuntimeError when the terminal rule fires but
    /// names nobody.
    method MaybeSetTerminal() returns (err: Option<Error>)
      requires cfg.numPlayers >= 2 && cardDealt.Length == cfg.numPlayers + 1
      requires anteContrib.Length == cfg.numPlayers
      requires !IsTerminal()
      modifies this
      ensures cardDealt == old(cardDealt) && anteContrib == old(anteContrib) && history == old(history)
      ensures var g := old(View());
        |g.history| < cfg.numPlayers ==> err == None && View() == g
      ensures var g := old(View());
        |g.history| >= cfg.numPlayers ==>
          && err == (if HandOver(cfg.numPlayers, g) && ShowdownWinner(cfg.numPlayers, g) == NO_PLAYER then Some(NoWinner) else None)
          && View() == if err.None? then KuhnRules.Settle(cfg.numPlayers, g) else g
    {
      var n := cfg.numPlayers;
      var numActions := |history| - n;
      if numActions < 0 {
        return None;
      }
      if firstBettor == NO_PLAYER {
        if numActions == n {
          var w := cardDealt[n];
          if w == NO_PLAYER {
            w := cardDealt[n - 1];
          }
          if w == NO_PLAYER {
            return Some(NoWinner);
          }
          winner := w;
        }
      } else {
        if numActions == n + firstBettor {
          ghost var g := View();
          var card := n;
          while card >= 0
            invariant -1 <= card <= n
            invariant View() == g
            invariant BestBettorFrom(n, g, card) == BestBettorFrom(n, g, n)
          {
            var player := cardDealt[card];
            if player != NO_PLAYER && DidBet(player) {
              winner := player;
              break;
            }
            card := card - 1;
          }
          if winner == NO_PLAYER {
            return Some(NoWinner);
          }
        }
      }
      return None;
    }

    /// `did_bet`.
    predicate DidBet(player: int)
      reads this, cardDealt, anteContrib
      ensures DidBet(player) == KuhnRules.DidBet(cfg.numPlayers, View(), player)
    {
      var n := cfg.numPlayers;
      if firstBettor == NO_PLAYER then false
      else if player == firstBettor then true
      else
        var idx := if player > firstBettor then n + player else 2 * n + player;
        if idx < 0 || idx >= |history| then false else history[idx].action == BET
    }

    /// `returns`: the winner takes the pot less its stake, every other player
    /// loses its stake, a stake being 2 for a bettor and 1 otherwise.  These
    /// are the contribution-based returns, and they sum to zero.
    method Returns() returns (out: seq<real>)
      requires Valid()
      ensures out == FixedStakeReturns(cfg.numPlayers, View())
      ensures out == KuhnRules.Returns(cfg.numPlayers, View())
      ensures Sum(out) == 0.0
    {
      ReachableInv(cfg.Rules(), View());
      FixedStakeReturnsAgree(cfg.Rules(), View());
      var n := cfg.numPlayers;
      if !IsTerminal() {
        return seq(n, _ => 0.0);
      }
      var w := winner;
      out := seq(n, _ => 0.0);
      for p := 0 to n
        invariant |out| == n
        invariant forall q :: 0 <= q < p ==> out[q] == Payouts(FixedStakes(n, View()), w, View().pot)[q]
      {
        var bet := if DidBet(p) then 2 else 1;
        out := out[p := if p == w then (pot - bet) as real else -(bet as real)];
      }
    }

    /// `information_state_string(player)`: ValueError outside 0..n-1.
    method InformationStateString(player: int) returns (r: Result<string>)
      requires cfg.numPlayers >= 0
      ensures r == if 0 <= player < cfg.numPlayers then Ok(Key(cfg.numPlayers, Actions(history), player))
                   else Err(PlayerOutOfRange)
    {
      var n := cfg.numPlayers;
      if !(0 <= player < n) {
        return Err(PlayerOutOfRange);
      }
      var s := "";
      if |history| > player {
        s := s + IntToString(history[player].action);
      }
      assert s == if |Actions(history)| > player then IntToString(Actions(history)[player]) else "";
      s := AppendDecisions(s);
      return Ok(s);
    }

    /// The loop of `information_state_string` over the actions after the
    /// deal: 'b' for a bet and 'p' otherwise, appended to `card`.
    method AppendDecisions(card: string) returns (s: string)
      requires cfg.numPlayers >= 0
      ensures s == card + BetString(Decisions(cfg.numPlayers, Actions(history)))
    {
      var n := cfg.numPlayers;
      ghost var h := Actions(history);
      s := card;
      var i := n;
      while i < |history|
        invariant n <= i && |h| == |history|
        invariant |history| >= n ==> i <= |history| && s == card + BetString(h[n..i])
        invariant |history| < n ==> i == n && s == card
      {
        var a := history[i].action;
        assert a == h[i];
        BetStringExtend(card, h, n, i);
        s := s + [BetChar(a)];
        i := i + 1;
      }
      if |history| < n {
        assert BetString(Decisions(n, h)) == [];
      }
    }
  }

  /// `KuhnGame`.
  class KuhnGame {
    const cfg: GptConfig

    constructor (cfg: GptConfig)
      requires MakeConfig(cfg.numPlayers, cfg.ante, cfg.betSize).Ok?
      ensures this.cfg == cfg
    {
      this.cfg := cfg;
    }

    /// `new_initial_state`.
    method NewInitialState() returns (s: KuhnState)
      requires MakeConfig(cfg.numPlayers, cfg.ante, cfg.betSize).Ok?
      ensures fresh(s) && fresh(s.cardDealt) && fresh(s.anteContrib)
      ensures s.Valid() && s.cfg == cfg && s.View() == Initial(cfg.Rules())
    {
      s := new KuhnState(cfg);
    }
  }
}
