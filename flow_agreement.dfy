/// src/kuhn/kuhn_cfr_flow.py against the shared game rules: a hand of the
/// flow trainer (two distinct cards and a 'p'/'b' history) is the two-player
/// game with ante and bet 1 after dealing those cards and playing those
/// moves.  Its terminal payoffs are the rules' returns, its keys are the
/// information-state strings, and its `cfr` computes the same table as the
/// full-tree walk of src/kuhn/vanilla_cfr.py, with the value in the actor's
/// frame instead of player 0's.
module FlowAgreement {
  import opened KuhnRules
  import opened KuhnInvariant
  import opened InfoState
  import opened CfrTree
  import opened Regrets
  import opened KuhnCfrFlow

  /// Two distinct cards of the three-card deck, as `random.sample(CARDS, 2)`
  /// deals them.
  predicate Deal(cards: seq<int>)
  {
    |cards| == 2 && 0 <= cards[0] < 3 && 0 <= cards[1] < 3 && cards[0] != cards[1]
  }

  /// The game action of a history character.
  function Move(c: char): int
  {
    if c == 'b' then BET else PASS
  }

  /// The game actions of a history string.
  function Moves(h: string): (m: seq<int>)
    ensures |m| == |h|
  {
    seq(|h|, i requires 0 <= i < |h| => Move(h[i]))
  }

  /// The owner table after dealing `cards`.
  function Dealt(cards: seq<int>): seq<int>
    requires |cards| == 2
  {
    seq(3, k => if k == cards[0] then 0 else if k == cards[1] then 1 else NO_PLAYER)
  }

  /// The game state of a hand of the flow trainer, written out: the first
  /// bettor, the stakes (2 for a bettor or caller, 1 otherwise), and the
  /// winner once the hand is over.
  function HandGame(cards: seq<int>, h: string): Game
    requires |cards| == 2
  {
    var firstBettor := if h == "b" || h == "bp" || h == "bb" then 0
                       else if h == "pb" || h == "pbp" || h == "pbb" then 1
                       else NO_PLAYER;
    var c0 := if firstBettor == 0 || h == "pbb" then 2.0 else 1.0;
    var c1 := if firstBettor == 1 || h == "bb" then 2.0 else 1.0;
    var high := if cards[0] > cards[1] then 0 else 1;
    var winner := if h == "bp" then 0
                  else if h == "pbp" then 1
                  else if h == "pp" || h == "bb" || h == "pbb" then high
                  else NO_PLAYER;
    Game(cards + Moves(h), Dealt(cards), firstBettor, winner, c0 + c1, [c0, c1])
  }

  /// Dealing the two cards from the initial state gives the hand before any
  /// decision.
  lemma DealGame(cards: seq<int>)
    requires Deal(cards)
    ensures Play(Cfg, Initial(Cfg), cards) == Some(HandGame(cards, ""))
  {
    var g0 := Initial(Cfg);
    var g1 := g0.(cardDealt := g0.cardDealt[cards[0] := 0], history := [cards[0]]);
    assert Step(Cfg, g0, cards[0]) == g1;
    var g2 := g1.(cardDealt := g1.cardDealt[cards[1] := 1], history := cards);
    assert Step(Cfg, g1, cards[1]) == g2;
    assert Play(Cfg, g2, []) == Some(g2);
    assert cards[1..][1..] == [];
    assert Play(Cfg, g1, cards[1..]) == Some(g2);
    assert g2.cardDealt == Dealt(cards);
    assert g2.contrib == [1.0, 1.0];
    assert Moves("") == [] && cards + [] == cards;
  }

  lemma MovesAppend(h: string, c: char)
    ensures Moves(h + [c]) == Moves(h) + [Move(c)]
  {
  }

  /// The rules' state after one more move of a hand that is not over is the
  /// hand one character longer.
  lemma HandStep(cards: seq<int>, h: string, c: char)
    requires Deal(cards) && FlowHistory(h) && TerminalUtility(cards, h, |h| % 2).None?
    requires c == 'p' || c == 'b'
    ensures CanStep(2, HandGame(cards, h), Move(c))
    ensures Step(Cfg, HandGame(cards, h), Move(c)) == HandGame(cards, h + [c])
  {
    MovesAppend(h, c);
    assert cards + Moves(h + [c]) == cards + Moves(h) + [Move(c)];
    if h == "" {
      StepFromStart(cards, c);
    } else if h == "p" {
      StepAfterPass(cards, c);
    } else if h == "b" {
      StepAfterBet(cards, c);
    } else if h == "pb" {
      StepAfterPassBet(cards, c);
    } else {
      assert false;
    }
  }

  lemma StepFromStart(cards: seq<int>, c: char)
    requires Deal(cards) && (c == 'p' || c == 'b')
    requires HandGame(cards, "" + [c]).history == HandGame(cards, "").history + [Move(c)]
    ensures CanStep(2, HandGame(cards, ""), Move(c))
    ensures Step(Cfg, HandGame(cards, ""), Move(c)) == HandGame(cards, "" + [c])
  {
    if c == 'p' {
      assert "" + [c] == "p";
    } else {
      assert "" + [c] == "b";
      assert [1.0, 1.0][0 := 2.0] == [2.0, 1.0];
    }
  }

  lemma StepAfterPass(cards: seq<int>, c: char)
    requires Deal(cards) && (c == 'p' || c == 'b')
    requires HandGame(cards, "p" + [c]).history == HandGame(cards, "p").history + [Move(c)]
    ensures CanStep(2, HandGame(cards, "p"), Move(c))
    ensures Step(Cfg, HandGame(cards, "p"), Move(c)) == HandGame(cards, "p" + [c])
  {
    if c == 'p' {
      assert "p" + [c] == "pp";
    } else {
      assert "p" + [c] == "pb";
      assert [1.0, 1.0][1 := 2.0] == [1.0, 2.0];
    }
  }

  lemma StepAfterBet(cards: seq<int>, c: char)
    requires Deal(cards) && (c == 'p' || c == 'b')
    requires HandGame(cards, "b" + [c]).history == HandGame(cards, "b").history + [Move(c)]
    ensures CanStep(2, HandGame(cards, "b"), Move(c))
    ensures Step(Cfg, HandGame(cards, "b"), Move(c)) == HandGame(cards, "b" + [c])
  {
    if c == 'p' {
      assert "b" + [c] == "bp";
    } else {
      assert "b" + [c] == "bb";
      assert [2.0, 1.0][1 := 2.0] == [2.0, 2.0];
    }
  }

  lemma StepAfterPassBet(cards: seq<int>, c: char)
    requires Deal(cards) && (c == 'p' || c == 'b')
    requires HandGame(cards, "pb" + [c]).history == HandGame(cards, "pb").history + [Move(c)]
    ensures CanStep(2, HandGame(cards, "pb"), Move(c))
    ensures Step(Cfg, HandGame(cards, "pb"), Move(c)) == HandGame(cards, "pb" + [c])
  {
    if c == 'p' {
      assert "pb" + [c] == "pbp";
    } else {
      assert "pb" + [c] == "pbb";
      assert [1.0, 2.0][0 := 2.0] == [2.0, 2.0];
    }
  }

  /// Every history of a hand but the empty one extends, by 'p' or 'b', a
  /// history of a hand that was not over.
  lemma FlowPrefix(cards: seq<int>, h: string)
    requires |cards| == 2 && FlowHistory(h) && h != ""
    ensures FlowHistory(h[..|h| - 1]) && TerminalUtility(cards, h[..|h| - 1], (|h| - 1) % 2).None?
    ensures h[|h| - 1] == 'p' || h[|h| - 1] == 'b'
    ensures h == h[..|h| - 1] + [h[|h| - 1]]
  {
    if h == "p" || h == "b" {
      assert h[..|h| - 1] == "";
    } else if h == "pp" || h == "pb" {
      assert h[..|h| - 1] == "p";
    } else if h == "bp" || h == "bb" {
      assert h[..|h| - 1] == "b";
    } else {
      assert h[..|h| - 1] == "pb";
    }
  }

  /// The cards and then the moves of a hand, played from the initial state,
  /// reach `HandGame`: every hand of the flow trainer is a reachable state of
  /// the rules.
  lemma {:induction false} HandPlay(cards: seq<int>, h: string)
    requires Deal(cards) && FlowHistory(h)
    ensures Play(Cfg, Initial(Cfg), cards + Moves(h)) == Some(HandGame(cards, h))
    ensures Reachable(Cfg, HandGame(cards, h))
    decreases |h|
  {
    if h == "" {
      DealGame(cards);
      assert cards + Moves(h) == cards;
    } else {
      FlowPrefix(cards, h);
      var prefix := h[..|h| - 1];
      var c := h[|h| - 1];
      HandPlay(cards, prefix);
      HandStep(cards, prefix, c);
      PlayAppend(Cfg, Initial(Cfg), cards + Moves(prefix), HandGame(cards, prefix), Move(c));
      MovesAppend(prefix, c);
      assert cards + Moves(prefix) + [Move(c)] == cards + Moves(h);
    }
  }

  /// A hand is over for the flow trainer exactly when the rules' state is
  /// terminal, and the flow trainer's payoff for the player to move is that
  /// player's entry of the rules' returns.
  lemma HandTerminal(cards: seq<int>, h: string)
    requires Deal(cards) && FlowHistory(h)
    ensures var g := HandGame(cards, h);
      && (TerminalUtility(cards, h, |h| % 2).Some? <==> IsTerminal(g))
      && (IsTerminal(g) ==> TerminalUtility(cards, h, |h| % 2).value == Returns(2, g)[|h| % 2])
  {
  }

  /// At a hand that is not over, the rules' actor is the flow trainer's
  /// `len(history) % 2` and the rules' information-state key is the flow
  /// trainer's `str(cards[player]) + history`.
  lemma HandKey(cards: seq<int>, h: string)
    requires Deal(cards) && FlowHistory(h) && TerminalUtility(cards, h, |h| % 2).None?
    ensures var g := HandGame(cards, h);
      && !IsTerminal(g) && !IsChanceNode(2, g) && CurrentPlayer(2, g) == |h| % 2
      && NodeKey(g) == FlowKey(cards, h)
  {
    HandTerminal(cards, h);
    var g := HandGame(cards, h);
    assert Decisions(2, g.history) == Moves(h) by {
      if |h| > 0 {
        assert g.history[2..] == Moves(h);
      }
    }
    assert BetString(Moves(h)) == h by {
      if h == "p" || h == "b" {
      } else if h == "pb" {
      }
    }
  }

  /// The actor alternates.
  lemma ParityStep(n: nat)
    ensures (n + 1) % 2 == 1 - n % 2
  {
  }

  /// The payoffs of a two-player terminal state are opposite.
  lemma ReturnsOpposite(g: Game)
    requires Reachable(Cfg, g)
    ensures Shaped(2, g)
    ensures |Returns(2, g)| == 2 && Returns(2, g)[1] == -Returns(2, g)[0]
  {
    ReachableInv(Cfg, g);
    ReachableBounds(Cfg, g);
    ReturnsZeroSum(Cfg, g);
    var r := Returns(2, g);
    assert Sum(r) == r[0] + Sum(r[1..]);
    assert Sum(r[1..]) == r[1] + Sum(r[2..]);
    assert r[2..] == [];
  }

  /// `cfr(cards, history, p0, p1)` of src/kuhn/kuhn_cfr_flow.py leaves the
  /// same table as `_cfr` of src/kuhn/vanilla_cfr.py on the rules' state of
  /// the hand, and returns the same value seen from the player to move
  /// instead of player 0.
  lemma {:induction false} FlowAgrees(t: Table, cards: seq<int>, h: string, p0: real, p1: real)
    requires Deal(cards) && FlowHistory(h) && ValidTable(t)
    ensures Reachable(Cfg, HandGame(cards, h))
    ensures FlowValue(t, cards, h, p0, p1).1 == CfrValue(t, HandGame(cards, h), p0, p1).1
    ensures FlowValue(t, cards, h, p0, p1).0 ==
      if |h| % 2 == 0 then CfrValue(t, HandGame(cards, h), p0, p1).0 else -CfrValue(t, HandGame(cards, h), p0, p1).0
    decreases 3 - |h|, 2
  {
    HandPlay(cards, h);
    HandTerminal(cards, h);
    var g := HandGame(cards, h);
    if IsTerminal(g) {
      ReturnsOpposite(g);
    } else {
      HandKey(cards, h);
      HistoryLimit(g);
      var key := FlowKey(cards, h);
      var node := GetStrategy(NodeAt(t, key), FlowOwnReach(h, p0, p1));
      FlowChildrenAgree(t[key := node], cards, h, node.strategy, |node.strategy|, p0, p1);
      assert FlowValue(t, cards, h, p0, p1) == FlowDecision(t, cards, h, p0, p1);
      assert CfrValue(t, g, p0, p1) == DecisionValue(t, g, p0, p1);
    }
  }

  /// The action loops agree turn by turn: the flow trainer negates the
  /// child's value into the actor's frame where the full-tree walk negates
  /// player 1's branch.
  lemma {:induction false} FlowChildrenAgree(t: Table, cards: seq<int>, h: string, s: seq<real>, i: nat, p0: real, p1: real)
    requires Deal(cards) && FlowHistory(h) && ValidTable(t) && TerminalUtility(cards, h, |h| % 2).None?
    requires i <= |s| == NUM_ACTIONS
    requires Reachable(Cfg, HandGame(cards, h)) && !IsTerminal(HandGame(cards, h)) && !IsChanceNode(2, HandGame(cards, h))
    requires CurrentPlayer(2, HandGame(cards, h)) == |h| % 2
    ensures FlowChildren(t, cards, h, s, i, p0, p1).0 == DecisionChildren(t, HandGame(cards, h), s, i, p0, p1).0
    ensures FlowChildren(t, cards, h, s, i, p0, p1).1 == DecisionChildren(t, HandGame(cards, h), s, i, p0, p1).1
    decreases 3 - |h|, 1, i
  {
    if i > 0 {
      FlowChildrenAgree(t, cards, h, s, i - 1, p0, p1);
      FlowChildrenStep(t, cards, h, s, i, p0, p1);
    }
  }

  /// One more turn of both action loops keeps them in agreement.
  lemma FlowChildrenStep(t: Table, cards: seq<int>, h: string, s: seq<real>, i: nat, p0: real, p1: real)
    requires Deal(cards) && FlowHistory(h) && ValidTable(t) && TerminalUtility(cards, h, |h| % 2).None?
    requires 0 < i <= |s| == NUM_ACTIONS
    requires Reachable(Cfg, HandGame(cards, h)) && !IsTerminal(HandGame(cards, h)) && !IsChanceNode(2, HandGame(cards, h))
    requires CurrentPlayer(2, HandGame(cards, h)) == |h| % 2
    requires FlowChildren(t, cards, h, s, i - 1, p0, p1).0 == DecisionChildren(t, HandGame(cards, h), s, i - 1, p0, p1).0
    requires FlowChildren(t, cards, h, s, i - 1, p0, p1).1 == DecisionChildren(t, HandGame(cards, h), s, i - 1, p0, p1).1
    ensures FlowChildren(t, cards, h, s, i, p0, p1).0 == DecisionChildren(t, HandGame(cards, h), s, i, p0, p1).0
    ensures FlowChildren(t, cards, h, s, i, p0, p1).1 == DecisionChildren(t, HandGame(cards, h), s, i, p0, p1).1
    decreases 3 - |h|, 0, 1
  {
    var prev := FlowChildren(t, cards, h, s, i - 1, p0, p1);
    ChildAgrees(prev.1, cards, h, i - 1, s[i - 1], p0, p1);
    FlowChildrenUnfold(t, cards, h, s, i, p0, p1);
    DecisionChildrenUnfold(t, HandGame(cards, h), s, i, p0, p1);
  }

  lemma FlowChildrenUnfold(t: Table, cards: seq<int>, h: string, s: seq<real>, i: nat, p0: real, p1: real)
    requires |cards| == 2 && FlowHistory(h) && ValidTable(t) && TerminalUtility(cards, h, |h| % 2).None?
    requires 0 < i <= |s| == NUM_ACTIONS
    ensures var prev := FlowChildren(t, cards, h, s, i - 1, p0, p1);
      var child := FlowChild(prev.1, cards, h, i - 1, s[i - 1], p0, p1);
      && FlowChildren(t, cards, h, s, i, p0, p1).0 == prev.0 + [-child.0]
      && FlowChildren(t, cards, h, s, i, p0, p1).1 == child.1
  {
  }

  lemma DecisionChildrenUnfold(t: Table, g: Game, s: seq<real>, i: nat, p0: real, p1: real)
    requires Reachable(Cfg, g) && ValidTable(t) && !IsTerminal(g) && !IsChanceNode(2, g)
    requires 0 < i <= |s| == 2
    ensures var prev := DecisionChildren(t, g, s, i - 1, p0, p1);
      var child := ChildValue(prev.1, g, Actions[i - 1], s[i - 1], p0, p1);
      && DecisionChildren(t, g, s, i, p0, p1).0 == prev.0 + [child.0]
      && DecisionChildren(t, g, s, i, p0, p1).1 == child.1
  {
  }

  /// One child: the flow trainer's negated child value is the full-tree
  /// walk's actor-frame child value, and the tables agree.
  lemma ChildAgrees(t: Table, cards: seq<int>, h: string, a: int, w: real, p0: real, p1: real)
    requires Deal(cards) && FlowHistory(h) && ValidTable(t) && TerminalUtility(cards, h, |h| % 2).None?
    requires 0 <= a < NUM_ACTIONS
    requires Reachable(Cfg, HandGame(cards, h)) && !IsTerminal(HandGame(cards, h)) && !IsChanceNode(2, HandGame(cards, h))
    requires CurrentPlayer(2, HandGame(cards, h)) == |h| % 2
    ensures -FlowChild(t, cards, h, a, w, p0, p1).0 == ChildValue(t, HandGame(cards, h), Actions[a], w, p0, p1).0
    ensures FlowChild(t, cards, h, a, w, p0, p1).1 == ChildValue(t, HandGame(cards, h), Actions[a], w, p0, p1).1
    decreases 3 - |h|, 0, 0
  {
    var g := HandGame(cards, h);
    var c := FlowChar(a);
    FlowNext(cards, h, c);
    HandStep(cards, h, c);
    assert Move(c) == Actions[a];
    assert Child(g, Actions[a]) == HandGame(cards, h + [c]);
    var child := HandGame(cards, h + [c]);
    assert |h + [c]| == |h| + 1;
    ParityStep(|h|);
    if |h| % 2 == 0 {
      FlowAgrees(t, cards, h + [c], p0 * w, p1);
      assert FlowValue(t, cards, h + [c], p0 * w, p1).0 == -CfrValue(t, child, p0 * w, p1).0;
      assert FlowChild(t, cards, h, a, w, p0, p1).0 == FlowValue(t, cards, h + [c], p0 * w, p1).0;
      assert ChildValue(t, g, Actions[a], w, p0, p1).0 == CfrValue(t, child, p0 * w, p1).0;
    } else {
      FlowAgrees(t, cards, h + [c], p0, p1 * w);
      assert FlowValue(t, cards, h + [c], p0, p1 * w).0 == CfrValue(t, child, p0, p1 * w).0;
      assert FlowChild(t, cards, h, a, w, p0, p1).0 == FlowValue(t, cards, h + [c], p0, p1 * w).0;
      assert ChildValue(t, g, Actions[a], w, p0, p1).0 == -CfrValue(t, child, p0, p1 * w).0;
    }
  }
  /// Card 0 to player 0 and card 2 to player 1, then check, bet, fold:
  /// player 1 wins player 0's ante.
  lemma PassBetFoldScenario()
    ensures Play(Cfg, Initial(Cfg), [0, 2, PASS, BET, PASS]) == Some(HandGame([0, 2], "pbp"))
    ensures IsTerminal(HandGame([0, 2], "pbp")) && Returns(2, HandGame([0, 2], "pbp")) == [-1.0, 1.0]
    ensures TerminalUtility([0, 2], "pbp", 1) == Some(1.0)
  {
    HandPlay([0, 2], "pbp");
    assert Moves("pbp") == [PASS, BET, PASS];
    assert [0, 2] + [PASS, BET, PASS] == [0, 2, PASS, BET, PASS];
  }

  /// The same deal, then check, check: the showdown goes to player 1's
  /// higher card.
  lemma PassPassScenario()
    ensures Play(Cfg, Initial(Cfg), [0, 2, PASS, PASS]) == Some(HandGame([0, 2], "pp"))
    ensures IsTerminal(HandGame([0, 2], "pp")) && Returns(2, HandGame([0, 2], "pp")) == [-1.0, 1.0]
    ensures TerminalUtility([0, 2], "pp", 0) == Some(-1.0)
  {
    HandPlay([0, 2], "pp");
    assert Moves("pp") == [PASS, PASS];
    assert [0, 2] + [PASS, PASS] == [0, 2, PASS, PASS];
  }
}
