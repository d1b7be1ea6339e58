/// The rules of n-player Kuhn poker (n players, n + 1 cards), stated on values.
///
/// All three KuhnState implementations keep the same fields: an action history
/// whose first n entries are the dealt cards, a card -> owner table, the first
/// bettor, the winner, the pot and each player's contribution.  `Game` is that
/// state as a value, and `Step` is what `apply_action` does to it; the classes in
/// the other modules are proved to perform exactly `Step`.
module KuhnRules {

  const PASS: int := 0
  const BET: int := 1
  /// `INVALID_PLAYER`: an unset owner, first bettor or winner.
  const NO_PLAYER: int := -1
  const CHANCE_PLAYER: int := -1
  const TERMINAL_PLAYER: int := -2

  datatype Option<T> = None | Some(value: T)

  /// The exceptions the implementations raise, one constructor per cause.
  datatype Error =
    | InvalidConfig      // ValueError from a KuhnConfig
    | TerminalState      // RuntimeError: acting in a terminal state
    | CardOutOfRange     // ValueError: a deal outside the deck
    | CardAlreadyDealt   // ValueError: a deal of an owned card
    | InvalidMove        // ValueError: a decision other than PASS or BET
    | NotChanceNode      // RuntimeError from chance_outcomes
    | PlayerOutOfRange   // ValueError from information_state_string
    | NoWinner           // RuntimeError: a showdown that finds no winner

  datatype Result<T> = Ok(value: T) | Err(error: Error)

  /// Player count, ante and bet size.
  datatype Config = Config(numPlayers: int, ante: real, betSize: real)

  predicate ValidConfig(cfg: Config)
  {
    cfg.numPlayers >= 2 && cfg.ante > 0.0 && cfg.betSize > 0.0
  }

  /// One node of the game tree: the fields of a KuhnState.
  datatype Game = Game(
    history: seq<int>,     // deals first, then PASS/BET decisions
    cardDealt: seq<int>,   // card -> owner, NO_PLAYER when undealt
    firstBettor: int,
    winner: int,
    pot: real,
    contrib: seq<real>)    // per-player amount put in (the `ante` list)

  predicate Shaped(n: int, g: Game)
  {
    n >= 2 && |g.cardDealt| == n + 1 && |g.contrib| == n
  }

  function Initial(cfg: Config): Game
    requires ValidConfig(cfg)
  {
    var n := cfg.numPlayers;
    Game([], seq(n + 1, _ => NO_PLAYER), NO_PLAYER, NO_PLAYER,
         cfg.ante * (n as real), seq(n, _ => cfg.ante))
  }

  predicate IsTerminal(g: Game)
  {
    g.winner != NO_PLAYER
  }

  function CurrentPlayer(n: int, g: Game): int
    requires n > 0
  {
    if IsTerminal(g) then TERMINAL_PLAYER
    else if |g.history| < n then CHANCE_PLAYER
    else |g.history| % n
  }

  predicate IsChanceNode(n: int, g: Game)
    requires n > 0
  {
    CurrentPlayer(n, g) == CHANCE_PLAYER
  }

  /// `did_bet`: whether player `p` bet or called.  Nobody did before the first
  /// bet; the first bettor did; a later player's only decision is at n + p; an
  /// earlier player answers the bet at 2n + p; a position not reached yet reads
  /// as "did not".
  predicate DidBet(n: int, g: Game, p: int)
  {
    if g.firstBettor == NO_PLAYER then false
    else if p == g.firstBettor then true
    else
      var idx := BetIndex(n, g, p);
      0 <= idx < |g.history| && g.history[idx] == BET
  }

  /// Where `did_bet` looks for player `p`'s bet: n + p after the first
  /// bettor, 2n + p before it.
  function BetIndex(n: int, g: Game, p: int): int
  {
    if p > g.firstBettor then n + p else 2 * n + p
  }

  /// `did_bet` never raises IndexError: a list index is either past the end
  /// (which reads as "did not") or at least -len(history).
  predicate DidBetIndexable(n: int, g: Game, p: int)
  {
    g.firstBettor == NO_PLAYER || p == g.firstBettor || -|g.history| <= BetIndex(n, g, p)
  }

  /// `did_bet` as the implementations index a Python list: a negative index
  /// counts from the end of the history, so a player id below -2n reads an
  /// entry rather than answering "did not".
  predicate IndexedDidBet(n: int, g: Game, p: int)
    requires DidBetIndexable(n, g, p)
  {
    if g.firstBettor == NO_PLAYER then false
    else if p == g.firstBettor then true
    else
      var idx := BetIndex(n, g, p);
      if idx >= |g.history| then false
      else if idx >= 0 then g.history[idx] == BET
      else g.history[|g.history| + idx] == BET
  }

  /// For every player id whose index is not negative, in particular every
  /// real player, the list indexing is the position rule `DidBet`.
  lemma IndexedDidBetAgrees(n: int, g: Game, p: int)
    requires 0 <= BetIndex(n, g, p)
    ensures DidBetIndexable(n, g, p) && IndexedDidBet(n, g, p) == DidBet(n, g, p)
  {
  }

  /// A negative index wraps: with n = 2 and history [0, 1, BET, PASS], in
  /// which player 0 bet first, player id -7 reads history[-3], a BET.
  lemma NegativeIdWraps()
    ensures var g := Game([0, 1, BET, PASS], [0, 1, NO_PLAYER], 0, NO_PLAYER, 3.0, [2.0, 1.0]);
      IndexedDidBet(2, g, -7) && !DidBet(2, g, -7)
  {
  }

  /// The showdown scan: the owner of the highest card at or below `card` whose
  /// owner did bet, or NO_PLAYER when there is none.
  function BestBettorFrom(n: int, g: Game, card: int): int
    requires -1 <= card < |g.cardDealt|
    decreases card + 1
  {
    if card < 0 then NO_PLAYER
    else if g.cardDealt[card] != NO_PLAYER && DidBet(n, g, g.cardDealt[card]) then g.cardDealt[card]
    else BestBettorFrom(n, g, card - 1)
  }

  /// The scan names nobody or the holder of a card at or below `card` who
  /// bet.
  lemma {:induction false} BestBettorIsHolder(n: int, g: Game, card: int)
    requires -1 <= card < |g.cardDealt|
    ensures var r := BestBettorFrom(n, g, card);
      r == NO_PLAYER || (r in g.cardDealt[..card + 1] && DidBet(n, g, r))
    decreases card + 1
  {
    if card >= 0 && !(g.cardDealt[card] != NO_PLAYER && DidBet(n, g, g.cardDealt[card])) {
      BestBettorIsHolder(n, g, card - 1);
      assert g.cardDealt[..card] <= g.cardDealt[..card + 1];
    }
  }

  /// Whether the terminal rule fires: everybody passed once, or every player
  /// answered the first bet.
  predicate HandOver(n: int, g: Game)
  {
    var numActions := |g.history| - n;
    if g.firstBettor == NO_PLAYER then numActions == n else numActions == n + g.firstBettor
  }

  /// The winner the terminal rule names: with no bet the holder of card n, or
  /// of card n - 1 when card n was not dealt; after a bet the best bettor.
  function ShowdownWinner(n: int, g: Game): (r: int)
    requires Shaped(n, g)
    ensures r == NO_PLAYER || r in g.cardDealt
    ensures g.firstBettor != NO_PLAYER && r != NO_PLAYER ==> DidBet(n, g, r)
  {
    if g.firstBettor == NO_PLAYER then
      (if g.cardDealt[n] != NO_PLAYER then g.cardDealt[n] else g.cardDealt[n - 1])
    else
      BestBettorIsHolder(n, g, n);
      assert g.cardDealt[..n + 1] == g.cardDealt;
      BestBettorFrom(n, g, n)
  }

  /// The terminal check run after each append: when the rule fires and names
  /// a player, that player becomes the winner.
  function Settle(n: int, g: Game): (r: Game)
    requires Shaped(n, g)
    ensures r.(winner := g.winner) == g
    ensures r.winner != g.winner ==> HandOver(n, g) && r.winner in g.cardDealt
  {
    if HandOver(n, g) && ShowdownWinner(n, g) != NO_PLAYER then g.(winner := ShowdownWinner(n, g))
    else g
  }

  /// What a caller must guarantee when nothing is validated: the hand is not
  /// over, and a deal names an undealt card of the deck.
  predicate CanStep(n: int, g: Game, a: int)
  {
    && Shaped(n, g)
    && !IsTerminal(g)
    && (|g.history| < n ==> 0 <= a <= n && g.cardDealt[a] == NO_PLAYER)
  }

  /// The bookkeeping of `apply_action` before the terminal check: a deal
  /// records the receiving player (the current history length); a BET fixes
  /// the first bettor if unset and moves `betSize` into the pot from the actor;
  /// every action is appended.
  function Act(cfg: Config, g: Game, a: int): (r: Game)
    requires CanStep(cfg.numPlayers, g, a)
    ensures r.history == g.history + [a] && r.winner == g.winner
    ensures |r.cardDealt| == |g.cardDealt| && |r.contrib| == |g.contrib|
  {
    var n := cfg.numPlayers;
    if |g.history| < n then
      g.(cardDealt := g.cardDealt[a := |g.history|], history := g.history + [a])
    else if a == BET then
      var p := |g.history| % n;
      g.(firstBettor := if g.firstBettor == NO_PLAYER then p else g.firstBettor,
         pot := g.pot + cfg.betSize,
         contrib := g.contrib[p := g.contrib[p] + cfg.betSize],
         history := g.history + [a])
    else
      g.(history := g.history + [a])
  }

  /// `apply_action`.
  function Step(cfg: Config, g: Game, a: int): (r: Game)
    requires CanStep(cfg.numPlayers, g, a)
    ensures r.history == g.history + [a]
    ensures IsTerminal(r) ==> HandOver(cfg.numPlayers, Act(cfg, g, a)) && r.winner in r.cardDealt
  {
    Settle(cfg.numPlayers, Act(cfg, g, a))
  }

  /// The validation of the checked implementations, in the order they test.
  function ActionError(n: int, g: Game, a: int): Option<Error>
    requires Shaped(n, g)
  {
    if IsTerminal(g) then Some(TerminalState)
    else if |g.history| < n then
      if !(0 <= a < n + 1) then Some(CardOutOfRange)
      else if g.cardDealt[a] != NO_PLAYER then Some(CardAlreadyDealt)
      else None
    else if a != PASS && a != BET then Some(InvalidMove)
    else None
  }

  /// Sum of a vector of reals.
  function Sum(s: seq<real>): real
  {
    if s == [] then 0.0 else s[0] + Sum(s[1..])
  }

  /// `k` copies of `x` are one copy plus `k - 1` copies.
  lemma OneMoreTimes(k: nat, x: real)
    requires k > 0
    ensures (k as real) * x == x + ((k - 1) as real) * x
  {
  }

  /// The payoff vector when `winner` takes the pot and every player loses the
  /// stake it put in.
  function Payouts(stakes: seq<real>, winner: int, pot: real): seq<real>
  {
    seq(|stakes|, p requires 0 <= p < |stakes| => if p == winner then pot - stakes[p] else -stakes[p])
  }

  /// `returns` of src/kuhn/kuhn_poker.py: stakes are the recorded contributions.
  function Returns(n: nat, g: Game): (r: seq<real>)
    requires |g.contrib| == n
    ensures |r| == n
    ensures forall p :: 0 <= p < n ==>
      r[p] == if !IsTerminal(g) then 0.0 else (if p == g.winner then g.pot else 0.0) - g.contrib[p]
  {
    if !IsTerminal(g) then seq(n, _ => 0.0) else Payouts(g.contrib, g.winner, g.pot)
  }

  /// The stake the fixed-size implementations charge: 2 for a bettor, else 1.
  function FixedStakes(n: nat, g: Game): seq<real>
  {
    seq(n, p => if DidBet(n, g, p) then 2.0 else 1.0)
  }

  /// `returns` of the gpt and gemini implementations.
  function FixedStakeReturns(n: nat, g: Game): (r: seq<real>)
    ensures |r| == n
    ensures forall p :: 0 <= p < n ==>
      r[p] == if !IsTerminal(g) then 0.0 else (if p == g.winner then g.pot else 0.0) - (if DidBet(n, g, p) then 2.0 else 1.0)
  {
    if !IsTerminal(g) then seq(n, _ => 0.0) else Payouts(FixedStakes(n, g), g.winner, g.pot)
  }

  /// The undealt cards below `k`, in ascending order.
  function UndealtBelow(cardDealt: seq<int>, k: int): seq<int>
    requires 0 <= k <= |cardDealt|
  {
    if k == 0 then []
    else UndealtBelow(cardDealt, k - 1) + (if cardDealt[k - 1] == NO_PLAYER then [k - 1] else [])
  }

  function LegalActions(n: int, g: Game): seq<int>
    requires Shaped(n, g)
  {
    if IsTerminal(g) then []
    else if IsChanceNode(n, g) then UndealtBelow(g.cardDealt, n + 1)
    else [PASS, BET]
  }

  /// A uniform distribution over the given actions.
  function Uniform(actions: seq<int>): seq<(int, real)>
    requires |actions| > 0
  {
    var prob := 1.0 / (|actions| as real);
    seq(|actions|, i requires 0 <= i < |actions| => (actions[i], prob))
  }

  function ProbabilitySum(outcomes: seq<(int, real)>): real
  {
    if outcomes == [] then 0.0 else outcomes[0].1 + ProbabilitySum(outcomes[1..])
  }

  /// The history after the deals.
  function Decisions(n: nat, history: seq<int>): seq<int>
  {
    if |history| <= n then [] else history[n..]
  }

  /// Applying a sequence of actions from `g`; None as soon as one is not allowed.
  function Play(cfg: Config, g: Game, actions: seq<int>): Option<Game>
    decreases |actions|
  {
    if actions == [] then Some(g)
    else if CanStep(cfg.numPlayers, g, actions[0]) then Play(cfg, Step(cfg, g, actions[0]), actions[1..])
    else None
  }
}
