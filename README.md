# Kuhn poker and vanilla CFR in Dafny

This project models the Kuhn poker engine and the counterfactual regret
minimisation (CFR) solvers of the `kuhn` package. It proves what the code
promises about them.

- **Game rules** (`rules.dfy`, module `KuhnRules`). n-player Kuhn poker deals
  one card of n + 1 to each player, followed by one PASS/BET round and, after a
  bet, a second round of answers. It is written as a function `Step` on a value
  `Game` that holds exactly the fields of a `KuhnState`: the history (the deals
  first, then the decisions), the card owner table, the first bettor, the
  winner, the pot and each player's contribution. `Settle` is the terminal
  rule. `DidBet` is the position arithmetic on the history. `Returns` and
  `FixedStakeReturns` are the two payoff rules.
- **What reachable states satisfy** (`invariant.dfy`, module `KuhnInvariant`).
  A state is reachable when it is produced by playing allowed actions from the
  initial state. For such states the module proves the following:
  - the deals are recorded one card per player;
  - the pot is the sum of the contributions;
  - the history is at most 3n - 1 long, which gives the CFR recursion its
    termination measure;
  - a showdown always finds a winner;
  - the winner holds the right card;
  - the payoffs sum to zero.
- **Three `KuhnState` classes**:
  - `kuhn_poker.dfy` (configurable, optional checks);
  - `gpt_kuhn_poker.dfy` (strict config, always validates, `HistoryItem`
    history);
  - `gemini_kuhn_poker.dfy` (no validation, fixed stakes of 1.0).

  Each method updates the object's fields. Its contract states the new state as
  `Step` of the old one, or names the exact error the implementation raises.
  Where nothing is validated, the contract carries the caller's obligations as
  preconditions instead.
- **Information-set keys** (`info_state.dfy`). The key is the player's card
  digit followed by `p`/`b` per decision. The module proves that two keys are
  equal exactly when the card and the public betting agree.
- **Regret matching** (`regret_matching.dfy`, `cfr_node.dfy`). Node vectors are
  `seq<real>`. The module proves that the current strategy and the average
  strategy are probability distributions and gives their exact form. It also
  proves how `strategy_sum` grows, and that the opponent-weighted regret
  increments cancel under the current strategy. `CFRNode` is a class whose
  methods are proved against these functions.
- **Full-tree CFR** (`cfr_tree.dfy`, `vanilla_cfr.dfy`, `cfr_backend.dfy`).
  `CfrValue` specifies one call of `_cfr` on a game value and a node table:
  - the value it returns, in player 0's frame;
  - the table afterwards.

  Both `CFRSolver` classes are proved to compute it. Their `_cfr` is split into
  methods for the chance node, the decision node and the action loop.
- **The flow trainer** (`kuhn_cfr_flow.dfy`, `flow_agreement.dfy`). `KuhnNode`
  keeps the element-wise loops of `get_strategy` and `get_average_strategy`.
  `KuhnCFRTrainer.Cfr` is proved against `FlowValue`, which uses the flow
  trainer's string histories and the actor's frame. `FlowAgreement` proves the
  following for two distinct cards and every history of a hand:
  - the hand is the rules' two-player game after those deals and moves;
  - `get_terminal_utility` is that game's return for the player to move;
  - the key equals `information_state_string`;
  - `FlowValue` produces the same node table as the full-tree `CfrValue`, with
    the value negated for player 1.

All money, probabilities, regrets and utilities are `real`.

## Model

| member | source | states |
|---|---|---|
| KuhnPoker.MakeConfig | src/kuhn/kuhn_poker.py:20-31 | a config is accepted exactly when num_players >= 2, ante > 0 and bet_size > 0; otherwise the result is the ValueError |
| KuhnPoker.KuhnState.constructor | src/kuhn/kuhn_poker.py:53-89 | empty history, every card undealt, no bettor or winner, pot ante*n, every contribution ante |
| KuhnPoker.KuhnState.CurrentPlayer | src/kuhn/kuhn_poker.py:91-101 | TERMINAL_PLAYER when over, CHANCE_PLAYER while fewer than n deals, else len(history) mod n |
| KuhnPoker.KuhnState.IsTerminal | src/kuhn/kuhn_poker.py:106-107 | the rules' terminal test: a winner is recorded |
| KuhnPoker.KuhnState.IsChanceNode | src/kuhn/kuhn_poker.py:103-104 | the rules' chance test: the hand is not over and fewer than n cards are dealt |
| KuhnPoker.KuhnState.DidBet | src/kuhn/kuhn_poker.py:172-198 | the list-indexed did_bet: false before any bet, true for the first bettor, else history[n+p] or history[2n+p] == BET, false past the end, and a negative index read from the end as on a Python list |
| KuhnPoker.KuhnState.ApplyAction | src/kuhn/kuhn_poker.py:110-170 | with checks, a terminal state, a card out of range, an owned card or a move other than PASS/BET gives its error and changes nothing; otherwise the new state is the rules' Step (deal records the owner, BET fixes the first bettor once and moves bet_size into pot and contribution, one history entry, then the terminal rule) |
| KuhnPoker.KuhnState.SettleHand | src/kuhn/kuhn_poker.py:143-170 | the terminal check sets the winner as the rules' Settle does: holder of card n (else n-1) when nobody bet, the best betting card after a bet |
| KuhnPoker.KuhnState.LegalActions | src/kuhn/kuhn_poker.py:200-213 | the loop builds exactly the rules' legal actions: none when over, the undealt cards while dealing, [PASS, BET] otherwise |
| KuhnPoker.KuhnState.Returns | src/kuhn/kuhn_poker.py:215-229 | zeros before the end; winner gets pot minus its contribution, others lose theirs; the entries sum to 0 |
| KuhnPoker.KuhnState.InformationStateString | src/kuhn/kuhn_poker.py:231-258 | "Chance" for a negative player, the range error with checks on for p >= n, else the card digit plus one p/b per decision |
| KuhnPoker.KuhnState.AppendDecisions | src/kuhn/kuhn_poker.py:252-256 | the loop appends one 'b' or 'p' per decision entry |
| KuhnPoker.KuhnState.ChanceOutcomes | src/kuhn/kuhn_poker.py:260-266 | the error off a chance node with checks on; else each legal action with probability 1/k |
| KuhnPoker.KuhnState.Clone | src/kuhn/kuhn_poker.py:268-277 | a fresh state with fresh arrays and the same game value |
| KuhnPoker.CloneIsIndependent | src/kuhn/kuhn_poker.py:268-277 | apply_action on a clone moves the clone by Step, or by nothing when the checks reject the action, and leaves the original's state unchanged |
| KuhnPoker.KuhnPokerGame.Create | src/kuhn/kuhn_poker.py:282-296 | a game exactly when the config is valid (fresh, holding that config), else the ValueError of KuhnConfig |
| KuhnPoker.KuhnPokerGame.constructor | src/kuhn/kuhn_poker.py:282-296 | stores the config and its player count |
| KuhnPoker.KuhnPokerGame.NewInitialState | src/kuhn/kuhn_poker.py:298-299 | a fresh state equal to the rules' initial game of the config |
| GptKuhnPoker.MakeConfig | src/kuhn/gpt/kuhn_poker.py:14-27 | accepted exactly when 2 <= num_players <= 10 and ante == bet_size == 1; otherwise the ValueError |
| GptKuhnPoker.KuhnState.constructor | src/kuhn/gpt/kuhn_poker.py:55-59 | the rules' initial game: no owners, pot ante*n, contributions ante |
| GptKuhnPoker.KuhnState.CurrentPlayer | src/kuhn/gpt/kuhn_poker.py:66-75 | -2 when over, -1 while dealing, else len(history) mod n |
| GptKuhnPoker.KuhnState.IsTerminal | src/kuhn/gpt/kuhn_poker.py:63-64 | the rules' terminal test: a winner is recorded |
| GptKuhnPoker.KuhnState.IsChanceNode | src/kuhn/gpt/kuhn_poker.py:66-67 | the rules' chance test, false at a terminal state |
| GptKuhnPoker.KuhnState.LegalActions | src/kuhn/gpt/kuhn_poker.py:77-84 | the rules' legal actions (remaining cards ascending, or [PASS, BET]) |
| GptKuhnPoker.KuhnState.ChanceOutcomes | src/kuhn/gpt/kuhn_poker.py:86-92 | RuntimeError off a chance node; else at least two remaining cards, each with probability 1/k |
| GptKuhnPoker.KuhnState.ApplyAction | src/kuhn/gpt/kuhn_poker.py:94-101 | RuntimeError on a terminal state; otherwise dispatches and the new state is the rules' Step, or the first validation error with nothing changed |
| GptKuhnPoker.KuhnState.ApplyChance | src/kuhn/gpt/kuhn_poker.py:105-117 | an out-of-range or dealt card is an error; else the owner is the pre-append history length, the card is appended, no terminal check |
| GptKuhnPoker.KuhnState.ApplyDecision | src/kuhn/gpt/kuhn_poker.py:119-136 | a move other than PASS/BET is an error; a BET fixes the first bettor once and adds 1 to pot and contribution; the move is appended and the terminal check runs |
| GptKuhnPoker.KuhnState.MaybeSetTerminal | src/kuhn/gpt/kuhn_poker.py:138-166 | no-op while dealing; else sets the winner as Settle does, and raises only when the rule fires with no winner |
| GptKuhnPoker.KuhnState.DidBet | src/kuhn/gpt/kuhn_poker.py:168-188 | the rules' DidBet: index n+p or 2n+p, false outside the history |
| GptKuhnPoker.KuhnState.Returns | src/kuhn/gpt/kuhn_poker.py:190-202 | stakes 2 for a bettor and 1 otherwise; equal to the contribution-based returns on reachable states, and the entries sum to 0 |
| GptKuhnPoker.KuhnState.InformationStateString | src/kuhn/gpt/kuhn_poker.py:206-226 | ValueError for a player outside [0, n); else card digit plus p/b decisions |
| GptKuhnPoker.KuhnState.AppendDecisions | src/kuhn/gpt/kuhn_poker.py:222-225 | one 'b' or 'p' per action after the deals |
| GptKuhnPoker.KuhnGame.constructor | src/kuhn/gpt/kuhn_poker.py:229-231 | stores the validated config |
| GptKuhnPoker.KuhnGame.NewInitialState | src/kuhn/gpt/kuhn_poker.py:233-234 | a fresh state equal to the initial game |
| GeminiKuhnPoker.Rules | src/kuhn/gemini/kuhn_poker.py:12-14 | the fixed game: ante 1.0, bet 1.0, valid for two or more players |
| GeminiKuhnPoker.KuhnState.constructor | src/kuhn/gemini/kuhn_poker.py:22-38 | the initial game: no owners, pot 1.0*n, contributions 1.0 |
| GeminiKuhnPoker.KuhnState.CurrentPlayer | src/kuhn/gemini/kuhn_poker.py:40-50 | -2 when over, -1 while dealing, else len(history) mod n |
| GeminiKuhnPoker.KuhnState.IsChanceNode | src/kuhn/gemini/kuhn_poker.py:52-53 | the rules' chance test: the hand is not over and fewer than n cards are dealt |
| GeminiKuhnPoker.KuhnState.IsTerminal | src/kuhn/gemini/kuhn_poker.py:55-56 | the rules' terminal test: a winner is recorded |
| GeminiKuhnPoker.KuhnState.ApplyAction | src/kuhn/gemini/kuhn_poker.py:59-109 | without validation, under the precondition that the hand is not over and a dealt card is in range and undealt, the new state is the rules' Step with bet 1.0 |
| GeminiKuhnPoker.KuhnState.SettleHand | src/kuhn/gemini/kuhn_poker.py:82-109 | the terminal rule as Settle: top card holder without a bet, best betting card after one |
| GeminiKuhnPoker.KuhnState.DidBet | src/kuhn/gemini/kuhn_poker.py:111-135 | the list-indexed did_bet wherever the unguarded index history[n+p] exists (its precondition), a negative index read from the end |
| GeminiKuhnPoker.KuhnState.LegalActions | src/kuhn/gemini/kuhn_poker.py:137-150 | the rules' legal actions |
| GeminiKuhnPoker.KuhnState.Returns | src/kuhn/gemini/kuhn_poker.py:152-167 | stakes 2.0/1.0 by DidBet; equal to the contribution-based returns, entries sum to 0 |
| GeminiKuhnPoker.KuhnState.InformationStateString | src/kuhn/gemini/kuhn_poker.py:169-193 | the key of the current player: "Chance" at chance and terminal states, else card digit plus p/b decisions |
| GeminiKuhnPoker.KuhnState.AppendDecisions | src/kuhn/gemini/kuhn_poker.py:187-191 | one 'b' or 'p' per decision entry |
| GeminiKuhnPoker.KuhnState.ChanceOutcomes | src/kuhn/gemini/kuhn_poker.py:195-199 | uniform over the non-empty legal actions |
| GeminiKuhnPoker.KuhnState.Clone | src/kuhn/gemini/kuhn_poker.py:201-210 | a fresh state with fresh arrays and the same game value |
| GeminiKuhnPoker.CloneIsIndependent | src/kuhn/gemini/kuhn_poker.py:201-210 | apply_action on a clone moves the clone by Step and leaves the original's state unchanged |
| GeminiKuhnPoker.KuhnPokerGame.constructor | src/kuhn/gemini/kuhn_poker.py:215-216 | stores the player count |
| GeminiKuhnPoker.KuhnPokerGame.NewInitialState | src/kuhn/gemini/kuhn_poker.py:218-219 | a fresh initial state for that player count |
| KuhnRules.IndexedDidBetAgrees | src/kuhn/kuhn_poker.py:186-198 | for a nonnegative index, in particular every real player, the list-indexed did_bet is the position rule DidBet |
| KuhnRules.NegativeIdWraps | src/kuhn/kuhn_poker.py:193-197 | player id -7 with n = 2 reads history[-3]: the list-indexed did_bet answers true where the position rule answers false |
| KuhnRules.Act | src/kuhn/kuhn_poker.py:110-141 | the bookkeeping appends exactly the action and never sets the winner or resizes the tables |
| KuhnRules.ShowdownWinner | src/kuhn/kuhn_poker.py:148-170 | the named winner is NO_PLAYER or a card holder, one who bet when somebody bet |
| KuhnRules.Settle | src/kuhn/kuhn_poker.py:143-170 | the terminal check changes only the winner, and only when the rule fires, to a card holder |
| KuhnRules.Step | src/kuhn/kuhn_poker.py:110-170 | apply_action appends the action, and a hand it ends has the rule fired and a card holder as winner |
| KuhnRules.Returns | src/kuhn/kuhn_poker.py:215-229 | zeros before the end; then the winner gets pot minus its contribution and everybody else loses its contribution |
| KuhnRules.FixedStakeReturns | src/kuhn/gpt/kuhn_poker.py:190-204 | zeros before the end; then the winner gets pot minus its stake and everybody else loses its stake, 2 for a bettor and 1 otherwise |
| KuhnInvariant.UndealtBelowMembers | src/kuhn/kuhn_poker.py:205-211 | the chance actions are exactly the undealt cards, in strictly ascending order |
| KuhnInvariant.BestBettorFromSpec | src/kuhn/kuhn_poker.py:164-170 | the downward scan returns NO_PLAYER iff no owner of a card at or below the start did bet; otherwise the owner of the highest such card |
| KuhnInvariant.ShowdownFindsWinner | src/kuhn/kuhn_poker.py:145-170 | once dealt, the winner the terminal rule names is a real player |
| KuhnInvariant.InitialInv | src/kuhn/kuhn_poker.py:76-89 | the initial state satisfies the invariant (owners, stakes, pot == sum of contributions) |
| KuhnInvariant.DealStepInv | src/kuhn/kuhn_poker.py:118-128 | a deal keeps the invariant |
| KuhnInvariant.DealRecorded | src/kuhn/kuhn_poker.py:127-128 | a deal gives the card to the next player and removes it from the undealt cards |
| KuhnInvariant.DecisionDidBet | src/kuhn/kuhn_poker.py:134-141 | after a decision DidBet changes only for the actor, and only on a BET by one who had not bet |
| KuhnInvariant.DecisionStepShape | src/kuhn/kuhn_poker.py:130-141 | a decision keeps the shape of the owner table and the betting layout |
| KuhnInvariant.DecisionKeepsDeals | src/kuhn/kuhn_poker.py:130-141 | a decision leaves the card table and the recorded deals unchanged |
| KuhnInvariant.DecisionBetting | src/kuhn/kuhn_poker.py:134-136 | after a decision the first bet is still where the betting order allows it |
| KuhnInvariant.DecisionStepStakes | src/kuhn/kuhn_poker.py:134-138 | a decision keeps each contribution at ante or ante + bet_size as DidBet says, and pot == sum of contributions |
| KuhnInvariant.SettleInv | src/kuhn/kuhn_poker.py:143-170 | the terminal check keeps the invariant |
| KuhnInvariant.WinnerKeepsShape | src/kuhn/kuhn_poker.py:148-170 | recording the winner changes neither the deals, nor the betting, nor the stakes |
| KuhnInvariant.DecisionStepInv | src/kuhn/kuhn_poker.py:130-170 | a decision keeps the invariant |
| KuhnInvariant.StepInv | src/kuhn/kuhn_poker.py:110-170 | every apply_action keeps the invariant and appends exactly one entry |
| KuhnInvariant.HistoryBound | src/kuhn/kuhn_poker.py:145-170 | the history never exceeds 3n - 1 entries and is shorter while the hand goes on |
| KuhnInvariant.DealComplete | src/kuhn/kuhn_poker.py:118-128 | after dealing exactly one card is undealt, the owners are players 0..n-1, and history[p] is the card dealt to p |
| KuhnInvariant.PayoutsSum | src/kuhn/kuhn_poker.py:220-229 | the payoff vector sums to pot minus the stakes when the winner is a player |
| KuhnInvariant.ReturnsZeroSum | src/kuhn/kuhn_poker.py:215-229 | returns sum to 0 on every reachable state |
| KuhnInvariant.FixedStakeReturnsAgree | src/kuhn/gpt/kuhn_poker.py:190-202 | with ante and bet 1 the 2/1 stakes equal the recorded contributions, so the fixed-stake returns equal the general ones and sum to 0 |
| KuhnInvariant.WinnerHoldsBestBettingCard | src/kuhn/kuhn_poker.py:157-170 | after a bet the winner did bet and holds the highest card among the bettors |
| KuhnInvariant.WinnerHoldsTopCard | src/kuhn/kuhn_poker.py:147-155 | without a bet the winner holds the highest dealt card |
| KuhnInvariant.LegalActionsSpec | src/kuhn/kuhn_poker.py:200-213 | no actions iff terminal; at chance nodes n+1-len(history) >= 2 ascending undealt cards; else [PASS, BET] |
| KuhnInvariant.UniformIsDistribution | src/kuhn/kuhn_poker.py:260-266 | each outcome has probability 1/k and they sum to 1 |
| KuhnInvariant.InitialReachable | src/kuhn/kuhn_poker.py:298-299 | the initial state is reachable |
| KuhnInvariant.ReachableStep | src/kuhn/kuhn_poker.py:110-170 | an allowed action keeps a state reachable |
| KuhnInvariant.ReachableInv | src/kuhn/kuhn_poker.py:110-170 | every reachable state satisfies the invariant |
| KuhnInvariant.ReachableDealIsAct | src/kuhn/gpt/kuhn_poker.py:113-117 | a deal never ends the hand: the terminal check after it changes nothing |
| KuhnInvariant.ReachableShowdownFindsWinner | src/kuhn/gpt/kuhn_poker.py:153-166 | the "No winner found" raises are unreachable from valid play |
| KuhnInvariant.ReachableBounds | src/kuhn/kuhn_poker.py:80-89 | owners and the first bettor are NO_PLAYER or a player index |
| InfoState.KeyIdentifiesInformation | src/kuhn/kuhn_poker.py:231-258 | two keys of a player are equal iff the card presence, the card and the public betting agree |
| InfoState.Key | src/kuhn/kuhn_poker.py:239-240 | "Chance" for a negative player |
| InfoState.KeyParts | src/kuhn/kuhn_poker.py:244-258 | a player's key is its card in decimal (nothing while it has no card) followed by one character per decision after the deals |
| InfoState.BetStringIdentifiesBets | src/kuhn/kuhn_poker.py:254-256 | two betting strings are equal iff the histories have equal length and BET at the same places |
| InfoState.NatToStringInjective | src/kuhn/kuhn_poker.py:249-250 | different cards give different digit strings |
| Regrets.NewNode | src/kuhn/vanilla_cfr.py:17-20 | a new node has zero vectors of the action count |
| Regrets.RegretMatchingPositive | src/kuhn/vanilla_cfr.py:24-27 | with a positive regret the normalising sum is positive and the strategy is the positive part over that sum, a distribution |
| Regrets.RegretMatchingProportional | src/kuhn/vanilla_cfr.py:24-27 | with a positive regret each action's probability times the normalising sum gives back max(regret, 0): the strategy is proportional to the clipped regrets |
| Regrets.RegretMatchingNonPositive | src/kuhn/vanilla_cfr.py:28-29 | with no positive regret the strategy is uniform |
| Regrets.RegretMatchingIsDistribution | src/kuhn/vanilla_cfr.py:22-30 | the strategy is nonnegative and sums to 1, same length as the regrets |
| Regrets.EntryAtMostSum | src/kuhn/vanilla_cfr.py:22-30 | no entry of a nonnegative vector exceeds its sum, so no probability exceeds 1 |
| Regrets.ReachStaysInRange | src/kuhn/vanilla_cfr.py:80-86 | a child's reach, reach times a regret-matching probability, lies between 0 and the parent's reach |
| Regrets.RegretMatchingAt | src/kuhn/kuhn_cfr_flow.py:43-48 | each entry is the positive regret over the sum, or 1/k when the sum is not positive |
| Regrets.GetStrategySpec | src/kuhn/vanilla_cfr.py:22-33 | regrets untouched, strategy replaced by the regret-matching distribution, strategy_sum grows by weight in total and never decreases for weight >= 0 |
| Regrets.AccumulateDistribution | src/kuhn/vanilla_cfr.py:31-32 | adding a distribution weighted by w to strategy_sum adds w to its total, and no entry decreases when w >= 0 |
| Regrets.AverageStrategySpec | src/kuhn/vanilla_cfr.py:35-40 | the average has one entry per action, sums to 1, and is a distribution when strategy_sum is nonnegative |
| Regrets.AverageFallback | src/kuhn/vanilla_cfr.py:40 | a total <= 0 gives the uniform vector |
| Regrets.AveragePositive | src/kuhn/vanilla_cfr.py:37-39 | a positive total gives strategy_sum / total, summing to 1, each entry times the total giving back strategy_sum |
| Regrets.AverageNonnegative | src/kuhn/vanilla_cfr.py:37-39 | with nonnegative entries and a positive total the average is a distribution |
| Regrets.RegretIncrementsCancel | src/kuhn/vanilla_cfr.py:92-94 | the strategy-weighted sum of the regret increments is 0 |
| Regrets.AccumulateRegrets | src/kuhn/kuhn_cfr_flow.py:139-145 | the loop adds (util[a] - node_util) * opponent reach to each regret |
| CfrNodes.CFRNode.constructor | src/kuhn/vanilla_cfr.py:17-20 | zero regret, strategy sum and strategy |
| CfrNodes.CFRNode.GetStrategy | src/kuhn/vanilla_cfr.py:22-33 | returns and stores the regret-matching distribution, adds strategy * weight to strategy_sum, regrets untouched, sums grow for weight >= 0 (identical in gemini/cfr_backend.py:14-25) |
| CfrNodes.CFRNode.GetAverageStrategy | src/kuhn/vanilla_cfr.py:35-40 | the average strategy, summing to 1, node unchanged (identical in gemini/cfr_backend.py:27-32) |
| CfrTree.HistoryLimit | src/kuhn/kuhn_poker.py:145-170 | a two-player history has at most 5 entries and fewer while the hand goes on: the recursion's measure |
| CfrTree.ChanceOutcomesStep | src/kuhn/vanilla_cfr.py:62-67 | every chance outcome is an allowed deal |
| CfrTree.Child | src/kuhn/vanilla_cfr.py:82-83 | the cloned and advanced state is the rules' Step and stays reachable |
| CfrTree.CfrValue | src/kuhn/vanilla_cfr.py:58-96 | one _cfr call keeps every node's vectors of length 2 and never removes a node |
| CfrTree.TrainStepTable | src/kuhn/vanilla_cfr.py:53-56 | a train step from the initial state with reaches 1.0 keeps the table well formed and growing |
| CfrTree.ChanceChildren | src/kuhn/vanilla_cfr.py:65-68 | the values of the first n chance outcomes, the table threaded through |
| CfrTree.ChanceFinish | src/kuhn/vanilla_cfr.py:62-69 | the chance value is the probability-weighted sum over all outcomes with reaches unchanged |
| CfrTree.ChildValue | src/kuhn/vanilla_cfr.py:82-88 | the child's value with only the actor's reach scaled, negated for player 1 |
| CfrTree.DecisionChildren | src/kuhn/vanilla_cfr.py:81-90 | the action values in PASS, BET order |
| CfrTree.DecisionValue | src/kuhn/vanilla_cfr.py:71-96 | the node update at a decision keeps the table well formed |
| CfrTree.DecisionResult | src/kuhn/vanilla_cfr.py:71-96 | the decision value is Σ strategy·util in player 0's frame, and the table gets regrets += (util - node_util) * opponent reach at the key |
| VanillaCfr.CFRSolver.constructor | src/kuhn/vanilla_cfr.py:44-46 | the default game and an empty table |
| VanillaCfr.CFRSolver.GetNode | src/kuhn/vanilla_cfr.py:48-51 | a zero node is inserted only for an absent key; an existing node is returned and the table is unchanged |
| VanillaCfr.CFRSolver.TrainStep | src/kuhn/vanilla_cfr.py:53-56 | the table becomes the one a full traversal from the initial state produces |
| VanillaCfr.CFRSolver.Cfr | src/kuhn/vanilla_cfr.py:58-96 | returns and leaves the table as CfrValue says; at a terminal state returns()[0] |
| VanillaCfr.CFRSolver.Visit | src/kuhn/vanilla_cfr.py:66-68 | clone, apply and recurse give CfrValue of the child |
| VanillaCfr.CFRSolver.ChanceNode | src/kuhn/vanilla_cfr.py:62-69 | the loop computes the chance value of CfrValue |
| VanillaCfr.CFRSolver.WalkOutcomes | src/kuhn/vanilla_cfr.py:64-68 | the loop over the outcomes gives the probability-weighted sum of the children's values, and the table they thread in order |
| VanillaCfr.CFRSolver.DecisionNode | src/kuhn/vanilla_cfr.py:71-96 | the decision value and table of CfrValue |
| VanillaCfr.CFRSolver.StartDecision | src/kuhn/vanilla_cfr.py:72-76 | the key, the node created lazily, and the strategy with the actor's reach added |
| VanillaCfr.CFRSolver.FinishDecision | src/kuhn/vanilla_cfr.py:92-94 | only the key's regrets change, by the opponent-weighted increments |
| VanillaCfr.CFRSolver.WalkActions | src/kuhn/vanilla_cfr.py:81-90 | the loop's utilities are the action values and node_util is Σ strategy·util |
| VanillaCfr.CFRSolver.ActionValue | src/kuhn/vanilla_cfr.py:82-88 | one iteration extends the action values by one |
| VanillaCfr.CFRSolver.GetSnapshot | src/kuhn/vanilla_cfr.py:98-112 | exactly the table's keys, each with the average strategy, the regrets and the current strategy |
| GeminiCfrBackend.CFRSolver.constructor | src/kuhn/gemini/cfr_backend.py:36-38 | the default two-player game and an empty table |
| GeminiCfrBackend.CFRSolver.GetNode | src/kuhn/gemini/cfr_backend.py:40-43 | lazy creation; an existing key is returned unchanged |
| GeminiCfrBackend.CFRSolver.TrainStep | src/kuhn/gemini/cfr_backend.py:45-48 | the table after a full traversal with reaches 1.0 |
| GeminiCfrBackend.CFRSolver.Cfr | src/kuhn/gemini/cfr_backend.py:50-88 | over the unvalidated state, returns and leaves the table as CfrValue says |
| GeminiCfrBackend.CFRSolver.Visit | src/kuhn/gemini/cfr_backend.py:58-60 | clone, apply and recurse give CfrValue of the child |
| GeminiCfrBackend.CFRSolver.ChanceNode | src/kuhn/gemini/cfr_backend.py:54-61 | the uniform enumeration of chance outcomes |
| GeminiCfrBackend.CFRSolver.WalkOutcomes | src/kuhn/gemini/cfr_backend.py:56-60 | the loop over the outcomes gives the probability-weighted sum of the children's values, and the table they thread in order |
| GeminiCfrBackend.CFRSolver.DecisionNode | src/kuhn/gemini/cfr_backend.py:63-88 | the decision value in player 0's frame and the regret update |
| GeminiCfrBackend.CFRSolver.StartDecision | src/kuhn/gemini/cfr_backend.py:64-68 | key, lazy node, strategy with the actor's reach |
| GeminiCfrBackend.CFRSolver.FinishDecision | src/kuhn/gemini/cfr_backend.py:84-86 | opponent-weighted regret increments at the key only |
| GeminiCfrBackend.CFRSolver.WalkActions | src/kuhn/gemini/cfr_backend.py:73-82 | action values with only the actor's reach scaled, player 1 negated; node_util = Σ strategy·util |
| GeminiCfrBackend.CFRSolver.ActionValue | src/kuhn/gemini/cfr_backend.py:74-80 | one iteration extends the action values by one |
| GeminiCfrBackend.CFRSolver.GetSnapshot | src/kuhn/gemini/cfr_backend.py:90-104 | the snapshot of every table key |
| KuhnCfrFlow.PositiveLoop | src/kuhn/kuhn_cfr_flow.py:37-41 | the first loop stores max(regret, 0) and sums it |
| KuhnCfrFlow.NormaliseLoop | src/kuhn/kuhn_cfr_flow.py:43-51 | the second loop yields the regret-matching strategy and adds weight * strategy to strategy_sum |
| KuhnCfrFlow.StrategyLoop | src/kuhn/kuhn_cfr_flow.py:37-51 | both loops together compute the node after get_strategy |
| KuhnCfrFlow.AverageLoop | src/kuhn/kuhn_cfr_flow.py:62-69 | the loop computes the average strategy |
| KuhnCfrFlow.KuhnNode.constructor | src/kuhn/kuhn_cfr_flow.py:12-25 | stores the key, zero vectors of length 2 |
| KuhnCfrFlow.KuhnNode.GetStrategy | src/kuhn/kuhn_cfr_flow.py:27-53 | returns and stores the regret-matching distribution; strategy_sum[a] grows by weight * strategy[a] |
| KuhnCfrFlow.KuhnNode.GetAverageStrategy | src/kuhn/kuhn_cfr_flow.py:55-69 | the average strategy, summing to 1 |
| KuhnCfrFlow.FlowNext | src/kuhn/kuhn_cfr_flow.py:149-170 | a history that is not over has at most 2 moves, and either move extends it to a history of the hand |
| KuhnCfrFlow.FlowValue | src/kuhn/kuhn_cfr_flow.py:84-147 | one cfr call keeps every node of length 2 and never removes a node |
| KuhnCfrFlow.FlowDecision | src/kuhn/kuhn_cfr_flow.py:102-147 | the node update keeps the table well formed |
| KuhnCfrFlow.FlowChildren | src/kuhn/kuhn_cfr_flow.py:115-136 | the negated action values in p, b order |
| KuhnCfrFlow.FlowChild | src/kuhn/kuhn_cfr_flow.py:116-133 | one child visited with only the actor's reach scaled |
| KuhnCfrFlow.FlowDecisionResult | src/kuhn/kuhn_cfr_flow.py:102-147 | cfr returns Σ strategy·util in the actor's frame and adds opponent reach × (util - node_utility) to the key's regrets |
| KuhnCfrFlow.KuhnCFRTrainer.constructor | src/kuhn/kuhn_cfr_flow.py:73-74 | an empty node map |
| KuhnCfrFlow.KuhnCFRTrainer.Cfr | src/kuhn/kuhn_cfr_flow.py:84-147 | returns and leaves the node map as FlowValue says: the terminal utility at a hand's end, else the decision update |
| KuhnCfrFlow.KuhnCFRTrainer.DecisionNode | src/kuhn/kuhn_cfr_flow.py:102-147 | the decision value and table of FlowValue |
| KuhnCfrFlow.KuhnCFRTrainer.StartNode | src/kuhn/kuhn_cfr_flow.py:102-109 | key str(card)+history, node created on first visit, strategy with the actor's reach |
| KuhnCfrFlow.KuhnCFRTrainer.FinishNode | src/kuhn/kuhn_cfr_flow.py:139-145 | only the key's regrets change, by opponent reach × regret |
| KuhnCfrFlow.KuhnCFRTrainer.WalkActions | src/kuhn/kuhn_cfr_flow.py:115-136 | the action utilities and node_utility = Σ strategy·util |
| KuhnCfrFlow.KuhnCFRTrainer.ActionValue | src/kuhn/kuhn_cfr_flow.py:115-136 | one iteration extends the action utilities by one |
| KuhnCfrFlow.KuhnCFRTrainer.Visit | src/kuhn/kuhn_cfr_flow.py:116-133 | the recursive call on the longer history with the actor's reach scaled |
| FlowAgreement.DealGame | src/kuhn/kuhn_cfr_flow.py:79-81 | dealing two distinct cards from the initial game gives the hand before any move |
| FlowAgreement.HandStep | src/kuhn/kuhn_cfr_flow.py:116 | appending 'p' or 'b' is the rules' Step with PASS or BET |
| FlowAgreement.HandPlay | src/kuhn/kuhn_cfr_flow.py:84-94 | every history of a hand is the reachable rules game after those deals and moves |
| FlowAgreement.HandTerminal | src/kuhn/kuhn_cfr_flow.py:149-170 | get_terminal_utility is Some iff the rules' game is over, and then equals the return of the player to move |
| FlowAgreement.HandKey | src/kuhn/kuhn_cfr_flow.py:93-102 | at a decision the actor is len(history) mod 2 and the key equals the information-state string |
| FlowAgreement.ReturnsOpposite | src/kuhn/kuhn_poker.py:215-229 | in the two-player game player 1's return is minus player 0's |
| FlowAgreement.FlowAgrees | src/kuhn/kuhn_cfr_flow.py:84-147 | the flow trainer's cfr leaves the same table as the full-tree _cfr, with the value equal for player 0 and negated for player 1 |
| FlowAgreement.FlowChildrenAgree | src/kuhn/kuhn_cfr_flow.py:115-136 | the action loops of both trainers agree step by step |
| FlowAgreement.ChildAgrees | src/kuhn/kuhn_cfr_flow.py:116-133 | one child: same table, value negated into the actor's frame |
| FlowAgreement.PassBetFoldScenario | src/kuhn/kuhn_poker.py:215-229 | cards 0 and 2, then pbp: returns [-1, +1], and the flow utility of player 1 is +1 |
| FlowAgreement.PassPassScenario | src/kuhn/kuhn_poker.py:215-229 | cards 0 and 2, then pp: returns [-1, +1], and the flow utility of player 0 is -1 |

## Left out

- The node tables of `CFRSolver` and `KuhnCFRTrainer` are maps from keys to node values. A node update replaces the key's entry. The Python objects are shared and mutated in place, and that aliasing is not modelled. The `CFRNode` and `KuhnNode` classes themselves are modelled with in-place fields.
- The flow table's values do not hold `KuhnNode.key`, because it always equals the map key.
- `KuhnCFRTrainer.train` is left out: it deals by `random.sample` and loops over iterations. `print_results` is also left out, because it only prints. `Cfr` takes the two cards as a parameter instead.
- The vanilla CLI and logging are left out (`_format_strategy`, `_log_snapshot`, `_parse_args`, `main`), as are the streamlit app, the plotting module and the calculate_alpha drivers.
- IEEE floating point and numpy semantics are left out. Every amount, probability, regret and utility is an exact `real`. The gpt implementation's integer pot and stakes are reals too.
- KuhnCfrFlow.KuhnCFRTrainer.Cfr: requires a history the hand can reach from `""`. From any other history `get_terminal_utility` never matches, so the recursion does not end.
- VanillaCfr.CFRSolver.Cfr: specified for the solver's own default game (two players, ante and bet 1.0, no checks), which is the only game it builds. The same holds for GeminiCfrBackend.CFRSolver.Cfr.
- CfrTree.CfrValue: does not require reaches in [0, 1], because `_cfr` accepts any reaches. Regrets.ReachStaysInRange proves that each child's reach stays between 0 and its parent's, so reaches that start at 1.0 stay in [0, 1].
- KuhnPoker.KuhnState.ApplyAction: with checks off it requires an allowed action (hand not over, a dealt card in range and undealt). Otherwise the source acts on a finished hand or indexes `card_dealt` out of range, where Python's negative indices wrap; the model does not follow those paths.
- GeminiKuhnPoker.KuhnState.ApplyAction: requires an allowed action for the same reason, since this implementation validates nothing.
- GeminiKuhnPoker.KuhnState.DidBet: requires the unguarded index `n + player` to exist, where the source raises IndexError, and a negative index to be at least `-len(history)`. Every call from the terminal check and from `returns` meets it.
- KuhnPoker.KuhnState.DidBet: requires a negative index to be at least `-len(history)`, where the source raises IndexError; only a player id below -2n - len(history) reaches it.
- GeminiKuhnPoker.KuhnState.constructor: requires at least two players. The source validates nothing and would play a one-player hand; every caller passes the default of two. The same holds for GeminiKuhnPoker.KuhnPokerGame.NewInitialState.
- KuhnPoker.KuhnState.ChanceOutcomes: with checks off it requires a hand that is not over. At a terminal state the source divides by the length of an empty list. The same holds for GeminiKuhnPoker.KuhnState.ChanceOutcomes.
- The general-n game lemmas cover the betting structure of the code. End-to-end facts about the solvers are stated for two players only.
