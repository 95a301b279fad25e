# Iterated Prisoner's Dilemma: a verified model of the match engine and tournament

This project models the core of a Python simulator of the Iterated Prisoner's
Dilemma and proves properties of the model:
- the payoff table;
- bit-flip noise;
- the built-in strategies (ALLC, ALLD, TFT, TF2T, GRIM, PAVLOV, RAND, GTFT);
- the player, with its own random generator;
- the round loop of `IteratedMatch.play`;
- the round-robin tournament and its leaderboard;
- the three aggregation helpers: `metrics.aggregate`, `evo.replicator_step` and `analyze_results.cooperation_histogram`.

Principles of the model:
- **State modelled as objects.** The source's stateful objects are Dafny
  classes whose methods change their fields: `Rng`, `Memory`, `Strategy`,
  `Player`, `MatchLog`, `IteratedMatch` and `RoundRobinTournament`.
- **Pure specifications.** Every method is proved equal to a pure function
  of the old state:
  - the strategies: `ResetOf`, `FirstMoveOf`, `NextMoveOf`;
  - noise: `Noise.ApplyOf`;
  - one match: `Continue`, `Round`, `Run`, `PlayOf`;
  - the tournament: `Step`, `Exec`;
  - the replicator step: `NextPopulation`.

  The properties the program promises are lemmas about those functions.
- **Random generators.** A `random.Random` generator is an infinite stream of
  draws in [0, 1) plus a cursor. `random()` reads the draw under the cursor
  and advances the cursor by one. Re-seeding with the constructing seed moves
  the cursor back to 0.
- **Seeds.** Which stream a seed names, and which stream an unseeded
  generator gets from system entropy, comes from a caller-supplied
  `Randomness` value.
- **Numbers.** Payoffs, probabilities and rates are exact `real`s.
- **Actions.** An action is a `string`, as in the source. `Move` is the
  subtype holding "C" and "D", so the `ValueError` path of `payoff` stays in
  the model.

Modules:
- `Wrappers`;
- `Sums`: `sum` and `list.count`;
- `Streams`;
- `Protocol`: `strategy.py`;
- `NoiseModel`;
- `Strategies`: `base.py`, `simple.py`, `probabilistic.py`, and `StrategyLaws`, the lemmas about them;
- `Players`;
- `Game`, and `GameLaws`, the lemmas about one match;
- `Tournament`, and `TournamentLaws`, the lemmas about a run;
- `Metrics`;
- `Evolution`;
- `Analysis`.

## Replaying a match

Re-running an `IteratedMatch` with explicitly seeded players does not always
reproduce its log:
- `play()` resets the players, and a seeded player re-seeds its own
  generator.
- The match's own generator (`self._rng`, `prisoners_dilemma/pd_core/game.py`
  line 104) is created once, in the constructor, and is never re-seeded.
- That generator supplies the noise draws and the continuation draws.

So a second `play()` repeats the first only when the match itself draws
nothing. The model follows the code:
- `GameLaws.ReplayedMatchRepeatsLog` proves the repetition when there is no
  noise and a fixed number of rounds.
- `GameLaws.ReplayedNoisyMatchDiffers` gives a noisy one-round match whose
  second play differs from its first.

The tournament builds a fresh match, with seed `seed + rep`, for every
fixture, so a seeded tournament of seeded players is reproducible
(`TournamentLaws.SeededRunReplays`).

## Model

| member | source | states |
|---|---|---|
| Streams.Rng.constructor | prisoners_dilemma/pd_core/player.py:32-33 | a new generator stands at the start (cursor 0) of the sequence it is built on; which sequence that is, is fixed by the builders below through `GeneratorStream` |
| Streams.Rng.Random | prisoners_dilemma/pd_core/noise.py:24 | `random()` returns the draw under the cursor and advances the cursor by exactly one |
| Streams.Rng.Reseed | prisoners_dilemma/pd_core/player.py:49-50 | re-seeding with the constructing seed returns to the start of that seed's stream |
| Streams.SameSeedSameSequence | prisoners_dilemma/pd_core/utils.py:9-12 | `random.Random(seed)` with an explicit seed yields the same sequence wherever and whenever it is built; only an unseeded generator depends on which entropy draw it gets |
| Protocol.Memory.constructor | prisoners_dilemma/pd_core/strategy.py:38-47 | the memory holds exactly the history it is given |
| Protocol.Memory.Append | prisoners_dilemma/pd_core/strategy.py:49-50 | the history grows by the pair (mine, opp) at its end; the earlier entries are unchanged, and `last()` then returns that pair |
| Protocol.Memory.Last | prisoners_dilemma/pd_core/strategy.py:52-53 | None exactly when the history is empty, otherwise its last pair |
| NoiseModel.Flip | prisoners_dilemma/pd_core/noise.py:11-12 | `flip` always returns "C" or "D", and on a valid action returns the other one |
| NoiseModel.FlipInvolution | prisoners_dilemma/pd_core/noise.py:11-12 | flipping a valid action twice gives it back, and a flip always changes a valid action |
| NoiseModel.Noise.ApplyOf | prisoners_dilemma/pd_core/noise.py:21-26 | with epsilon <= 0 the action is unchanged and no draw is taken; otherwise exactly one draw is taken and the action flips iff the draw is <= epsilon; with epsilon >= 1 it always flips; valid actions stay valid |
| NoiseModel.Noise.Apply | prisoners_dilemma/pd_core/noise.py:21-26 | the action returned and the generator's new cursor are those of `ApplyOf` |
| Strategies.CheckKind | prisoners_dilemma/strategies/probabilistic.py:14-29 | a RAND or GTFT probability outside [0, 1] is rejected with the source's `ValueError` message; every other parameter passes |
| Strategies.NameOf | prisoners_dilemma/strategies/simple.py:14-15 | every strategy has a non-empty name ("ALLC", "ALLD", "TFT", "TF2T", "GRIM", "PAVLOV", "RAND(p)", "GTFT(p)") |
| Strategies.ResetOf | prisoners_dilemma/strategies/simple.py:51-74 | a reset brings every well-formed strategy back to its initial fields |
| Strategies.FirstMoveOf | prisoners_dilemma/strategies/simple.py:37-78 | the first move is always "C" or "D" and keeps the strategy well formed |
| Strategies.NextMoveOf | prisoners_dilemma/strategies/simple.py:17-97 | given valid or absent previous actions, the next move is "C" or "D" and keeps the strategy well formed |
| Strategies.Strategy.constructor | prisoners_dilemma/strategies/probabilistic.py:14-18 | a validated strategy starts with its initial fields and the name of its kind |
| Strategies.Strategy.Create | prisoners_dilemma/strategies/probabilistic.py:14-31 | construction fails exactly when `CheckKind` reports an error, with that error; otherwise it gives a fresh strategy in its initial state |
| Strategies.Strategy.Reset | prisoners_dilemma/strategies/simple.py:51-74 | the new fields are `ResetOf` the old ones |
| Strategies.Strategy.FirstMove | prisoners_dilemma/strategies/simple.py:54-78 | the action, the new fields and the generator's cursor are those of `FirstMoveOf` |
| Strategies.Strategy.NextMove | prisoners_dilemma/strategies/simple.py:58-97 | the action, the new fields and the generator's cursor are those of `NextMoveOf` |
| Strategies.Strategy.Record | prisoners_dilemma/strategies/base.py:35-36 | only the memory-one last action changes, to the recorded one |
| StrategyLaws.ConstantStrategies | prisoners_dilemma/strategies/simple.py:11-28 | ALLC always plays "C" and ALLD always "D", without drawing and without changing state |
| StrategyLaws.StatelessFirstMoveDelegates | prisoners_dilemma/strategies/base.py:18-19 | for the strategies that do not override it, the first move is `next_move(None, None)` |
| StrategyLaws.StatelessResetKeepsState | prisoners_dilemma/strategies/base.py:15-16 | the stateless reset changes nothing |
| StrategyLaws.TitForTatMirrors | prisoners_dilemma/strategies/simple.py:31-41 | TFT opens with "C" and then plays the opponent's last action ("C" when there is none) |
| StrategyLaws.TitForTwoTatsRestart | prisoners_dilemma/strategies/simple.py:51-56 | reset and the first move clear the TF2T streak; the first move is "C" |
| StrategyLaws.TitForTwoTatsStreak | prisoners_dilemma/strategies/simple.py:58-62 | over any sequence of observations, the streak equals the number of trailing opponent defections, and no draw is taken |
| StrategyLaws.TitForTwoTatsNeedsTwoDefections | prisoners_dilemma/strategies/simple.py:44-63 | TF2T defects at step i iff the opponent defected at steps i-1 and i |
| StrategyLaws.GrimTriggerRestart | prisoners_dilemma/strategies/simple.py:73-78 | reset and the first move clear the GRIM flag; the first move is "C" |
| StrategyLaws.GrimTriggerFlag | prisoners_dilemma/strategies/simple.py:80-82 | the flag is set iff the opponent has defected at least once |
| StrategyLaws.GrimTriggerNeverForgives | prisoners_dilemma/strategies/simple.py:66-83 | GRIM defects at step i iff the opponent defected at some step up to i |
| StrategyLaws.PavlovWinStayLoseShift | prisoners_dilemma/strategies/simple.py:86-97 | PAVLOV opens with "C"; with a missing previous action it plays "C"; it repeats its action after equal actions and switches after unequal ones; it never draws or changes state |
| StrategyLaws.RandomStrategyDraws | prisoners_dilemma/strategies/probabilistic.py:20-21 | RAND takes exactly one draw per decision, its first move included, and cooperates iff the draw is <= p |
| StrategyLaws.RandomStrategyExtremes | prisoners_dilemma/strategies/probabilistic.py:20-21 | RAND(1) always cooperates; RAND(0) defects unless the draw is exactly 0 |
| StrategyLaws.GenerousFirstMove | prisoners_dilemma/strategies/probabilistic.py:33-34 | GTFT opens with "C" without drawing |
| StrategyLaws.GenerousTitForTatForgives | prisoners_dilemma/strategies/probabilistic.py:36-39 | GTFT mirrors a non-defection without drawing; after a defection it takes one draw and forgives iff the draw is <= forgive_p, so with forgive_p >= 1 it always forgives |
| Players.ResetAgent | prisoners_dilemma/pd_core/player.py:45-50 | reset resets the strategy; the generator rewinds iff the player was given a seed |
| Players.DisplayNameOf | prisoners_dilemma/pd_core/player.py:41-43 | the explicit name when it is given and non-empty, else the strategy's name |
| Players.FirstMoveAgent | prisoners_dilemma/pd_core/player.py:52-53 | a player's first move is always "C" or "D", keeps its strategy well formed, and takes at most one draw from its own generator |
| Players.NextMoveAgent | prisoners_dilemma/pd_core/player.py:55-56 | given valid or absent previous actions, the next move is "C" or "D", keeps the strategy well formed, and takes at most one draw |
| Players.SeededResetRestarts | prisoners_dilemma/pd_core/player.py:45-50 | a seeded, well-formed player is back at its initial fields and at the start of its stream after reset, whatever it did before |
| Players.Player.constructor | prisoners_dilemma/pd_core/player.py:27-33 | the player keeps its strategy, name and seed and owns a fresh generator at cursor 0 on `random.Random(seed)`'s sequence: the one the seed names, so equal seeds give equal sequences, or an entropy sequence without a seed |
| Players.Player.DisplayName | prisoners_dilemma/pd_core/player.py:41-43 | the player's explicit name when it is given and non-empty, else its strategy's name |
| Players.Player.Reset | prisoners_dilemma/pd_core/player.py:45-50 | the player's state after the call is `ResetAgent` of its state before |
| Players.Player.FirstMove | prisoners_dilemma/pd_core/player.py:52-53 | the strategy decides on the player's own generator |
| Players.Player.NextMove | prisoners_dilemma/pd_core/player.py:55-56 | the strategy gets (my_last, opp_last) in that order, on the player's own generator |
| Game.PayoffMatrix.Payoff | prisoners_dilemma/pd_core/game.py:27-36 | a `ValueError` with the source's message iff an action is not "C" or "D"; otherwise the table entry, (R,R), (S,T), (T,S) or (P,P) |
| Game.PayoffSwap | prisoners_dilemma/pd_core/game.py:27-36 | swapping the two actions swaps the two payoffs |
| Game.PayoffWithinTable | prisoners_dilemma/pd_core/game.py:27-36 | every payoff handed out lies between the table's smallest and largest entry |
| Game.Log.Append | prisoners_dilemma/pd_core/game.py:46-50 | appending keeps the four lists aligned and adds one round |
| Game.CooperationRate | prisoners_dilemma/pd_core/game.py:62-66 | the number of "C" in a list over the log's round count: 0 when no round was played, never negative, rate * rounds = the number of "C", and at most 1 when the list is no longer than the round count |
| Game.MatchLog.constructor | prisoners_dilemma/pd_core/game.py:107 | a new log is empty |
| Game.MatchLog.Append | prisoners_dilemma/pd_core/game.py:46-50 | each of the four lists grows by its value at the end |
| Game.MatchLog.Rounds | prisoners_dilemma/pd_core/game.py:58-60 | the number of rounds is the length of A's action list |
| Game.MatchLog.CooperationRateA | prisoners_dilemma/pd_core/game.py:58-63 | A's number of "C" over `rounds` (the length of A's list): 0 for an empty log, rate * rounds = A's number of "C", always in [0, 1] |
| Game.MatchLog.CooperationRateB | prisoners_dilemma/pd_core/game.py:58-66 | B's number of "C" over `rounds`, which is the length of A's list: 0 when A's list is empty, rate * rounds = B's number of "C", never negative, and at most 1 once the four lists are aligned (on an unaligned log the source's value can exceed 1, and so can the model's) |
| Game.MatchLog.AsRows | prisoners_dilemma/pd_core/game.py:52-56 | one row per round, holding (index, a, b, pa, pb) of that round |
| Game.CheckTermination | prisoners_dilemma/pd_core/game.py:93-96 | the match is accepted iff continuation_prob is absent or in [0, 1), and n_rounds or continuation_prob is given; each rejection carries the source's message |
| Game.Perturb | prisoners_dilemma/pd_core/game.py:142-145 | without a noise object the action is unchanged and nothing is drawn; valid actions stay valid |
| Game.Continue | prisoners_dilemma/pd_core/game.py:133-140 | another round only below the round limit; round 0 is played iff n_rounds is absent or positive, without a draw; a draw is taken only from round 1 on and only with a continuation probability, and then exactly one |
| Game.ContinueWithinLimit | prisoners_dilemma/pd_core/game.py:133-140 | `_continue` never allows a round at or past n_rounds (or the horizon) |
| Game.Round | prisoners_dilemma/pd_core/game.py:116-127 | one pass of the loop body keeps the log aligned and adds exactly one round |
| Game.Run | prisoners_dilemma/pd_core/game.py:115-128 | the loop from round k on keeps an aligned log of k rounds aligned, never removes rounds, never goes past the round limit, and never moves the match cursor back |
| Game.Start | prisoners_dilemma/pd_core/game.py:107-113 | `play()` starts from an empty log, no previous actions and the match cursor as it is; a seeded, well-formed player starts at its initial fields and at the start of its sequence |
| Game.PlayOf | prisoners_dilemma/pd_core/game.py:106-131 | a played log is aligned and has at most the round limit of rounds; the match cursor only moves forward |
| Game.BuildOutcome | prisoners_dilemma/pd_core/game.py:147-158 | the totals are the sums of the logged payoffs; with no rounds the means are those totals (divisor 1); A's rate is in [0, 1], B's is never negative and at most 1 on an aligned log |
| Game.IteratedMatch.constructor | prisoners_dilemma/pd_core/game.py:82-104 | a missing payoff matrix means the default one (5, 3, 1, 0), and the match owns a fresh generator at cursor 0 on `make_rng(seed)`'s sequence: the one the seed names, or an entropy sequence without a seed |
| Game.IteratedMatch.Create | prisoners_dilemma/pd_core/game.py:82-104 | construction fails exactly when `CheckTermination` reports an error, with that error; otherwise the match holds the given players, the payoff matrix (the default one when none is given), noise, n_rounds, continuation_prob and horizon, and a fresh generator at cursor 0 on `make_rng(seed)`'s sequence |
| Game.IteratedMatch.ContinueRound | prisoners_dilemma/pd_core/game.py:133-140 | the decision and the match cursor after the check are those of `Continue` |
| Game.IteratedMatch.ApplyNoise | prisoners_dilemma/pd_core/game.py:142-145 | noise draws come from the match's generator, as `Perturb` describes |
| Game.IteratedMatch.PlayRound | prisoners_dilemma/pd_core/game.py:116-128 | one pass of the loop body changes the players, the match cursor, the previous actions and the log as `Round` describes |
| Game.IteratedMatch.Play | prisoners_dilemma/pd_core/game.py:106-131 | the log, the players' new states and the match cursor are those of `PlayOf`, and the outcome is built from the log |
| GameLaws.RoundCoherent | prisoners_dilemma/pd_core/game.py:116-127 | a round appends exactly one entry: valid actions, the table's payoffs for them, and the previous actions set to those actions; earlier entries are unchanged |
| GameLaws.RunCoherent | prisoners_dilemma/pd_core/game.py:115-128 | the loop keeps the log coherent, only appends, and stops within the round limit |
| GameLaws.PlayCoherent | prisoners_dilemma/pd_core/game.py:106-131 | every logged action of a match is "C" or "D" and every logged payoff pair is the table's entry, so the payoff `ValueError` never occurs in play |
| GameLaws.RoundUsesPreviousEffectiveActions | prisoners_dilemma/pd_core/game.py:119-124 | from round 1 on, A is asked with (A's, B's) previous logged actions and B with (B's, A's); the logged actions are those answers after noise, A's noise drawn first |
| GameLaws.RunFixedRounds | prisoners_dilemma/pd_core/game.py:133-139 | without a continuation probability the loop runs up to n_rounds |
| GameLaws.PlayFixedRounds | prisoners_dilemma/pd_core/game.py:133-139 | with n_rounds = N and no continuation probability, exactly max(N, 0) rounds are played |
| GameLaws.PlayNeverExceedsRounds | prisoners_dilemma/pd_core/game.py:134-135 | with n_rounds set, no more than n_rounds rounds are played, whatever the draws |
| GameLaws.PlayAtLeastOneRound | prisoners_dilemma/pd_core/game.py:136-137 | round 0 is always played unless n_rounds <= 0 |
| GameLaws.ZeroContinuationPlaysOneRound | prisoners_dilemma/pd_core/game.py:136-140 | with continuation_prob = 0 and no n_rounds, exactly one round is played |
| GameLaws.ContinuationDraw | prisoners_dilemma/pd_core/game.py:140 | from round 1 on, a probabilistic match draws once and continues iff the draw is < continuation_prob |
| GameLaws.RunLeavesMatchStream | prisoners_dilemma/pd_core/game.py:138-145 | without noise and without a continuation probability the match generator is never drawn from |
| GameLaws.RunWellFormed | prisoners_dilemma/pd_core/game.py:115-128 | the loop keeps both strategies well formed |
| GameLaws.PlayWellFormed | prisoners_dilemma/pd_core/game.py:106-131 | `play()` keeps both strategies well formed |
| GameLaws.SeededPlayersReplay | prisoners_dilemma/pd_core/game.py:109-110 | with seeded players, the match result does not depend on what the players did before |
| GameLaws.RunIgnoresMatchCursor | prisoners_dilemma/pd_core/game.py:138-145 | without noise or continuation draws, the match cursor's position makes no difference |
| GameLaws.ReplayedMatchRepeatsLog | prisoners_dilemma/pd_core/game.py:106-110 | calling `play()` again on a seeded match without noise and without a continuation probability repeats the log |
| GameLaws.ReplayedNoisyMatchDiffers | prisoners_dilemma/pd_core/game.py:104-110 | with noise, a second `play()` can differ from the first, because the match generator is not re-seeded |
| GameLaws.RoundSwap | prisoners_dilemma/pd_core/game.py:116-126 | without noise draws, exchanging the seats exchanges the two sides of one round |
| GameLaws.RunSwap | prisoners_dilemma/pd_core/game.py:115-128 | the same for the whole loop |
| GameLaws.PlaySwap | prisoners_dilemma/pd_core/game.py:106-131 | without noise draws, playing B against A gives A-against-B's result with the sides exchanged |
| GameLaws.RunAllCooperateAllDefect | prisoners_dilemma/pd_core/game.py:115-128 | ALLC against ALLD without noise logs (C, D, S, T) in every round |
| GameLaws.AllCooperateAgainstAllDefect | prisoners_dilemma/pd_core/game.py:106-158 | over N >= 1 rounds, ALLC totals N*S with rate 1 and ALLD totals N*T with rate 0 |
| GameLaws.ExploitedOutcome | prisoners_dilemma/pd_core/game.py:147-158 | the outcome of an all-(C, D, S, T) log has totals N*S and N*T and rates 1 and 0 |
| GameLaws.AllCooperateAgainstAllDefectThreeRounds | prisoners_dilemma/tests/test_game.py:19-26 | three rounds on the default table: 3 rounds, totals 0 and 15, rates 1 and 0 |
| GameLaws.EmptyOutcome | prisoners_dilemma/pd_core/game.py:147-158 | a log with no rounds gives totals, means and rates of 0 (the divisor is 1) |
| GameLaws.OutcomeMeans | prisoners_dilemma/pd_core/game.py:147-158 | on an aligned log: the totals are the sums of the payoffs, mean * rounds = total when a round was played and both means are 0 otherwise, and both rates are in [0, 1] |
| GameLaws.MeanWithin | prisoners_dilemma/pd_core/game.py:151-152 | a mean of payoffs that all lie in [lo, hi] lies in [lo, hi] |
| GameLaws.PlayMeansWithinTable | prisoners_dilemma/pd_core/game.py:147-158 | both mean payoffs of a played match lie between the table's smallest and largest entry |
| Tournament.TournamentResults.Leaderboard | prisoners_dilemma/pd_core/tournament.py:25-32 | the keys are exactly the names in the summaries; each value is the sum of that name's mean payoffs, as A and as B |
| Tournament.Names | prisoners_dilemma/pd_core/tournament.py:27-29 | reference definition of the leaderboard's keys: the names on either side of any summary (characterised by `TournamentLaws.NamesMembers`) |
| Tournament.Score | prisoners_dilemma/pd_core/tournament.py:27-31 | reference definition of a leaderboard value: the sum, over the summaries, of the name's mean payoff on each side it takes (an absent name scores 0 by `Tournament.ScoreOfAbsent`) |
| Tournament.ScoreOfAbsent | prisoners_dilemma/pd_core/tournament.py:28-29 | a name that occurs in no summary scores 0, which the `setdefault` start relies on |
| Tournament.Pairs | prisoners_dilemma/pd_core/tournament.py:59 | `combinations(range(n), 2)`: every pair has a < b < n (counted, ordered and shown complete by `TournamentLaws.PairsCount`, `PairsSorted`, `PairsComplete`) |
| Tournament.PairsValid | prisoners_dilemma/pd_core/tournament.py:59 | every pair has a < b < n: no player plays itself |
| Tournament.ScheduleLength | prisoners_dilemma/pd_core/tournament.py:59-60 | there are (number of pairs) x repetitions fixtures |
| Tournament.Schedule | prisoners_dilemma/pd_core/tournament.py:59-60 | reference definition of the fixture order: the pairs in order, each followed by its repetitions (length by `Tournament.ScheduleLength`, indexing by `Tournament.ScheduleAt`) |
| Tournament.ScheduleAt | prisoners_dilemma/pd_core/tournament.py:59-60 | fixture p*R + rep is repetition rep of the p-th pair: repetitions are innermost |
| Tournament.MatchStream | prisoners_dilemma/pd_core/tournament.py:61-68 | the match generator of a fixture: the sequence seed + rep names when the tournament has a seed, otherwise the entropy sequence numbered by the match's position in the run |
| Tournament.Step | prisoners_dilemma/pd_core/tournament.py:61-76 | reference definition of one fixture: a fresh match on the tournament's settings, the two players' states replaced by their states after the match, one summary appended (shape stated by `TournamentLaws.StepShape`) |
| Tournament.Exec | prisoners_dilemma/pd_core/tournament.py:59-76 | reference definition of a run: the fixtures one after the other (stated by `TournamentLaws.ExecSummaries`, `Tournament.ExecAppend`, `Tournament.ExecKeepsAgents`) |
| Tournament.ExecKeepsAgents | prisoners_dilemma/pd_core/tournament.py:59-76 | a run neither adds nor removes players |
| Tournament.ExecAppend | prisoners_dilemma/pd_core/tournament.py:59-60 | running one part of the schedule and then the rest is running the whole schedule, which is what lets the nested loops be read as one flat schedule |
| Tournament.RoundRobinTournament.constructor | prisoners_dilemma/pd_core/tournament.py:38-55 | stores the settings; a missing payoff matrix means the default one |
| Tournament.RoundRobinTournament.Create | prisoners_dilemma/pd_core/tournament.py:48-49 | construction fails with "repetitions must be >= 1" exactly when repetitions < 1 |
| Tournament.RoundRobinTournament.PlayFixture | prisoners_dilemma/pd_core/tournament.py:61-76 | one match on the tournament's table, noise and n_rounds, with match seed `seed + rep` (or entropy); the players and the new summary are those `Step` describes |
| Tournament.RoundRobinTournament.PlayRepetition | prisoners_dilemma/pd_core/tournament.py:60-76 | one pass of the inner loop: after repetition rep the remaining repetitions give what the repetitions from rep on give |
| Tournament.RoundRobinTournament.PlayPair | prisoners_dilemma/pd_core/tournament.py:60-76 | the repetitions of one pair, as `Exec` over `Reps` describes |
| Tournament.RoundRobinTournament.Run | prisoners_dilemma/pd_core/tournament.py:57-77 | the summaries and the players' new states are those of `Exec` over `Schedule(Pairs(n), R)` |
| TournamentLaws.PairsCount | prisoners_dilemma/pd_core/tournament.py:59 | there are n(n-1)/2 pairs |
| TournamentLaws.PairsSorted | prisoners_dilemma/pd_core/tournament.py:59 | the pairs come in strictly increasing lexicographic order, so none repeats |
| TournamentLaws.PairsComplete | prisoners_dilemma/pd_core/tournament.py:59 | every a < b < n is among the pairs |
| TournamentLaws.StepShape | prisoners_dilemma/pd_core/tournament.py:61-76 | one fixture keeps the roster's size, keeps the earlier summaries, and appends one summary naming player i first and player j second |
| TournamentLaws.ExecSummaries | prisoners_dilemma/pd_core/tournament.py:70-76 | one summary per fixture, in schedule order, naming the pair's display names A first; earlier summaries are kept |
| TournamentLaws.RunCount | prisoners_dilemma/tests/test_tournament.py:6-10 | a run produces C(n, 2) x R summaries |
| TournamentLaws.RunOrder | prisoners_dilemma/pd_core/tournament.py:59-76 | summary p*R + rep names the p-th pair (a, b), a first |
| TournamentLaws.ExecBounded | prisoners_dilemma/pd_core/tournament.py:61-69 | with n_rounds >= 1, every match plays on the tournament's table: its means lie within it and its rates in [0, 1] |
| TournamentLaws.SeededRunReplays | prisoners_dilemma/pd_core/tournament.py:67 | with a tournament seed and seeded players, running again gives the same summaries, whatever state the players are in |
| TournamentLaws.NamesMembers | prisoners_dilemma/pd_core/tournament.py:27-29 | a name is a leaderboard key iff it is a side of some summary |
| TournamentLaws.RunNamesEveryPlayer | prisoners_dilemma/tests/test_tournament.py:11-12 | with n >= 2 and R >= 1, the leaderboard's keys are exactly the players' display names |
| Metrics.Aggregate | prisoners_dilemma/pd_core/metrics.py:17-27 | (0, 0) for no outcomes; otherwise, mean payoff * 2n = the sum of both sides' means, and cooperation rate * 2n = the sum of both sides' rates |
| Metrics.AggregateRateBounded | prisoners_dilemma/pd_core/metrics.py:24-26 | rates in [0, 1] give an aggregated rate in [0, 1] |
| Metrics.AggregateMeanWithin | prisoners_dilemma/pd_core/metrics.py:21-23 | means in [lo, hi] give an aggregated mean in [lo, hi] |
| Metrics.AggregateSingle | prisoners_dilemma/pd_core/metrics.py:21-26 | one outcome aggregates to the average of its two sides |
| Evolution.FitnessOf | prisoners_dilemma/pd_core/evo.py:17 | a name without a fitness entry has fitness 0 |
| Evolution.NextPopulation | prisoners_dilemma/pd_core/evo.py:9-19 | the result has the population's keys in order; with a nonzero total each new share times the total is that name's proportion times its fitness |
| Evolution.ReplicatorStep | prisoners_dilemma/pd_core/evo.py:9-19 | the loop's result is `NextPopulation` |
| Evolution.ReplicatorKeepsKeys | prisoners_dilemma/pd_core/evo.py:15-19 | the result has exactly the population's keys, in order, and so stays a dict |
| Evolution.ReplicatorZeroTotal | prisoners_dilemma/pd_core/evo.py:13-14 | with total fitness 0 the population comes back unchanged |
| Evolution.ReplicatorMissingFitness | prisoners_dilemma/pd_core/evo.py:17 | a name missing from the fitness table gets share 0 |
| Evolution.ReplicatorSharesSumToOne | prisoners_dilemma/pd_core/evo.py:12-18 | with nonzero total fitness the shares sum to 1 |
| Evolution.ReplicatorFavoursFitter | prisoners_dilemma/pd_core/evo.py:18 | with a positive total and equal positive proportions, the fitter name gets the strictly larger share |
| Analysis.CooperationHistogram | prisoners_dilemma/experiments/analyze_results.py:11-19 | keys exactly "A" and "B"; both 0 when the summed rates total 0; otherwise each seat's summed rate over the total, the two summing to 1 |
| Analysis.HistogramSharesBounded | prisoners_dilemma/experiments/analyze_results.py:16-19 | with every rate in [0, 1], both sums are non-negative and both shares lie in [0, 1] |

## Left out

- Plug-in strategies:
  - The strategy protocol is open in the source; here the built-in strategies form a closed union.
  - A strategy returning something other than "C" or "D" therefore cannot arise inside `play()`.
  - `Game.PayoffMatrix.Payoff` still models the `ValueError` for direct calls.
- The Mersenne Twister and `utils.make_rng`:
  - Generators are abstract streams of draws in [0, 1).
  - The sequence a seed names, and the one system entropy gives, are caller-supplied (`Randomness`).
- Floating point: all arithmetic is on exact reals. IEEE rounding of sums, means and rates is not modelled.
- Strategy names `RAND({p:.2f})` and `GTFT({forgive_p:.2f})`: the two-decimal float formatting is taken as text supplied by the caller.
- Game.IteratedMatch.Play: with `n_rounds=None` the source loop is unbounded. It ends with probability 1. The model stops without a further draw after a caller-chosen `horizon` number of rounds. With `n_rounds` set, the model is exact.
- Game.IteratedMatch.Play: the two players must own different strategy objects and different generators.
  - Playing a player against itself, or sharing a generator, is excluded rather than modelled.
  - In the source, both would interleave updates on one object.
- Tournament.RoundRobinTournament.Run: no two players in the roster may share a strategy object or a generator, for the same reason.
- Tournament.RoundRobinTournament.Run: the match generator of an unseeded tournament is taken as the entropy stream numbered by the match's position in the run. Two runs of the same unseeded tournament therefore get the same match streams in the model, while the source draws fresh system entropy for every match of every run.
- Dict ordering:
  - The leaderboard and the histogram are maps, so their key insertion order is not modelled.
  - The replicator step keeps the population's order, modelled as an ordered list of items.
- Default arguments such as `n_rounds=200` and `repetitions=1` are the caller's to pass.
- `MatchLog.as_rows` is a generator in the source; the model gives all rows at once.
- Not modelled:
  - `visuals/plots.py` and `visuals/styles.py`: display only.
  - `examples/*.py`: demo scripts with printing and file output.
  - `experiments/run_experiment.py`: argument parsing, YAML/JSON input and output, reflective class loading.
  - The `__init__.py` re-exports.
