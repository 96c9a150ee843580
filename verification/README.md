# Tile-platform robots, modelled in Dafny

The `ex09` exercises of this repository simulate a robot on a finite row of
black and white tiles. The robot starts on the leftmost tile, moves one tile
left or right (clamped at both ends), counts per tile how often it has seen
each colour (a histogram that defaults to one white and one black), predicts
the colour of the tile it is about to enter, and over a run of `steps`
iterations counts its wrong predictions. Three variants of the `Robot` class
exist:

- `ex09/ex09task2a_predict.py` (module `Predict`, file `predict.dfy`): exact
  moves, exact perception, a random left/right choice on interior tiles.
- `ex09/ex09task2b_noise.py` (module `Noise`, file `noise.dfy`): moves and
  perception disturbed with probability 0.1; the next move is chosen by a
  cautious or adventurous comparison of a score ("delta") of both neighbours.
- `ex09/ex09task2c_betaDistribution.py` (module `BetaDistribution`, file
  `beta_distribution.dfy`): two count maps `alpha` and `beta`, a move that is
  handed to the opposite move while a draw is at most `noise_prob`, Beta
  means and variances, and the smaller variance as score.

`tiles.dfy` (module `Tiles`) holds what the three share: colours, actions,
the histogram with its default, the clamped step, perception noise, the
infinite score of an off-platform tile and the two policies.

Each variant is modelled the same way. A class `Robot` has the fields the
source updates (`position`, `histograms` or `alpha`/`beta`, `noise_prob`)
and methods `MoveLeft`, `MoveRight`, `UpdateHistogram` and `Simulate` (in the
noisy variants also `Iteration`, one pass of the loop of `simulate`) that
change them in place; each method's postcondition equals the new state to a
pure function of the old one (`Moved`, `Advance`, `Run`). `Run` is the fold
of `Advance` over the first n steps, and its own contract says what every
run keeps: the robot stays on the platform, the counts keep their
invariant, at most n errors are counted, and exactly n observations are
recorded on the platform. The pure queries of the
source (`predict_color`, `choose_action*`, `calculate_delta`,
`beta_mean_variance`) are functions over the histograms. Every draw of
`random.random()` is a `real` parameter and every `random.choice` a coin of
type `Action`; `simulate` receives one record of such values per step.

Two behaviours of the code are proved as stated:

- In the Beta variant a perceived white raises `beta[pos]['white']`, which
  lowers the white share `alpha_w / (alpha_w + beta_w)`; with
  `alpha[·]['white']` and `beta[·]['black']` stuck at 1, `predict_color`
  answers black at every position whatever has been seen
  (`BetaDistribution.PredictAlwaysBlack`), so a step is wrong exactly when it
  ends on a white tile (`BetaDistribution.Advance`).
- With `noise_prob = 0` a move is still reversed when `random.random()`
  returns exactly `0.0`, because the test is `<=`
  (`BetaDistribution.NoiseFreeHeading`); with `noise_prob >= 1` no draw in
  `[0, 1)` ever ends the chain of reversals
  (`BetaDistribution.HeadingNeverSettles`).

## Model

| member | source | states |
|---|---|---|
| `Tiles.Step` | ex09/ex09task2a_predict.py:10-18 | a move stays on the platform; it reaches the requested neighbour when that tile exists and leaves the position unchanged at the end of the platform |
| `Tiles.Observe` | ex09/ex09task2a_predict.py:20-22 | recording a colour at a position adds exactly one to that colour's count there; every other count at every position is unchanged |
| `Tiles.ObserveKeepsPositive` | ex09/ex09task2a_predict.py:8 | an unseen tile reads as one of each colour and counts only grow, so every count stays at least one |
| `Tiles.ObserveEvidence` | ex09/ex09task2a_predict.py:22 | one recorded observation on the platform adds exactly one to the platform's total beyond the defaults |
| `Tiles.PredictColor` | ex09/ex09task2a_predict.py:44-49 | the prediction is white if and only if the white count is strictly greater than the black count; a tie gives black (the same code is `predict_color` in ex09/ex09task2b_noise.py:42-47) |
| `Tiles.Perceive` | ex09/ex09task2b_noise.py:26-28 | the perceived colour is the true one if and only if the draw exceeds the noise level, the other colour otherwise |
| `Tiles.CautiousPick` | ex09/ex09task2b_noise.py:56-61 | the chosen side never has the strictly larger score; with different scores it is the strictly smaller side, with equal scores the coin |
| `Tiles.AdventurousPick` | ex09/ex09task2b_noise.py:70-75 | the chosen side never has the strictly smaller score; with different scores it is the strictly larger side, with equal scores the coin |
| `Tiles.BelowTrichotomy` | ex09/ex09task2b_noise.py:56-61 | comparison of scores with infinity is a strict total order, so only exactly equal scores reach the coin |
| `Predict.ChooseAction` | ex09/ex09task2a_predict.py:51-57 | right on the first tile, left on the last, the coin only on interior tiles; on two or more tiles the requested tile always exists |
| `Predict.Moved` | ex09/ex09task2a_predict.py:10-22 | a move keeps the robot on the platform, is the clamped step, and adds one observation of the true colour of the tile reached and nothing else, so the platform's total of observations grows by exactly one |
| `Predict.Advance` | ex09/ex09task2a_predict.py:62-72 | one iteration keeps the invariant, adds at most one error and records exactly one observation on the platform |
| `Predict.Run` | ex09/ex09task2a_predict.py:59-72 | after n iterations the robot is on the platform, all counts are at least one, the error count lies between 0 and n, and exactly n observations have been recorded on the platform |
| `Predict.MoveNeverBlocked` | ex09/ex09task2a_predict.py:51-57 | on a platform of two or more tiles every chosen move changes the position by exactly one |
| `Predict.Robot.constructor` | ex09/ex09task2a_predict.py:5-8 | the robot starts on tile 0 with no histogram entries |
| `Predict.Robot.MoveLeft` | ex09/ex09task2a_predict.py:10-13 | the new state is the clamped left step followed by one observation, and the invariant is kept |
| `Predict.Robot.MoveRight` | ex09/ex09task2a_predict.py:15-18 | the new state is the clamped right step followed by one observation, and the invariant is kept |
| `Predict.Robot.UpdateHistogram` | ex09/ex09task2a_predict.py:20-22 | the histograms gain one observation of the current tile's true colour |
| `Predict.RunStep` | ex09/ex09task2a_predict.py:61-72 | loop helper for `Simulate`: a run of n + 1 iterations is the run of n iterations followed by one `Advance`, its errors added |
| `Predict.Robot.Simulate` | ex09/ex09task2a_predict.py:59-74 | the returned error count and the final state are those of `Run` on the coins given |
| `Noise.NoisyStep` | ex09/ex09task2b_noise.py:11-23 | a noisy move stays on the platform and changes the position by at most one; it goes the requested way exactly when that tile exists and the first draw exceeds 0.1, the opposite way exactly when it does not and the opposite tile exists and the second draw is at most 0.1 |
| `Noise.NoisyStepWithoutNoise` | ex09/ex09task2b_noise.py:11-23 | with both draws above 0.1 the noisy move is the clamped step |
| `Noise.Moved` | ex09/ex09task2b_noise.py:11-29 | a noisy move keeps the invariant and adds exactly one observation, of the perceived colour, at the tile reached, so the platform's total grows by exactly one |
| `Noise.CalculateDelta` | ex09/ex09task2b_noise.py:77-86 | the score is infinite exactly off the platform; on it the score is finite and strictly above the white share, which is strictly positive |
| `Noise.ChooseActionCautious` | ex09/ex09task2b_noise.py:49-61 | on two or more tiles the cautious robot goes right on the first tile, left on the last, and always asks for an existing tile |
| `Noise.ChooseActionAdventurous` | ex09/ex09task2b_noise.py:63-75 | on two or more tiles the adventurous robot asks for the missing tile at either end (its score is infinite) and for an existing tile elsewhere |
| `Noise.SingleTileFallsToCoin` | ex09/ex09task2b_noise.py:77-79 | on a one-tile platform both scores are infinite and both policies return the coin |
| `Noise.Advance` | ex09/ex09task2b_noise.py:92-108 | one iteration keeps the invariant, adds at most one error and records exactly one observation on the platform |
| `Noise.Run` | ex09/ex09task2b_noise.py:88-108 | after n iterations, whatever the draws, the robot is on the platform, all counts are at least one, the error count lies between 0 and n, and exactly n observations have been recorded on the platform |
| `Noise.RunStep` | ex09/ex09task2b_noise.py:90-108 | loop helper for `Simulate`: a run of n + 1 iterations is the run of n iterations followed by one `Advance`, its errors added |
| `Noise.Robot.constructor` | ex09/ex09task2b_noise.py:6-9 | the robot starts on tile 0 with no histogram entries |
| `Noise.Robot.MoveLeft` | ex09/ex09task2b_noise.py:11-16 | the new state is the noisy left move followed by one noisy observation |
| `Noise.Robot.MoveRight` | ex09/ex09task2b_noise.py:18-23 | the new state is the noisy right move followed by one noisy observation |
| `Noise.Robot.UpdateHistogram` | ex09/ex09task2b_noise.py:25-29 | the histograms gain one observation of the perceived colour of the current tile |
| `Noise.Robot.Iteration` | ex09/ex09task2b_noise.py:92-108 | one pass of the loop moves the robot to the state of `Advance` and reports a wrong prediction exactly when `Advance` counts an error |
| `Noise.Robot.Simulate` | ex09/ex09task2b_noise.py:88-111 | the returned error count and the final state are those of `Run` on the strategy and draws given |
| `BetaDistribution.Record` | ex09/ex09task2c_betaDistribution.py:33-36 | a perceived white adds one to `beta[pos]['white']` only, a perceived black one to `alpha[pos]['black']` only; all other counts are unchanged |
| `BetaDistribution.RecordKeepsInv` | ex09/ex09task2c_betaDistribution.py:8-9 | `alpha[·]['white']` and `beta[·]['black']` stay at 1 and all other counts at least 1 |
| `BetaDistribution.Heading` | ex09/ex09task2c_betaDistribution.py:11-25 | the chain of reversed moves settles on a direction exactly when some draw exceeds `noise_prob` |
| `BetaDistribution.HeadingParity` | ex09/ex09task2c_betaDistribution.py:11-25 | the settled direction is the requested one after an even number of reversing draws and the opposite one after an odd number |
| `BetaDistribution.HeadingNeverSettles` | ex09/ex09task2c_betaDistribution.py:12-13 | with `noise_prob >= 1` every draw in `[0, 1)` reverses the move again and no direction is ever settled |
| `BetaDistribution.NoiseFreeHeading` | ex09/ex09task2c_betaDistribution.py:11-25 | with `noise_prob = 0` a first draw above zero gives the requested direction, and a first draw of exactly zero reverses it |
| `BetaDistribution.Moved` | ex09/ex09task2c_betaDistribution.py:15-17 | the settled move is the clamped step, stays on the platform and keeps the count invariant; at the tile reached a perceived black adds one to `alpha[pos]['black']` and a perceived white one to `beta[pos]['white']`, and no other count changes |
| `BetaDistribution.PredictFromBeta` | ex09/ex09task2c_betaDistribution.py:51-58 | the prediction is white if and only if `alpha_w/(alpha_w+beta_w)` is strictly above `alpha_b/(alpha_b+beta_b)`, stated by cross-multiplication; a tie gives black |
| `BetaDistribution.PredictAlwaysBlack` | ex09/ex09task2c_betaDistribution.py:51-58 | under the count invariant the prediction is black at every position |
| `BetaDistribution.BetaMean` | ex09/ex09task2c_betaDistribution.py:63 | the Beta mean of counts of at least one lies strictly between 0 and 1 |
| `BetaDistribution.BetaVariance` | ex09/ex09task2c_betaDistribution.py:64 | the Beta variance of counts of at least one is strictly positive and at most 1/12 |
| `BetaDistribution.BetaMeanVariance` | ex09/ex09task2c_betaDistribution.py:60-67 | both means lie strictly between 0 and 1 and both variances are strictly positive (and at most 1/12) |
| `BetaDistribution.MeansDrivePrediction` | ex09/ex09task2c_betaDistribution.py:54-57 | `predict_color` answers white exactly when `mean_white` exceeds `mean_black` |
| `BetaDistribution.CalculateDelta` | ex09/ex09task2c_betaDistribution.py:97-101 | the score is infinite exactly off the platform; on it the score is the smaller of the two variances, strictly positive |
| `BetaDistribution.ChooseActionCautious` | ex09/ex09task2c_betaDistribution.py:69-81 | on two or more tiles the cautious robot goes right on the first tile, left on the last, and always asks for an existing tile |
| `BetaDistribution.ChooseActionAdventurous` | ex09/ex09task2c_betaDistribution.py:83-95 | on two or more tiles the adventurous robot asks for the missing tile at either end and for an existing tile elsewhere |
| `BetaDistribution.Advance` | ex09/ex09task2c_betaDistribution.py:107-123 | one iteration keeps the invariant and counts an error exactly when it ends on a white tile |
| `BetaDistribution.RecordCountsOne` | ex09/ex09task2c_betaDistribution.py:33-36 | recording one perception, in `alpha` or in `beta`, adds exactly one to the platform's total of perceptions |
| `BetaDistribution.AdvanceRecordsOne` | ex09/ex09task2c_betaDistribution.py:106-123 | every iteration, whatever the policy, the draws and the noise, records exactly one perception on the platform |
| `BetaDistribution.Run` | ex09/ex09task2c_betaDistribution.py:103-123 | after n iterations the robot is on the platform, the counts keep their invariant, the error count lies between 0 and n, and exactly n perceptions have been recorded on the platform |
| `BetaDistribution.RunStep` | ex09/ex09task2c_betaDistribution.py:106-123 | loop helper for `Simulate`: every step's move draws settle, and a run of n + 1 iterations is the run of n followed by one `Advance`, its errors added |
| `BetaDistribution.Robot.constructor` | ex09/ex09task2c_betaDistribution.py:5-9 | the robot starts on tile 0 with empty `alpha` and `beta` and no `noise_prob` yet |
| `BetaDistribution.Robot.MoveLeft` | ex09/ex09task2c_betaDistribution.py:11-17 | the new state is the clamped step in the settled direction followed by one noisy perception; `noise_prob` is unchanged |
| `BetaDistribution.Robot.MoveRight` | ex09/ex09task2c_betaDistribution.py:19-25 | the new state is the clamped step in the settled direction followed by one noisy perception; `noise_prob` is unchanged |
| `BetaDistribution.Robot.UpdateHistogram` | ex09/ex09task2c_betaDistribution.py:27-36 | the counts gain one perception of the current tile as `Record` describes |
| `BetaDistribution.Robot.Iteration` | ex09/ex09task2c_betaDistribution.py:106-123 | one pass of the loop moves the robot to the state of `Advance` and reports a wrong prediction exactly when `Advance` counts an error; `noise_prob` is unchanged |
| `BetaDistribution.Robot.CountedIteration` | ex09/ex09task2c_betaDistribution.py:106-123 | one pass of the loop with its error count takes a robot that is n steps along a run to n + 1 steps along it |
| `BetaDistribution.Robot.Simulate` | ex09/ex09task2c_betaDistribution.py:103-126 | `noise_prob` is set, and the returned error count and the final state are those of `Run` on the strategy, noise and draws given |

## Left out

- Console output: `report_position`, `print_histogram`, the prints inside `simulate` (including the final error rate, which divides by `steps` and so fails for `steps = 0`) and the demonstration runs at the end of each file.
- `sensing_color` (ex09/ex09task2a_predict.py:36-42): never called; it only stores a randomly flipped colour.
- The random number generator: each `random.random()` draw is a `real` parameter and each `random.choice(['left', 'right'])` an `Action` parameter. Draws are not required to lie in `[0, 1)` except where a lemma says so.
- In the Beta variant the draws of one move are a finite sequence, and `MoveLeft`, `MoveRight` and `Simulate` require that it contains a draw above `noise_prob`; the source would keep drawing (and with `noise_prob >= 1` recurse until Python's recursion limit).
- Floating point: shares, scores, means and variances are exact rationals (`real`), and the noise level 0.1 is the exact rational 1/10. Rounding of Python floats is not modelled.
- `noise_prob` does not exist on a Beta robot before `simulate` sets it; the model makes it `None` and the moves require it to be set, where the source raises `AttributeError`.
- The empty platform: the constructors require at least one tile, since every move of the source then fails with `IndexError`. Tile colours other than `'white'` and `'black'` are not representable (`Color` has two values).
- Reading a `defaultdict` at a missing position inserts a default entry in the source; `Lookup` returns the default without inserting it. The entries inserted this way are visible only through the printing that is left out.
- Default arguments and the result of `simulate`: `Simulate` has no defaults for `strategy='cautious'` (ex09/ex09task2b_noise.py:88, ex09/ex09task2c_betaDistribution.py:103) or `noise_prob=0` (ex09/ex09task2c_betaDistribution.py:103), and it returns the error count, which the source's `simulate` only prints (ex09/ex09task2a_predict.py:73-74) and never returns.
- The `strategy` argument is the enumeration `Strategy`; the source treats every string other than `'cautious'` as adventurous.
- `p_black` in `calculate_delta` of ex09/ex09task2b_noise.py:83 is computed and never used.
- Noise.CalculateDelta: the contract states that the score is finite, strictly above the white share and the share strictly positive, not the closed formula `p_white + p_white * (1 - p_white) / (total + 1)` itself, which is its body.
- The rest of the repository: the odometry and kinematics simulations of `ex07`, the rosbag reader of `ex08` and the free-energy loop of `ex10` use Gaussian noise, trigonometry on floats, plotting and external libraries.
