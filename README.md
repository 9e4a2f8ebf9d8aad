# Monte Carlo craps and Penney's ante, verified

This project models two of the Monte Carlo scripts of the repository in Dafny:

- **Craps** (`p2-montecarlo-craps/craps.py`). A game starts with a come-out roll
  of two dice. A natural (7 or 11) wins. Craps (2, 3 or 12) loses. Any other sum
  becomes the point, and the dice are then re-rolled until the point comes up
  again (a win) or a 7 comes up (a loss). The script plays `N = 10**5` games,
  counts the wins, and reports `p_approx = numWins / N` with its relative error
  against the exact probability 244/495.
- **Penney's ante** (`p3-montecarlo-penney-ante/penney_ante.py`). Each player
  picks a 3-gram over the coin `{T, H}`. A game tosses the coin three times to
  form a window. It then slides the window one toss at a time, in place, until
  the window equals player 2's choice (a win) or player 1's choice (a loss).
  Player 2's choice is checked first. `calculate_probability` plays `N = 10**4`
  games and returns player 2's share of wins. `penney_ante` fills an 8×8 table
  with that share for every ordered pair of distinct 3-grams, and leaves the
  diagonal at 0.

The random generator is replaced by explicit input. A craps run reads its dice
from a sequence of `Roll`s, whose dice lie in 1..6. A Penney run reads its coin
from a sequence of `Draw`s, where each draw is the index 0 or 1 that
`np.random.randint(2)` picks in the coin `['T', 'H']`. The values are consumed
in order, as the generator would produce them. A game that runs out of input
before it is decided ends as `Unresolved`. A run that meets such a game stops
there and reports that it did not complete.

Modules:

- `Simulation` (`simulation.dfy`) holds what both games share:
  - the outcome of a game (`Win`, `Loss`, `Unresolved`), and how many input values it used;
  - the win tally over a list of outcomes;
  - the win rate `wins / n` as an exact ratio.
- `Craps` (`craps.dfy`) has three layers:
  - the game as functions: the come-out classification, the point phase, one game (`Trial`) and a run of games (`Trials`);
  - the script's loops as methods proved against those functions;
  - the derivation of 244/495 from the two-dice frequencies.
- `PenneyAnte` (`penney_ante.dfy`) has three layers:
  - the race as functions over the toss stream;
  - the in-place window slide as a method over a `char` array of length 3;
  - `calculate_probability` and the table sweep as methods, the sweep filling an `array2<real>`.

Each loop of the scripts is a `method` whose `ensures` ties its result to the
specification functions: `RollForPoint` and `SlideUntilDecided` for the
`while (True)` loops, `CountWins` for the `for i in range(N)` loops, and
`Sweep` and `FillRow` for the nested loops over the table. Lemmas state what
the scripts promise about those functions.

## Model

| member | source | states |
|---|---|---|
| Craps.Sum | p2-montecarlo-craps/craps.py:47-49 | the sum of two dice, each in 1..6, lies in 2..12 |
| Craps.ClassifyComeOut | p2-montecarlo-craps/craps.py:55-72 | the come-out sum is a natural exactly when it is 7 or 11 and craps exactly when it is 2, 3 or 12; otherwise it becomes the point, which is the sum itself, is never 7, and for a dice sum lies in {4, 5, 6, 8, 9, 10} |
| Craps.ResolvePoint | p2-montecarlo-craps/craps.py:73-90 | the point phase never reads past the stream, and it ends unresolved exactly when it read the whole stream without its last roll being the point or a 7 |
| Craps.Trial | p2-montecarlo-craps/craps.py:47-91 | a game never reads past the stream, and a decided game reads at least one roll |
| Craps.Trials | p2-montecarlo-craps/craps.py:43-92 | a run of `n` games has at most `n` outcomes |
| Craps.PointPhaseEndsAtFirstDecisiveRoll | p2-montecarlo-craps/craps.py:73-90 | the point phase stops at the first roll that is the point or a 7: every earlier roll is neither; a win ends on the point, a loss ends on a 7 with the point not 7; an unresolved phase saw no such roll |
| Craps.ComeOutRules | p2-montecarlo-craps/craps.py:55-72 | a come-out 7 or 11 is a win after one roll, 2, 3 or 12 a loss after one roll, and any other sum is a point value followed by the point phase for that sum |
| Craps.TrialsStep | p2-montecarlo-craps/craps.py:55-82 | each decided game adds exactly one to the tally when won and nothing when lost |
| Craps.TrialsPrefix | p2-montecarlo-craps/craps.py:43-92 | playing one more game on the same stream only extends the list of outcomes |
| Craps.WinsNeverDecrease | p2-montecarlo-craps/craps.py:43-92 | the win tally never decreases from one game to the next |
| Craps.RollForPoint | p2-montecarlo-craps/craps.py:73-90 | the re-roll loop returns exactly the point-phase outcome and stops right after the roll that decided it |
| Craps.PlayGame | p2-montecarlo-craps/craps.py:47-91 | one iteration of the game loop returns exactly the outcome of `Trial` and consumes the rolls that `Trial` uses |
| Craps.RunStops | p2-montecarlo-craps/craps.py:43-92 | a game the stream cannot finish is the last outcome of the run |
| Craps.RunContinues | p2-montecarlo-craps/craps.py:43-92 | a decided game is the next outcome of the run, and the rest of the run is played from the roll after it |
| Craps.CountWins | p2-montecarlo-craps/craps.py:32-92 | the loop over `n` games returns the number of wins in the run, which is at most `n`, and reports completion exactly when all `n` games were decided |
| Craps.Abs | p2-montecarlo-craps/craps.py:107 | the absolute value is non-negative and is `x` or `-x` |
| Craps.RelativeError | p2-montecarlo-craps/craps.py:107 | the relative error is non-negative, is zero exactly when the estimate equals the exact value, and times the exact value's magnitude equals the absolute error |
| Craps.Simulate | p2-montecarlo-craps/craps.py:32-107 | a full run reports p_exact = 244/495, p_approx = wins / N over the `N` games in [0, 1], and its relative error; it reports nothing when the stream ran out |
| Craps.WaysFromCount | p2-montecarlo-craps/craps.py:101 | the number of first dice that pair with a second die to make a sum is the length of the range max(die1, sum - 6)..min(6, sum - 1) |
| Craps.DiceFrequencies | p2-montecarlo-craps/craps.py:101 | out of 36 rolls, 6 - abs(sum - 7) have a given sum from 2 to 12, and none have any other sum |
| Craps.ExactWinProbabilityDerivation | p2-montecarlo-craps/craps.py:100-101 | 244/495 equals P(7) + P(11) plus, for each point p, P(p)·P(p)/(P(p) + P(7)) |
| Simulation.Wins | p2-montecarlo-craps/craps.py:43-92 | the tally of a list of outcomes is at most its length |
| Simulation.WinsAppend | p2-montecarlo-craps/craps.py:43-92 | the tally of two runs in a row is the sum of their tallies |
| Simulation.TallyStep | p3-montecarlo-penney-ante/penney_ante.py:104-105 | one more outcome raises the tally by one exactly when it is a win |
| Simulation.WinRate | p2-montecarlo-craps/craps.py:104 | wins / n is non-negative, at most 1 when wins ≤ n, and times n gives back wins |
| PenneyAnte.Toss | p3-montecarlo-penney-ante/penney_ante.py:82-95 | a draw selects a face of the coin {T, H}, and T exactly for index 0 |
| PenneyAnte.WindowAt | p3-montecarlo-penney-ante/penney_ante.py:95-98 | every window has length 3 and holds only coin faces |
| PenneyAnte.Slide | p3-montecarlo-penney-ante/penney_ante.py:115-116 | the new window's first two faces are the old window's last two, its third face is the new toss, and its length stays 3 |
| PenneyAnte.RaceFrom | p3-montecarlo-penney-ante/penney_ante.py:113-130 | the race from a window never reads past the stream, and it ends unresolved only after reading the whole stream |
| PenneyAnte.Trial | p3-montecarlo-penney-ante/penney_ante.py:95-130 | a game never reads past the stream, an unresolved game has read all of it, and a decided game read at least the three opening tosses |
| PenneyAnte.Trials | p3-montecarlo-penney-ante/penney_ante.py:90-132 | a run of `n` games has at most `n` outcomes |
| PenneyAnte.SlideAlongStream | p3-montecarlo-penney-ante/penney_ante.py:115-117 | sliding the window at a position over the next toss gives the window at the next position, so the window is always the last three tosses |
| PenneyAnte.RaceStopsAtFirstMatch | p3-montecarlo-penney-ante/penney_ante.py:113-130 | the race stops at the first window equal to either choice: every earlier window matched neither, and the game is a win exactly when the deciding window is player 2's choice |
| PenneyAnte.TrialStopsAtFirstMatch | p3-montecarlo-penney-ante/penney_ante.py:104-130 | a game ends at the first window, from the opening three tosses on, that equals either choice; every earlier window matched neither; player 2 wins exactly when that window is player 2's choice; an unresolved game saw no matching window |
| PenneyAnte.OpeningWindow | p3-montecarlo-penney-ante/penney_ante.py:104-110 | an opening window equal to player 2's choice wins after three tosses; otherwise one equal to player 1's choice loses after three tosses |
| PenneyAnte.Player2TestedFirst | p3-montecarlo-penney-ante/penney_ante.py:104-124 | with equal choices player 2 never loses, since player 2's choice is checked first at every window |
| PenneyAnte.ThreeGramsDistinct | p3-montecarlo-penney-ante/penney_ante.py:31-34 | the table lists n = 8 pairwise distinct strings of three coin faces |
| PenneyAnte.ThreeGramsComplete | p3-montecarlo-penney-ante/penney_ante.py:31 | every string of three coin faces is in the table |
| PenneyAnte.TrialsStep | p3-montecarlo-penney-ante/penney_ante.py:104-122 | each decided game adds exactly one to player 2's tally when player 2 wins it and nothing otherwise |
| PenneyAnte.SlideUntilDecided | p3-montecarlo-penney-ante/penney_ante.py:113-130 | the in-place slide loop returns exactly the race outcome, and the array ends holding the deciding window |
| PenneyAnte.PlayGame | p3-montecarlo-penney-ante/penney_ante.py:95-130 | one iteration of the game loop returns exactly the outcome of `Trial` and consumes the tosses that `Trial` uses |
| PenneyAnte.RunStops | p3-montecarlo-penney-ante/penney_ante.py:90-132 | a game the stream cannot finish is the last outcome of the run |
| PenneyAnte.RunContinues | p3-montecarlo-penney-ante/penney_ante.py:90-132 | a decided game is the next outcome of the run, and the rest of the run is played from the toss after it |
| PenneyAnte.CountWins | p3-montecarlo-penney-ante/penney_ante.py:76-132 | the loop over `n` games returns player 2's number of wins in the run, which is at most `n`, and reports completion exactly when all `n` games were decided |
| PenneyAnte.Estimate | p3-montecarlo-penney-ante/penney_ante.py:79-136 | an estimate exists exactly when all N = 10**4 games were decided, and it lies in [0, 1] |
| PenneyAnte.CalculateProbability | p3-montecarlo-penney-ante/penney_ante.py:69-137 | calculate_probability returns wins / N over its N games, as `Estimate` defines it |
| PenneyAnte.CellIsProbability | p3-montecarlo-penney-ante/penney_ante.py:38-53 | every table entry lies in [0, 1], and the diagonal entries are 0 |
| PenneyAnte.Sweep | p3-montecarlo-penney-ante/penney_ante.py:31-53 | the sweep returns a fresh 8×8 table whose entry (i, j) is 0 on the diagonal and calculate_probability(three_grams[i], three_grams[j]) elsewhere |
| PenneyAnte.FillRow | p3-montecarlo-penney-ante/penney_ante.py:47-52 | one pass of the inner loop sets every entry of row i to its table value and leaves every other row unchanged |

## Left out

- Random number generation (`random.randint`, `np.random.randint`) is not modelled. The dice and tosses are explicit input sequences, and their distribution is not modelled.
- The `while (True)` loops terminate almost surely, which is a probabilistic property. The model runs them over finite input instead: a game whose input runs out is `Unresolved`, and a run that meets one stops and reports that it did not complete.
- PenneyAnte.Sweep: the script draws all cells from one generator. The model gives each ordered pair (i, j) its own input stream `streams(i, j)`. A cell whose stream runs out before its 10**4 games are decided keeps its initial 0, where the script would always have filled in a value.
- Python's floating-point division (`numWins / N`, `244 / 495`, `abs(...)`) is modelled as exact division on `real`. Rounding is not modelled.
- Console output (`print` of the results and of the table) is not modelled.
- The strings the script builds with `''.join(three_gram)` are not built separately. The model compares the contents of the window array, `threeGram[..]`, which is the same string.
- `monte-carlo-buffons-needle/buffons_needle.py` is not part of this model. It is floating-point trigonometry and plotting.
- `p5_montecarlo/how_big_is_my_heart.py` is not part of this model. It is floating-point numerics and plotting.
