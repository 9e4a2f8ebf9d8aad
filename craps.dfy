/**
 * The dice game of craps as the Monte Carlo simulation plays it
 * (p2-montecarlo-craps/craps.py).
 *
 * A trial starts with a come-out roll of two dice. A sum of 7 or 11 (a natural)
 * wins, 2, 3 or 12 (craps) loses, and any other sum becomes the point. The dice
 * are then re-rolled until the point comes up again (a win) or a 7 comes up
 * (a loss). The simulation counts wins over its trials and compares the
 * empirical win rate with the exact probability 244/495.
 *
 * The dice are read from an explicit stream of rolls, consumed in order.
 */
module Craps {
  import opened Simulation

  /** One die, as random.randint(1, 6) draws it */
  type Die = d: int | 1 <= d <= 6 witness 1

  /** One roll of the two dice */
  datatype Roll = Roll(die1: Die, die2: Die)

  /** Number of simulated games */
  const Simulations: nat := 100000

  /** The exact probability of winning a game of craps */
  const ExactWinProbability: real := 244.0 / 495.0

  function Sum(roll: Roll): (s: int)
    ensures 2 <= s <= 12
  {
    roll.die1 + roll.die2
  }

  /** The sums that can become the point */
  predicate IsPointValue(s: int) {
    s == 4 || s == 5 || s == 6 || s == 8 || s == 9 || s == 10
  }

  /** What the come-out roll decides */
  datatype ComeOut = Natural | CrapsRoll | Point(point: int)

  function ClassifyComeOut(sum: int): (c: ComeOut)
    ensures c == Natural <==> sum == 7 || sum == 11
    ensures c == CrapsRoll <==> sum == 2 || sum == 3 || sum == 12
    ensures c.Point? ==> c.point == sum && c.point != 7
    ensures 2 <= sum <= 12 ==> (c.Point? <==> IsPointValue(sum))
  {
    if sum == 7 || sum == 11 then Natural
    else if sum == 2 || sum == 3 || sum == 12 then CrapsRoll
    else Point(sum)
  }

  /** A roll that ends the point phase: the point again, or a 7 */
  predicate Decisive(point: int, roll: Roll) {
    Sum(roll) == point || Sum(roll) == 7
  }

  /** The point phase: re-roll until the point (win) or a 7 (loss) comes up */
  function ResolvePoint(point: int, rolls: seq<Roll>): (r: Resolution)
    ensures r.used <= |rolls|
    ensures r.outcome == Unresolved <==> r.used == |rolls| && (rolls == [] || !Decisive(point, rolls[|rolls| - 1]))
    decreases |rolls|
  {
    if rolls == [] then Resolution(Unresolved, 0)
    else if Sum(rolls[0]) == point then Resolution(Win, 1)
    else if Sum(rolls[0]) == 7 then Resolution(Loss, 1)
    else Shift(ResolvePoint(point, rolls[1..]), 1)
  }

  /** One game: the come-out roll, then the point phase when a point was set */
  function Trial(rolls: seq<Roll>): (r: Resolution)
    ensures r.used <= |rolls|
    ensures r.outcome != Unresolved ==> 0 < r.used
  {
    if rolls == [] then Resolution(Unresolved, 0)
    else match ClassifyComeOut(Sum(rolls[0]))
      case Natural => Resolution(Win, 1)
      case CrapsRoll => Resolution(Loss, 1)
      case Point(p) => Shift(ResolvePoint(p, rolls[1..]), 1)
  }

  /** The outcomes of up to `n` games played one after the other on the stream;
      the list stops at the first game the stream cannot finish */
  function Trials(rolls: seq<Roll>, n: nat): (outcomes: seq<Outcome>)
    ensures |outcomes| <= n
    decreases |rolls|
  {
    if n == 0 then []
    else
      var t := Trial(rolls);
      if t.outcome == Unresolved then [Unresolved]
      else [t.outcome] + Trials(rolls[t.used..], n - 1)
  }

  /** The point phase ends on the first decisive roll: every roll before it is
      neither the point nor a 7, and the game is won exactly when that roll
      repeats the point */
  lemma {:induction false} PointPhaseEndsAtFirstDecisiveRoll(point: int, rolls: seq<Roll>)
    ensures var r := ResolvePoint(point, rolls);
      && (forall k :: 0 <= k < |rolls| && (k < r.used - 1 || r.outcome == Unresolved) ==> !Decisive(point, rolls[k]))
      && (r.outcome != Unresolved ==> 0 < r.used && Decisive(point, rolls[r.used - 1]))
      && (r.outcome == Win ==> Sum(rolls[r.used - 1]) == point)
      && (r.outcome == Loss ==> Sum(rolls[r.used - 1]) == 7 && point != 7)
    decreases |rolls|
  {
    if rolls != [] && !Decisive(point, rolls[0]) {
      PointPhaseEndsAtFirstDecisiveRoll(point, rolls[1..]);
      var r' := ResolvePoint(point, rolls[1..]);
      forall k | 1 <= k < |rolls| && (k < r'.used || r'.outcome == Unresolved)
        ensures !Decisive(point, rolls[k])
      {
        assert rolls[k] == rolls[1..][k - 1];
      }
    }
  }

  /** The come-out rules: a natural wins and a craps roll loses on the spot,
      consuming one roll; any other sum is a point in {4, 5, 6, 8, 9, 10}, and
      the game continues as the point phase for that sum */
  lemma ComeOutRules(rolls: seq<Roll>)
    requires rolls != []
    ensures var s := Sum(rolls[0]);
      && (s == 7 || s == 11 ==> Trial(rolls) == Resolution(Win, 1))
      && (s == 2 || s == 3 || s == 12 ==> Trial(rolls) == Resolution(Loss, 1))
      && (!(s == 7 || s == 11 || s == 2 || s == 3 || s == 12) ==>
            IsPointValue(s) && Trial(rolls) == Shift(ResolvePoint(s, rolls[1..]), 1))
  {
  }

  /** Each decided game adds one to the tally when it is won and nothing when
      it is lost */
  lemma TrialsStep(rolls: seq<Roll>, n: nat)
    requires 0 < n && Trial(rolls).outcome != Unresolved
    ensures var t := Trial(rolls);
      Wins(Trials(rolls, n)) == Wins(Trials(rolls[t.used..], n - 1)) + (if t.outcome == Win then 1 else 0)
  {
    var t := Trial(rolls);
    var rest := Trials(rolls[t.used..], n - 1);
    assert Trials(rolls, n) == [t.outcome] + rest;
    WinsAppend([t.outcome], rest);
    TallyStep([], t.outcome);
  }

  /** Playing more games on the same stream only extends the list of outcomes */
  lemma {:induction false} TrialsPrefix(rolls: seq<Roll>, n: nat)
    ensures Trials(rolls, n) <= Trials(rolls, n + 1)
    decreases n
  {
    if n > 0 {
      var t := Trial(rolls);
      if t.outcome != Unresolved {
        TrialsPrefix(rolls[t.used..], n - 1);
      }
    }
  }

  /** The win tally never decreases from one game to the next */
  lemma WinsNeverDecrease(rolls: seq<Roll>, n: nat)
    ensures Wins(Trials(rolls, n)) <= Wins(Trials(rolls, n + 1))
  {
    TrialsPrefix(rolls, n);
    var a := Trials(rolls, n);
    var b := Trials(rolls, n + 1);
    assert b == a + b[|a|..];
    WinsAppend(a, b[|a|..]);
  }

  /** The point phase of craps.py: re-roll from position `pos` of the stream
      until the point or a 7 comes up; `next` is the position after the last
      roll read */
  method RollForPoint(point: int, rolls: seq<Roll>, pos: nat) returns (outcome: Outcome, next: nat)
    requires pos <= |rolls|
    ensures pos <= next <= |rolls|
    ensures ResolvePoint(point, rolls[pos..]) == Resolution(outcome, next - pos)
  {
    next := pos;
    while true
      invariant pos <= next <= |rolls|
      invariant ResolvePoint(point, rolls[pos..]) == Shift(ResolvePoint(point, rolls[next..]), next - pos)
      decreases |rolls| - next
    {
      if next == |rolls| {
        return Unresolved, next;
      }
      var sumNew := Sum(rolls[next]);
      assert rolls[next..][1..] == rolls[next + 1..];
      next := next + 1;
      if sumNew == point {
        return Win, next;
      } else if sumNew == 7 {
        return Loss, next;
      }
    }
  }

  /** One game of craps.py played from position `pos` of the stream: the
      come-out roll, then the point phase when a point was set */
  method PlayGame(rolls: seq<Roll>, pos: nat) returns (outcome: Outcome, next: nat)
    requires pos <= |rolls|
    ensures pos <= next <= |rolls|
    ensures Trial(rolls[pos..]) == Resolution(outcome, next - pos)
  {
    if pos == |rolls| {
      return Unresolved, pos;
    }
    var sum := Sum(rolls[pos]);
    if sum == 7 || sum == 11 {
      outcome, next := Win, pos + 1;
    } else if sum == 2 || sum == 3 || sum == 12 {
      outcome, next := Loss, pos + 1;
    } else {
      assert rolls[pos..][1..] == rolls[pos + 1..];
      outcome, next := RollForPoint(sum, rolls, pos + 1);
    }
  }

  /** The simulation loop of craps.py over `n` games: returns the win tally,
      and whether the stream held enough rolls to finish every game */
  method CountWins(rolls: seq<Roll>, n: nat) returns (numWins: nat, completed: bool)
    ensures numWins <= n
    ensures numWins == Wins(Trials(rolls, n))
    ensures completed <==> Completed(Trials(rolls, n), n)
  {
    numWins, completed := 0, true;
    var pos: nat := 0;
    ghost var done: seq<Outcome> := [];
    for i := 0 to n
      invariant |done| == i && Completed(done, i)
      invariant Played(rolls, n, done, pos)
      invariant numWins == Wins(done)
    {
      ghost var start := pos;
      var outcome: Outcome;
      outcome, pos := PlayGame(rolls, pos);
      if outcome == Unresolved {
        RunStops(rolls, n, done, start);
        assert Trials(rolls, n)[i] == Unresolved;
        completed := false;
        return;
      }
      RunContinues(rolls, n, done, start, pos, outcome);
      TallyStep(done, outcome);
      if outcome == Win {
        numWins := numWins + 1;
      }
      done := done + [outcome];
    }
    assert done + [] == done;
  }

  /** The games in `done` are the first games of the run of `n`, and the
      rest of the run is played from position `pos` of the stream */
  ghost predicate Played(rolls: seq<Roll>, n: nat, done: seq<Outcome>, pos: nat) {
    pos <= |rolls| && |done| <= n && done + Trials(rolls[pos..], n - |done|) == Trials(rolls, n)
  }

  /** A game the stream cannot finish is the last entry of the run */
  lemma RunStops(rolls: seq<Roll>, n: nat, done: seq<Outcome>, pos: nat)
    requires Played(rolls, n, done, pos) && |done| < n
    requires Trial(rolls[pos..]).outcome == Unresolved
    ensures Trials(rolls, n) == done + [Unresolved]
  {
  }

  /** A decided game, played from `pos` to `next`, is the next game of the run */
  lemma RunContinues(rolls: seq<Roll>, n: nat, done: seq<Outcome>, pos: nat, next: nat, outcome: Outcome)
    requires Played(rolls, n, done, pos) && |done| < n && pos <= next <= |rolls|
    requires Trial(rolls[pos..]) == Resolution(outcome, next - pos) && outcome != Unresolved
    ensures Played(rolls, n, done + [outcome], next)
  {
    assert rolls[pos..][next - pos..] == rolls[next..];
    var rest := Trials(rolls[next..], n - |done| - 1);
    assert Trials(rolls[pos..], n - |done|) == [outcome] + rest;
    assert done + ([outcome] + rest) == (done + [outcome]) + rest;
  }

  /** |x| */
  function Abs(x: real): (a: real)
    ensures 0.0 <= a && (a == x || a == -x)
  {
    if x < 0.0 then -x else x
  }

  /** How far `approx` is from `exact`, relative to `exact` */
  function RelativeError(approx: real, exact: real): (e: real)
    requires exact != 0.0
    ensures 0.0 <= e
    ensures e == 0.0 <==> approx == exact
    ensures e * Abs(exact) == Abs(approx - exact)
  {
    Abs((approx - exact) / exact)
  }

  /** What craps.py reports at the end of a run */
  datatype Report = Report(pExact: real, pApprox: real, relativeError: real)

  /** A whole run of craps.py: play `Simulations` games on the stream and
      report the win rate and its relative error against 244/495; None when
      the stream ran out before the last game was decided */
  method Simulate(rolls: seq<Roll>) returns (report: Option<Report>)
    ensures report.Some? <==> Completed(Trials(rolls, Simulations), Simulations)
    ensures report.Some? ==>
      && report.value.pExact == ExactWinProbability
      && report.value.pApprox == WinRate(Wins(Trials(rolls, Simulations)), Simulations)
      && report.value.relativeError == RelativeError(report.value.pApprox, ExactWinProbability)
    ensures report.Some? ==> 0.0 <= report.value.pApprox <= 1.0 && 0.0 <= report.value.relativeError
  {
    var numWins, completed := CountWins(rolls, Simulations);
    if !completed {
      return None;
    }
    var pExact := ExactWinProbability;
    var pApprox := numWins as real / Simulations as real;
    var relativeError := Abs((pApprox - pExact) / pExact);
    report := Some(Report(pExact, pApprox, relativeError));
  }

  /** The number of rolls of two dice whose sum is `sum`, counting the rolls
      whose first die is at least `die1` */
  function WaysFrom(sum: int, die1: int): nat
    decreases 7 - die1
  {
    if die1 > 6 then 0
    else (if 1 <= sum - die1 <= 6 then 1 else 0) + WaysFrom(sum, die1 + 1)
  }

  /** Out of the 36 equally likely rolls, how many have the given sum */
  function Ways(sum: int): nat {
    WaysFrom(sum, 1)
  }

  /** The probability that one roll has the given sum */
  function Chance(sum: int): real {
    Ways(sum) as real / 36.0
  }

  /** The probability that point phase for `point` ends with the point */
  function PointWinChance(point: int): real
    requires Ways(point) + Ways(7) > 0
  {
    Chance(point) * Chance(point) / (Chance(point) + Chance(7))
  }

  /** Counting from `die1` on: the first dice that pair with a second die
      to make `sum` run from max(die1, sum - 6) to min(6, sum - 1) */
  lemma {:induction false} WaysFromCount(sum: int, die1: int)
    requires 1 <= die1 <= 7
    ensures var lo := if die1 < sum - 6 then sum - 6 else die1;
            var hi := if sum - 1 < 6 then sum - 1 else 6;
            WaysFrom(sum, die1) == if hi < lo then 0 else hi - lo + 1
    decreases 7 - die1
  {
    if die1 <= 6 {
      WaysFromCount(sum, die1 + 1);
    }
  }

  /** The two-dice frequencies: 6 - |sum - 7| ways for each sum from 2 to
      12 (1, 2, 3, 4, 5, 6, 5, 4, 3, 2, 1), and none for any other sum */
  lemma DiceFrequencies(sum: int)
    ensures 2 <= sum <= 12 ==> Ways(sum) == 6 - (if sum < 7 then 7 - sum else sum - 7)
    ensures !(2 <= sum <= 12) ==> Ways(sum) == 0
  {
    WaysFromCount(sum, 1);
  }

  /** 244/495 is the chance of a natural plus, for every point, the chance of
      rolling that point and then rolling it again before a 7 */
  lemma ExactWinProbabilityDerivation()
    ensures ExactWinProbability ==
      Chance(7) + Chance(11)
      + PointWinChance(4) + PointWinChance(5) + PointWinChance(6)
      + PointWinChance(8) + PointWinChance(9) + PointWinChance(10)
  {
    DiceFrequencies(4); DiceFrequencies(5); DiceFrequencies(6); DiceFrequencies(7);
    DiceFrequencies(8); DiceFrequencies(9); DiceFrequencies(10); DiceFrequencies(11);
  }
}
