/**
 * Penney's game over 3-grams as the Monte Carlo simulation plays it
 * (p3-montecarlo-penney-ante/penney_ante.py).
 *
 * Each player picks a string of three coin tosses. A trial tosses the coin
 * three times and then keeps sliding a 3-toss window along further tosses;
 * the first window equal to player 2's choice makes player 2 win, the first
 * equal to player 1's choice makes player 2 lose (player 2's choice is tested
 * first). The simulation estimates player 2's chance of winning, and the sweep
 * does so for every ordered pair of distinct 3-grams.
 *
 * The coin is read from an explicit stream of draws: each draw is the index,
 * 0 or 1, that np.random.randint(2) picks in the coin ['T', 'H'].
 */
module PenneyAnte {
  import opened Simulation

  /** One random draw: an index into the coin */
  type Draw = d: int | 0 <= d < 2 witness 0

  /** The two-sided coin */
  const Coin: string := "TH"

  /** Number of simulated games per pair of choices */
  const TrialsPerPair: nat := 10000

  /** All possible 3-grams, in the order of the table's rows and columns */
  const ThreeGrams: seq<string> := ["TTT", "TTH", "THT", "THH", "HTT", "HTH", "HHT", "HHH"]

  /** The coin face a draw selects */
  function Toss(d: Draw): (c: char)
    ensures c == 'T' || c == 'H'
    ensures c == 'T' <==> d == 0
  {
    Coin[d]
  }

  /** A string of coin faces */
  predicate OverCoin(s: string) {
    forall k :: 0 <= k < |s| ==> s[k] == 'T' || s[k] == 'H'
  }

  /** The 3-toss window that ends just before position `k` of the stream */
  function WindowAt(draws: seq<Draw>, k: nat): (w: string)
    requires 3 <= k <= |draws|
    ensures |w| == 3 && OverCoin(w)
  {
    [Toss(draws[k - 3]), Toss(draws[k - 2]), Toss(draws[k - 1])]
  }

  /** Keep the last two tosses of the window and add the new toss */
  function Slide(window: string, toss: char): (w: string)
    requires |window| == 3
    ensures |w| == 3 && w[0] == window[1] && w[1] == window[2] && w[2] == toss
  {
    window[1..] + [toss]
  }

  /** A window that ends the game: it equals one of the two choices */
  predicate Decides(p1: string, p2: string, window: string) {
    window == p2 || window == p1
  }

  /** The race from the window that ends before position `k` on: player 2's
      choice is checked first, then player 1's, and otherwise the window moves
      one toss along the stream. `used` is the position after the deciding
      window. */
  function RaceFrom(p1: string, p2: string, draws: seq<Draw>, k: nat): (r: Resolution)
    requires 3 <= k <= |draws|
    ensures k <= r.used <= |draws|
    ensures r.outcome == Unresolved ==> r.used == |draws|
    decreases |draws| - k
  {
    var window := WindowAt(draws, k);
    if window == p2 then Resolution(Win, k)
    else if window == p1 then Resolution(Loss, k)
    else if k == |draws| then Resolution(Unresolved, k)
    else RaceFrom(p1, p2, draws, k + 1)
  }

  /** One game: three tosses form the first window, then the race */
  function Trial(p1: string, p2: string, draws: seq<Draw>): (r: Resolution)
    ensures r.used <= |draws|
    ensures r.outcome == Unresolved ==> r.used == |draws|
    ensures r.outcome != Unresolved ==> 3 <= r.used
  {
    if |draws| < 3 then Resolution(Unresolved, |draws|)
    else RaceFrom(p1, p2, draws, 3)
  }

  /** The outcomes of up to `n` games played one after the other on the stream;
      the list stops at the first game the stream cannot finish */
  function Trials(p1: string, p2: string, draws: seq<Draw>, n: nat): (outcomes: seq<Outcome>)
    ensures |outcomes| <= n
    decreases |draws|
  {
    if n == 0 then []
    else
      var t := Trial(p1, p2, draws);
      if t.outcome == Unresolved then [Unresolved]
      else [t.outcome] + Trials(p1, p2, draws[t.used..], n - 1)
  }

  /** Sliding the window at position `k` over the toss at `k` gives the window
      at position `k + 1`: the window is always the last three tosses */
  lemma SlideAlongStream(draws: seq<Draw>, k: nat)
    requires 3 <= k < |draws|
    ensures Slide(WindowAt(draws, k), Toss(draws[k])) == WindowAt(draws, k + 1)
  {
  }

  /** From the window at position `k` on, the race stops at the first window
      that equals either choice, and player 2 wins exactly when that window is
      player 2's choice */
  lemma {:induction false} RaceStopsAtFirstMatch(p1: string, p2: string, draws: seq<Draw>, k: nat)
    requires 3 <= k <= |draws|
    ensures var r := RaceFrom(p1, p2, draws, k);
      && (forall m :: k <= m <= |draws| && (m < r.used || r.outcome == Unresolved) ==> !Decides(p1, p2, WindowAt(draws, m)))
      && (r.outcome != Unresolved ==> Decides(p1, p2, WindowAt(draws, r.used)))
      && (r.outcome != Unresolved ==> (r.outcome == Win <==> WindowAt(draws, r.used) == p2))
    decreases |draws| - k
  {
    if !Decides(p1, p2, WindowAt(draws, k)) && k < |draws| {
      RaceStopsAtFirstMatch(p1, p2, draws, k + 1);
    }
  }

  /** A game ends at the first window, from the three opening tosses on, that
      equals either choice; every earlier window matched neither, and player 2
      wins exactly when the deciding window is player 2's choice. A game the
      stream cannot finish has no matching window at all. */
  lemma TrialStopsAtFirstMatch(p1: string, p2: string, draws: seq<Draw>)
    ensures var r := Trial(p1, p2, draws);
      && (forall m :: 3 <= m <= |draws| && (m < r.used || r.outcome == Unresolved) ==> !Decides(p1, p2, WindowAt(draws, m)))
      && (r.outcome != Unresolved ==> 3 <= r.used && Decides(p1, p2, WindowAt(draws, r.used)))
      && (r.outcome != Unresolved ==> (r.outcome == Win <==> WindowAt(draws, r.used) == p2))
  {
    if 3 <= |draws| {
      RaceStopsAtFirstMatch(p1, p2, draws, 3);
    }
  }

  /** The opening window decides on the spot: player 2's choice wins and,
      failing that, player 1's choice loses, after three tosses */
  lemma OpeningWindow(p1: string, p2: string, draws: seq<Draw>)
    requires 3 <= |draws|
    ensures WindowAt(draws, 3) == p2 ==> Trial(p1, p2, draws) == Resolution(Win, 3)
    ensures WindowAt(draws, 3) != p2 && WindowAt(draws, 3) == p1 ==> Trial(p1, p2, draws) == Resolution(Loss, 3)
  {
  }

  /** Player 2's choice is tested first: with equal choices player 2 never
      loses */
  lemma Player2TestedFirst(p1: string, p2: string, draws: seq<Draw>)
    requires p1 == p2
    ensures Trial(p1, p2, draws).outcome != Loss
  {
    TrialStopsAtFirstMatch(p1, p2, draws);
  }

  /** The table lists eight pairwise distinct strings of three coin faces */
  lemma ThreeGramsDistinct()
    ensures |ThreeGrams| == 8
    ensures forall i :: 0 <= i < |ThreeGrams| ==> |ThreeGrams[i]| == 3 && OverCoin(ThreeGrams[i])
    ensures forall i, j :: 0 <= i < j < |ThreeGrams| ==> ThreeGrams[i] != ThreeGrams[j]
  {
  }

  /** Every string of three coin faces, and so every window, is one of the
      eight 3-grams */
  lemma ThreeGramsComplete(s: string)
    requires |s| == 3 && OverCoin(s)
    ensures s in ThreeGrams
  {
    assert s == [s[0], s[1], s[2]];
    if s[0] == 'T' {
      if s[1] == 'T' {
        if s[2] == 'T' { assert s == ThreeGrams[0]; } else { assert s == ThreeGrams[1]; }
      } else {
        if s[2] == 'T' { assert s == ThreeGrams[2]; } else { assert s == ThreeGrams[3]; }
      }
    } else {
      if s[1] == 'T' {
        if s[2] == 'T' { assert s == ThreeGrams[4]; } else { assert s == ThreeGrams[5]; }
      } else {
        if s[2] == 'T' { assert s == ThreeGrams[6]; } else { assert s == ThreeGrams[7]; }
      }
    }
  }

  /** Each decided game adds one to player 2's tally when player 2 wins it
      and nothing otherwise */
  lemma TrialsStep(p1: string, p2: string, draws: seq<Draw>, n: nat)
    requires 0 < n && Trial(p1, p2, draws).outcome != Unresolved
    ensures var t := Trial(p1, p2, draws);
      Wins(Trials(p1, p2, draws, n)) == Wins(Trials(p1, p2, draws[t.used..], n - 1)) + (if t.outcome == Win then 1 else 0)
  {
    var t := Trial(p1, p2, draws);
    var rest := Trials(p1, p2, draws[t.used..], n - 1);
    assert Trials(p1, p2, draws, n) == [t.outcome] + rest;
    WinsAppend([t.outcome], rest);
    TallyStep([], t.outcome);
  }

  /** The race loop of penney_ante.py: slide the window in place along the
      game's tosses, from position `k` on, until it equals either choice;
      `next` is the position after the last toss read */
  method SlideUntilDecided(p1: string, p2: string, threeGram: array<char>, game: seq<Draw>, k: nat)
    returns (outcome: Outcome, next: nat)
    requires 3 <= k <= |game| && threeGram.Length == 3
    requires threeGram[..] == WindowAt(game, k) && !Decides(p1, p2, threeGram[..])
    modifies threeGram
    ensures RaceFrom(p1, p2, game, k) == Resolution(outcome, next)
    ensures threeGram[..] == WindowAt(game, next)
  {
    next := k;
    while true
      invariant k <= next <= |game|
      invariant threeGram[..] == WindowAt(game, next) && !Decides(p1, p2, threeGram[..])
      invariant RaceFrom(p1, p2, game, k) == RaceFrom(p1, p2, game, next)
      decreases |game| - next
    {
      if next == |game| {
        return Unresolved, next;
      }
      // Keep the last two tosses and add the new toss
      ghost var before := threeGram[..];
      threeGram[0], threeGram[1] := threeGram[1], threeGram[2];
      threeGram[2] := Toss(game[next]);
      assert threeGram[..] == Slide(before, Toss(game[next]));
      SlideAlongStream(game, next);
      next := next + 1;
      if p2 == threeGram[..] {
        return Win, next;
      } else if p1 == threeGram[..] {
        return Loss, next;
      }
    }
  }

  /** One game of penney_ante.py played from position `pos` of the stream */
  method PlayGame(p1: string, p2: string, draws: seq<Draw>, pos: nat) returns (outcome: Outcome, next: nat)
    requires pos <= |draws|
    ensures pos <= next <= |draws|
    ensures Trial(p1, p2, draws[pos..]) == Resolution(outcome, next - pos)
  {
    var game := draws[pos..];
    if |game| < 3 {
      return Unresolved, |draws|;
    }
    // Form a 3-gram: toss the coin three times
    var threeGram := new char[3];
    threeGram[0], threeGram[1], threeGram[2] := Toss(game[0]), Toss(game[1]), Toss(game[2]);
    assert threeGram[..] == WindowAt(game, 3);
    var used: nat;
    if p2 == threeGram[..] {
      outcome, used := Win, 3;
    } else if p1 == threeGram[..] {
      outcome, used := Loss, 3;
    } else {
      outcome, used := SlideUntilDecided(p1, p2, threeGram, game, 3);
    }
    next := pos + used;
  }

  /** The games in `done` are the first games of the run of `n`, and the
      rest of the run is played from position `pos` of the stream */
  ghost predicate Played(p1: string, p2: string, draws: seq<Draw>, n: nat, done: seq<Outcome>, pos: nat) {
    pos <= |draws| && |done| <= n && done + Trials(p1, p2, draws[pos..], n - |done|) == Trials(p1, p2, draws, n)
  }

  /** A game the stream cannot finish is the last entry of the run */
  lemma RunStops(p1: string, p2: string, draws: seq<Draw>, n: nat, done: seq<Outcome>, pos: nat)
    requires Played(p1, p2, draws, n, done, pos) && |done| < n
    requires Trial(p1, p2, draws[pos..]).outcome == Unresolved
    ensures Trials(p1, p2, draws, n) == done + [Unresolved]
  {
  }

  /** A decided game, played from `pos` to `next`, is the next game of the run */
  lemma RunContinues(p1: string, p2: string, draws: seq<Draw>, n: nat, done: seq<Outcome>, pos: nat, next: nat, outcome: Outcome)
    requires Played(p1, p2, draws, n, done, pos) && |done| < n && pos <= next <= |draws|
    requires Trial(p1, p2, draws[pos..]) == Resolution(outcome, next - pos) && outcome != Unresolved
    ensures Played(p1, p2, draws, n, done + [outcome], next)
  {
    assert draws[pos..][next - pos..] == draws[next..];
    var rest := Trials(p1, p2, draws[next..], n - |done| - 1);
    assert Trials(p1, p2, draws[pos..], n - |done|) == [outcome] + rest;
    assert done + ([outcome] + rest) == (done + [outcome]) + rest;
  }

  /** The simulation loop of calculate_probability over `n` games: returns
      player 2's win tally, and whether the stream held enough tosses to
      finish every game */
  method CountWins(p1: string, p2: string, draws: seq<Draw>, n: nat) returns (numWins: nat, completed: bool)
    ensures numWins <= n
    ensures numWins == Wins(Trials(p1, p2, draws, n))
    ensures completed <==> Completed(Trials(p1, p2, draws, n), n)
  {
    numWins, completed := 0, true;
    var pos: nat := 0;
    ghost var done: seq<Outcome> := [];
    for i := 0 to n
      invariant |done| == i && Completed(done, i)
      invariant Played(p1, p2, draws, n, done, pos)
      invariant numWins == Wins(done)
    {
      ghost var start := pos;
      var outcome: Outcome;
      outcome, pos := PlayGame(p1, p2, draws, pos);
      if outcome == Unresolved {
        RunStops(p1, p2, draws, n, done, start);
        assert Trials(p1, p2, draws, n)[i] == Unresolved;
        completed := false;
        return;
      }
      RunContinues(p1, p2, draws, n, done, start, pos, outcome);
      TallyStep(done, outcome);
      if outcome == Win {
        numWins := numWins + 1;
      }
      done := done + [outcome];
    }
    assert done + [] == done;
  }

  /** Player 2's estimated chance of winning from `TrialsPerPair` games on the
      stream; None when the stream ran out before the last game was decided */
  function Estimate(p1: string, p2: string, draws: seq<Draw>): (e: Option<real>)
    ensures e.Some? <==> Completed(Trials(p1, p2, draws, TrialsPerPair), TrialsPerPair)
    ensures e.Some? ==> 0.0 <= e.value <= 1.0
  {
    var outcomes := Trials(p1, p2, draws, TrialsPerPair);
    if Completed(outcomes, TrialsPerPair) then Some(WinRate(Wins(outcomes), TrialsPerPair)) else None
  }

  /** calculate_probability: the share of `TrialsPerPair` games that player 2
      wins */
  method CalculateProbability(p1: string, p2: string, draws: seq<Draw>) returns (p: Option<real>)
    ensures p == Estimate(p1, p2, draws)
  {
    var numWins, completed := CountWins(p1, p2, draws, TrialsPerPair);
    if completed {
      p := Some(numWins as real / TrialsPerPair as real);
    } else {
      p := None;
    }
  }

  /** The table entry for player 1 choosing 3-gram `i` and player 2 choosing
      3-gram `j`: 0 on the diagonal and where the stream ran out */
  function Cell(streams: (nat, nat) -> seq<Draw>, i: nat, j: nat): real
    requires i < |ThreeGrams| && j < |ThreeGrams|
  {
    if i == j then 0.0 else Estimate(ThreeGrams[i], ThreeGrams[j], streams(i, j)).GetOr(0.0)
  }

  /** Every table entry is a probability, and the diagonal is 0 */
  lemma CellIsProbability(streams: (nat, nat) -> seq<Draw>, i: nat, j: nat)
    requires i < |ThreeGrams| && j < |ThreeGrams|
    ensures 0.0 <= Cell(streams, i, j) <= 1.0
    ensures i == j ==> Cell(streams, i, j) == 0.0
  {
  }

  /** penney_ante: fill the table of player 2's chances for every ordered pair
      of distinct 3-grams, row i for player 1's choice and column j for player
      2's; the stream for pair (i, j) is streams(i, j) */
  method Sweep(streams: (nat, nat) -> seq<Draw>) returns (pArray: array2<real>)
    ensures fresh(pArray)
    ensures pArray.Length0 == |ThreeGrams| && pArray.Length1 == |ThreeGrams|
    ensures forall i, j :: 0 <= i < |ThreeGrams| && 0 <= j < |ThreeGrams| ==> pArray[i, j] == Cell(streams, i, j)
  {
    var n := |ThreeGrams|;
    pArray := new real[n, n]((i, j) => 0.0);
    for i := 0 to n
      invariant forall i', j :: 0 <= i' < i && 0 <= j < n ==> pArray[i', j] == Cell(streams, i', j)
      invariant forall i', j :: i <= i' < n && 0 <= j < n ==> pArray[i', j] == 0.0
    {
      FillRow(pArray, streams, i);
    }
  }

  /** One pass of the inner loop of penney_ante: row `i` of the table */
  method FillRow(pArray: array2<real>, streams: (nat, nat) -> seq<Draw>, i: nat)
    requires i < |ThreeGrams| && pArray.Length0 == |ThreeGrams| && pArray.Length1 == |ThreeGrams|
    requires forall j :: 0 <= j < |ThreeGrams| ==> pArray[i, j] == 0.0
    modifies pArray
    ensures forall j :: 0 <= j < |ThreeGrams| ==> pArray[i, j] == Cell(streams, i, j)
    ensures forall i', j :: 0 <= i' < |ThreeGrams| && i' != i && 0 <= j < |ThreeGrams| ==> pArray[i', j] == old(pArray[i', j])
  {
    var n := |ThreeGrams|;
    for j := 0 to n
      invariant forall j' :: 0 <= j' < j ==> pArray[i, j'] == Cell(streams, i, j')
      invariant forall j' :: j <= j' < n ==> pArray[i, j'] == 0.0
      invariant forall i', j' :: 0 <= i' < n && i' != i && 0 <= j' < n ==> pArray[i', j'] == old(pArray[i', j'])
    {
      if j != i {
        var p := CalculateProbability(ThreeGrams[i], ThreeGrams[j], streams(i, j));
        if p.Some? {
          pArray[i, j] := p.value;
        }
      }
    }
  }
}
