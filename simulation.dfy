/**
 * What the Monte Carlo simulations share: how a single trial ends, the running
 * tally of wins over a run of trials, and the empirical probability
 * wins / trials that both games report.
 *
 * The random generator is not modelled. Each simulation reads its random
 * values from an explicit input stream, and a trial that runs out of input
 * before it is decided ends as Unresolved.
 */
module Simulation {

  datatype Option<T> = None | Some(value: T) {
    /** The value, or `default` when there is none */
    function GetOr(default: T): T {
      match this
      case Some(v) => v
      case None => default
    }
  }

  /** How one trial ended; Unresolved when the input ran out before a decision */
  datatype Outcome = Win | Loss | Unresolved

  /** The outcome of a trial and how many random values it consumed */
  datatype Resolution = Resolution(outcome: Outcome, used: nat)

  /** The same resolution, seen from `k` values earlier in the stream */
  function Shift(r: Resolution, k: nat): Resolution {
    Resolution(r.outcome, r.used + k)
  }

  /** The running tally: how many of the trial outcomes are wins */
  function Wins(outcomes: seq<Outcome>): (w: nat)
    ensures w <= |outcomes|
  {
    multiset(outcomes)[Win]
  }

  /** Every one of the `n` trials of a run was decided */
  predicate Completed(outcomes: seq<Outcome>, n: nat) {
    |outcomes| == n && Unresolved !in outcomes
  }

  /** The tally of two runs one after the other is the sum of their tallies */
  lemma WinsAppend(a: seq<Outcome>, b: seq<Outcome>)
    ensures Wins(a + b) == Wins(a) + Wins(b)
  {
  }

  /** The tally counts one more exactly when the appended trial is a win */
  lemma TallyStep(done: seq<Outcome>, o: Outcome)
    ensures Wins(done + [o]) == Wins(done) + (if o == Win then 1 else 0)
  {
  }

  /** The empirical probability wins / n, as an exact ratio */
  function WinRate(wins: nat, n: nat): (p: real)
    requires 0 < n
    ensures 0.0 <= p
    ensures wins <= n ==> p <= 1.0
    ensures p * (n as real) == wins as real
  {
    wins as real / n as real
  }
}
