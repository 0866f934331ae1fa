/**
 * The invariant every reachable game state satisfies, and the proofs that the
 * constructor establishes it and every tick, spawn and key press keeps it.
 *
 * Pipes always come in top/bottom pairs that share x, width and the `passed`
 * flag and lie a fixed opening apart, and the score is exactly half the number
 * of passed pipes. Together these make the score a whole number between ticks.
 */
module Consistency {
  import opened Entities
  import opened Spawner
  import opened Simulation

  /** The number of pipes already scored. */
  function PassedCount(ps: seq<Pipe>): (c: nat)
    ensures c <= |ps|
    decreases |ps|
  {
    if ps == [] then 0
    else PassedCount(ps[..|ps| - 1]) + (if ps[|ps| - 1].passed then 1 else 0)
  }

  /** A top pipe and the bottom pipe spawned with it, as the spawner makes them and ticks keep them. */
  predicate IsPair(top: Pipe, bottom: Pipe) {
    && top.x == bottom.x
    && top.width == bottom.width == PipeW
    && top.height == bottom.height == PipeH
    && bottom.y - top.y == PipeH + OpeningSpace
    && TopYLow < top.y <= TopYHigh
    && top.passed == bottom.passed
  }

  /** The j-th spawned pair sits at indices 2j and 2j + 1. */
  predicate PairAt(ps: seq<Pipe>, j: int) {
    0 <= j && 2 * j + 1 < |ps| && IsPair(ps[2 * j], ps[2 * j + 1])
  }

  predicate Paired(ps: seq<Pipe>) {
    |ps| % 2 == 0 && forall j :: 0 <= j < |ps| / 2 ==> PairAt(ps, j)
  }

  /** The invariant of every reachable state. */
  predicate Consistent(s: GameState) {
    && s.bird.x == BirdX && s.bird.width == BirdW && s.bird.height == BirdH
    && s.bird.y >= 0
    && Paired(s.pipes)
    && s.halfPoints == PassedCount(s.pipes)
  }

  lemma InitialConsistent()
    ensures Consistent(Initial())
  {
  }

  /**
   * When flags only go from false to true, the passed count grows by the
   * number of flags that flipped.
   */
  lemma {:induction false} FlipCountAccounts(before: seq<Pipe>, after: seq<Pipe>)
    requires |before| == |after|
    requires forall i :: 0 <= i < |before| ==> before[i].passed ==> after[i].passed
    ensures PassedCount(after) == PassedCount(before) + FlipCount(before, after)
  {
    if before != [] {
      var n := |before| - 1;
      FlipCountAccounts(before[..n], after[..n]);
    }
  }

  /** Pairs whose halves agree on `passed` hold an even number of passed pipes. */
  lemma {:induction false} PairedPassedCountEven(ps: seq<Pipe>)
    requires Paired(ps)
    ensures PassedCount(ps) % 2 == 0
  {
    if ps != [] {
      var m := |ps| - 2;
      var rest := ps[..m];
      assert PairAt(ps, m / 2);
      assert ps[..|ps| - 1][..m] == rest;
      assert Paired(rest) by {
        forall j | 0 <= j < |rest| / 2 ensures PairAt(rest, j) {
          assert PairAt(ps, j);
        }
      }
      PairedPassedCountEven(rest);
    }
  }

  /** Between ticks the score, halfPoints / 2, is a whole number. */
  lemma ScoreIsWhole(s: GameState)
    requires Consistent(s)
    ensures s.halfPoints % 2 == 0
  {
    PairedPassedCountEven(s.pipes);
  }

  /** A tick keeps the invariant. */
  lemma StepKeepsConsistent(s: GameState)
    requires Consistent(s)
    ensures Consistent(Step(s))
  {
    var r := Step(s);
    StepMovesBird(s);
    StepScrollsPipes(s);
    StepScores(s);
    assert Paired(r.pipes) by {
      forall j | 0 <= j < |r.pipes| / 2 ensures PairAt(r.pipes, j) {
        assert PairAt(s.pipes, j);
      }
    }
    FlipCountAccounts(s.pipes, r.pipes);
  }

  /** Appending a freshly spawned pair adds no passed pipe. */
  lemma PassedCountAppendFresh(ps: seq<Pipe>, pair: seq<Pipe>)
    requires |pair| == 2 && !pair[0].passed && !pair[1].passed
    ensures PassedCount(ps + pair) == PassedCount(ps)
  {
    var all := ps + pair;
    assert all[..|all| - 1][..|ps|] == ps;
  }

  /** Appending one more pair to a list of pairs gives a list of pairs. */
  lemma PairedAppend(ps: seq<Pipe>, top: Pipe, bottom: Pipe)
    requires Paired(ps) && IsPair(top, bottom)
    ensures Paired(ps + [top, bottom])
  {
    var all := ps + [top, bottom];
    var n := |ps|;
    forall j | 0 <= j < |all| / 2 ensures PairAt(all, j) {
      if 2 * j < n {
        assert PairAt(ps, j);
        assert all[2 * j] == ps[2 * j] && all[2 * j + 1] == ps[2 * j + 1];
      } else {
        assert all[2 * j] == top && all[2 * j + 1] == bottom;
      }
    }
  }

  /** A spawn keeps the invariant. */
  lemma SpawnKeepsConsistent(s: GameState, draw: nat, resolution: nat)
    requires Consistent(s) && draw < resolution
    ensures Consistent(Spawn(s, draw, resolution))
  {
    var pair := PipePair(draw, resolution);
    assert pair == [pair[0], pair[1]];
    PairedAppend(s.pipes, pair[0], pair[1]);
    PassedCountAppendFresh(s.pipes, pair);
  }

  /** A key press keeps the invariant, and a restart from a reachable state is exactly the initial state. */
  lemma PressKeyKeepsConsistent(s: GameState, keyCode: int)
    requires Consistent(s)
    ensures Consistent(PressKey(s, keyCode))
    ensures keyCode == KeySpace && s.gameOver ==> PressKey(s, keyCode) == Initial()
  {
  }
}
