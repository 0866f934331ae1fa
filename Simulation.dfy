/**
 * The game session as a value, and the pure rules that the FlappyBird class
 * follows: one simulation tick, the key handler, and repeated ticks.
 *
 * The score only ever grows by 0.5, so it is kept exactly as `halfPoints`,
 * the number of half points (score == halfPoints / 2).
 */
module Simulation {
  import opened Entities
  import opened Spawner

  /** Everything one tick, one spawn or one key press reads or writes. */
  datatype GameState = GameState(
    bird: Bird,
    velocityY: int,
    pipes: seq<Pipe>,
    halfPoints: nat,
    gameOver: bool)

  /** The session as the constructor sets it up. */
  function Initial(): GameState {
    GameState(NewBird(), 0, [], 0, false)
  }

  function Max(a: int, b: int): int {
    if a < b then b else a
  }

  /** One pipe's share of a tick: it scrolls left, then is scored once the bird is past it. */
  function StepPipe(bird: Bird, p: Pipe): Pipe {
    var moved := p.(x := p.x + VelocityX);
    if !moved.passed && bird.x > moved.x + moved.width then moved.(passed := true) else moved
  }

  /** The number of pipes whose `passed` flag went from false to true. */
  function FlipCount(before: seq<Pipe>, after: seq<Pipe>): (c: nat)
    requires |before| == |after|
    ensures c <= |before|
    decreases |before|
  {
    if before == [] then 0
    else
      var n := |before| - 1;
      FlipCount(before[..n], after[..n]) + (if !before[n].passed && after[n].passed then 1 else 0)
  }

  /** What the pipe loop of a tick produces: the new pipes, the half points gained, whether a pipe was hit. */
  datatype PipesOutcome = PipesOutcome(pipes: seq<Pipe>, gained: nat, hit: bool)

  /** The pipe loop of a tick, pipe by pipe in list order, for a bird already moved. */
  function StepPipes(bird: Bird, ps: seq<Pipe>): (r: PipesOutcome)
    ensures |r.pipes| == |ps|
    decreases |ps|
  {
    if ps == [] then PipesOutcome([], 0, false)
    else
      var n := |ps| - 1;
      var done := StepPipes(bird, ps[..n]);
      var q := StepPipe(bird, ps[n]);
      PipesOutcome(
        done.pipes + [q],
        done.gained + (if !ps[n].passed && q.passed then 1 else 0),
        done.hit || Collision(bird, q))
  }

  /**
   * The pipe loop treats every pipe on its own: each pipe takes its own step,
   * the half points gained are the flags it flipped, and a pipe is hit
   * exactly when the bird overlaps one of the moved pipes.
   */
  lemma {:induction false} StepPipesFacts(bird: Bird, ps: seq<Pipe>)
    ensures forall i :: 0 <= i < |ps| ==> StepPipes(bird, ps).pipes[i] == StepPipe(bird, ps[i])
    ensures StepPipes(bird, ps).gained == FlipCount(ps, StepPipes(bird, ps).pipes)
    ensures StepPipes(bird, ps).hit <==>
      exists i :: 0 <= i < |ps| && Collision(bird, StepPipes(bird, ps).pipes[i])
    decreases |ps|
  {
    if ps != [] {
      var n := |ps| - 1;
      StepPipesFacts(bird, ps[..n]);
      var done := StepPipes(bird, ps[..n]);
      var r := StepPipes(bird, ps);
      var q := StepPipe(bird, ps[n]);
      assert r.pipes == done.pipes + [q];
      assert r.pipes[..n] == done.pipes;
      if done.hit {
        var i :| 0 <= i < n && Collision(bird, done.pipes[i]);
        assert r.pipes[i] == done.pipes[i];
      } else if Collision(bird, q) {
        assert r.pipes[n] == q;
      }
    }
  }

  /** The pipe loop over one more pipe: the earlier pipes' outcome extended by the next pipe's. */
  lemma StepPipesExtend(bird: Bird, ps: seq<Pipe>, i: nat)
    requires i < |ps|
    ensures var done := StepPipes(bird, ps[..i]);
            var q := StepPipe(bird, ps[i]);
            StepPipes(bird, ps[..i + 1]) == PipesOutcome(
              done.pipes + [q],
              done.gained + (if !ps[i].passed && q.passed then 1 else 0),
              done.hit || Collision(bird, q))
  {
    assert ps[..i + 1][..i] == ps[..i];
  }

  /** One simulation tick: the bird falls, then the pipe loop runs, then the bottom of the board is checked. */
  function Step(s: GameState): GameState {
    var velocityY := s.velocityY + Gravity;
    var bird := s.bird.(y := Max(s.bird.y + velocityY, 0));
    var moved := StepPipes(bird, s.pipes);
    GameState(bird, velocityY, moved.pipes, s.halfPoints + moved.gained,
              s.gameOver || moved.hit || bird.y > BoardHeight)
  }

  /**
   * A tick's effect on the bird: gravity is added to the velocity and the
   * bird moves by the new velocity, never above the top of the board, and
   * stays in its own column.
   */
  lemma StepMovesBird(s: GameState)
    ensures Step(s).velocityY == s.velocityY + Gravity
    ensures Step(s).bird.x == s.bird.x && Step(s).bird.width == s.bird.width && Step(s).bird.height == s.bird.height
    ensures Step(s).bird.y == Max(s.bird.y + s.velocityY + Gravity, 0) && Step(s).bird.y >= 0
  {
  }

  /**
   * A tick's effect on the pipes: every pipe scrolls left by 4 and keeps its
   * height, size and place in the list; its `passed` flag only goes from
   * false to true, and does so exactly when the bird is past the pipe's
   * trailing edge.
   */
  lemma StepScrollsPipes(s: GameState)
    ensures |Step(s).pipes| == |s.pipes|
    ensures forall i :: 0 <= i < |s.pipes| ==>
      && Step(s).pipes[i].x == s.pipes[i].x - 4
      && Step(s).pipes[i].y == s.pipes[i].y
      && Step(s).pipes[i].width == s.pipes[i].width
      && Step(s).pipes[i].height == s.pipes[i].height
    ensures forall i :: 0 <= i < |s.pipes| ==>
      (Step(s).pipes[i].passed <==> s.pipes[i].passed || s.bird.x > Step(s).pipes[i].x + Step(s).pipes[i].width)
  {
    StepPipesFacts(Step(s).bird, s.pipes);
  }

  /** A tick's effect on the score: half a point for each pipe whose flag it flipped, so it never drops. */
  lemma StepScores(s: GameState)
    ensures Step(s).halfPoints == s.halfPoints + FlipCount(s.pipes, Step(s).pipes)
    ensures Step(s).halfPoints >= s.halfPoints
  {
    StepPipesFacts(Step(s).bird, s.pipes);
  }

  /**
   * A tick's effect on the game-over flag: it is set if it was, if the moved
   * bird overlaps a moved pipe, or if the bird has fallen below the board;
   * never cleared.
   */
  lemma StepEndsGame(s: GameState)
    ensures Step(s).gameOver <==>
      || s.gameOver
      || (exists i :: 0 <= i < |s.pipes| && Collision(Step(s).bird, Step(s).pipes[i]))
      || Step(s).bird.y > BoardHeight
  {
    StepPipesFacts(Step(s).bird, s.pipes);
  }

  /** The state after n ticks with no key press and no spawn in between. */
  function Steps(s: GameState, n: nat): GameState
    decreases n
  {
    if n == 0 then s else Step(Steps(s, n - 1))
  }

  /**
   * A key press. The space bar sets the velocity to the jump impulse; if the
   * game was over it instead restarts the session (bird back at its spawn
   * height, velocity 0, no pipes, score 0). Every other key is ignored.
   */
  function PressKey(s: GameState, keyCode: int): (r: GameState)
    ensures keyCode != KeySpace ==> r == s
    ensures keyCode == KeySpace && !s.gameOver ==> r == s.(velocityY := JumpVelocity)
    ensures keyCode == KeySpace && s.gameOver ==>
      && r.bird == s.bird.(y := BirdY)
      && r.velocityY == 0
      && r.pipes == []
      && r.halfPoints == 0
      && !r.gameOver
  {
    if keyCode != KeySpace then s
    else
      var jumped := s.(velocityY := JumpVelocity);
      if !jumped.gameOver then jumped
      else jumped.(bird := jumped.bird.(y := BirdY), velocityY := 0, pipes := [], halfPoints := 0, gameOver := false)
  }

  /** A spawn: the pipe pair for the random number draw / resolution joins the end of the list. */
  function Spawn(s: GameState, draw: nat, resolution: nat): (r: GameState)
    requires draw < resolution
    ensures |r.pipes| == |s.pipes| + 2 && r.pipes[..|s.pipes|] == s.pipes
    ensures r.pipes[|s.pipes|..] == PipePair(draw, resolution)
    ensures r.(pipes := s.pipes) == s
  {
    s.(pipes := s.pipes + PipePair(draw, resolution))
  }

  /** 1 + 2 + ... + n, the distance fallen in n ticks from rest. */
  function Triangle(n: nat): nat {
    if n == 0 then 0 else Triangle(n - 1) + n
  }

  /** The closed form of Triangle. */
  lemma {:induction false} TriangleClosedForm(n: nat)
    ensures 2 * Triangle(n) == n * (n + 1)
  {
    if n > 0 {
      TriangleClosedForm(n - 1);
      assert (n - 1) * n + 2 * n == n * (n + 1);
    }
  }

  /**
   * Free fall: from rest, n ticks later the velocity is n and the bird has
   * dropped 1 + 2 + ... + n = n(n + 1)/2 pixels, as long as no key is pressed.
   */
  lemma {:induction false} FreeFall(s: GameState, n: nat)
    requires s.velocityY == 0 && s.bird.y >= 0
    ensures Steps(s, n).velocityY == n
    ensures Steps(s, n).bird.y == s.bird.y + Triangle(n)
    ensures 2 * (Steps(s, n).bird.y - s.bird.y) == n * (n + 1)
  {
    TriangleClosedForm(n);
    if n > 0 {
      FreeFall(s, n - 1);
      StepMovesBird(Steps(s, n - 1));
    }
  }

  /**
   * Over any number of ticks the score never drops, a finished game stays
   * finished, the number of pipes is unchanged and the bird keeps its column.
   */
  lemma {:induction false} TicksAreMonotone(s: GameState, n: nat)
    ensures Steps(s, n).halfPoints >= s.halfPoints
    ensures s.gameOver ==> Steps(s, n).gameOver
    ensures |Steps(s, n).pipes| == |s.pipes|
    ensures Steps(s, n).bird.x == s.bird.x
  {
    if n > 0 {
      TicksAreMonotone(s, n - 1);
    }
  }

  /**
   * From the initial state, five ticks leave the velocity at 5 and the bird
   * at 320 + 1 + 2 + 3 + 4 + 5 = 335, still in play; a jump then sets the
   * velocity to -9 outright.
   */
  lemma FiveTicksThenJump()
    ensures Steps(Initial(), 5).velocityY == 5
    ensures Steps(Initial(), 5).bird.y == 335
    ensures !Steps(Initial(), 5).gameOver
    ensures PressKey(Steps(Initial(), 5), KeySpace).velocityY == -9
  {
    FreeFall(Initial(), 5);
    NoPipesNoCrash(Initial(), 5);
  }

  /** With no pipes, n ticks from rest do not end the game while the bird stays on the board. */
  lemma {:induction false} NoPipesNoCrash(s: GameState, n: nat)
    requires s.pipes == [] && !s.gameOver && s.velocityY == 0 && s.bird.y >= 0
    requires s.bird.y + Triangle(n) <= BoardHeight
    ensures Steps(s, n).pipes == [] && !Steps(s, n).gameOver
  {
    if n > 0 {
      NoPipesNoCrash(s, n - 1);
      FreeFall(s, n);
      StepEndsGame(Steps(s, n - 1));
    }
  }
}
