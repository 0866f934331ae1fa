/**
 * The game panel's state and the three operations that change it: the tick
 * (`Move`), the spawn (`PlacePipes`) and the key handler (`KeyPressed`).
 * Each updates the fields in place, as the panel does, and is proved to
 * follow the pure rules of module Simulation and to keep the invariant of
 * module Consistency.
 *
 * The two timers are not modelled as such: a timer firing is an explicit
 * call, and "the timers are running" is `!gameOver`, which `Move` and
 * `PlacePipes` require: the tick that ends the game stops both timers, and
 * only a restart from `KeyPressed` starts them again.
 */
module Game {
  import opened Entities
  import opened Spawner
  import opened Simulation
  import opened Consistency

  /**
   * The pipe loop of a tick, for the bird at its new height: each pipe in
   * turn scrolls left, is scored if the bird has just cleared it, and ends
   * the game if it overlaps the bird. Returns the new list, score and flag.
   */
  method MovePipes(bird: Bird, pipes: seq<Pipe>, halfPoints: nat, gameOver: bool)
    returns (moved: seq<Pipe>, score: nat, over: bool)
    ensures moved == StepPipes(bird, pipes).pipes
    ensures score == halfPoints + StepPipes(bird, pipes).gained
    ensures over == (gameOver || StepPipes(bird, pipes).hit)
  {
    moved, score, over := pipes, halfPoints, gameOver;
    ghost var done := StepPipes(bird, []);
    var i := 0;
    while i < |moved|
      invariant 0 <= i <= |moved| == |pipes|
      invariant done == StepPipes(bird, pipes[..i])
      invariant forall k :: 0 <= k < i ==> moved[k] == done.pipes[k]
      invariant forall k :: i <= k < |moved| ==> moved[k] == pipes[k]
      invariant score == halfPoints + done.gained
      invariant over == (gameOver || done.hit)
    {
      var pipe := moved[i];
      pipe := pipe.(x := pipe.x + VelocityX);

      // tracking score
      if !pipe.passed && bird.x > pipe.x + pipe.width {
        pipe := pipe.(passed := true);
        score := score + 1;
      }

      // checking collision
      if Collision(bird, pipe) {
        over := true;
      }

      StepPipesExtend(bird, pipes, i);
      done := PipesOutcome(
        done.pipes + [pipe],
        done.gained + (if !pipes[i].passed && pipe.passed then 1 else 0),
        done.hit || Collision(bird, pipe));
      moved := moved[i := pipe];
      i := i + 1;
    }
    assert pipes[..i] == pipes;
    assert moved == done.pipes;
  }

  class FlappyBird {
    var bird: Bird
    var velocityY: int
    var pipes: seq<Pipe>
    /** The score in half points: the displayed score is halfPoints / 2. */
    var halfPoints: nat
    var gameOver: bool

    /** The session state held in the fields. */
    ghost function State(): GameState
      reads this
    {
      GameState(bird, velocityY, pipes, halfPoints, gameOver)
    }

    ghost predicate Valid()
      reads this
    {
      Consistent(State())
    }

    /** A fresh session: bird at its spawn point and at rest, no pipes, score 0, running. */
    constructor ()
      ensures Valid() && State() == Initial()
    {
      bird := NewBird();
      velocityY := 0;
      pipes := [];
      halfPoints := 0;
      gameOver := false;
      InitialConsistent();
    }

    /** One tick of the game loop, which only runs while the game is not over. */
    method Move()
      requires Valid() && !gameOver
      modifies this
      ensures Valid()
      ensures State() == Step(old(State()))
    {
      ghost var before := State();
      StepKeepsConsistent(before);

      // bird
      velocityY := velocityY + Gravity;
      bird := bird.(y := bird.y + velocityY);
      bird := bird.(y := Max(bird.y, 0));

      // pipes
      ghost var after := Step(before);
      assert bird == after.bird && velocityY == after.velocityY;
      pipes, halfPoints, gameOver := MovePipes(bird, pipes, halfPoints, gameOver);
      assert pipes == after.pipes && halfPoints == after.halfPoints;

      // falling below the board
      if bird.y > BoardHeight {
        gameOver := true;
      }
      assert State() == after;
    }

    /**
     * One firing of the spawn timer, with the random number draw / resolution.
     * The timer only runs while the game is not over.
     */
    method PlacePipes(draw: nat, resolution: nat)
      requires Valid() && !gameOver && draw < resolution
      modifies this
      ensures Valid()
      ensures State() == Spawn(old(State()), draw, resolution)
    {
      var randomPipeY := SpawnTopY(draw, resolution);
      var openingSpace := BoardHeight / 4;

      var topPipe := NewPipe();
      topPipe := topPipe.(y := randomPipeY);
      pipes := pipes + [topPipe];

      var bottomPipe := NewPipe();
      bottomPipe := bottomPipe.(y := topPipe.y + PipeH + openingSpace);
      pipes := pipes + [bottomPipe];

      assert pipes == old(pipes) + PipePair(draw, resolution);
      SpawnKeepsConsistent(old(State()), draw, resolution);
    }

    /** The key handler: jump, or restart after the game is over. */
    method KeyPressed(keyCode: int)
      requires Valid()
      modifies this
      ensures Valid()
      ensures State() == PressKey(old(State()), keyCode)
    {
      if keyCode == KeySpace {
        velocityY := JumpVelocity;

        if gameOver {
          // restart
          bird := bird.(y := BirdY);
          velocityY := 0;
          pipes := [];
          halfPoints := 0;
          gameOver := false;
        }
      }
      PressKeyKeepsConsistent(old(State()), keyCode);
    }
  }
}
