# Flappy Bird game state, modelled in Dafny

This project models the game-state logic of a Java Swing Flappy Bird clone. The
logic lives in `src/FlappyBird.java`. The state is:

- the bird, a rectangle whose `y` changes and whose `x` is fixed;
- the bird's vertical velocity;
- an ordered list of pipes, each a rectangle with a `passed` flag;
- the score;
- a game-over flag.

Four operations act on the state:

- **collision**: a strict axis-aligned rectangle overlap test.
- **move**: one tick of the game loop. Gravity, then the bird moves and is
  clamped at the top of the board. Then each pipe scrolls left, is scored once
  the bird is past it, and is tested for collision. Last, the bird is checked
  against the bottom of the board.
- **placePipes**: the spawner. It appends a top/bottom pipe pair with a fixed
  opening, at a random height.
- **keyPressed**: the space bar sets the jump velocity, or restarts the
  session when the game is over.

The score only ever grows by 0.5, so the model keeps it exactly as a natural
number of half points, `halfPoints` (score = halfPoints / 2).

Layout, one module per file:

- `Entities.dfy`: the board constants, the `Bird` and `Pipe` records, and `Collision`.
- `Spawner.dfy`: Java's truncating `(int)` cast, the random top-pipe height
  and the spawned pair.
- `Simulation.dfy`: the session as a value (`GameState`) and the pure rules.
  `Step` is one tick and `StepPipes` its pipe loop. `PressKey` is the key
  handler, `Spawn` a spawn and `Steps` repeated ticks. The lemmas say what a
  tick does and what several ticks do.
- `Consistency.dfy`: the invariant of every reachable state. Pipes come in
  pairs that share x, size and `passed` flag, a fixed opening apart. The
  half-point count equals the number of passed pipes. Pipes are passed in
  pairs, so the score is always a whole number. The
  constructor establishes the invariant and every operation keeps it.
- `Game.dfy`: the class `FlappyBird`. Its fields are updated in place by
  `Move`, `PlacePipes` and `KeyPressed`, each proved to follow the pure rules.
  `MovePipes` holds the pipe loop of `move`, with its loop invariants.

Inputs the program takes from outside become parameters:

- The random number from `Math.random()` is the exact fraction
  `draw / resolution`, with `draw < resolution`.
- A key event is its key code.
- A firing of the game-loop timer or the spawn timer is a call to `Move` or
  `PlacePipes`. The timer callback stops both timers in the same call as the
  tick that sets `gameOver`, and the restart starts them again. So "the timers
  are running" is `!gameOver`, and `Move` and `PlacePipes` require it. After
  game over only `KeyPressed` changes the state.

`src/FlappyBird.java` has no high-score field and no file I/O, so no high
score is modelled. The pipe speed and the jump impulse are the code's
`velocityX = -4` and `velocityY = -9`.

## Model

| member | source | states |
|---|---|---|
| Entities.Collision | src/FlappyBird.java:165-170 | rectangles that only touch along a vertical or horizontal edge do not collide (strict comparisons) |
| Entities.CollisionIffSharedPixel | src/FlappyBird.java:165-170 | for rectangles of positive size, the collision test holds exactly when some pixel lies inside both the bird and the pipe |
| Spawner.CastToInt | src/FlappyBird.java:102 | the `(int)` cast of num/den truncates toward zero: the result has num's sign, and its magnitude times den is the largest multiple of den not above abs(num) |
| Spawner.SpawnTopY | src/FlappyBird.java:102 | for every random number in [0, 1), the top pipe's y lies in the band -383..-128 |
| Spawner.SpawnTopYWholeDraws | src/FlappyBird.java:102 | with the random number counted in 256ths, draw k gives top y = -128 - k, so every height in the band occurs |
| Spawner.PipePair | src/FlappyBird.java:98-112 | a spawn makes exactly two pipes, top first. Both are at x = 360 (board width), size 64 x 512, not passed. bottom.y - top.y = 512 + 640/4. top.y is in the band |
| Simulation.FlipCount | src/FlappyBird.java:148-151 | the number of pipes whose flag went from false to true is at most the number of pipes |
| Simulation.StepPipes | src/FlappyBird.java:144-157 | the pipe loop keeps the number of pipes |
| Simulation.StepPipesFacts | src/FlappyBird.java:144-157 | the pipe loop treats each pipe on its own: each new pipe is that pipe's step; the half points gained are the number of flipped flags; the loop reports a hit exactly when the bird overlaps some moved pipe |
| Simulation.StepMovesBird | src/FlappyBird.java:139-141 | after a tick, velocityY = old velocityY + 1 and bird.y = max(old y + new velocityY, 0) >= 0. The bird's x, width and height are unchanged |
| Simulation.StepScrollsPipes | src/FlappyBird.java:144-151 | a tick keeps the number and order of pipes. It lowers each pipe's x by exactly 4 and keeps its y, width and height. A pipe's passed flag is set exactly when it was set before or the bird is past the pipe's moved trailing edge, so it never goes back to false |
| Simulation.StepScores | src/FlappyBird.java:148-151 | a tick adds one half point per newly passed pipe and nothing else, so the score never decreases |
| Simulation.StepEndsGame | src/FlappyBird.java:153-162 | after a tick the game is over exactly when it already was, or the moved bird collides with some moved pipe, or bird.y > 640. A tick never clears the flag |
| Simulation.PressKey | src/FlappyBird.java:184-200 | a key other than space changes nothing. Space while running sets velocityY to -9 (not added) and changes nothing else. Space after game over resets bird.y to 320, velocity to 0, pipes to empty, score to 0 and the flag to false, keeping bird.x |
| Simulation.Spawn | src/FlappyBird.java:105-111 | a spawn appends the pair to the end of the list and leaves the existing pipes and every other field unchanged |
| Simulation.FreeFall | src/FlappyBird.java:139-141 | from rest with no key press, after n ticks velocityY = n and the bird has fallen 1 + 2 + ... + n = n(n + 1)/2 pixels |
| Simulation.TicksAreMonotone | src/FlappyBird.java:137-163 | over any number of ticks the score never drops, game over stays set, the number of pipes stays the same and bird.x is unchanged |
| Simulation.NoPipesNoCrash | src/FlappyBird.java:154-162 | with no pipes, falling from rest does not end the game while the bird stays on the board |
| Simulation.FiveTicksThenJump | src/FlappyBird.java:137-200 | from the initial state, five ticks give velocity 5 and bird.y = 335 with the game still running, and a jump then sets the velocity to -9 |
| Consistency.PassedCount | src/FlappyBird.java:148-151 | the number of pipes already scored is at most the number of pipes |
| Consistency.FlipCountAccounts | src/FlappyBird.java:148-151 | when flags only go from false to true, the number of passed pipes grows by exactly the number of flips |
| Consistency.PairedPassedCountEven | src/FlappyBird.java:150 | a list of pipe pairs whose halves agree on `passed` has an even number of passed pipes |
| Consistency.ScoreIsWhole | src/FlappyBird.java:150 | in every reachable state the half-point count is even: two pipes make one point |
| Consistency.InitialConsistent | src/FlappyBird.java:84-85 | the initial state satisfies the invariant |
| Consistency.StepKeepsConsistent | src/FlappyBird.java:137-163 | a tick keeps the invariant. The bird keeps its column and stays at y >= 0. Pairs stay pairs with equal flags. The half-point count stays equal to the number of passed pipes |
| Consistency.SpawnKeepsConsistent | src/FlappyBird.java:98-112 | a spawn keeps the invariant |
| Consistency.PressKeyKeepsConsistent | src/FlappyBird.java:184-200 | a key press keeps the invariant. A restart from any reachable state gives exactly the state the constructor builds |
| Game.MovePipes | src/FlappyBird.java:143-157 | the pipe loop, run in list order, returns the list, score and game-over flag that the pipe-loop specification gives |
| Game.FlappyBird.constructor | src/FlappyBird.java:71-95 | a new game has the bird at (45, 320) at rest, no pipes, score 0, running; the invariant holds |
| Game.FlappyBird.Move | src/FlappyBird.java:137-163 | called only while the game runs, since the timers stop at game over (lines 177-180). It updates the fields in place to exactly the state one tick gives, and keeps the invariant |
| Game.FlappyBird.PlacePipes | src/FlappyBird.java:98-112 | called only while the game runs, since the spawn timer stops at game over. It appends the spawned pair to the pipe field, leaves every other field unchanged, and keeps the invariant |
| Game.FlappyBird.KeyPressed | src/FlappyBird.java:183-200 | updates the fields to exactly the state the key handler gives, and keeps the invariant |

## Left out

- Rendering (`paintComponent`, `draw`, src/FlappyBird.java:114-135): these are graphics and font calls. This includes the `(int) score` truncation used only for display, which equals `halfPoints / 2`.
- Image loading and the `Image` fields (src/FlappyBird.java:12-16, 78-81): these are foreign resources. The model does not record which sprite a pipe carries. Top and bottom pipes are told apart by their place in the list.
- The Swing timers and their `start`/`stop` calls (src/FlappyBird.java:88-94, 172-181, 195-196): a timer firing is an explicit call to `Move` or `PlacePipes`. The timers running is the precondition `!gameOver` of both. Swing drops a timer event already queued when `stop()` runs, so no tick or spawn is handled after game over.
- `repaint()` in the timer callback: this is rendering.
- `src/App.java`: window setup only.
- Java's 32-bit `int` wrap-around is not modelled; all coordinates are unbounded integers. Pipes are never removed, so a pipe's x would wrap only after about 537 million ticks in one session (about 100 days at 60 ticks per second).
- The score is a Java `double`. The model counts half points exactly, which matches the `double` while the score stays below 2^52.
- Spawner.SpawnTopY: the model takes the random number as an exact fraction and does the subtraction exactly, so it does not model Java's `double` rounding. For each m in 257..384, the draw r = (m - 128)/256 - 2^-53 makes `-128 - r*256` equal to -m + 2^-45 exactly. That value is a tie between two doubles, and round-half-even gives -m. So Java yields -m where the model yields -(m - 1), which happens for 128 draws out of 2^53. The largest draw, 1 - 2^-53, gives -384 in Java, so Java's band is -384..-128 and the model's is -383..-128.
- Pipe identity and aliasing: a Java pipe is an object changed in place through the list. In the model a pipe is a value, and the list entry is replaced. No other reference to a pipe exists in the source, so nothing observable differs.
- Game.MovePipes: the pipe loop of `move` runs on local copies of the pipe list, score and game-over flag, which `Move` writes back afterwards. In Java the loop writes the fields directly. Nothing reads those fields during the loop, so the final state is the same.
- `keyTyped` and `keyReleased` (src/FlappyBird.java:202-206): both are empty handlers, so there is nothing to model.
