/**
 * The fixed geometry of the board, the two kinds of game entities (the bird
 * and a pipe obstacle) and the bounding-box collision test between them.
 *
 * Java's `int` fields become unbounded Dafny `int`s; sprite handles are not
 * part of the model.
 */
module Entities {

  // Board geometry (pixels)
  const BoardWidth: int := 360
  const BoardHeight: int := 640

  // Bird spawn position and size
  const BirdX: int := BoardWidth / 8
  const BirdY: int := BoardHeight / 2
  const BirdW: int := 34
  const BirdH: int := 24

  // Pipe spawn position and size
  const PipeX: int := BoardWidth
  const PipeY: int := 0
  const PipeW: int := 64
  const PipeH: int := 512

  // Per-tick motion
  const VelocityX: int := -4
  const Gravity: int := 1
  const JumpVelocity: int := -9

  /** The key code the game reacts to (the space bar's virtual key code). */
  const KeySpace: int := 32

  /** The bird: only `y` ever changes; the world scrolls, not the bird. */
  datatype Bird = Bird(x: int, y: int, width: int, height: int)

  /** A pipe obstacle; `passed` records that it has already been scored. */
  datatype Pipe = Pipe(x: int, y: int, width: int, height: int, passed: bool)

  /** A bird freshly spawned, with every field at its initial value. */
  function NewBird(): Bird {
    Bird(BirdX, BirdY, BirdW, BirdH)
  }

  /** A pipe freshly created, before the spawner sets its `y`. */
  function NewPipe(): Pipe {
    Pipe(PipeX, PipeY, PipeW, PipeH, false)
  }

  /**
   * Axis-aligned overlap of the bird's and the pipe's rectangles, with strict
   * comparisons: rectangles that only share an edge do not collide.
   */
  function Collision(a: Bird, b: Pipe): (r: bool)
    ensures a.x + a.width == b.x || b.x + b.width == a.x ==> !r
    ensures a.y + a.height == b.y || b.y + b.height == a.y ==> !r
  {
    a.x < b.x + b.width &&
    a.x + a.width > b.x &&
    a.y < b.y + b.height &&
    a.y + a.height > b.y
  }

  /** The pixel (px, py) lies inside the bird's rectangle. */
  ghost predicate BirdCovers(a: Bird, px: int, py: int) {
    a.x <= px < a.x + a.width && a.y <= py < a.y + a.height
  }

  /** The pixel (px, py) lies inside the pipe's rectangle. */
  ghost predicate PipeCovers(b: Pipe, px: int, py: int) {
    b.x <= px < b.x + b.width && b.y <= py < b.y + b.height
  }

  /**
   * For rectangles of positive size, the collision test holds exactly when
   * some pixel lies inside both rectangles.
   */
  lemma CollisionIffSharedPixel(a: Bird, b: Pipe)
    requires a.width > 0 && a.height > 0 && b.width > 0 && b.height > 0
    ensures Collision(a, b) <==> exists px, py :: BirdCovers(a, px, py) && PipeCovers(b, px, py)
  {
    if Collision(a, b) {
      var px := if a.x < b.x then b.x else a.x;
      var py := if a.y < b.y then b.y else a.y;
      assert BirdCovers(a, px, py) && PipeCovers(b, px, py);
    }
  }
}
