/**
 * The obstacle spawner: a top/bottom pipe pair whose opening lies at a random
 * height. The random number in [0, 1) is a parameter, given as the exact
 * fraction draw / resolution.
 */
module Spawner {
  import opened Entities

  /** Fixed vertical distance between the top pipe's bottom edge and the bottom pipe's top edge. */
  const OpeningSpace: int := BoardHeight / 4

  /**
   * The band of the top pipe's `y`: TopYLow < y <= TopYHigh. TopYHigh is the
   * height for the random number 0; TopYLow, for the random number 1, is
   * approached but never reached.
   */
  const TopYLow: int := PipeY - PipeH / 4 - PipeH / 2
  const TopYHigh: int := PipeY - PipeH / 4

  /**
   * Java's cast of the real number num / den to `int`: truncation toward zero
   * (not Dafny's Euclidean division, which rounds negative quotients down).
   * The result's magnitude is the largest multiple of den not above |num|,
   * divided by den, and its sign is num's.
   */
  function CastToInt(num: int, den: int): (r: int)
    requires den > 0
    ensures 0 <= num ==> 0 <= r && r * den <= num < r * den + den
    ensures num < 0 ==> r <= 0 && (-r) * den <= -num < (-r) * den + den
  {
    if num >= 0 then
      DivBounds(num, den);
      num / den
    else
      var q := (-num) / den;
      DivBounds(-num, den);
      assert -(-q) == q;
      -q
  }

  /** Euclidean division of a non-negative numerator brackets it between multiples of the divisor. */
  lemma DivBounds(n: int, d: int)
    requires n >= 0 && d > 0
    ensures 0 <= n / d && (n / d) * d <= n < (n / d) * d + d
  {
  }

  /**
   * The top pipe's `y` for the random number draw / resolution: the
   * truncation of pipeY - pipeH/4 - random * (pipeH/2).
   */
  function SpawnTopY(draw: nat, resolution: nat): (y: int)
    requires draw < resolution
    ensures TopYLow < y <= TopYHigh
  {
    var num := PipeY * resolution - (PipeH / 4) * resolution - draw * (PipeH / 2);
    var y := CastToInt(num, resolution);
    BandBound(-y, resolution, draw);
    y
  }

  /** The bound arithmetic behind SpawnTopY's contract, for the magnitude t of the result. */
  lemma BandBound(t: int, resolution: nat, draw: nat)
    requires draw < resolution
    requires t * resolution <= 128 * resolution + 256 * draw < t * resolution + resolution
    ensures 128 <= t < 384
  {
    assert (t + 1) * resolution == t * resolution + resolution;
    MulCancel(127, t + 1, resolution);
    assert t * resolution < 384 * resolution;
    MulCancel(t, 384, resolution);
  }

  /** Multiplying by a positive number preserves strict order, so it can be cancelled. */
  lemma MulCancel(a: int, b: int, c: int)
    requires c > 0 && a * c < b * c
    ensures a < b
  {
    assert (b - a) * c == b * c - a * c > 0;
  }

  /** With a draw counted in 256ths, each draw gives its own height in the band. */
  lemma SpawnTopYWholeDraws(draw: nat)
    requires draw < 256
    ensures SpawnTopY(draw, 256) == TopYHigh - draw
  {
    var num := PipeY * 256 - (PipeH / 4) * 256 - draw * (PipeH / 2);
    assert num == (-128 - draw) * 256;
    assert -num == (128 + draw) * 256;
  }

  /**
   * The pair of pipes placed by one spawn, top pipe first: both at the right
   * edge of the board, not yet passed, a fixed opening apart.
   */
  function PipePair(draw: nat, resolution: nat): (pair: seq<Pipe>)
    requires draw < resolution
    ensures |pair| == 2
    ensures pair[0].x == pair[1].x == BoardWidth
    ensures pair[0].width == pair[1].width == PipeW
    ensures pair[0].height == pair[1].height == PipeH
    ensures !pair[0].passed && !pair[1].passed
    ensures pair[1].y - pair[0].y == PipeH + BoardHeight / 4
    ensures TopYLow < pair[0].y <= TopYHigh
  {
    var top := NewPipe().(y := SpawnTopY(draw, resolution));
    var bottom := NewPipe().(y := top.y + PipeH + OpeningSpace);
    [top, bottom]
  }
}
