/** The rules of one simulation step as pure functions (Pong.cpp): what input
    means for a paddle's direction, how far the clock advances, how a paddle
    moves and how a ball moves and bounces. The per-frame methods of class
    Game.Pong are proved equal to these functions. */
module Rules {
  import opened Shapes

  /** Absolute value, the reference the distance and speed statements use. */
  function Abs(r: real): real
  {
    if r >= 0.0 then r else -r
  }

  // ---------------------------------------------------------------- input

  /** A paddle's direction rebuilt from the held keys alone: one step down for
      the "down" key, one step up for the "up" key, so both held cancel out. */
  function KeyDirection(upHeld: bool, downHeld: bool): (dir: int)
    ensures -1 <= dir <= 1
    ensures dir == 1 <==> downHeld && !upHeld
    ensures dir == -1 <==> upHeld && !downHeld
    ensures dir == 0 <==> upHeld == downHeld
  {
    (if downHeld then 1 else 0) - (if upHeld then 1 else 0)
  }

  // ---------------------------------------------------------------- clock

  /** The time slice in seconds for a frame that began `elapsedMs` milliseconds
      after the previous one: the elapsed time, capped at MaxDelta. */
  function FrameDelta(elapsedMs: nat): (delta: real)
    ensures 0.0 <= delta <= MaxDelta
    ensures delta * 1000.0 <= elapsedMs as real
    ensures delta < MaxDelta ==> delta * 1000.0 == elapsedMs as real
    ensures elapsedMs <= 50 ==> delta * 1000.0 == elapsedMs as real
    ensures FrameMs <= elapsedMs ==> 0.016 <= delta
  {
    var seconds := elapsedMs as real / 1000.0;
    if seconds > MaxDelta then MaxDelta else seconds
  }

  // ---------------------------------------------------------------- paddles

  /** Saturate a paddle centre into the legal band. */
  function ClampY(y: real): (c: real)
    ensures MinPaddleY <= c <= MaxPaddleY
    ensures MinPaddleY <= y <= MaxPaddleY ==> c == y
    ensures y < MinPaddleY ==> c == MinPaddleY
    ensures y > MaxPaddleY ==> c == MaxPaddleY
  {
    if y < MinPaddleY then MinPaddleY
    else if y > MaxPaddleY then MaxPaddleY
    else y
  }

  /** A paddle after one time slice: a paddle with a direction moves by
      direction * speed * delta and is then clamped into the band; a paddle
      without one is left alone. Only the centre's y ever changes. */
  function MovedPaddle(p: Paddle, delta: real): (q: Paddle)
    ensures q.pos.x == p.pos.x && q.dir == p.dir
    ensures p.dir == 0 ==> q == p
    ensures p.dir != 0 ==> InBand(q)
    ensures InBand(p) ==> InBand(q)
  {
    if p.dir != 0 then
      p.(pos := p.pos.(y := ClampY(p.pos.y + p.dir as real * PaddleSpeed * delta)))
    else
      p
  }

  /** Inside the band the move is exact: no clamping happens. */
  lemma MovedPaddleUnclamped(p: Paddle, delta: real)
    requires p.dir != 0
    requires MinPaddleY <= p.pos.y + p.dir as real * PaddleSpeed * delta <= MaxPaddleY
    ensures MovedPaddle(p, delta).pos.y == p.pos.y + p.dir as real * PaddleSpeed * delta
  {
  }

  /** Outside the band the clamp is hard: a moving paddle whose target lies
      beyond an edge of the band is put exactly on that edge. */
  lemma MovedPaddleClamped(p: Paddle, delta: real)
    requires p.dir != 0
    ensures p.pos.y + p.dir as real * PaddleSpeed * delta < MinPaddleY ==> MovedPaddle(p, delta).pos.y == MinPaddleY
    ensures p.pos.y + p.dir as real * PaddleSpeed * delta > MaxPaddleY ==> MovedPaddle(p, delta).pos.y == MaxPaddleY
  {
  }

  /** A zero time slice leaves a paddle in the band exactly where it was. */
  lemma MovedPaddleZeroDelta(p: Paddle)
    requires InBand(p) || p.dir == 0
    ensures MovedPaddle(p, 0.0) == p
  {
  }

  /** From the centre, moving down for a tenth of a second covers 30 units. */
  lemma MovedPaddleScenario()
    ensures MovedPaddle(Paddle(Vector2(5.0, 384.0), 1), 0.1) == Paddle(Vector2(5.0, 414.0), 1)
  {
  }

  // ---------------------------------------------------------------- balls

  /** Vertical distance between a paddle's centre and a point. */
  function PadBallDiff(paddle: Paddle, ballPos: Vector2): (r: real)
    ensures r == Abs(paddle.pos.y - ballPos.y)
    ensures r >= 0.0
    ensures r >= paddle.pos.y - ballPos.y && r >= ballPos.y - paddle.pos.y
    ensures r == paddle.pos.y - ballPos.y || r == ballPos.y - paddle.pos.y
  {
    var diff := paddle.pos.y - ballPos.y;
    if diff > 0.0 then diff else -diff
  }

  /** A point is within a paddle's reach exactly when it lies within half a
      paddle height above or below the paddle's centre. */
  lemma PadBallDiffReach(paddle: Paddle, ballPos: Vector2)
    ensures PadBallDiff(paddle, ballPos) <= PaddleReach
        <==> paddle.pos.y - PaddleReach <= ballPos.y <= paddle.pos.y + PaddleReach
  {
  }

  /** Explicit Euler step of the ball's position; the velocity is untouched. */
  function Integrate(b: Ball, delta: real): (r: Ball)
    ensures r.vel == b.vel
    ensures delta == 0.0 ==> r == b
  {
    b.(pos := Vector2(b.pos.x + b.vel.x * delta, b.pos.y + b.vel.y * delta))
  }

  predicate HitsLeftPaddle(b: Ball, lp: Paddle)
  {
    PadBallDiff(lp, b.pos) <= PaddleReach && b.pos.x <= LeftPlane && b.vel.x < 0.0
  }

  predicate HitsRightPaddle(b: Ball, rp: Paddle)
  {
    PadBallDiff(rp, b.pos) <= PaddleReach && b.pos.x >= RightPlane && b.vel.x > 0.0
  }

  predicate HitsTopWall(b: Ball)
  {
    b.pos.y <= TopPlane && b.vel.y < 0.0
  }

  predicate HitsBottomWall(b: Ball)
  {
    b.pos.y >= BottomPlane && b.vel.y > 0.0
  }

  /** The ball has left the field sideways: the game ends. */
  predicate OffScreen(pos: Vector2)
  {
    pos.x <= 0.0 || pos.x >= ScreenW
  }

  /** Bounce off the left paddle: the horizontal velocity changes exactly on
      a hit, and then only its sign, so the ball moves right afterwards. */
  function BounceLeft(b: Ball, lp: Paddle): (r: Ball)
    ensures r.pos == b.pos && r.vel.y == b.vel.y
    ensures Abs(r.vel.x) == Abs(b.vel.x)
    ensures r.vel.x != b.vel.x <==> HitsLeftPaddle(b, lp)
    ensures HitsLeftPaddle(b, lp) ==> r.vel.x > 0.0
  {
    if HitsLeftPaddle(b, lp) then b.(vel := b.vel.(x := -b.vel.x)) else b
  }

  /** Bounce off the right paddle, the mirror image of BounceLeft. */
  function BounceRight(b: Ball, rp: Paddle): (r: Ball)
    ensures r.pos == b.pos && r.vel.y == b.vel.y
    ensures Abs(r.vel.x) == Abs(b.vel.x)
    ensures r.vel.x != b.vel.x <==> HitsRightPaddle(b, rp)
    ensures HitsRightPaddle(b, rp) ==> r.vel.x < 0.0
  {
    if HitsRightPaddle(b, rp) then b.(vel := b.vel.(x := -b.vel.x)) else b
  }

  /** Bounce off the top wall: only a ball moving up is turned down. */
  function BounceTop(b: Ball): (r: Ball)
    ensures r.pos == b.pos && r.vel.x == b.vel.x
    ensures Abs(r.vel.y) == Abs(b.vel.y)
    ensures r.vel.y != b.vel.y <==> HitsTopWall(b)
    ensures HitsTopWall(b) ==> r.vel.y > 0.0
  {
    if HitsTopWall(b) then b.(vel := b.vel.(y := -b.vel.y)) else b
  }

  /** Bounce off the bottom wall: only a ball moving down is turned up. */
  function BounceBottom(b: Ball): (r: Ball)
    ensures r.pos == b.pos && r.vel.x == b.vel.x
    ensures Abs(r.vel.y) == Abs(b.vel.y)
    ensures r.vel.y != b.vel.y <==> HitsBottomWall(b)
    ensures HitsBottomWall(b) ==> r.vel.y < 0.0
  {
    if HitsBottomWall(b) then b.(vel := b.vel.(y := -b.vel.y)) else b
  }

  /** One ball over one time slice: integrate, then the left-paddle, the
      right-paddle, the top-wall and the bottom-wall bounce, in that order.
      The new position is the integrated one; speeds along both axes are kept. */
  function StepBall(b: Ball, lp: Paddle, rp: Paddle, delta: real): (r: Ball)
    ensures r.pos == Vector2(b.pos.x + b.vel.x * delta, b.pos.y + b.vel.y * delta)
    ensures Abs(r.vel.x) == Abs(b.vel.x) && Abs(r.vel.y) == Abs(b.vel.y)
  {
    BounceBottom(BounceTop(BounceRight(BounceLeft(Integrate(b, delta), lp), rp)))
  }

  /** Every ball of a collection stepped against the same paddles, in order. */
  function StepBalls(bs: seq<Ball>, lp: Paddle, rp: Paddle, delta: real): (r: seq<Ball>)
    ensures |r| == |bs|
    ensures forall n :: 0 <= n < |bs| ==> r[n] == StepBall(bs[n], lp, rp, delta)
  {
    seq(|bs|, n requires 0 <= n < |bs| => StepBall(bs[n], lp, rp, delta))
  }

  /** The horizontal velocity is negated exactly when the integrated ball hits
      one of the paddles, and is left alone otherwise. */
  lemma StepBallHorizontal(b: Ball, lp: Paddle, rp: Paddle, delta: real)
    ensures var m := Integrate(b, delta);
      StepBall(b, lp, rp, delta).vel.x
        == if HitsLeftPaddle(m, lp) || HitsRightPaddle(m, rp) then -b.vel.x else b.vel.x
  {
  }

  /** The vertical velocity is negated exactly when the integrated ball hits
      one of the walls, and is left alone otherwise. */
  lemma StepBallVertical(b: Ball, lp: Paddle, rp: Paddle, delta: real)
    ensures var m := Integrate(b, delta);
      StepBall(b, lp, rp, delta).vel.y
        == if HitsTopWall(m) || HitsBottomWall(m) then -b.vel.y else b.vel.y
  {
  }

  /** A ball already moving away from the left paddle is not flipped back,
      however deep inside the paddle's reach it is. */
  lemma MovingAwayNotReflipped(b: Ball, lp: Paddle, rp: Paddle, delta: real)
    requires b.vel.x > 0.0
    requires Integrate(b, delta).pos.x <= LeftPlane
    ensures StepBall(b, lp, rp, delta).vel.x == b.vel.x
  {
  }

  /** Running the left-paddle test twice at the same position flips at most once. */
  lemma BounceLeftOnce(b: Ball, lp: Paddle)
    ensures BounceLeft(BounceLeft(b, lp), lp) == BounceLeft(b, lp)
  {
  }

  /** Running the right-paddle test twice at the same position flips at most once. */
  lemma BounceRightOnce(b: Ball, rp: Paddle)
    ensures BounceRight(BounceRight(b, rp), rp) == BounceRight(b, rp)
  {
  }

  /** A zero time slice leaves the ball where it is. */
  lemma StepBallZeroDelta(b: Ball, lp: Paddle, rp: Paddle)
    ensures StepBall(b, lp, rp, 0.0).pos == b.pos
  {
  }

  /** A ball that comes in from x = 16 against a level left paddle is turned around. */
  lemma LeftBounceScenario()
    ensures StepBall(Ball(Vector2(16.0, 400.0), Vector2(-200.0, 0.0)),
                     Paddle(Vector2(5.0, 400.0), 0), RightStart, 0.016)
         == Ball(Vector2(12.8, 400.0), Vector2(200.0, 0.0))
  {
  }
}
