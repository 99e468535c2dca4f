/** The value types and the geometry constants of the game (Pong.h).
    Coordinates are modelled as mathematical reals, not IEEE-754 floats. */
module Shapes {

  /** A 2D pair of coordinates. */
  datatype Vector2 = Vector2(x: real, y: real)

  /** A ball is exactly a position plus a velocity. */
  datatype Ball = Ball(pos: Vector2, vel: Vector2)

  /** A paddle is a position plus an integer direction. The type itself does not
      restrict the direction to -1, 0 or 1; only input processing produces such values. */
  datatype Paddle = Paddle(pos: Vector2, dir: int)

  /** Wall thickness, also the ball size and the paddle width. */
  const Thickness: int := 15
  /** Paddle height. */
  const PaddleH: int := 100

  /** Window size in logical units. */
  const ScreenW: real := 1024.0
  const ScreenH: real := 768.0

  /** Paddle speed in units per second. */
  const PaddleSpeed: real := 300.0

  /** Largest time slice fed to one step, in seconds. */
  const MaxDelta: real := 0.05
  /** Minimum frame interval in milliseconds. */
  const FrameMs: nat := 16

  /** Half the paddle height: the largest vertical distance that still counts as a paddle hit. */
  const PaddleReach: real := PaddleH as real / 2.0

  /** The legal band for a paddle's centre: clear of both walls. */
  const MinPaddleY: real := Thickness as real + PaddleH as real / 2.0
  const MaxPaddleY: real := ScreenH - PaddleH as real / 2.0 - Thickness as real

  /** Collision planes of the two paddles and of the two walls. */
  const LeftPlane: real := Thickness as real
  const RightPlane: real := ScreenW - Thickness as real
  const TopPlane: real := Thickness as real
  const BottomPlane: real := ScreenH - Thickness as real

  /** Where the game objects start (Pong.cpp, InitializeGame). */
  const LeftStart: Paddle := Paddle(Vector2(5.0, ScreenH / 2.0), 0)
  const RightStart: Paddle := Paddle(Vector2(ScreenW - 5.0, ScreenH / 2.0), 0)
  const BallStart: Ball := Ball(Vector2(ScreenW / 2.0, ScreenH / 2.0), Vector2(-200.0, 235.0))

  /** A paddle whose centre lies in the legal band. */
  predicate InBand(p: Paddle)
  {
    MinPaddleY <= p.pos.y <= MaxPaddleY
  }

  /** The constants fix the paddle band to [65, 703] and the collision planes
      to 15 and 1009 (paddles) and 15 and 753 (walls). */
  lemma GeometryConstants()
    ensures MinPaddleY == 65.0 && MaxPaddleY == 703.0 && PaddleReach == 50.0
    ensures LeftPlane == 15.0 && RightPlane == 1009.0
    ensures TopPlane == 15.0 && BottomPlane == 753.0
    ensures LeftStart.pos == Vector2(5.0, 384.0) && RightStart.pos == Vector2(1019.0, 384.0)
    ensures BallStart == Ball(Vector2(512.0, 384.0), Vector2(-200.0, 235.0))
    ensures InBand(LeftStart) && InBand(RightStart)
  {
  }
}
