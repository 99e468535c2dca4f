/** The game object of Pong.cpp: its state and the methods that update it in
    place each frame. Window and renderer handles, drawing and teardown are not
    part of this model; the clock and the input devices are supplied by the
    caller as readings. */
module Game {
  import opened Shapes
  import opened Rules

  /** An event from the event queue; only the quit request matters. */
  datatype Event = QuitEvent | OtherEvent

  /** The held state of the keys the game reads. */
  datatype KeyState = KeyState(escape: bool, w: bool, s: bool, i: bool, k: bool)

  /** Everything one frame reads from outside: the pending events, the held keys,
      and two clock readings, the one the time slice is measured with and the
      one stored as the new frame start. */
  datatype Frame = Frame(events: seq<Event>, keys: KeyState, elapsedAt: nat, storedAt: nat)

  /** The clock readings of consecutive frames, as the frame pacing delivers
      them: each frame begins at least FrameMs after the previous stored
      reading, and the clock never runs backwards. */
  predicate PacedFrom(last: nat, frames: seq<Frame>)
    decreases |frames|
  {
    frames == [] ||
    (last + FrameMs <= frames[0].elapsedAt <= frames[0].storedAt
     && PacedFrom(frames[0].storedAt, frames[1..]))
  }

  /** The state of the game object that the simulation reads and writes. */
  datatype GameState = GameState(running: bool, ticks: nat, lPaddle: Paddle, rPaddle: Paddle, balls: seq<Ball>)

  /** The state right after InitializeGame succeeds on a fresh game object. */
  const Started: GameState := GameState(true, 0, LeftStart, RightStart, [BallStart])

  /** What reading the input does to the state: a quit event or a held Escape
      clears the flag, and the directions are rebuilt from the keys. */
  function AfterInput(g: GameState, events: seq<Event>, keys: KeyState): (h: GameState)
    ensures h.running ==> g.running
    ensures !h.running <==> !g.running || QuitEvent in events || keys.escape
    ensures h.lPaddle.dir == KeyDirection(keys.w, keys.s) && h.rPaddle.dir == KeyDirection(keys.i, keys.k)
    ensures h.lPaddle.pos == g.lPaddle.pos && h.rPaddle.pos == g.rPaddle.pos
    ensures h.ticks == g.ticks && h.balls == g.balls
  {
    g.(running := g.running && QuitEvent !in events && !keys.escape,
       lPaddle := g.lPaddle.(dir := KeyDirection(keys.w, keys.s)),
       rPaddle := g.rPaddle.(dir := KeyDirection(keys.i, keys.k)))
  }

  /** What one simulation step does to the state, after the pacing wait. */
  function AfterUpdate(g: GameState, elapsedAt: nat, storedAt: nat): (h: GameState)
    requires g.ticks + FrameMs <= elapsedAt
    ensures h.ticks == storedAt
    ensures h.running ==> g.running
    ensures h.running <==> g.running && forall n :: 0 <= n < |h.balls| ==> !OffScreen(h.balls[n].pos)
    ensures h.lPaddle.pos.x == g.lPaddle.pos.x && h.rPaddle.pos.x == g.rPaddle.pos.x
    ensures InBand(g.lPaddle) ==> InBand(h.lPaddle)
    ensures InBand(g.rPaddle) ==> InBand(h.rPaddle)
    ensures |h.balls| == |g.balls|
    ensures forall n :: 0 <= n < |h.balls| ==>
      Abs(h.balls[n].vel.x) == Abs(g.balls[n].vel.x) && Abs(h.balls[n].vel.y) == Abs(g.balls[n].vel.y)
  {
    var delta := FrameDelta(elapsedAt - g.ticks);
    var lp := MovedPaddle(g.lPaddle, delta);
    var rp := MovedPaddle(g.rPaddle, delta);
    var bs := StepBalls(g.balls, lp, rp, delta);
    GameState(g.running && forall n :: 0 <= n < |bs| ==> !OffScreen(bs[n].pos), storedAt, lp, rp, bs)
  }

  /** One pass of the game loop body: input, then the simulation step. */
  function AfterFrame(g: GameState, f: Frame): GameState
    requires g.ticks + FrameMs <= f.elapsedAt
  {
    AfterUpdate(AfterInput(g, f.events, f.keys), f.elapsedAt, f.storedAt)
  }

  /** The game loop over a finite run of frames: the final state and the
      number of frames played. A frame is played only while the flag holds,
      so the run stops right after the first frame that clears it. */
  function Run(g: GameState, frames: seq<Frame>): (r: (GameState, nat))
    requires PacedFrom(g.ticks, frames)
    ensures r.1 <= |frames|
    ensures r.1 < |frames| ==> !r.0.running
    ensures r.0.running ==> g.running
    ensures !g.running ==> r == (g, 0)
    ensures r.1 > 0 ==> r.0.ticks == frames[r.1 - 1].storedAt
    decreases |frames|
  {
    if !g.running || frames == [] then (g, 0)
    else
      var rest := Run(AfterFrame(g, frames[0]), frames[1..]);
      (rest.0, rest.1 + 1)
  }

  /** A frame that clears the flag is the last one played. */
  lemma RunStopsAtClear(g: GameState, frames: seq<Frame>)
    requires PacedFrom(g.ticks, frames)
    requires g.running && frames != []
    requires !AfterFrame(g, frames[0]).running
    ensures Run(g, frames) == (AfterFrame(g, frames[0]), 1)
  {
  }

  /** Paddles keep their x over any run, and paddles that start in the band
      stay in it. */
  lemma {:induction false} RunKeepsPaddles(g: GameState, frames: seq<Frame>)
    requires PacedFrom(g.ticks, frames)
    ensures InBand(g.lPaddle) ==> InBand(Run(g, frames).0.lPaddle)
    ensures InBand(g.rPaddle) ==> InBand(Run(g, frames).0.rPaddle)
    ensures Run(g, frames).0.lPaddle.pos.x == g.lPaddle.pos.x
    ensures Run(g, frames).0.rPaddle.pos.x == g.rPaddle.pos.x
    decreases |frames|
  {
    if g.running && frames != [] {
      RunKeepsPaddles(AfterFrame(g, frames[0]), frames[1..]);
    }
  }

  /** Over any run every ball keeps its place in the collection and its speed
      along each axis; the collection keeps its size. */
  lemma {:induction false} RunKeepsSpeeds(g: GameState, frames: seq<Frame>)
    requires PacedFrom(g.ticks, frames)
    ensures |Run(g, frames).0.balls| == |g.balls|
    ensures forall n :: 0 <= n < |g.balls| ==>
      Abs(Run(g, frames).0.balls[n].vel.x) == Abs(g.balls[n].vel.x)
      && Abs(Run(g, frames).0.balls[n].vel.y) == Abs(g.balls[n].vel.y)
    decreases |frames|
  {
    if g.running && frames != [] {
      RunKeepsSpeeds(AfterFrame(g, frames[0]), frames[1..]);
    }
  }

  /** From the started game, both paddles stay in the band at x = 5 and
      x = 1019 whatever the input and the clock do. */
  lemma StartedPaddlesStayInBand(frames: seq<Frame>)
    requires PacedFrom(0, frames)
    ensures InBand(Run(Started, frames).0.lPaddle) && Run(Started, frames).0.lPaddle.pos.x == 5.0
    ensures InBand(Run(Started, frames).0.rPaddle) && Run(Started, frames).0.rPaddle.pos.x == 1019.0
  {
    RunKeepsPaddles(Started, frames);
  }

  class Pong {
    var running: bool
    var ticks: nat
    var lPaddle: Paddle
    var rPaddle: Paddle
    var balls: seq<Ball>

    /** Both paddles are in the legal band. */
    predicate PaddlesInBand()
      reads this
    {
      InBand(lPaddle) && InBand(rPaddle)
    }

    /** The fields the simulation works on, as one value. */
    function State(): GameState
      reads this
    {
      GameState(running, ticks, lPaddle, rPaddle, balls)
    }

    /** A fresh game object: running, clock at zero, paddles value-initialised, no balls. */
    constructor ()
      ensures running && ticks == 0 && balls == []
      ensures lPaddle == Paddle(Vector2(0.0, 0.0), 0) && rPaddle == Paddle(Vector2(0.0, 0.0), 0)
    {
      running := true;
      ticks := 0;
      lPaddle := Paddle(Vector2(0.0, 0.0), 0);
      rPaddle := Paddle(Vector2(0.0, 0.0), 0);
      balls := [];
    }

    /** Set up the game objects. `setupOk` stands for the outcome of setting up
        video, window and renderer: on failure nothing is touched. On success the
        paddles are placed at their starting points and one ball is appended. */
    method InitializeGame(setupOk: bool) returns (ok: bool)
      modifies this
      ensures ok == setupOk
      ensures running == old(running) && ticks == old(ticks)
      ensures !ok ==> lPaddle == old(lPaddle) && rPaddle == old(rPaddle) && balls == old(balls)
      ensures ok ==> lPaddle == LeftStart && rPaddle == RightStart
      ensures ok ==> balls == old(balls) + [BallStart]
      ensures ok ==> PaddlesInBand()
    {
      if !setupOk {
        return false;
      }
      lPaddle := Paddle(Vector2(5.0, 768.0 / 2.0), 0);
      rPaddle := Paddle(Vector2(1024.0 - 5.0, 768.0 / 2.0), 0);
      balls := balls + [Ball(Vector2(1024.0 / 2.0, 768.0 / 2.0), Vector2(-200.0, 235.0))];
      return true;
    }

    /** Read the input: any quit event or a held Escape clears the running flag
        (it is never set), and each paddle's direction is rebuilt from scratch
        from its two keys, W/S for the left paddle and I/K for the right. */
    method ProcessInput(events: seq<Event>, keys: KeyState)
      modifies this
      ensures running == (old(running) && QuitEvent !in events && !keys.escape)
      ensures lPaddle == old(lPaddle).(dir := KeyDirection(keys.w, keys.s))
      ensures rPaddle == old(rPaddle).(dir := KeyDirection(keys.i, keys.k))
      ensures ticks == old(ticks) && balls == old(balls)
      ensures State() == AfterInput(old(State()), events, keys)
    {
      var n := 0;
      while n < |events|
        invariant 0 <= n <= |events|
        invariant running == (old(running) && QuitEvent !in events[..n])
        invariant ticks == old(ticks) && balls == old(balls)
        invariant lPaddle == old(lPaddle) && rPaddle == old(rPaddle)
      {
        assert events[..n + 1] == events[..n] + [events[n]];
        if events[n] == QuitEvent {
          running := false;
        }
        n := n + 1;
      }
      assert events[..n] == events;

      if keys.escape {
        running := false;
      }

      lPaddle := lPaddle.(dir := 0);
      if keys.w {
        lPaddle := lPaddle.(dir := lPaddle.dir - 1);
      }
      if keys.s {
        lPaddle := lPaddle.(dir := lPaddle.dir + 1);
      }

      rPaddle := rPaddle.(dir := 0);
      if keys.i {
        rPaddle := rPaddle.(dir := rPaddle.dir - 1);
      }
      if keys.k {
        rPaddle := rPaddle.(dir := rPaddle.dir + 1);
      }
    }

    /** Move one paddle for one time slice; the paddle is updated in place in
        the source, here it goes in and comes out. */
    method UpdatePaddlePosition(paddle: Paddle, deltaTime: real) returns (moved: Paddle)
      ensures moved == MovedPaddle(paddle, deltaTime)
      ensures moved.pos.x == paddle.pos.x && moved.dir == paddle.dir
      ensures paddle.dir == 0 ==> moved == paddle
      ensures paddle.dir != 0 ==> InBand(moved)
    {
      moved := paddle;
      if moved.dir != 0 {
        moved := moved.(pos := moved.pos.(y := moved.pos.y + moved.dir as real * 300.0 * deltaTime));
        if moved.pos.y < Thickness as real + PaddleH as real / 2.0 {
          moved := moved.(pos := moved.pos.(y := Thickness as real + PaddleH as real / 2.0));
        } else if moved.pos.y > 768.0 - PaddleH as real / 2.0 - Thickness as real {
          moved := moved.(pos := moved.pos.(y := 768.0 - PaddleH as real / 2.0 - Thickness as real));
        }
      }
    }

    /** The frame clock, after the pacing wait: the time slice is the time since
        the stored frame start, capped, and the stored frame start becomes the
        later reading. */
    method AdvanceClock(elapsedAt: nat, storedAt: nat) returns (deltaTime: real)
      requires ticks + FrameMs <= elapsedAt <= storedAt
      modifies this`ticks
      ensures deltaTime == FrameDelta(elapsedAt - old(ticks))
      ensures 0.016 <= deltaTime <= MaxDelta
      ensures ticks == storedAt
    {
      deltaTime := (elapsedAt - ticks) as real / 1000.0;
      if deltaTime > 0.05 {
        deltaTime := 0.05;
      }
      ticks := storedAt;
    }

    /** The body of the per-ball loop: integrate one ball, then apply the
        left-paddle, right-paddle, top-wall and bottom-wall bounces in that
        order; `offScreen` reports whether the game must end because of it. */
    method MoveBall(ball0: Ball, deltaTime: real) returns (ball: Ball, offScreen: bool)
      ensures ball == StepBall(ball0, lPaddle, rPaddle, deltaTime)
      ensures offScreen == OffScreen(ball.pos)
      ensures ball.pos == Vector2(ball0.pos.x + ball0.vel.x * deltaTime, ball0.pos.y + ball0.vel.y * deltaTime)
    {
      ball := ball0;
      ball := ball.(pos := ball.pos.(x := ball.pos.x + ball.vel.x * deltaTime));
      ball := ball.(pos := ball.pos.(y := ball.pos.y + ball.vel.y * deltaTime));
      ghost var moved := Integrate(ball0, deltaTime);
      assert ball == moved;

      var diff := PadBallDiff(lPaddle, ball.pos);
      if diff <= PaddleH as real / 2.0 && ball.pos.x <= Thickness as real && ball.vel.x < 0.0 {
        ball := ball.(vel := ball.vel.(x := ball.vel.x * -1.0));
      }
      moved := BounceLeft(moved, lPaddle);
      assert ball == moved;

      diff := PadBallDiff(rPaddle, ball.pos);
      if diff <= PaddleH as real / 2.0 && ball.pos.x >= 1024.0 - Thickness as real && ball.vel.x > 0.0 {
        ball := ball.(vel := ball.vel.(x := ball.vel.x * -1.0));
      }
      moved := BounceRight(moved, rPaddle);
      assert ball == moved;

      offScreen := ball.pos.x <= 0.0 || ball.pos.x >= 1024.0;

      if ball.pos.y <= Thickness as real && ball.vel.y < 0.0 {
        ball := ball.(vel := ball.vel.(y := ball.vel.y * -1.0));
      }
      if ball.pos.y >= 768.0 - Thickness as real && ball.vel.y > 0.0 {
        ball := ball.(vel := ball.vel.(y := ball.vel.y * -1.0));
      }
    }

    /** One simulation step: advance the clock, move both paddles, then move
        every ball against the moved paddles, clearing the running flag if some
        ball ends up off screen. The number and order of the balls are kept. */
    method UpdateGame(elapsedAt: nat, storedAt: nat)
      requires ticks + FrameMs <= elapsedAt <= storedAt
      modifies this
      ensures ticks == storedAt
      ensures lPaddle == MovedPaddle(old(lPaddle), FrameDelta(elapsedAt - old(ticks)))
      ensures rPaddle == MovedPaddle(old(rPaddle), FrameDelta(elapsedAt - old(ticks)))
      ensures |balls| == |old(balls)|
      ensures forall n :: 0 <= n < |balls| ==>
        balls[n] == StepBall(old(balls)[n], lPaddle, rPaddle, FrameDelta(elapsedAt - old(ticks)))
      ensures running == (old(running) && forall n :: 0 <= n < |balls| ==> !OffScreen(balls[n].pos))
      ensures old(PaddlesInBand()) ==> PaddlesInBand()
      ensures State() == AfterUpdate(old(State()), elapsedAt, storedAt)
    {
      var deltaTime := AdvanceClock(elapsedAt, storedAt);

      lPaddle := UpdatePaddlePosition(lPaddle, deltaTime);
      rPaddle := UpdatePaddlePosition(rPaddle, deltaTime);

      var n := 0;
      while n < |balls|
        invariant 0 <= n <= |balls| == |old(balls)|
        invariant ticks == storedAt
        invariant lPaddle == MovedPaddle(old(lPaddle), deltaTime)
        invariant rPaddle == MovedPaddle(old(rPaddle), deltaTime)
        invariant forall m :: 0 <= m < n ==> balls[m] == StepBall(old(balls)[m], lPaddle, rPaddle, deltaTime)
        invariant forall m :: n <= m < |balls| ==> balls[m] == old(balls)[m]
        invariant running == (old(running) && forall m :: 0 <= m < n ==> !OffScreen(balls[m].pos))
      {
        var ball, offScreen := MoveBall(balls[n], deltaTime);
        if offScreen {
          running := false;
        }
        balls := balls[n := ball];
        n := n + 1;
      }
      assert balls == StepBalls(old(balls), lPaddle, rPaddle, deltaTime);
    }

    /** The game loop over a finite run of frames: while the game is running,
        read the input and advance the simulation (drawing is not modelled).
        The final state and the number of frames played are those of Run, so
        no frame is played after the one that clears the flag, and a frame
        whose input clears the flag still gets its simulation step. */
    method RunFrames(frames: seq<Frame>) returns (played: nat)
      requires PacedFrom(ticks, frames)
      modifies this
      ensures (State(), played) == Run(old(State()), frames)
      ensures played <= |frames|
      ensures played < |frames| ==> !running
      ensures running ==> old(running)
      ensures played > 0 ==> ticks == frames[played - 1].storedAt
      ensures old(PaddlesInBand()) ==> PaddlesInBand()
      ensures lPaddle.pos.x == old(lPaddle.pos.x) && rPaddle.pos.x == old(rPaddle.pos.x)
      ensures |balls| == |old(balls)|
      ensures forall n :: 0 <= n < |balls| ==>
        Abs(balls[n].vel.x) == Abs(old(balls)[n].vel.x) && Abs(balls[n].vel.y) == Abs(old(balls)[n].vel.y)
    {
      ghost var start := State();
      played := 0;
      while running && played < |frames|
        invariant played <= |frames|
        invariant PacedFrom(ticks, frames[played..])
        invariant Run(start, frames) == (Run(State(), frames[played..]).0, Run(State(), frames[played..]).1 + played)
      {
        var f := frames[played];
        assert frames[played..][1..] == frames[played + 1..];
        ProcessInput(f.events, f.keys);
        UpdateGame(f.elapsedAt, f.storedAt);
        played := played + 1;
      }
      RunKeepsSpeeds(start, frames);
      RunKeepsPaddles(start, frames);
    }
  }

  /** A first frame taken 16 ms after start-up moves the starting ball by
      (-3.2, 3.76) and keeps the game running. */
  method FirstFrame()
  {
    var game := new Pong();
    var ok := game.InitializeGame(true);
    game.ProcessInput([], KeyState(false, false, false, false, false));
    game.UpdateGame(16, 16);
    assert game.balls == [Ball(Vector2(508.8, 387.76), Vector2(-200.0, 235.0))];
    assert game.running && game.ticks == 16;
  }
}
