# Pong simulation step in Dafny

This project models the simulation core of a two-paddle Pong game. The game is written in
C++ on top of SDL, and its core is in `Pong.cpp` and `Pong.h`. The model covers one frame
of the game object `Pong`:

- reading input into paddle directions and the running flag;
- the frame clock that turns tick readings into a time slice;
- moving the paddles with hard clamping into the legal band;
- moving every ball by an explicit Euler step, then applying the guarded sign-flip bounces
  against the two paddles and the two walls, and the off-screen test that ends the game.

Coordinates, velocities and time slices are Dafny `real`s.

Files:

- `shapes.dfy` (module `Shapes`): the value types `Vector2`, `Ball` and `Paddle` and the
  geometry constants from `Pong.h`. It also holds the starting objects from `InitializeGame`
  and the derived band and collision planes. The band is [65, 703]. The paddle planes are at
  x = 15 and x = 1009, and the wall planes at y = 15 and y = 753.
- `rules.dfy` (module `Rules`): the per-object frame rules as pure functions, with lemmas
  about them.
- `game.dfy` (module `Game`): the game state as a value (`GameState`) and what input, one
  simulation step and a finite run of frames do to it (`AfterInput`, `AfterUpdate`, `Run`).
  The multi-frame lemmas are proved on `Run`: paddles never leave the band, and balls keep
  their speed along each axis. Then comes the class `Pong`. Its fields are `running`, `ticks`,
  `lPaddle`, `rPaddle` and `balls`, and its methods update them in place as the C++ member
  functions do:
  - `ProcessInput` is proved equal to `AfterInput`.
  - `UpdatePaddlePosition` is proved equal to `Rules.MovedPaddle`.
  - `AdvanceClock` is proved equal to `Rules.FrameDelta`.
  - `MoveBall` is proved equal to `Rules.StepBall`.
  - `UpdateGame` is proved equal to `AfterUpdate`.
  - `RunFrames`, the game loop over a finite run of frames, is proved equal to `Run`.
  `FirstFrame` is a small client that steps the starting configuration once.

The clock and the input devices are parameters:

- A frame receives its pending events as a sequence (`QuitEvent` or `OtherEvent`).
- The held keys arrive as a `KeyState` record: Escape, W, S, I and K.
- The clock gives two millisecond readings. The source reads the tick counter once for the
  time slice (Pong.cpp:113) and again for the stored frame start (Pong.cpp:121).
- After the pacing wait, the caller guarantees `ticks + 16 <= elapsedAt <= storedAt`.

Three facts about the source shape the model:

- The paddles start at x = 5 and x = 1019 (Pong.cpp:29-30). The paddle collision planes are
  at x = 15 and x = 1009.
- The ball collection may be empty. The constructor creates none (Pong.cpp:3), and each
  successful `InitializeGame` appends one more with `push_back` (Pong.cpp:31).
- The paddle type does not restrict the direction to -1, 0 and 1 (Pong.h:8). Only input
  processing produces such values (Pong.cpp:65-80). The clamping results hold for every
  non-zero integer direction.

## Model

| member | source | states |
|---|---|---|
| Shapes.GeometryConstants | Pong.h:20-21 | thickness 15 and paddle height 100 fix the band to [65, 703], the reach to 50, the paddle planes to 15/1009 and the wall planes to 15/753; the starting objects are at (5,384), (1019,384) and (512,384) with velocity (-200,235), with both paddles in the band |
| Rules.KeyDirection | Pong.cpp:64-80 | a direction rebuilt from two held keys is always -1, 0 or 1; it is +1 exactly when only "down" is held, -1 exactly when only "up" is held, and 0 exactly when both or neither are held |
| Rules.FrameDelta | Pong.cpp:112-118 | the time slice lies in [0, 0.05] and never exceeds the elapsed time; below the cap it equals the elapsed milliseconds / 1000 (always when at most 50 ms elapsed); at least 16 ms elapsed gives a slice of at least 0.016 |
| Rules.ClampY | Pong.cpp:89-94 | the result lies in [65, 703]; a value inside the band is kept, a value below is raised to 65 and a value above is lowered to 703 (saturation, not reflection) |
| Rules.MovedPaddle | Pong.cpp:83-96 | a moved paddle keeps its x and its direction; with direction 0 it is unchanged; with any non-zero direction it ends in the band for any time slice; a paddle in the band stays in it |
| Rules.MovedPaddleUnclamped | Pong.cpp:87 | when y + dir*300*delta is already in the band, the new y is exactly that value |
| Rules.MovedPaddleClamped | Pong.cpp:89-94 | a moving paddle whose target lies below the band ends exactly at 65, and one whose target lies above it ends exactly at 703 (hard saturation) |
| Rules.MovedPaddleZeroDelta | Pong.cpp:83-96 | a zero time slice leaves a paddle unchanged if it is in the band or has direction 0 |
| Rules.MovedPaddleScenario | Pong.cpp:87 | a paddle at y = 384 with direction +1 and a slice of 0.1 ends at y = 414 |
| Rules.PadBallDiff | Pong.cpp:98-104 | the paddle/ball distance equals the absolute value of the vertical difference: it is non-negative, bounds both signed differences and equals one of them |
| Rules.PadBallDiffReach | Pong.cpp:133-134 | the distance is at most 50 exactly when the ball's y lies within 50 of the paddle's centre, boundaries included |
| Rules.Integrate | Pong.cpp:129-130 | the Euler step leaves the velocity alone, and with a zero slice it leaves the ball unchanged |
| Rules.BounceLeft | Pong.cpp:132-139 | position and vertical velocity are kept and the horizontal speed is preserved; the horizontal velocity changes exactly when distance <= 50, x <= 15 and vel.x < 0, and then the ball moves right |
| Rules.BounceRight | Pong.cpp:141-148 | the mirror rule: vel.x changes exactly when distance <= 50, x >= 1009 and vel.x > 0, and the ball then moves left; the speed is preserved |
| Rules.BounceTop | Pong.cpp:155-158 | vel.y changes exactly when y <= 15 and vel.y < 0, and the ball then moves down; the position, vel.x and the vertical speed are kept |
| Rules.BounceBottom | Pong.cpp:159-162 | vel.y changes exactly when y >= 753 and vel.y > 0, and the ball then moves up; the position, vel.x and the vertical speed are kept |
| Rules.StepBall | Pong.cpp:127-163 | after one step a ball is at pos + vel*delta, computed before any collision test, and its speed along each axis is unchanged |
| Rules.StepBallHorizontal | Pong.cpp:132-148 | vel.x is negated exactly when the integrated ball hits the left or the right paddle, and is otherwise unchanged (the two hits exclude each other) |
| Rules.StepBallVertical | Pong.cpp:155-162 | vel.y is negated exactly when the integrated ball hits the top or the bottom wall, and is otherwise unchanged |
| Rules.MovingAwayNotReflipped | Pong.cpp:134-136 | a ball already moving right at or behind the left paddle's plane keeps its horizontal velocity |
| Rules.BounceLeftOnce | Pong.cpp:132-139 | applying the left-paddle test twice at one position is the same as applying it once |
| Rules.BounceRightOnce | Pong.cpp:141-148 | applying the right-paddle test twice at one position is the same as applying it once |
| Rules.StepBallZeroDelta | Pong.cpp:129-130 | a zero time slice leaves every ball's position unchanged |
| Rules.LeftBounceScenario | Pong.cpp:129-139 | a ball at (16,400) with velocity (-200,0) facing a paddle at y = 400 reaches (12.8,400) after 0.016 s with velocity (200,0) |
| Game.AfterInput | Pong.cpp:46-81 | after input the flag is cleared exactly when it was already false, a quit event arrived or Escape is held (never set); directions are KeyDirection of W/S and I/K; positions, clock and balls are unchanged |
| Game.AfterUpdate | Pong.cpp:106-164 | after a step the clock holds the stored reading; the flag holds exactly when it held before and no ball is off screen; paddles keep their x and stay in the band if they were in it; balls keep their number and their speed along each axis |
| Game.Run | Pong.cpp:37-44 | a run plays at most all frames, stops early only with the flag cleared, never sets the flag, plays nothing when the flag is already false, and leaves the clock at the last played frame's stored reading |
| Game.RunStopsAtClear | Pong.cpp:39-43 | a frame that clears the flag (through input or through a ball leaving the screen) is the last one played |
| Game.RunKeepsPaddles | Pong.cpp:39-43 | over any run each paddle keeps its x, and a paddle that starts in the band stays in it |
| Game.RunKeepsSpeeds | Pong.cpp:39-43 | over any run the ball collection keeps its size, and each ball keeps its speed along each axis |
| Game.StartedPaddlesStayInBand | Pong.cpp:29-30 | from the started game both paddles stay in the band forever, at x = 5 and x = 1019 |
| Game.Pong.constructor | Pong.cpp:3 | a new game is running, with the clock at 0, both paddles value-initialised at (0,0) with direction 0, and no balls |
| Game.Pong.InitializeGame | Pong.cpp:6-35 | on a failed setup it returns false and changes nothing; otherwise it returns true, places the paddles at their starting points (both in the band) and appends the starting ball; it never touches the flag or the clock |
| Game.Pong.ProcessInput | Pong.cpp:46-81 | the new state equals AfterInput of the old one: the flag becomes old flag && no quit event && Escape not held (it is only ever cleared); each direction is replaced by KeyDirection of its W/S or I/K keys, whatever it was before; positions, balls and clock are unchanged |
| Game.Pong.UpdatePaddlePosition | Pong.cpp:83-96 | the paddle after the move equals MovedPaddle: same x and direction, unchanged for direction 0, in the band for any other direction |
| Game.Pong.AdvanceClock | Pong.cpp:109-121 | after the pacing wait the slice equals FrameDelta of the elapsed time and lies in [0.016, 0.05]; the stored tick becomes the later reading |
| Game.Pong.MoveBall | Pong.cpp:128-162 | the imperative per-ball update equals StepBall against the current paddles; the game-ending flag reports whether the ball's new x is <= 0 or >= 1024 |
| Game.Pong.UpdateGame | Pong.cpp:106-164 | the new state equals AfterUpdate of the old one: the clock advances; both paddles move by MovedPaddle; every ball becomes StepBall of itself against the moved paddles, with the number and order of the balls kept; the flag becomes old flag && no ball off screen; paddles in the band stay there |
| Game.Pong.RunFrames | Pong.cpp:37-44 | the final state and the number of frames played equal Run of the starting state, so no frame is played after the one that clears the flag; the flag is only cleared; the clock holds the last frame's reading; paddles keep their x and stay in the band; the balls keep their number and their speeds |

## Left out

- SDL set-up, meaning the video subsystem, window and renderer (Pong.cpp:7-26), is external.
  Its three failure paths all return false before any game object is touched, so
  `InitializeGame` takes their combined outcome as the boolean `setupOk`. The window and
  renderer fields of `Pong` are not modelled.
- `GenerateOutput` (Pong.cpp:166-214) is left out because it only draws.
- `StopGame` (Pong.cpp:216-220) and the destructor are left out because they only release
  SDL resources.
- The busy-wait on the tick counter (Pong.cpp:110) is replaced by its guarantee. The caller
  supplies readings with `ticks + 16 <= elapsedAt <= storedAt`.
- Ticks are unbounded `nat`s. The wrap-around of the 32-bit tick counter, and the
  wrap-tolerant comparison `SDL_TICKS_PASSED`, are not modelled.
- Event polling and the keyboard-state array are external. A frame receives a sequence of
  events and a record of the five held keys instead.
- Values are exact reals. IEEE-754 single-precision rounding is not modelled, so the model
  does not claim exact float results. For example, `0.05f` is treated as exactly 0.05.
- The unbounded `GameLoop` (Pong.cpp:37-44) is modelled only over a finite sequence of
  frames (`RunFrames`). The drawing phase of each frame is skipped.
- Game.Pong.MoveBall: the body of the per-ball loop (Pong.cpp:128-162) is its own method. In
  the source, the running flag is cleared partway through that body. Here `UpdateGame` clears
  it from MoveBall's result right after the call. Nothing between those two points reads the
  flag, so the outcome is the same.
- Game.Pong.UpdatePaddlePosition: the source updates the paddle in place through a
  reference. Here the paddle is passed in and the moved paddle is returned and assigned back
  to the field. Aliasing between the two paddles cannot arise in the source.
