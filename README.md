# Two-paddle ball game: the game rules, verified

This project models the rule core of a raylib two-paddle ball game
(`main.cpp`): the ball's per-frame movement, rim reflection, scoring and
re-centring; the player paddle's key steering and the CPU paddle's ball
tracking, both clamped to the screen; the collision flip of the ball's
horizontal speed; and the page state machine of the main loop
(LOGO → WELCOME → GAME → TIME_OVER / LOSS / WIN → GAME on replay, or exit).

Three modules:

- `Rules` (rules.dfy) states every rule as a function on values: `Reset`,
  `UpdateBall`, `Clamp`, `Steer`, `Track`, `Deflect`, `Verdict`, `IsPressed`,
  one frame of the main loop (`Step`, with `Play` for the GAME page and
  `Replay` for the replay button) and the loop itself (`Run`).
- `Properties` (properties.dfy) proves what those rules promise: the frame
  invariant (`Sound`: both ball speeds of magnitude 7, both paddles on screen,
  the ball strictly between the scoring edges) holds over any run; the pages
  follow the state graph; LOGO is never re-entered; the program only exits from
  an end screen on an exit press; scores fall only on replay.
- `Pong` (game.dfy) holds the objects as the program updates them in place:
  `Ball`, `Paddle` (the CPU paddle's `CpuPaddle::Update` is its `Track`
  method), `Scoreboard` (the two global scores) and `Session` (the locals and
  globals of `main`: page, timer start, entities). Each method runs the
  program's statements in their order and is proved to leave exactly the state
  the matching `Rules` function gives.

Modelling choices:

- Positions are integers: they start at integral values and move by integral
  speeds. The CPU paddle's centre `y + height / 2` is compared as a real
  number, as the program's float division gives it.
- The screen width `w` and height `h` are fixed for a session, with
  `Fits(w, h)`: the ball's radius is less than `w / 2` and the paddle is no
  taller than the screen. The initial placement uses `w` and `h` where the
  program uses its 1200 and 800 constants, which are the window's size at
  start.
- Wall-clock time is a real `now` read once per frame; `startTime` is a real
  field, so "elapsed" is `now - startTime`.
- The library's circle/rectangle overlap tests, the pointer-over-button
  tests and `GetRandomValue(0, 1)` are per-frame inputs (`Input`).

Where a plain reading of the program differs from what it does, the model
follows the code:

- The three end-of-round tests are separate `if`s, so the last that matches
  wins: a tie gives TIME_OVER, not LOSS (`Verdict`, `RoundEnds`).
- `CpuPaddle::Update` tests again after its first move, so when the paddle
  centre's y exceeds the ball's y by at most one step the paddle moves up and
  straight back down; when the centre is exactly level with the ball it moves
  down. The CPU paddle therefore does not always move towards the ball (`Track`).
- A ball overlapping both paddles in one frame has its horizontal speed
  flipped twice, i.e. left unchanged (`Deflect`).

## Model

| member | source | states |
|---|---|---|
| `Rules.Reset` | main.cpp:96-103 | the ball goes to (w/2, h/2); both speeds have magnitude 7; each speed is positive exactly when its coin picks index 1 |
| `Rules.UpdateBall` | main.cpp:78-93 | scores never decrease; a right-edge crossing gives the CPU exactly one point; with radius < w/2 a left-edge crossing gives the player exactly one point and at most one side scores; a point re-centres the ball; otherwise the ball advanced by its speed and its vertical speed flipped exactly when it touches the top or bottom; speed magnitudes 7 are kept |
| `Rules.Clamp` | main.cpp:110-117 | with height ≤ h the result lies in [0, h - height]; a position already on screen is unchanged; a paddle reaching the bottom is put at h - height; one at or above the top goes to 0 |
| `Rules.Steer` | main.cpp:130-136 | both keys or neither give no movement; up alone moves up by the speed; down alone moves down by the speed |
| `Rules.Track` | main.cpp:145-151 | (y grows downwards) centre's y at most the ball's y: down by the speed; centre's y more than one step past the ball's y: up by the speed; past it by at most one step: no net movement; never more than one step |
| `Rules.Deflect` | main.cpp:269-274 | the horizontal speed keeps its magnitude; it flips when the ball overlaps exactly one paddle and stays when it overlaps both or neither |
| `Rules.Verdict` | main.cpp:293-300 | WIN iff cpu < player, LOSS iff cpu > player, TIME_OVER iff they tie |
| `Rules.Play` | main.cpp:262-301 | a GAME frame stays on GAME exactly while less than the game duration has elapsed, and otherwise moves to the `Verdict` of the scores after this frame's point; it never lowers a score and leaves the timer alone (entity order and collision flip: `Properties.GameFrameMovesEntities`) |
| `Rules.Replay` | main.cpp:320-326 | the replay button returns to GAME with both scores 0, the ball at the centre with speeds of magnitude 7 and the timer restarted at this frame's instant; the paddles stay where they were |
| `Rules.Step` | main.cpp:228-382 | the loop is left only from an end screen on a press of the exit button, with nothing changed; the timer restarts only on a page change, at this frame's instant, and never on entering an end screen; LOGO is never re-entered (per page: `Properties.LogoWaits`, `Properties.WelcomeNeedsStart`, `Properties.RoundEnds`, `Properties.EndScreenButtons`) |
| `Rules.Run` | main.cpp:215-383 | a run of frames exits only after at least one frame and only from an end screen; a run that starts off LOGO never ends on it (invariant over runs: `Properties.RunKeepsSound`) |
| `Rules.Initial` | main.cpp:183-207 | the loop starts on LOGO with both scores 0 and the timer started at the start instant |
| `Properties.ClampIdempotent` | main.cpp:110-117 | limiting a paddle twice is limiting it once, for any sizes |
| `Properties.UpdateBallBetweenEdges` | main.cpp:78-93 | with radius < w/2, after a ball update the ball lies strictly between the two scoring edges |
| `Properties.InitialIsSound` | main.cpp:183-202 | the initial placement satisfies the frame invariant |
| `Properties.StepKeepsSound` | main.cpp:228-382 | every frame keeps speeds of magnitude 7, both paddles on screen and the ball between the edges |
| `Properties.RunKeepsSound` | main.cpp:215-383 | the invariant holds after any sequence of frames |
| `Properties.StepFollowsEdges` | main.cpp:228-382 | each frame moves LOGO to LOGO/WELCOME, WELCOME to WELCOME/GAME, GAME to GAME or an end screen, an end screen to itself or GAME |
| `Properties.RunNeverReturnsToLogo` | main.cpp:215-383 | once off LOGO, no run of frames comes back to it |
| `Properties.RunExitsFromEndScreen` | main.cpp:303-381 | the loop exits only from an end screen, on some frame with a mouse press over the exit button |
| `Properties.LogoWaits` | main.cpp:229-242 | LOGO moves to WELCOME exactly when 3 seconds have elapsed, restarting the timer; otherwise nothing changes |
| `Properties.WelcomeNeedsStart` | main.cpp:244-260 | WELCOME moves to GAME exactly on a start-button press, restarting the timer; otherwise nothing changes |
| `Properties.RoundEnds` | main.cpp:262-301 | a GAME frame stays on GAME iff less than the game duration has elapsed; otherwise WIN, LOSS or TIME_OVER by the scores after this frame's point; the timer is not touched |
| `Properties.GameFrameMovesEntities` | main.cpp:262-274 | a GAME frame updates the ball first, then the player paddle by the keys, then the CPU paddle towards the updated ball's y, then flips the horizontal speed once per overlapped paddle |
| `Properties.EndScreenButtons` | main.cpp:303-327 | on an end screen an exit press leaves the loop with nothing changed; otherwise a replay press returns to GAME with scores 0, the ball reset and the timer restarted, paddles untouched; with neither press nothing changes |
| `Properties.ScoresFallOnlyOnReplay` | main.cpp:262-327 | scores drop only when an end screen's replay zeroes them; a GAME frame leaves them or raises exactly one by one |
| `Pong.Scoreboard.constructor` | main.cpp:29-30 | both scores start at 0 |
| `Pong.Ball.constructor` | main.cpp:184-188 | the ball starts with the given position, speeds and radius |
| `Pong.Ball.ResetBall` | main.cpp:96-103 | the ball's state becomes `Reset` of the screen size and the two coins |
| `Pong.Ball.Update` | main.cpp:78-93 | the ball and the scoreboard become what `UpdateBall` gives for their old values |
| `Pong.Paddle.constructor` | main.cpp:191-202 | the paddle starts with the given position, size and speed |
| `Pong.Paddle.LimitMovement` | main.cpp:110-117 | only y changes, to `Clamp` of its old value |
| `Pong.Paddle.Update` | main.cpp:130-138 | only y changes, to the clamped key-steered position |
| `Pong.Paddle.Track` | main.cpp:145-153 | only y changes, to the clamped ball-tracking position |
| `Pong.Session.constructor` | main.cpp:161-207 | the session starts in `Initial` with the paddles at their x and widths |
| `Pong.Session.Frame` | main.cpp:219-382 | one loop iteration leaves the state `Step` gives and reports exit exactly when `Step` exits |
| `Pong.Session.Loop` | main.cpp:215-383 | running the loop over a sequence of frames leaves the state `Run` gives and exits exactly when `Run` does |

## Left out

- Rendering (`BeginDrawing`, `EndDrawing`, `ClearBackground`, every `Draw*` call, `TextFormat`, the `Draw`/`draw` methods of the classes): no effect on the game state.
- Textures, audio and the window lifecycle (`LoadTexture`, `UnloadTexture`, the music stream calls, `InitWindow`, `SetTargetFPS`, `CloseWindow`, `WindowShouldClose`, the start-up console message): foreign I/O. A window close is the end of the input sequence given to `Loop`.
- Window resizing (`SetWindowState`): the screen size is fixed per session, so `GetScreenWidth`/`GetScreenHeight` are the constants `w` and `h`.
- `Button`'s texture, position and scale, and `CheckCollisionPointRec`: the pointer-over-button result is an input per button.
- `CheckCollisionCircleRec`: float geometry in the library; its two results (on the positions after the frame's updates) are inputs.
- `GetRandomValue`: a frame's reset draws one pair of coins from the input. Under `Fits` at most one reset happens per frame; on a screen no wider than two radii one `Ball::Update` could reset twice, and the model gives both resets the same pair.
- Float arithmetic: positions are integers and times are exact reals; the float rounding of `GetTime` and `startTime` is not modelled, and the two `GetTime()` calls of one frame (the elapsed time and a timer restart) read the same instant.
- `elapsedTime` as a stored global: it is recomputed at the start of every frame (`isRunning` is never cleared) and otherwise only drawn, so the model computes it where it is used.
- The 32-bit `int` range of the scores and speeds: scores are unbounded naturals.
- The float-to-int conversion of `ball.y` when passed to `CpuPaddle::Update`: positions are already integers.
