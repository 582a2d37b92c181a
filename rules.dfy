/**
 * The game rules of the two-paddle ball game as values: the per-entity update
 * rules of Ball, Paddle and CpuPaddle, the end-of-round verdict, and one frame
 * of the page state machine. The classes in module Pong are proved against
 * these functions; module Properties proves what they promise.
 */
module Rules {

  // Constants fixed by the program.
  const BallRadius: int := 20
  const BallSpeed: int := 7
  const PaddleWidth: int := 25
  const PaddleHeight: int := 120
  const PaddleMargin: int := 10
  const PlayerSpeed: nat := 10
  const CpuSpeed: nat := 6
  const LogoSeconds: real := 3.0
  const GameDuration: real := 15.0

  /** The outcome of GetRandomValue(0, 1): an index into the sign choices {-1, 1}. */
  type Coin = i: int | 0 <= i <= 1

  const SpeedChoices: seq<int> := [-1, 1]

  datatype Page = Logo | Welcome | Game | TimeOver | Loss | Win

  datatype BallState = BallState(x: int, y: int, speedX: int, speedY: int)

  datatype Score = Score(cpu: nat, player: nat)

  /** What Ball::Update leaves behind: the ball and the two global scores. */
  datatype Rally = Rally(ball: BallState, score: Score)

  function Abs(n: int): nat
  {
    if n < 0 then -n else n
  }

  /** The screen sizes the session works with. */
  predicate Fits(w: nat, h: nat)
  {
    BallRadius < w / 2 && PaddleHeight <= h
  }

  // ---------------------------------------------------------------- Ball

  /** Ball::ResetBall: back to the centre, each speed 7 with a random sign. */
  function Reset(w: nat, h: nat, pickX: Coin, pickY: Coin): (b: BallState)
    ensures b.x == w / 2 && b.y == h / 2
    ensures Abs(b.speedX) == BallSpeed && Abs(b.speedY) == BallSpeed
    ensures b.speedX > 0 <==> pickX == 1
    ensures b.speedY > 0 <==> pickY == 1
  {
    BallState(w / 2, h / 2, BallSpeed * SpeedChoices[pickX], BallSpeed * SpeedChoices[pickY])
  }

  /** The ball touches the top or the bottom of the screen. */
  predicate TouchesRim(h: nat, radius: int, y: int)
  {
    y + radius >= h || y - radius <= 0
  }

  /**
   * Ball::Update: move by the speed, reflect off the top and bottom, score on
   * the right edge (for the CPU) and then on the left edge (for the player).
   * The two edge tests are consecutive ifs, the second seeing what the first
   * left; both resets draw the frame's one pair of coins.
   */
  function UpdateBall(w: nat, h: nat, radius: int, b: BallState, score: Score, pickX: Coin, pickY: Coin): (r: Rally)
    // scores never decrease
    ensures r.score.cpu >= score.cpu && r.score.player >= score.player
    // a right-edge crossing gives the CPU exactly one point
    ensures r.score.cpu == score.cpu + (if b.x + b.speedX + radius >= w then 1 else 0)
    // a left-edge crossing gives the player exactly one point, and only one side scores
    ensures radius < w / 2 ==>
      r.score.player == score.player + (if b.x + b.speedX - radius <= 0 then 1 else 0)
    ensures radius < w / 2 ==> r.score.cpu == score.cpu || r.score.player == score.player
    // a point re-centres the ball
    ensures r.score != score ==> r.ball == Reset(w, h, pickX, pickY)
    // otherwise the ball advanced by its speed and reflected off the rim it touches
    ensures r.score == score ==>
      r.ball.x == b.x + b.speedX && r.ball.y == b.y + b.speedY && r.ball.speedX == b.speedX &&
      r.ball.speedY == (if TouchesRim(h, radius, b.y + b.speedY) then -b.speedY else b.speedY)
    // the speed magnitudes stay 7
    ensures Abs(b.speedX) == BallSpeed && Abs(b.speedY) == BallSpeed ==>
      Abs(r.ball.speedX) == BallSpeed && Abs(r.ball.speedY) == BallSpeed
  {
    var moved := BallState(b.x + b.speedX, b.y + b.speedY, b.speedX, b.speedY);
    var bounced := if TouchesRim(h, radius, moved.y) then moved.(speedY := moved.speedY * -1) else moved;
    var right :=
      if bounced.x + radius >= w then Rally(Reset(w, h, pickX, pickY), score.(cpu := score.cpu + 1))
      else Rally(bounced, score);
    if right.ball.x - radius <= 0 then Rally(Reset(w, h, pickX, pickY), right.score.(player := right.score.player + 1))
    else right
  }

  /** After a frame's ball update the ball lies strictly between the two scoring edges. */
  predicate BetweenEdges(w: nat, radius: int, b: BallState)
  {
    radius < b.x < w - radius
  }

  // ---------------------------------------------------------------- Paddles

  /** Paddle::LimitMovement: keep the paddle on the screen. */
  function Clamp(y: int, height: int, h: nat): (r: int)
    ensures height <= h ==> 0 <= r <= h - height
    ensures 0 <= y <= h - height ==> r == y
    ensures y + height >= h ==> r == h - height
    ensures y <= 0 && height < h ==> r == 0
  {
    var top := if y <= 0 then 0 else y;
    if top + height >= h then h - height else top
  }

  /** Paddle::Update before clamping: the up key moves up, the down key moves down. */
  function Steer(y: int, speed: nat, keyUp: bool, keyDown: bool): (r: int)
    ensures keyUp == keyDown ==> r == y
    ensures keyUp && !keyDown ==> r == y - speed
    ensures keyDown && !keyUp ==> r == y + speed
  {
    var raised := if keyUp then y - speed else y;
    if keyDown then raised + speed else raised
  }

  /** The vertical centre of a paddle (height / 2 is a float division in the program). */
  function Center(y: int, height: int): real
  {
    y as real + height as real / 2.0
  }

  /**
   * CpuPaddle::Update before clamping. The second test reads the position the
   * first one may have just changed, so a paddle whose centre's y exceeds the
   * ball's y by at most one step moves up and straight back down.
   */
  function Track(y: int, height: int, speed: nat, ballY: int): (r: int)
    ensures Center(y, height) <= ballY as real ==> r == y + speed
    ensures Center(y, height) - speed as real > ballY as real ==> r == y - speed
    ensures ballY as real < Center(y, height) <= (ballY + speed) as real ==> r == y
    ensures r == y - speed || r == y || r == y + speed
  {
    var raised := if Center(y, height) > ballY as real then y - speed else y;
    if Center(raised, height) <= ballY as real then raised + speed else raised
  }

  // ---------------------------------------------------------------- Frame rules

  /** The per-frame collision response: speed_x flips once per paddle the ball overlaps. */
  function Deflect(speedX: int, hitsPlayer: bool, hitsCpu: bool): (r: int)
    ensures Abs(r) == Abs(speedX)
    ensures hitsPlayer == hitsCpu ==> r == speedX
    ensures hitsPlayer != hitsCpu ==> r == -speedX
  {
    var once := if hitsPlayer then speedX * -1 else speedX;
    if hitsCpu then once * -1 else once
  }

  /**
   * The end-of-round choice. The three tests are not chained with else, so
   * the last one that matches decides: a tie ends on TIME_OVER.
   */
  function Verdict(cpu: int, player: int): (r: Page)
    ensures r == Win <==> cpu < player
    ensures r == Loss <==> cpu > player
    ensures r == TimeOver <==> cpu == player
  {
    var afterWin := if cpu < player then Win else Game;
    var afterLoss := if cpu >= player then Loss else afterWin;
    if cpu == player then TimeOver else afterLoss
  }

  /** Button::isPressed: the pointer is over the button and the left button went down. */
  function IsPressed(over: bool, mousePressed: bool): bool
  {
    over && mousePressed
  }

  // ---------------------------------------------------------------- Page state machine

  /** The state the frame loop works on: the page, the entities' moving parts, the scores and the timer. */
  datatype World = World(page: Page, ball: BallState, playerY: int, cpuY: int, score: Score, startTime: real)

  /**
   * What one frame reads from the outside: the clock, the keys, the mouse
   * button and which button the pointer is over, the library's two
   * circle-rectangle overlap tests (on the positions after this frame's
   * updates), and the two coins a ball reset would draw.
   */
  datatype Input = Input(
    now: real,
    keyUp: bool, keyDown: bool,
    mousePressed: bool, overStart: bool, overExit: bool, overReplay: bool,
    hitsPlayer: bool, hitsCpu: bool,
    pickX: Coin, pickY: Coin)

  /** A frame either goes on with a new world or leaves the program on the exit button. */
  datatype Outcome = Continue(world: World) | Exit(world: World)

  predicate EndScreen(p: Page)
  {
    p == TimeOver || p == Loss || p == Win
  }

  /** The program's state before the first frame. */
  function Initial(w: nat, h: nat, now: real): (s: World)
    ensures s.page == Logo && s.score == Score(0, 0) && s.startTime == now
  {
    var paddleY := h / 2 - PaddleHeight / 2;
    World(Logo, BallState(w / 2, h / 2, BallSpeed, BallSpeed), paddleY, paddleY, Score(0, 0), now)
  }

  /** One frame of the GAME page. */
  function Play(w: nat, h: nat, s: World, inp: Input): (r: World)
    // the round ends exactly when the game duration has passed, by the scores after this frame's point
    ensures r.page == Game <==> inp.now - s.startTime < GameDuration
    ensures r.page != Game ==> r.page == Verdict(r.score.cpu, r.score.player)
    // a frame of play never lowers a score and leaves the timer alone
    ensures r.score.cpu >= s.score.cpu && r.score.player >= s.score.player
    ensures r.startTime == s.startTime
  {
    var rally := UpdateBall(w, h, BallRadius, s.ball, s.score, inp.pickX, inp.pickY);
    var playerY := Clamp(Steer(s.playerY, PlayerSpeed, inp.keyUp, inp.keyDown), PaddleHeight, h);
    var cpuY := Clamp(Track(s.cpuY, PaddleHeight, CpuSpeed, rally.ball.y), PaddleHeight, h);
    var ball := rally.ball.(speedX := Deflect(rally.ball.speedX, inp.hitsPlayer, inp.hitsCpu));
    var page := if inp.now - s.startTime >= GameDuration then Verdict(rally.score.cpu, rally.score.player) else Game;
    World(page, ball, playerY, cpuY, rally.score, s.startTime)
  }

  /** The replay button: scores to zero, ball re-centred, timer restarted, back to GAME. */
  function Replay(w: nat, h: nat, s: World, inp: Input): (r: World)
    ensures r.page == Game && r.score == Score(0, 0) && r.startTime == inp.now
    ensures r.ball.x == w / 2 && r.ball.y == h / 2
    ensures Abs(r.ball.speedX) == BallSpeed && Abs(r.ball.speedY) == BallSpeed
    ensures r.playerY == s.playerY && r.cpuY == s.cpuY
  {
    s.(page := Game, score := Score(0, 0), ball := Reset(w, h, inp.pickX, inp.pickY), startTime := inp.now)
  }

  /** One iteration of the main loop. */
  function Step(w: nat, h: nat, s: World, inp: Input): (r: Outcome)
    // the loop is left only from an end screen, on a press of the exit button, with nothing changed
    ensures r.Exit? <==> EndScreen(s.page) && inp.mousePressed && inp.overExit
    ensures r.Exit? ==> r.world == s
    // the timer restarts only when the page changes, and never on entering an end screen
    ensures r.world.startTime != s.startTime ==> r.world.page != s.page && r.world.startTime == inp.now
    ensures EndScreen(r.world.page) ==> r.world.startTime == s.startTime
    // LOGO is never entered again
    ensures r.world.page == Logo ==> s.page == Logo
  {
    var elapsed := inp.now - s.startTime;
    match s.page
    case Logo =>
      Continue(if elapsed >= LogoSeconds then s.(page := Welcome, startTime := inp.now) else s)
    case Welcome =>
      Continue(if IsPressed(inp.overStart, inp.mousePressed) then s.(page := Game, startTime := inp.now) else s)
    case Game =>
      Continue(Play(w, h, s, inp))
    case _ =>
      if IsPressed(inp.overExit, inp.mousePressed) then Exit(s)
      else if IsPressed(inp.overReplay, inp.mousePressed) then Continue(Replay(w, h, s, inp))
      else Continue(s)
  }

  /** The main loop over a sequence of frames; it stops early on the exit button. */
  function Run(w: nat, h: nat, s: World, frames: seq<Input>): (r: Outcome)
    ensures r.Exit? ==> frames != [] && EndScreen(r.world.page)
    ensures s.page != Logo ==> r.world.page != Logo
    decreases |frames|
  {
    if frames == [] then Continue(s)
    else
      var o := Step(w, h, s, frames[0]);
      if o.Exit? then o else Run(w, h, o.world, frames[1..])
  }

  /** The invariant every frame keeps. */
  predicate Sound(w: nat, h: nat, s: World)
  {
    Abs(s.ball.speedX) == BallSpeed && Abs(s.ball.speedY) == BallSpeed &&
    0 <= s.playerY <= h - PaddleHeight && 0 <= s.cpuY <= h - PaddleHeight &&
    BetweenEdges(w, BallRadius, s.ball)
  }
}
