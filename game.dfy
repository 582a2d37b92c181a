/**
 * The program's objects as it runs them: the ball, the two paddles and the
 * global scores, updated in place frame by frame by the main loop. Every
 * method is proved against the value-level rules of module Rules.
 */
module Pong {
  import opened Rules

  /** The global player_score and cpu_score, shared by the ball and the main loop. */
  class Scoreboard {
    var cpu: nat
    var player: nat

    constructor ()
      ensures cpu == 0 && player == 0
    {
      cpu, player := 0, 0;
    }

    function Value(): Score
      reads this
    {
      Score(cpu, player)
    }
  }

  class Ball {
    var x: int
    var y: int
    var speedX: int
    var speedY: int
    var radius: int

    constructor (x: int, y: int, speedX: int, speedY: int, radius: int)
      ensures this.x == x && this.y == y && this.speedX == speedX && this.speedY == speedY
      ensures this.radius == radius
    {
      this.x, this.y, this.speedX, this.speedY, this.radius := x, y, speedX, speedY, radius;
    }

    function State(): BallState
      reads this
    {
      BallState(x, y, speedX, speedY)
    }

    /** Re-centre the ball on a w-by-h screen with the speed signs the coins choose. */
    method ResetBall(w: nat, h: nat, pickX: Coin, pickY: Coin)
      modifies this`x, this`y, this`speedX, this`speedY
      ensures State() == Reset(w, h, pickX, pickY)
    {
      x := w / 2;
      y := h / 2;
      speedX := BallSpeed * SpeedChoices[pickX];
      speedY := BallSpeed * SpeedChoices[pickY];
    }

    /** Move, reflect off the top and bottom, and score on the left and right edges. */
    method Update(w: nat, h: nat, scores: Scoreboard, pickX: Coin, pickY: Coin)
      modifies this`x, this`y, this`speedX, this`speedY, scores
      ensures Rally(State(), scores.Value()) == UpdateBall(w, h, radius, old(State()), old(scores.Value()), pickX, pickY)
    {
      x := x + speedX;
      y := y + speedY;
      if y + radius >= h || y - radius <= 0 {
        speedY := speedY * -1;
      }
      if x + radius >= w {
        scores.cpu := scores.cpu + 1;
        ResetBall(w, h, pickX, pickY);
      }
      if x - radius <= 0 {
        scores.player := scores.player + 1;
        ResetBall(w, h, pickX, pickY);
      }
    }
  }

  /**
   * A paddle. The player's paddle follows the keys (Update); the CPU's paddle,
   * a CpuPaddle in the program, follows the ball (Track).
   */
  class Paddle {
    var x: int
    var y: int
    var width: int
    var height: int
    var speed: nat

    constructor (x: int, y: int, width: int, height: int, speed: nat)
      ensures this.x == x && this.y == y && this.width == width && this.height == height && this.speed == speed
    {
      this.x, this.y, this.width, this.height, this.speed := x, y, width, height, speed;
    }

    /** Keep the paddle on a screen of height h. */
    method LimitMovement(h: nat)
      modifies this`y
      ensures y == Clamp(old(y), height, h)
    {
      if y <= 0 {
        y := 0;
      }
      if y + height >= h {
        y := h - height;
      }
    }

    /** Move by the up and down keys, then keep on the screen. */
    method Update(keyUp: bool, keyDown: bool, h: nat)
      modifies this`y
      ensures y == Clamp(Steer(old(y), speed, keyUp, keyDown), height, h)
    {
      if keyUp {
        y := y - speed;
      }
      if keyDown {
        y := y + speed;
      }
      LimitMovement(h);
    }

    /** CpuPaddle::Update: step towards the ball's y, then keep on the screen. */
    method Track(ballY: int, h: nat)
      modifies this`y
      ensures y == Clamp(Rules.Track(old(y), height, speed, ballY), height, h)
    {
      if Center(y, height) > ballY as real {
        y := y - speed;
      }
      if Center(y, height) <= ballY as real {
        y := y + speed;
      }
      LimitMovement(h);
    }
  }

  /** The state of main: the entities, the scores, the current page and the timer. */
  class Session {
    const width: nat
    const height: nat
    const ball: Ball
    const player: Paddle
    const cpu: Paddle
    const scores: Scoreboard
    var page: Page
    var startTime: real

    ghost predicate Valid()
      reads this, ball, player, cpu
    {
      player != cpu &&
      Fits(width, height) &&
      ball.radius == BallRadius &&
      player.height == PaddleHeight && player.speed == PlayerSpeed &&
      cpu.height == PaddleHeight && cpu.speed == CpuSpeed
    }

    ghost function Model(): World
      reads this, ball, player, cpu, scores
    {
      World(page, ball.State(), player.y, cpu.y, scores.Value(), startTime)
    }

    /** The set-up before the loop: window of w by h, entities placed, LOGO page, timer started at now. */
    constructor (w: nat, h: nat, now: real)
      requires Fits(w, h)
      ensures Valid() && Model() == Initial(w, h, now)
      ensures width == w && height == h
      ensures player.x == w - PaddleWidth - PaddleMargin && cpu.x == PaddleMargin
      ensures player.width == PaddleWidth && cpu.width == PaddleWidth
    {
      width, height := w, h;
      ball := new Ball(w / 2, h / 2, BallSpeed, BallSpeed, BallRadius);
      player := new Paddle(w - PaddleWidth - PaddleMargin, h / 2 - PaddleHeight / 2, PaddleWidth, PaddleHeight, PlayerSpeed);
      cpu := new Paddle(PaddleMargin, h / 2 - PaddleHeight / 2, PaddleWidth, PaddleHeight, CpuSpeed);
      scores := new Scoreboard();
      page := Logo;
      startTime := now;
    }

    /** One iteration of the main loop; exit is true when the exit button ends the program. */
    method Frame(inp: Input) returns (exit: bool)
      requires Valid()
      modifies this`page, this`startTime, ball`x, ball`y, ball`speedX, ball`speedY, player`y, cpu`y, scores
      ensures Valid()
      ensures Step(width, height, old(Model()), inp) == if exit then Exit(Model()) else Continue(Model())
    {
      exit := false;
      var elapsed := inp.now - startTime;
      match page {
        case Logo =>
          if elapsed >= LogoSeconds {
            page := Welcome;
            startTime := inp.now;
          }
        case Welcome =>
          if IsPressed(inp.overStart, inp.mousePressed) {
            page := Game;
            startTime := inp.now;
          }
        case Game =>
          ball.Update(width, height, scores, inp.pickX, inp.pickY);
          player.Update(inp.keyUp, inp.keyDown, height);
          cpu.Track(ball.y, height);
          if inp.hitsPlayer {
            ball.speedX := ball.speedX * -1;
          }
          if inp.hitsCpu {
            ball.speedX := ball.speedX * -1;
          }
          if elapsed >= GameDuration {
            if scores.cpu < scores.player {
              page := Win;
            }
            if scores.cpu >= scores.player {
              page := Loss;
            }
            if scores.cpu == scores.player {
              page := TimeOver;
            }
          }
        case _ =>
          if IsPressed(inp.overExit, inp.mousePressed) {
            exit := true;
            return;
          }
          if IsPressed(inp.overReplay, inp.mousePressed) {
            page := Game;
            scores.player := 0;
            scores.cpu := 0;
            ball.ResetBall(width, height, inp.pickX, inp.pickY);
            startTime := inp.now;
          }
      }
    }

    /** The main loop: one Frame per input until the frames run out (the window closes) or the exit button is pressed. */
    method Loop(frames: seq<Input>) returns (exit: bool)
      requires Valid()
      modifies this`page, this`startTime, ball`x, ball`y, ball`speedX, ball`speedY, player`y, cpu`y, scores
      ensures Valid()
      ensures Run(width, height, old(Model()), frames) == if exit then Exit(Model()) else Continue(Model())
    {
      exit := false;
      var i := 0;
      while i < |frames| && !exit
        invariant 0 <= i <= |frames|
        invariant Valid()
        invariant exit ==> Run(width, height, old(Model()), frames) == Exit(Model())
        invariant !exit ==> Run(width, height, old(Model()), frames) == Run(width, height, Model(), frames[i..])
      {
        assert frames[i..][0] == frames[i] && frames[i..][1..] == frames[i + 1..];
        exit := Frame(frames[i]);
        i := i + 1;
      }
    }
  }
}
