/**
 * What the rules promise: the paddle clamp is idempotent, the ball stays
 * between the scoring edges, every frame keeps the speed and on-screen
 * invariant, the pages follow the LOGO -> WELCOME -> GAME -> end screen ->
 * GAME graph, and the scores fall only on replay.
 */
module Properties {
  import opened Rules

  /** LimitMovement applied twice is LimitMovement applied once, whatever the sizes. */
  lemma ClampIdempotent(y: int, height: int, h: nat)
    ensures Clamp(Clamp(y, height, h), height, h) == Clamp(y, height, h)
  {
  }

  /** With the ball's radius under half the width, one frame's ball update leaves the ball between the edges. */
  lemma UpdateBallBetweenEdges(w: nat, h: nat, radius: int, b: BallState, score: Score, pickX: Coin, pickY: Coin)
    requires radius < w / 2
    ensures BetweenEdges(w, radius, UpdateBall(w, h, radius, b, score, pickX, pickY).ball)
  {
  }

  lemma InitialIsSound(w: nat, h: nat, now: real)
    requires Fits(w, h)
    ensures Sound(w, h, Initial(w, h, now))
  {
  }

  /** Every frame keeps the speeds at magnitude 7, the paddles on the screen and the ball between the edges. */
  lemma StepKeepsSound(w: nat, h: nat, s: World, inp: Input)
    requires Fits(w, h) && Sound(w, h, s)
    ensures Sound(w, h, Step(w, h, s, inp).world)
  {
  }

  /** The invariant holds after any sequence of frames. */
  lemma {:induction false} RunKeepsSound(w: nat, h: nat, s: World, frames: seq<Input>)
    requires Fits(w, h) && Sound(w, h, s)
    ensures Sound(w, h, Run(w, h, s, frames).world)
    decreases |frames|
  {
    if frames != [] {
      StepKeepsSound(w, h, s, frames[0]);
      var o := Step(w, h, s, frames[0]);
      if o.Continue? {
        RunKeepsSound(w, h, o.world, frames[1..]);
      }
    }
  }

  /** The page graph of the main loop. */
  predicate Edge(p: Page, q: Page)
  {
    match p
    case Logo => q == Logo || q == Welcome
    case Welcome => q == Welcome || q == Game
    case Game => q == Game || EndScreen(q)
    case _ => q == p || q == Game
  }

  lemma StepFollowsEdges(w: nat, h: nat, s: World, inp: Input)
    ensures Edge(s.page, Step(w, h, s, inp).world.page)
  {
  }

  /** Once the logo is gone it never comes back. */
  lemma {:induction false} RunNeverReturnsToLogo(w: nat, h: nat, s: World, frames: seq<Input>)
    requires s.page != Logo
    ensures Run(w, h, s, frames).world.page != Logo
    decreases |frames|
  {
    if frames != [] {
      StepFollowsEdges(w, h, s, frames[0]);
      var o := Step(w, h, s, frames[0]);
      if o.Continue? {
        RunNeverReturnsToLogo(w, h, o.world, frames[1..]);
      }
    }
  }

  /** The program leaves only through the exit button of an end screen. */
  lemma {:induction false} RunExitsFromEndScreen(w: nat, h: nat, s: World, frames: seq<Input>)
    requires Run(w, h, s, frames).Exit?
    ensures EndScreen(Run(w, h, s, frames).world.page)
    ensures exists i :: 0 <= i < |frames| && frames[i].mousePressed && frames[i].overExit
    decreases |frames|
  {
    var o := Step(w, h, s, frames[0]);
    if o.Exit? {
      assert frames[0].mousePressed && frames[0].overExit;
    } else {
      RunExitsFromEndScreen(w, h, o.world, frames[1..]);
      var i :| 0 <= i < |frames[1..]| && frames[1..][i].mousePressed && frames[1..][i].overExit;
      assert frames[i + 1] == frames[1..][i];
    }
  }

  /** LOGO moves to WELCOME exactly when 3 seconds have passed, restarting the timer. */
  lemma LogoWaits(w: nat, h: nat, s: World, inp: Input)
    requires s.page == Logo
    ensures Step(w, h, s, inp).Continue?
    ensures var n := Step(w, h, s, inp).world;
      (n.page == Welcome <==> inp.now - s.startTime >= LogoSeconds) &&
      (n.page == Welcome ==> n == s.(page := Welcome, startTime := inp.now)) &&
      (n.page != Welcome ==> n == s)
  {
  }

  /** WELCOME moves to GAME exactly on a press of the start button, restarting the timer. */
  lemma WelcomeNeedsStart(w: nat, h: nat, s: World, inp: Input)
    requires s.page == Welcome
    ensures Step(w, h, s, inp).Continue?
    ensures var n := Step(w, h, s, inp).world;
      (n.page == Game <==> inp.mousePressed && inp.overStart) &&
      (n.page == Game ==> n == s.(page := Game, startTime := inp.now)) &&
      (n.page != Game ==> n == s)
  {
  }

  /**
   * A GAME frame ends the round exactly when the game duration has passed;
   * the verdict reads the scores after this frame's point.
   */
  lemma RoundEnds(w: nat, h: nat, s: World, inp: Input)
    requires s.page == Game
    ensures Step(w, h, s, inp).Continue?
    ensures var n := Step(w, h, s, inp).world;
      var over := inp.now - s.startTime >= GameDuration;
      (n.page == Game <==> !over) &&
      (n.page == Win <==> over && n.score.cpu < n.score.player) &&
      (n.page == Loss <==> over && n.score.cpu > n.score.player) &&
      (n.page == TimeOver <==> over && n.score.cpu == n.score.player) &&
      n.startTime == s.startTime
  {
  }

  /**
   * A GAME frame updates the ball, then the player's paddle by the keys, then
   * the CPU's paddle towards the updated ball, and flips the ball's horizontal
   * speed once per paddle it overlaps.
   */
  lemma GameFrameMovesEntities(w: nat, h: nat, s: World, inp: Input)
    requires s.page == Game && Fits(w, h)
    ensures var n := Step(w, h, s, inp).world;
      var rally := UpdateBall(w, h, BallRadius, s.ball, s.score, inp.pickX, inp.pickY);
      n.playerY == Clamp(Steer(s.playerY, PlayerSpeed, inp.keyUp, inp.keyDown), PaddleHeight, h) &&
      n.cpuY == Clamp(Track(s.cpuY, PaddleHeight, CpuSpeed, rally.ball.y), PaddleHeight, h) &&
      n.ball.speedX == (if inp.hitsPlayer == inp.hitsCpu then rally.ball.speedX else -rally.ball.speedX) &&
      Abs(n.ball.speedX) == Abs(rally.ball.speedX) &&
      n.ball.(speedX := rally.ball.speedX) == rally.ball &&
      n.score == rally.score
  {
  }

  /**
   * On an end screen the exit button is checked first and leaves the loop;
   * otherwise the replay button starts a fresh round.
   */
  lemma EndScreenButtons(w: nat, h: nat, s: World, inp: Input)
    requires EndScreen(s.page)
    ensures var o := Step(w, h, s, inp);
      (o.Exit? <==> inp.mousePressed && inp.overExit) &&
      (o.Exit? ==> o.world == s) &&
      (o.Continue? && inp.mousePressed && inp.overReplay ==>
        o.world.page == Game && o.world.score == Score(0, 0) &&
        o.world.ball == Reset(w, h, inp.pickX, inp.pickY) && o.world.startTime == inp.now &&
        o.world.playerY == s.playerY && o.world.cpuY == s.cpuY) &&
      (!(inp.mousePressed && (inp.overExit || inp.overReplay)) ==> o == Continue(s))
  {
  }

  /**
   * Scores fall only when the replay button zeroes them; in a GAME frame at
   * most one of them rises, by exactly one.
   */
  lemma ScoresFallOnlyOnReplay(w: nat, h: nat, s: World, inp: Input)
    requires Fits(w, h)
    ensures var n := Step(w, h, s, inp).world;
      (n.score.cpu < s.score.cpu || n.score.player < s.score.player) ==>
        EndScreen(s.page) && n.page == Game && n.score == Score(0, 0)
    ensures var n := Step(w, h, s, inp).world;
      s.page == Game ==>
        n.score == s.score ||
        n.score == s.score.(cpu := s.score.cpu + 1) ||
        n.score == s.score.(player := s.score.player + 1)
  {
  }
}
