/** The React hook that runs the two-player Pong of the component version:
    it creates the ball and the two paddles once, and every animation frame
    moves them, bounces the ball off the walls and paddles and reports a
    point or a winner to the component. The ball and paddles are a mutable
    object the hook owns; score and winner are component state the frame
    sets. */
module GameEngine {
  import opened RealMath
  import opened Optional
  import opened PongCommon
  import opened Keyboard

  /** The constants the hook and the component import from their own
      constants file, frontend/src/components/pong/utils/constants.ts, which
      is not part of this model: any positive numbers. */
  datatype Config = Config(initialBallSpeed: real, paddleHeight: real, paddleWidth: real,
                           winningScore: int, ballRadius: real, paddleSpeed: real,
                           accelerationFactor: real, bounceAngleFactor: real)

  predicate ValidConfig(c: Config)
  {
    c.initialBallSpeed > 0.0 && c.paddleHeight > 0.0 && c.paddleWidth > 0.0 && c.winningScore > 0 &&
    c.ballRadius > 0.0 && c.paddleSpeed > 0.0 && c.accelerationFactor > 0.0 && c.bounceAngleFactor > 0.0
  }

  datatype Paddle = Paddle(x: real, y: real)

  datatype Objects = Objects(ball: Ball, player1: Paddle, player2: Paddle)

  datatype Score = Score(player1: int, player2: int)

  /** What a frame reads from the component: its props. */
  datatype Props = Props(isPaused: bool, winner: Option<string>, score: Score,
                         movementP1: Direction, movementP2: Direction,
                         isOnePlayerMode: bool, errorMargin: real)

  /** What a frame leaves: the objects, and the score and winner it set. */
  datatype Outcome = Outcome(objects: Objects, score: Score, winner: Option<string>)

  const PLAYER1_WINS: string := "Jugador 1"
  const PLAYER2_WINS: string := "Jugador 2"
  const AI_WINS: string := "Jugador 2 (IA)"

  /** JavaScript truthiness of `string | null`. */
  predicate Truthy(w: Option<string>)
  {
    w.Some? && w.value != ""
  }

  /** The objects the hook creates for a canvas: the ball at the centre
      moving down and right, the paddles vertically centred at both edges. */
  function InitialObjects(width: real, height: real, c: Config): (o: Objects)
    ensures o.ball.x == width / 2.0 && o.ball.y == height / 2.0
    ensures o.ball.dx > 0.0 && o.ball.dy > 0.0 && o.ball.dx == o.ball.dy
    ensures o.player1.x == 0.0 && o.player2.x == width - c.paddleWidth
    ensures o.player1.y == o.player2.y && o.player1.y + c.paddleHeight / 2.0 == height / 2.0
    requires ValidConfig(c)
  {
    Objects(Ball(width / 2.0, height / 2.0, c.initialBallSpeed, c.initialBallSpeed),
            Paddle(0.0, height / 2.0 - c.paddleHeight / 2.0),
            Paddle(width - c.paddleWidth, height / 2.0 - c.paddleHeight / 2.0))
  }

  /** The component's `resetBall`: the ball back at the centre serving
      against its last horizontal direction, diagonally up or down as the
      coin falls, and both paddles recentred. */
  function Served(o: Objects, width: real, height: real, coin: real, c: Config): (r: Objects)
    requires ValidConfig(c)
    ensures r.ball.x == width / 2.0 && r.ball.y == height / 2.0
    ensures o.ball.dx > 0.0 ==> r.ball.dx < 0.0
    ensures o.ball.dx <= 0.0 ==> r.ball.dx > 0.0
    ensures Abs(r.ball.dx) == c.initialBallSpeed && Abs(r.ball.dy) == c.initialBallSpeed
    ensures r.player1 == o.player1.(y := height / 2.0 - c.paddleHeight / 2.0)
    ensures r.player2 == o.player2.(y := height / 2.0 - c.paddleHeight / 2.0)
  {
    var initialPaddleY := height / 2.0 - c.paddleHeight / 2.0;
    Objects(Ball(width / 2.0, height / 2.0,
                 if o.ball.dx > 0.0 then -c.initialBallSpeed else c.initialBallSpeed,
                 c.initialBallSpeed * (if coin > 0.5 then 1.0 else -1.0)),
            o.player1.(y := initialPaddleY), o.player2.(y := initialPaddleY))
  }

  /** A human paddle's move for a direction cell. */
  function Steered(y: real, d: Direction, speed: real): (r: real)
    requires speed > 0.0
    ensures d == Up ==> r == y - speed
    ensures d == Down ==> r == y + speed
    ensures d == Idle ==> r == y
  {
    if d == Up then y - speed else if d == Down then y + speed else y
  }

  /** The paddle part of a frame (after the ball moved): player 1 by its
      direction, player 2 by its direction or by the AI, each clamped to
      the canvas height. */
  function MovePaddles(o: Objects, p: Props, height: real, c: Config): (r: Objects)
    requires ValidConfig(c)
    ensures r.ball == o.ball && r.player1.x == o.player1.x && r.player2.x == o.player2.x
    ensures c.paddleHeight <= height ==>
      0.0 <= r.player1.y <= height - c.paddleHeight && 0.0 <= r.player2.y <= height - c.paddleHeight
    ensures r.player1.y == Clamp(Steered(o.player1.y, p.movementP1, c.paddleSpeed), 0.0, height - c.paddleHeight)
    ensures p.isOnePlayerMode ==>
      r.player2.y == Clamp(AIStep(o.player2.y, o.ball.y - c.paddleHeight / 2.0, p.errorMargin, c.paddleSpeed),
                           0.0, height - c.paddleHeight)
    ensures !p.isOnePlayerMode ==>
      r.player2.y == Clamp(Steered(o.player2.y, p.movementP2, c.paddleSpeed), 0.0, height - c.paddleHeight)
  {
    var y1 := Steered(o.player1.y, p.movementP1, c.paddleSpeed);
    var y2 := if p.isOnePlayerMode then
                AIStep(o.player2.y, o.ball.y - c.paddleHeight / 2.0, p.errorMargin, c.paddleSpeed)
              else Steered(o.player2.y, p.movementP2, c.paddleSpeed);
    o.(player1 := o.player1.(y := Clamp(y1, 0.0, height - c.paddleHeight)),
       player2 := o.player2.(y := Clamp(y2, 0.0, height - c.paddleHeight)))
  }

  /** `ball.dy *= -1` whenever the ball overlaps the top or bottom edge. */
  function WallBounce(b: Ball, height: real, c: Config): (r: Ball)
    ensures r.x == b.x && r.y == b.y && r.dx == b.dx
    ensures (b.y + c.ballRadius > height || b.y - c.ballRadius < 0.0) ==> r.dy == -b.dy
    ensures !(b.y + c.ballRadius > height || b.y - c.ballRadius < 0.0) ==> r.dy == b.dy
  {
    if b.y + c.ballRadius > height || b.y - c.ballRadius < 0.0 then b.(dy := b.dy * -1.0) else b
  }

  /** The deflection both paddles apply at a relative impact point `rel`
      in (0, 1): the horizontal speed reverses and grows by the acceleration
      factor, the vertical speed becomes the centred impact scaled by the
      bounce-angle factor. */
  function Deflected(b: Ball, rel: real, c: Config): (r: Ball)
    requires ValidConfig(c) && 0.0 < rel < 1.0
    ensures r.x == b.x && r.y == b.y
    ensures b.dx < 0.0 ==> r.dx > 0.0
    ensures b.dx > 0.0 ==> r.dx < 0.0
    ensures Abs(r.dx) == Abs(b.dx) * c.accelerationFactor
    ensures -c.bounceAngleFactor / 2.0 < r.dy < c.bounceAngleFactor / 2.0
  {
    var dy := (rel - 0.5) * c.bounceAngleFactor;
    CenteredScale(rel, c.bounceAngleFactor);
    FlipSign(b.dx, c.accelerationFactor);
    assert dy < c.bounceAngleFactor / 2.0;
    Ball(b.x, b.y, b.dx * -c.accelerationFactor, dy)
  }

  /** The left paddle's test: a ball moving left whose edge has passed the
      paddle face and whose centre is strictly within the paddle's span
      turns right, faster by the acceleration factor, with a vertical speed
      that grows with the distance of the impact from the paddle centre. */
  function HitLeft(b: Ball, p1: Paddle, c: Config): (r: Ball)
    requires ValidConfig(c)
    ensures r.x == b.x && r.y == b.y
    ensures r != b ==>
      b.dx < 0.0 && b.x - c.ballRadius < c.paddleWidth && p1.y < b.y < p1.y + c.paddleHeight
    ensures (b.dx < 0.0 && b.x - c.ballRadius < c.paddleWidth && p1.y < b.y < p1.y + c.paddleHeight) ==>
      r.dx > 0.0 && Abs(r.dx) == Abs(b.dx) * c.accelerationFactor &&
      -c.bounceAngleFactor / 2.0 < r.dy < c.bounceAngleFactor / 2.0
  {
    if b.dx < 0.0 && b.x - c.ballRadius < c.paddleWidth && b.y > p1.y && b.y < p1.y + c.paddleHeight then
      RatioInUnit(b.y - p1.y, c.paddleHeight);
      Deflected(b, (b.y - p1.y) / c.paddleHeight, c)
    else b
  }

  /** The right paddle's test, the mirror image for a ball moving right. */
  function HitRight(b: Ball, p2: Paddle, width: real, c: Config): (r: Ball)
    requires ValidConfig(c)
    ensures r.x == b.x && r.y == b.y
    ensures r != b ==>
      b.dx > 0.0 && b.x + c.ballRadius > width - c.paddleWidth && p2.y < b.y < p2.y + c.paddleHeight
    ensures (b.dx > 0.0 && b.x + c.ballRadius > width - c.paddleWidth && p2.y < b.y < p2.y + c.paddleHeight) ==>
      r.dx < 0.0 && Abs(r.dx) == Abs(b.dx) * c.accelerationFactor &&
      -c.bounceAngleFactor / 2.0 < r.dy < c.bounceAngleFactor / 2.0
  {
    if b.dx > 0.0 && b.x + c.ballRadius > width - c.paddleWidth && b.y > p2.y && b.y < p2.y + c.paddleHeight then
      RatioInUnit(b.y - p2.y, c.paddleHeight);
      Deflected(b, (b.y - p2.y) / c.paddleHeight, c)
    else b
  }

  /** The scoring part of a frame: a ball whose edge has crossed the left
      edge gives player 2 a point, else one across the right edge gives
      player 1 a point; reaching exactly the winning score names the winner,
      any other point serves again. */
  function Scoring(o: Objects, p: Props, width: real, height: real, coin: real, c: Config): (r: Outcome)
    requires ValidConfig(c)
    ensures r.score.player1 == p.score.player1 || r.score.player1 == p.score.player1 + 1
    ensures r.score.player2 == p.score.player2 || r.score.player2 == p.score.player2 + 1
    ensures !(r.score.player1 != p.score.player1 && r.score.player2 != p.score.player2)
    ensures r.score.player2 != p.score.player2 <==> o.ball.x - c.ballRadius < 0.0
    ensures r.score.player1 != p.score.player1 <==>
      o.ball.x - c.ballRadius >= 0.0 && o.ball.x + c.ballRadius > width
    ensures r.score.player2 != p.score.player2 && r.score.player2 == c.winningScore ==>
      r.objects == o && r.winner == Some(if p.isOnePlayerMode then AI_WINS else PLAYER2_WINS)
    ensures r.score.player1 != p.score.player1 && r.score.player1 == c.winningScore ==>
      r.objects == o && r.winner == Some(PLAYER1_WINS)
    ensures (r.score.player2 != p.score.player2 && r.score.player2 != c.winningScore) ||
            (r.score.player1 != p.score.player1 && r.score.player1 != c.winningScore) ==>
      r.objects == Served(o, width, height, coin, c) && r.winner == p.winner
    ensures r.score == p.score ==> r.objects == o && r.winner == p.winner
  {
    if o.ball.x - c.ballRadius < 0.0 then
      var newScoreP2 := p.score.player2 + 1;
      var score := p.score.(player2 := newScoreP2);
      if newScoreP2 == c.winningScore then
        Outcome(o, score, Some(if p.isOnePlayerMode then AI_WINS else PLAYER2_WINS))
      else Outcome(Served(o, width, height, coin, c), score, p.winner)
    else if o.ball.x + c.ballRadius > width then
      var newScoreP1 := p.score.player1 + 1;
      var score := p.score.(player1 := newScoreP1);
      if newScoreP1 == c.winningScore then Outcome(o, score, Some(PLAYER1_WINS))
      else Outcome(Served(o, width, height, coin, c), score, p.winner)
    else Outcome(o, p.score, p.winner)
  }

  /** The objects after the physics of a frame, before scoring. */
  function Moved(o: Objects, p: Props, width: real, height: real, c: Config): (r: Objects)
    requires ValidConfig(c)
    ensures c.paddleHeight <= height ==>
      0.0 <= r.player1.y <= height - c.paddleHeight && 0.0 <= r.player2.y <= height - c.paddleHeight
  {
    var b := o.ball.(x := o.ball.x + o.ball.dx, y := o.ball.y + o.ball.dy);
    var o1 := MovePaddles(o.(ball := b), p, height, c);
    var b1 := WallBounce(o1.ball, height, c);
    var b2 := HitLeft(b1, o1.player1, c);
    o1.(ball := HitRight(b2, o1.player2, width, c))
  }

  /** One call of `gameLoop` on created objects. */
  function Frame(o: Objects, p: Props, width: real, height: real, coin: real, c: Config): (r: Outcome)
    requires ValidConfig(c)
    ensures p.isPaused || Truthy(p.winner) ==> r == Outcome(o, p.score, p.winner)
    ensures !(p.isPaused || Truthy(p.winner)) && c.paddleHeight <= height ==>
      0.0 <= r.objects.player1.y <= height - c.paddleHeight && 0.0 <= r.objects.player2.y <= height - c.paddleHeight
  {
    if p.isPaused || Truthy(p.winner) then Outcome(o, p.score, p.winner)
    else Scoring(Moved(o, p, width, height, c), p, width, height, coin, c)
  }

  /** A frame scores at most one point, and sets a winner only when that
      point brings a score to exactly the winning score. */
  lemma {:induction false} FrameScoresAtMostOnce(o: Objects, p: Props, width: real, height: real, coin: real, c: Config)
    requires ValidConfig(c)
    ensures var r := Frame(o, p, width, height, coin, c);
      (r.score.player1 - p.score.player1) + (r.score.player2 - p.score.player2) <= 1 &&
      (r.winner != p.winner ==> r.score.player1 == c.winningScore || r.score.player2 == c.winningScore)
  {
    if !(p.isPaused || Truthy(p.winner)) {
      var m := Moved(o, p, width, height, c);
      assert Frame(o, p, width, height, coin, c) == Scoring(m, p, width, height, coin, c);
    }
  }

  /** The hook's mutable game objects (`gameObjects.current`). */
  class Engine {
    var created: bool
    var ball: Ball
    var player1: Paddle
    var player2: Paddle
    const config: Config

    function Snapshot(): Objects
      reads this
    {
      Objects(ball, player1, player2)
    }

    /** Mounting: no objects yet. */
    constructor (c: Config)
      requires ValidConfig(c)
      ensures !created && config == c
    {
      config := c;
      created := false;
      ball := Ball(0.0, 0.0, 0.0, 0.0);
      player1, player2 := Paddle(0.0, 0.0), Paddle(0.0, 0.0);
    }

    /** The initialisation effect: objects are created once, for the canvas. */
    method Initialize(width: real, height: real)
      requires ValidConfig(config)
      modifies this
      ensures created
      ensures !old(created) ==> Snapshot() == InitialObjects(width, height, config)
      ensures old(created) ==> Snapshot() == old(Snapshot())
    {
      if !created {
        ball := Ball(width / 2.0, height / 2.0, config.initialBallSpeed, config.initialBallSpeed);
        player1 := Paddle(0.0, height / 2.0 - config.paddleHeight / 2.0);
        player2 := Paddle(width - config.paddleWidth, height / 2.0 - config.paddleHeight / 2.0);
        created := true;
      }
    }

    /** The component's `resetBall`, which writes into these objects; the
        draw of `Math.random()` is `coin`. */
    method ResetBall(width: real, height: real, coin: real)
      requires ValidConfig(config)
      modifies this
      ensures created == old(created)
      ensures created ==> Snapshot() == Served(old(Snapshot()), width, height, coin, config)
      ensures !created ==> Snapshot() == old(Snapshot())
    {
      if created {
        var currentDx := ball.dx;
        ball := Ball(width / 2.0, height / 2.0,
                     if currentDx > 0.0 then -config.initialBallSpeed else config.initialBallSpeed,
                     config.initialBallSpeed * (if coin > 0.5 then 1.0 else -1.0));
        var initialPaddleY := height / 2.0 - config.paddleHeight / 2.0;
        player1 := player1.(y := initialPaddleY);
        player2 := player2.(y := initialPaddleY);
      }
    }

    /** `gameLoop`: nothing while paused, after a win or before the objects
        exist; otherwise one frame, returning the score and winner the
        frame leaves in the component. */
    method GameLoop(p: Props, width: real, height: real, coin: real) returns (score: Score, winner: Option<string>)
      requires ValidConfig(config)
      modifies this
      ensures created == old(created)
      ensures created ==> Outcome(Snapshot(), score, winner) == Frame(old(Snapshot()), p, width, height, coin, config)
      ensures !created ==> Snapshot() == old(Snapshot()) && score == p.score && winner == p.winner
    {
      score, winner := p.score, p.winner;
      if p.isPaused || Truthy(p.winner) {
        return;
      }
      if !created {
        return;
      }
      Advance(p, width, height);
      score, winner := CheckScore(p, width, height, coin);
    }

    /** The physics of a frame: ball, paddles, walls and paddle hits. */
    method Advance(p: Props, width: real, height: real)
      requires ValidConfig(config)
      modifies this
      ensures created == old(created)
      ensures Snapshot() == Moved(old(Snapshot()), p, width, height, config)
    {
      MoveBallAndPaddles(p, height);
      BounceWalls(height);
      CheckPaddle1();
      CheckPaddle2(width);
    }

    method MoveBallAndPaddles(p: Props, height: real)
      requires ValidConfig(config)
      modifies this
      ensures created == old(created)
      ensures Snapshot() == MovePaddles(old(Snapshot()).(ball := old(ball).(x := old(ball.x) + old(ball.dx),
                                                                            y := old(ball.y) + old(ball.dy))),
                                        p, height, config)
    {
      ball := ball.(x := ball.x + ball.dx);
      ball := ball.(y := ball.y + ball.dy);
      MovePlayer1(p.movementP1, height);
      MovePlayer2(p, height);
    }

    method BounceWalls(height: real)
      modifies this
      ensures created == old(created)
      ensures Snapshot() == old(Snapshot()).(ball := WallBounce(old(ball), height, config))
    {
      if ball.y + config.ballRadius > height || ball.y - config.ballRadius < 0.0 {
        ball := ball.(dy := ball.dy * -1.0);
      }
    }

    method MovePlayer1(movementP1: Direction, height: real)
      requires ValidConfig(config)
      modifies this
      ensures created == old(created)
      ensures Snapshot() == old(Snapshot()).(player1 := old(player1).(y :=
        Clamp(Steered(old(player1.y), movementP1, config.paddleSpeed), 0.0, height - config.paddleHeight)))
    {
      if movementP1 == Up {
        player1 := player1.(y := player1.y - config.paddleSpeed);
      } else if movementP1 == Down {
        player1 := player1.(y := player1.y + config.paddleSpeed);
      }
      player1 := player1.(y := Max(0.0, Min(player1.y, height - config.paddleHeight)));
    }

    method MovePlayer2(p: Props, height: real)
      requires ValidConfig(config)
      modifies this
      ensures created == old(created)
      ensures p.isOnePlayerMode ==> Snapshot() == old(Snapshot()).(player2 := old(player2).(y :=
        Clamp(AIStep(old(player2.y), old(ball.y) - config.paddleHeight / 2.0, p.errorMargin, config.paddleSpeed),
              0.0, height - config.paddleHeight)))
      ensures !p.isOnePlayerMode ==> Snapshot() == old(Snapshot()).(player2 := old(player2).(y :=
        Clamp(Steered(old(player2.y), p.movementP2, config.paddleSpeed), 0.0, height - config.paddleHeight)))
    {
      if p.isOnePlayerMode {
        var targetY := ball.y - config.paddleHeight / 2.0;
        var deltaY := targetY - player2.y;
        if Abs(deltaY) > p.errorMargin {
          player2 := player2.(y := player2.y + Sign(deltaY) * Min(config.paddleSpeed, Abs(deltaY)));
        }
      } else {
        if p.movementP2 == Up {
          player2 := player2.(y := player2.y - config.paddleSpeed);
        } else if p.movementP2 == Down {
          player2 := player2.(y := player2.y + config.paddleSpeed);
        }
      }
      player2 := player2.(y := Max(0.0, Min(player2.y, height - config.paddleHeight)));
    }

    method CheckPaddle1()
      requires ValidConfig(config)
      modifies this
      ensures created == old(created)
      ensures Snapshot() == old(Snapshot()).(ball := HitLeft(old(ball), old(player1), config))
    {
      if ball.dx < 0.0 && ball.x - config.ballRadius < config.paddleWidth &&
         ball.y > player1.y && ball.y < player1.y + config.paddleHeight {
        var relativeImpact := (ball.y - player1.y) / config.paddleHeight;
        ball := ball.(dy := (relativeImpact - 0.5) * config.bounceAngleFactor);
        ball := ball.(dx := ball.dx * -config.accelerationFactor);
      }
    }

    method CheckPaddle2(width: real)
      requires ValidConfig(config)
      modifies this
      ensures created == old(created)
      ensures Snapshot() == old(Snapshot()).(ball := HitRight(old(ball), old(player2), width, config))
    {
      if ball.dx > 0.0 && ball.x + config.ballRadius > width - config.paddleWidth &&
         ball.y > player2.y && ball.y < player2.y + config.paddleHeight {
        var relativeImpact := (ball.y - player2.y) / config.paddleHeight;
        ball := ball.(dy := (relativeImpact - 0.5) * config.bounceAngleFactor);
        ball := ball.(dx := ball.dx * -config.accelerationFactor);
      }
    }

    method CheckScore(p: Props, width: real, height: real, coin: real) returns (score: Score, winner: Option<string>)
      requires ValidConfig(config) && created
      modifies this
      ensures created
      ensures Outcome(Snapshot(), score, winner) == Scoring(old(Snapshot()), p, width, height, coin, config)
    {
      score, winner := p.score, p.winner;
      if ball.x - config.ballRadius < 0.0 {
        var newScoreP2 := p.score.player2 + 1;
        score := score.(player2 := newScoreP2);
        if newScoreP2 == config.winningScore {
          winner := Some(if p.isOnePlayerMode then AI_WINS else PLAYER2_WINS);
        } else {
          ResetBall(width, height, coin);
        }
      } else if ball.x + config.ballRadius > width {
        var newScoreP1 := p.score.player1 + 1;
        score := score.(player1 := newScoreP1);
        if newScoreP1 == config.winningScore {
          winner := Some(PLAYER1_WINS);
        } else {
          ResetBall(width, height, coin);
        }
      }
    }
  }
}
