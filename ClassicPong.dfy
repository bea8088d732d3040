/** The two-player canvas Pong engine: one paddle per side, driven by the
    keys W/S and O/L or, in the one-player mode, by the dead-zone AI; the
    ball bounces off the top and bottom walls and off the paddle it is
    heading toward; a ball leaving on one side scores for the other player.
    The transitions are functions on a `Game` value; the class `Match`
    performs them in place and is proved to agree with them. */
module ClassicPong {
  import opened RealMath
  import opened Geometry
  import opened Constants
  import opened PongCommon

  const CANVAS_WIDTH: real := 800.0
  const CANVAS_HEIGHT: real := 600.0

  /** `PADDLE_INFLUENCE_FACTOR` and `MAX_BALL_SPEED`, whose values are not
      part of this model: any positive reals. */
  datatype Tuning = Tuning(influence: real, maxBallSpeed: real)

  predicate ValidTuning(t: Tuning)
  {
    t.influence > 0.0 && t.maxBallSpeed > 0.0
  }

  datatype GameMode = OnePlayer | TwoPlayers

  datatype Paddle = Paddle(x: real, y: real)

  datatype Game = Game(phase: Phase, score1: int, score2: int, ball: Ball,
                         player1: Paddle, player2: Paddle,
                         player1VelocityY: real, player2VelocityY: real,
                         mode: GameMode, difficulty: DifficultyLevel, keys: set<string>)

  const PADDLE_TOP_LIMIT: real := CANVAS_HEIGHT - PADDLE_HEIGHT

  predicate IsPaddleVelocity(v: real)
  {
    v == -PADDLE_SPEED || v == 0.0 || v == PADDLE_SPEED
  }

  /** What every reachable state satisfies. */
  predicate Inv(s: Game)
  {
    0.0 <= s.player1.y <= PADDLE_TOP_LIMIT && 0.0 <= s.player2.y <= PADDLE_TOP_LIMIT &&
    s.player1.x == PADDLE_WIDTH && s.player2.x == CANVAS_WIDTH - 2.0 * PADDLE_WIDTH &&
    IsPaddleVelocity(s.player1VelocityY) && IsPaddleVelocity(s.player2VelocityY) &&
    s.score1 >= 0 && s.score2 >= 0
  }

  /** `resetBall(serveToPlayer)`: from the centre, horizontally toward the
      receiving player at the initial speed, with a small random vertical
      component drawn from `draw` in [0, 1). */
  function ServeBall(serveToPlayer: int, draw: real): (b: Ball)
    requires serveToPlayer == 1 || serveToPlayer == 2
    requires 0.0 <= draw < 1.0
    ensures b.x == CANVAS_WIDTH / 2.0 && b.y == CANVAS_HEIGHT / 2.0
    ensures Abs(b.dx) == INITIAL_BALL_SPEED
    ensures b.dx < 0.0 <==> serveToPlayer == 1
    ensures Abs(b.dy) <= INITIAL_BALL_SPEED / 4.0
  {
    Ball(CANVAS_WIDTH / 2.0, CANVAS_HEIGHT / 2.0,
         (if serveToPlayer == 1 then -1.0 else 1.0) * INITIAL_BALL_SPEED,
         (draw - 0.5) * (INITIAL_BALL_SPEED / 2.0))
  }

  /** `resetGame`: back to the menu, scores 0, the ball stopped at the
      centre, both paddles vertically centred next to their walls. */
  function GameReset(s: Game): (r: Game)
    ensures r.phase == Menu && r.score1 == 0 && r.score2 == 0
    ensures r.ball == Ball(CANVAS_WIDTH / 2.0, CANVAS_HEIGHT / 2.0, 0.0, 0.0)
    ensures r.player1 == Paddle(PADDLE_WIDTH, CANVAS_HEIGHT / 2.0 - PADDLE_HEIGHT / 2.0)
    ensures r.player2 == Paddle(CANVAS_WIDTH - 2.0 * PADDLE_WIDTH, CANVAS_HEIGHT / 2.0 - PADDLE_HEIGHT / 2.0)
    ensures r.mode == s.mode && r.difficulty == s.difficulty && r.keys == s.keys
    ensures r.player1VelocityY == s.player1VelocityY && r.player2VelocityY == s.player2VelocityY
  {
    var initialPaddleY := CANVAS_HEIGHT / 2.0 - PADDLE_HEIGHT / 2.0;
    s.(phase := Menu, score1 := 0, score2 := 0,
       ball := Ball(CANVAS_WIDTH / 2.0, CANVAS_HEIGHT / 2.0, 0.0, 0.0),
       player1 := Paddle(PADDLE_WIDTH, initialPaddleY),
       player2 := Paddle(CANVAS_WIDTH - 2.0 * PADDLE_WIDTH, initialPaddleY))
  }

  /** Velocity 0, then -speed if `up` is held, then +speed if `down` is
      held: with both held, `down` wins. */
  function HeldVelocity(keys: set<string>, up: string, down: string): (v: real)
    ensures IsPaddleVelocity(v)
    ensures v == PADDLE_SPEED <==> down in keys
    ensures v == -PADDLE_SPEED <==> up in keys && down !in keys
    ensures v == 0.0 <==> up !in keys && down !in keys
  {
    var v := 0.0;
    var v := if up in keys then -PADDLE_SPEED else v;
    if down in keys then PADDLE_SPEED else v
  }

  /** Step 1 of `update`: both paddles move and are clamped to the canvas.
      Player 2 is human in the two-player mode (its velocity is then
      recomputed) and the AI otherwise (its velocity is left as it was). */
  function MovePaddles(s: Game): (r: Game)
    ensures 0.0 <= r.player1.y <= PADDLE_TOP_LIMIT && 0.0 <= r.player2.y <= PADDLE_TOP_LIMIT
    ensures r.player1.x == s.player1.x && r.player2.x == s.player2.x
    ensures r.player1VelocityY == HeldVelocity(s.keys, "w", "s")
    ensures r.player1.y == Clamp(s.player1.y + HeldVelocity(s.keys, "w", "s"), 0.0, PADDLE_TOP_LIMIT)
    ensures s.mode == TwoPlayers ==> r.player2VelocityY == HeldVelocity(s.keys, "o", "l")
    ensures s.mode == TwoPlayers ==>
      r.player2.y == Clamp(s.player2.y + HeldVelocity(s.keys, "o", "l"), 0.0, PADDLE_TOP_LIMIT)
    ensures s.mode == OnePlayer ==> r.player2VelocityY == s.player2VelocityY
    ensures s.mode == OnePlayer ==> r.player2.y == Clamp(
      AIStep(s.player2.y, s.ball.y - PADDLE_HEIGHT / 2.0, DifficultyLevels(s.difficulty).errorMargin, PADDLE_SPEED),
      0.0, PADDLE_TOP_LIMIT)
    ensures r.ball == s.ball && r.phase == s.phase && r.score1 == s.score1 && r.score2 == s.score2
    ensures r.mode == s.mode && r.difficulty == s.difficulty && r.keys == s.keys
  {
    var v1 := HeldVelocity(s.keys, "w", "s");
    var y1 := Clamp(s.player1.y + v1, 0.0, PADDLE_TOP_LIMIT);
    var v2 := if s.mode == TwoPlayers then HeldVelocity(s.keys, "o", "l") else s.player2VelocityY;
    var y2 := if s.mode == TwoPlayers then s.player2.y + v2
              else AIStep(s.player2.y, s.ball.y - PADDLE_HEIGHT / 2.0,
                          DifficultyLevels(s.difficulty).errorMargin, PADDLE_SPEED);
    s.(player1 := s.player1.(y := y1), player2 := s.player2.(y := Clamp(y2, 0.0, PADDLE_TOP_LIMIT)),
       player1VelocityY := v1, player2VelocityY := v2)
  }

  /** The first half of step 1: player 1 follows the keys. */
  function FirstPaddleMoved(s: Game): Game
  {
    var v1 := HeldVelocity(s.keys, "w", "s");
    s.(player1 := s.player1.(y := Clamp(s.player1.y + v1, 0.0, PADDLE_TOP_LIMIT)), player1VelocityY := v1)
  }

  /** The second half of step 1: player 2 follows the keys or the ball. */
  function SecondPaddleMoved(s: Game): Game
  {
    var v2 := if s.mode == TwoPlayers then HeldVelocity(s.keys, "o", "l") else s.player2VelocityY;
    var y2 := if s.mode == TwoPlayers then s.player2.y + v2
              else AIStep(s.player2.y, s.ball.y - PADDLE_HEIGHT / 2.0,
                          DifficultyLevels(s.difficulty).errorMargin, PADDLE_SPEED);
    s.(player2 := s.player2.(y := Clamp(y2, 0.0, PADDLE_TOP_LIMIT)), player2VelocityY := v2)
  }

  lemma PaddlesInTurn(s: Game)
    ensures MovePaddles(s) == SecondPaddleMoved(FirstPaddleMoved(s))
  {
  }

  /** Steps 2 and 3: the ball moves, and its vertical velocity is negated
      when it is past the top edge moving up or past the bottom edge moving
      down, and only then. */
  function MoveBall(b: Ball): (r: Ball)
    ensures r.x == b.x + b.dx && r.y == b.y + b.dy && r.dx == b.dx && Abs(r.dy) == Abs(b.dy)
    ensures r.y - BALL_RADIUS < 0.0 && b.dy < 0.0 ==> r.dy > 0.0
    ensures r.y + BALL_RADIUS > CANVAS_HEIGHT && b.dy > 0.0 ==> r.dy < 0.0
    ensures r.dy != b.dy ==>
      (r.y - BALL_RADIUS < 0.0 && b.dy < 0.0) || (r.y + BALL_RADIUS > CANVAS_HEIGHT && b.dy > 0.0)
  {
    var x := b.x + b.dx;
    var y := b.y + b.dy;
    if (y - BALL_RADIUS < 0.0 && b.dy < 0.0) || (y + BALL_RADIUS > CANVAS_HEIGHT && b.dy > 0.0)
    then Ball(x, y, b.dx, -b.dy)
    else Ball(x, y, b.dx, b.dy)
  }

  /** `checkCollision`: true exactly when some point of the paddle lies
      strictly inside the ball. */
  function CheckCollision(b: Ball, p: Paddle): (hit: bool)
    ensures hit <==> exists px, py ::
      InRect(px, py, p.x, p.y, PADDLE_WIDTH, PADDLE_HEIGHT) && Dist2(b.x, b.y, px, py) < BALL_RADIUS * BALL_RADIUS
  {
    CircleHitsRect(b.x, b.y, BALL_RADIUS, p.x, p.y, PADDLE_WIDTH, PADDLE_HEIGHT)
  }

  /** The bounce angle: the point of impact relative to the paddle's
      centre, from -1 at the top end to 1 at the bottom end, times a
      quarter turn. */
  function ImpactAngle(b: Ball, p: Paddle, m: MathLib): real
  {
    (b.y - (p.y + PADDLE_HEIGHT / 2.0)) / (PADDLE_HEIGHT / 2.0) * m.quarterPi
  }

  /** The bounce off a paddle: the horizontal direction reverses, the angle
      follows the point of impact, the paddle's own velocity adds spin, and
      the ball is put back just outside the paddle face it hit. */
  function Bounce(b: Ball, p: Paddle, isPlayer1: bool, paddleVelocity: real, m: MathLib, t: Tuning): (r: Ball)
    requires Sound(m) && ValidTuning(t)
    ensures r.y == b.y
    ensures r.x == if isPlayer1 then p.x + PADDLE_WIDTH + BALL_RADIUS else p.x - BALL_RADIUS
    ensures Abs(r.dx) <= BounceSpeed(b, m, t.maxBallSpeed) <= t.maxBallSpeed
  {
    var bounceAngle := ImpactAngle(b, p, m);
    var speed := BounceSpeed(b, m, t.maxBallSpeed);
    var dx := Turned(speed, m.cos(bounceAngle), b.dx > 0.0);
    var dy := speed * m.sin(bounceAngle) + paddleVelocity * t.influence;
    var x := if isPlayer1 then p.x + PADDLE_WIDTH + BALL_RADIUS else p.x - BALL_RADIUS;
    Ball(x, b.y, dx, dy)
  }

  /** Apart from the paddle's spin, the bounce keeps the capped speed:
      `dx² + (dy - spin)² = speed²`. */
  lemma {:induction false} BounceKeepsSpeed(b: Ball, p: Paddle, isPlayer1: bool, pv: real, m: MathLib, t: Tuning)
    requires Sound(m) && ValidTuning(t)
    ensures var r := Bounce(b, p, isPlayer1, pv, m, t);
      var speed := BounceSpeed(b, m, t.maxBallSpeed);
      r.dx * r.dx + (r.dy - pv * t.influence) * (r.dy - pv * t.influence) == speed * speed
  {
    var speed, c, s := BounceParts(b, p, isPlayer1, pv, m, t);
    var r := Bounce(b, p, isPlayer1, pv, m, t);
    TurnedKeepsSpeed(speed, c, s, b.dx > 0.0, pv * t.influence, r.dx, r.dy);
  }

  /** The pieces of a bounce: the capped speed, and the cosine and sine of
      the impact angle. */
  lemma BounceParts(b: Ball, p: Paddle, isPlayer1: bool, pv: real, m: MathLib, t: Tuning) returns (speed: real, c: real, s: real)
    requires Sound(m) && ValidTuning(t)
    ensures speed == BounceSpeed(b, m, t.maxBallSpeed)
    ensures speed >= 0.0 && -1.0 <= c <= 1.0 && c * c + s * s == 1.0
    ensures Bounce(b, p, isPlayer1, pv, m, t).dx == Turned(speed, c, b.dx > 0.0)
    ensures Bounce(b, p, isPlayer1, pv, m, t).dy == speed * s + pv * t.influence
  {
    var a := ImpactAngle(b, p, m);
    speed, c, s := BounceSpeed(b, m, t.maxBallSpeed), m.cos(a), m.sin(a);
  }

  /** A ball that touches a paddle has its centre within `BALL_RADIUS` of
      the paddle's vertical span. */
  lemma {:induction false} HitIsNearSpan(b: Ball, p: Paddle)
    requires CheckCollision(b, p)
    ensures p.y - BALL_RADIUS <= b.y <= p.y + PADDLE_HEIGHT + BALL_RADIUS
  {
    if b.y < p.y - BALL_RADIUS || b.y > p.y + PADDLE_HEIGHT + BALL_RADIUS {
      SeparatedOnYMisses(b.x, b.y, BALL_RADIUS, p.x, p.y, PADDLE_WIDTH, PADDLE_HEIGHT);
    }
  }

  /** A bounce after a real hit reverses the horizontal direction: the
      impact angle stays below pi / 2, so its cosine is positive. */
  lemma {:induction false} BounceReverses(b: Ball, p: Paddle, isPlayer1: bool, pv: real, m: MathLib, t: Tuning)
    requires Sound(m) && ValidTuning(t) && b.dx != 0.0 && CheckCollision(b, p)
    ensures var r := Bounce(b, p, isPlayer1, pv, m, t);
      (b.dx > 0.0 ==> r.dx < 0.0) && (b.dx < 0.0 ==> r.dx > 0.0)
  {
    HitIsNearSpan(b, p);
    var relativeImpact := (b.y - (p.y + PADDLE_HEIGHT / 2.0)) / (PADDLE_HEIGHT / 2.0);
    assert -1.2 <= relativeImpact <= 1.2;
    var a := relativeImpact * m.quarterPi;
    assert -COS_POSITIVE_BOUND <= a <= COS_POSITIVE_BOUND by {
      assert Abs(a) <= 1.2 * 0.786 by {
        if relativeImpact >= 0.0 {
          assert relativeImpact * m.quarterPi <= 1.2 * m.quarterPi;
        } else {
          assert (-relativeImpact) * m.quarterPi <= 1.2 * m.quarterPi;
        }
      }
    }
    assert m.cos(a) > 0.0;
    BounceSpeedPositive(b, m, t.maxBallSpeed);
    assert BounceSpeed(b, m, t.maxBallSpeed) * m.cos(a) > 0.0;
  }

  /** After the bounce the ball no longer touches the paddle it hit. */
  lemma {:induction false} BounceClearsPaddle(b: Ball, p: Paddle, isPlayer1: bool, pv: real, m: MathLib, t: Tuning)
    requires Sound(m) && ValidTuning(t)
    ensures !CheckCollision(Bounce(b, p, isPlayer1, pv, m, t), p)
  {
    var r := Bounce(b, p, isPlayer1, pv, m, t);
    SeparatedOnXMisses(r.x, r.y, BALL_RADIUS, p.x, p.y, PADDLE_WIDTH, PADDLE_HEIGHT);
  }

  /** Step 4: only the paddle the ball is heading toward (`dx < 0` means
      player 1) is tested; on a hit the ball bounces off it. */
  function HitPaddle(s: Game, m: MathLib, t: Tuning): (r: Game)
    requires Sound(m) && ValidTuning(t)
    ensures r.ball != s.ball ==> CheckCollision(s.ball, if s.ball.dx < 0.0 then s.player1 else s.player2)
    ensures s.ball.dx < 0.0 && CheckCollision(s.ball, s.player1) ==>
      r.ball.x == s.player1.x + PADDLE_WIDTH + BALL_RADIUS && Abs(r.ball.dx) <= t.maxBallSpeed
    ensures s.ball.dx >= 0.0 && CheckCollision(s.ball, s.player2) ==>
      r.ball.x == s.player2.x - BALL_RADIUS && Abs(r.ball.dx) <= t.maxBallSpeed
    ensures r == s.(ball := r.ball)
  {
    var isPlayer1 := s.ball.dx < 0.0;
    var paddle := if isPlayer1 then s.player1 else s.player2;
    if CheckCollision(s.ball, paddle) then
      var pv := if isPlayer1 then s.player1VelocityY else s.player2VelocityY;
      s.(ball := Bounce(s.ball, paddle, isPlayer1, pv, m, t))
    else s
  }

  /** `endGame` (its effect on the state). */
  function GameEnded(s: Game): (r: Game)
    ensures r.phase == GameOver && r == s.(phase := GameOver)
  {
    s.(phase := GameOver)
  }

  /** `handleScore`: the game ends when either score has reached the
      winning score; otherwise a pause, and a serve toward the player who
      did not score. */
  function AfterScore(s: Game, scoringPlayer: int, draw: real): (r: Game)
    requires scoringPlayer == 1 || scoringPlayer == 2
    requires 0.0 <= draw < 1.0
    ensures r.phase == GameOver <==> s.score1 >= WINNING_SCORE || s.score2 >= WINNING_SCORE
    ensures r.phase != GameOver ==>
      r.phase == Scored && r.ball.x == CANVAS_WIDTH / 2.0 &&
      r.ball.y == CANVAS_HEIGHT / 2.0 && (r.ball.dx > 0.0 <==> scoringPlayer == 1)
    ensures r.score1 == s.score1 && r.score2 == s.score2
    ensures r == s.(phase := r.phase, ball := r.ball)
  {
    if s.score1 >= WINNING_SCORE || s.score2 >= WINNING_SCORE then GameEnded(s)
    else s.(phase := Scored, ball := ServeBall(if scoringPlayer == 1 then 2 else 1, draw))
  }

  /** Step 5: a ball past the left edge scores for player 2, one past the
      right edge for player 1; at most one score rises, by one. */
  function Scoring(s: Game, draw: real): (r: Game)
    requires 0.0 <= draw < 1.0
    ensures s.ball.x - BALL_RADIUS < 0.0 ==> r.score2 == s.score2 + 1 && r.score1 == s.score1
    ensures s.ball.x - BALL_RADIUS >= 0.0 && s.ball.x + BALL_RADIUS > CANVAS_WIDTH ==>
      r.score1 == s.score1 + 1 && r.score2 == s.score2
    ensures s.ball.x - BALL_RADIUS >= 0.0 && s.ball.x + BALL_RADIUS <= CANVAS_WIDTH ==> r == s
    ensures s.phase != GameOver && s.score1 < WINNING_SCORE && s.score2 < WINNING_SCORE && r.phase == GameOver ==>
      (r.score1 == WINNING_SCORE && r.score2 < WINNING_SCORE) || (r.score2 == WINNING_SCORE && r.score1 < WINNING_SCORE)
  {
    if s.ball.x - BALL_RADIUS < 0.0 then AfterScore(s.(score2 := s.score2 + 1), 2, draw)
    else if s.ball.x + BALL_RADIUS > CANVAS_WIDTH then AfterScore(s.(score1 := s.score1 + 1), 1, draw)
    else s
  }

  /** `update`, one animation frame. */
  function NextFrame(s: Game, m: MathLib, t: Tuning, draw: real): (r: Game)
    requires Sound(m) && ValidTuning(t) && 0.0 <= draw < 1.0
    ensures s.phase != Playing ==> r == s
    ensures s.phase == Playing ==>
      0.0 <= r.player1.y <= PADDLE_TOP_LIMIT && 0.0 <= r.player2.y <= PADDLE_TOP_LIMIT &&
      r.player1VelocityY == HeldVelocity(s.keys, "w", "s")
  {
    if s.phase != Playing then s
    else
      var s1 := MovePaddles(s);
      var s2 := s1.(ball := MoveBall(s1.ball));
      Scoring(HitPaddle(s2, m, t), draw)
  }

  /** `startGame`: nothing while playing; otherwise play, serving toward a
      random side (`serveDraw > 0.5` serves to player 1). */
  function GameStarted(s: Game, serveDraw: real, dyDraw: real): (r: Game)
    requires 0.0 <= serveDraw < 1.0 && 0.0 <= dyDraw < 1.0
    ensures s.phase == Playing ==> r == s
    ensures s.phase != Playing ==> r.phase == Playing && Abs(r.ball.dx) == INITIAL_BALL_SPEED
    ensures r == s.(phase := r.phase, ball := r.ball)
  {
    if s.phase == Playing then s
    else s.(phase := Playing, ball := ServeBall(if serveDraw > 0.5 then 1 else 2, dyDraw))
  }

  /** The start button: only from the menu or after a game, a fresh game
      that starts at once. */
  function StartButton(s: Game, serveDraw: real, dyDraw: real): (r: Game)
    requires 0.0 <= serveDraw < 1.0 && 0.0 <= dyDraw < 1.0
    ensures s.phase == Menu || s.phase == GameOver ==>
      r.phase == Playing && r.score1 == 0 && r.score2 == 0
    ensures s.phase == Playing || s.phase == Scored ==> r == s
  {
    if s.phase == Menu || s.phase == GameOver then GameStarted(GameReset(s), serveDraw, dyDraw) else s
  }

  /** The one-second serve timer firing. It is not cancelled by a reset,
      so it may fire in any phase. */
  function TimerFired(s: Game): (r: Game)
    ensures r.phase == Playing && r == s.(phase := Playing)
  {
    s.(phase := Playing)
  }

  /** The events the engine reacts to. */
  datatype Event =
    | Frame(m: MathLib, draw: real)
    | ServeTimer
    | StartClick(serveDraw: real, dyDraw: real)
    | ModeClick(mode: GameMode)
    | DifficultyClick(level: DifficultyLevel)
    | KeyDown(key: string)
    | KeyUp(key: string)

  ghost predicate ValidEvent(e: Event)
  {
    match e
    case Frame(m, draw) => Sound(m) && 0.0 <= draw < 1.0
    case StartClick(a, b) => 0.0 <= a < 1.0 && 0.0 <= b < 1.0
    case _ => true
  }

  function Step(s: Game, t: Tuning, e: Event): (r: Game)
    requires ValidTuning(t) && ValidEvent(e)
    ensures e.KeyDown? ==> r == s.(keys := r.keys) && Keyboard.ToLower(e.key) in r.keys
    ensures e.KeyUp? ==> r == s.(keys := r.keys) && Keyboard.ToLower(e.key) !in r.keys
    ensures e.ServeTimer? ==> r == s.(phase := Playing)
    ensures e.ModeClick? ==> r.phase == Menu && r.mode == e.mode && r.score1 == 0 && r.score2 == 0
    ensures e.DifficultyClick? ==> r.phase == Menu && r.difficulty == e.level && r.mode == s.mode
    ensures e.StartClick? && (s.phase == Menu || s.phase == GameOver) ==>
      r.phase == Playing && r.score1 == 0 && r.score2 == 0
    ensures (e.Frame? || e.StartClick?) && (s.phase == Scored || (e.Frame? && s.phase != Playing)) ==> r == s
  {
    match e
    case Frame(m, draw) => NextFrame(s, m, t, draw)
    case ServeTimer => TimerFired(s)
    case StartClick(a, b) => StartButton(s, a, b)
    case ModeClick(mode) => GameReset(s.(mode := mode))
    case DifficultyClick(level) => GameReset(s.(difficulty := level))
    case KeyDown(key) => s.(keys := PressKey(s.keys, key))
    case KeyUp(key) => s.(keys := ReleaseKey(s.keys, key))
  }

  function Initial(): (s: Game)
    ensures Inv(s) && s.phase == Menu
  {
    GameReset(Game(Menu, 0, 0, Ball(0.0, 0.0, 0.0, 0.0), Paddle(0.0, 0.0), Paddle(0.0, 0.0),
                    0.0, 0.0, OnePlayer, Easy, {}))
  }

  /** Every event keeps the invariant: paddles on the canvas at their fixed
      columns, velocities in {-speed, 0, +speed}, scores non-negative. */
  lemma {:induction false} StepPreservesInv(s: Game, t: Tuning, e: Event)
    requires Inv(s) && ValidTuning(t) && ValidEvent(e)
    ensures Inv(Step(s, t, e))
  {
    match e
    case Frame(m, draw) => {
      if s.phase == Playing {
        var s1 := MovePaddles(s);
        assert HeldVelocity(s.keys, "o", "l") == s1.player2VelocityY || s.player2VelocityY == s1.player2VelocityY;
        var s2 := s1.(ball := MoveBall(s1.ball));
        assert Inv(s2);
        assert Inv(HitPaddle(s2, m, t));
      }
    }
    case _ =>
  }

  /** The engine's state, updated in place. */
  class Match {
    var gameState: Phase
    var score1: int
    var score2: int
    var ball: Ball
    var player1: Paddle
    var player2: Paddle
    var player1VelocityY: real
    var player2VelocityY: real
    var gameMode: GameMode
    var difficulty: DifficultyLevel
    var keysPressed: set<string>
    const tuning: Tuning

    function State(): Game
      reads this
    {
      Game(gameState, score1, score2, ball, player1, player2,
                        player1VelocityY, player2VelocityY, gameMode, difficulty, keysPressed)
    }

    predicate Valid()
      reads this
    {
      ValidTuning(tuning) && Inv(State())
    }

    /** The view's set-up: menu, one player, easy, then `resetGame`. */
    constructor (t: Tuning)
      requires ValidTuning(t)
      ensures Valid() && tuning == t && State() == Initial()
    {
      tuning := t;
      gameState, score1, score2 := Menu, 0, 0;
      ball := Ball(0.0, 0.0, 0.0, 0.0);
      player1, player2 := Paddle(0.0, 0.0), Paddle(0.0, 0.0);
      player1VelocityY, player2VelocityY := 0.0, 0.0;
      gameMode, difficulty, keysPressed := OnePlayer, Easy, {};
      new;
      ResetGame();
    }

    method ResetBall(serveToPlayer: int, draw: real)
      requires serveToPlayer == 1 || serveToPlayer == 2
      requires 0.0 <= draw < 1.0
      modifies this
      ensures State() == old(State()).(ball := ServeBall(serveToPlayer, draw))
    {
      ball := ball.(x := CANVAS_WIDTH / 2.0, y := CANVAS_HEIGHT / 2.0);
      ball := ball.(dx := (if serveToPlayer == 1 then -1.0 else 1.0) * INITIAL_BALL_SPEED);
      ball := ball.(dy := (draw - 0.5) * (INITIAL_BALL_SPEED / 2.0));
    }

    method ResetGame()
      modifies this
      ensures State() == GameReset(old(State()))
    {
      gameState := Menu;
      score1, score2 := 0, 0;
      var initialPaddleY := CANVAS_HEIGHT / 2.0 - PADDLE_HEIGHT / 2.0;
      ball := Ball(CANVAS_WIDTH / 2.0, CANVAS_HEIGHT / 2.0, 0.0, 0.0);
      player1 := Paddle(PADDLE_WIDTH, initialPaddleY);
      player2 := Paddle(CANVAS_WIDTH - PADDLE_WIDTH * 2.0, initialPaddleY);
    }

    method EndGame()
      modifies this
      ensures State() == GameEnded(old(State()))
    {
      gameState := GameOver;
    }

    method HandleScore(scoringPlayer: int, draw: real)
      requires scoringPlayer == 1 || scoringPlayer == 2
      requires 0.0 <= draw < 1.0
      modifies this
      ensures State() == AfterScore(old(State()), scoringPlayer, draw)
    {
      if score1 >= WINNING_SCORE || score2 >= WINNING_SCORE {
        EndGame();
      } else {
        gameState := Scored;
        ResetBall(if scoringPlayer == 1 then 2 else 1, draw);
      }
    }

    /** One frame of `update`, step by step on the fields. */
    method Update(m: MathLib, draw: real)
      requires Valid() && Sound(m) && 0.0 <= draw < 1.0
      modifies this
      ensures Valid() && State() == NextFrame(old(State()), m, tuning, draw)
    {
      StepPreservesInv(State(), tuning, Frame(m, draw));
      if gameState != Playing {
        return;
      }
      StepPaddles();
      StepBall();
      StepPaddleHit(m);
      StepScoring(draw);
    }

    /** Step 1 of `update`. */
    method StepPaddles()
      modifies this
      ensures State() == MovePaddles(old(State()))
    {
      ghost var s0 := State();
      StepFirstPaddle();
      StepSecondPaddle();
      PaddlesInTurn(s0);
    }

    method StepFirstPaddle()
      modifies this
      ensures State() == FirstPaddleMoved(old(State()))
    {
      player1VelocityY := 0.0;
      if "w" in keysPressed {
        player1VelocityY := -PADDLE_SPEED;
      }
      if "s" in keysPressed {
        player1VelocityY := PADDLE_SPEED;
      }
      player1 := player1.(y := player1.y + player1VelocityY);
      player1 := player1.(y := Max(0.0, Min(player1.y, CANVAS_HEIGHT - PADDLE_HEIGHT)));
    }

    method StepSecondPaddle()
      modifies this
      ensures State() == SecondPaddleMoved(old(State()))
    {
      if gameMode == TwoPlayers {
        player2VelocityY := 0.0;
        if "o" in keysPressed {
          player2VelocityY := -PADDLE_SPEED;
        }
        if "l" in keysPressed {
          player2VelocityY := PADDLE_SPEED;
        }
        player2 := player2.(y := player2.y + player2VelocityY);
      } else {
        var currentDifficulty := DifficultyLevels(difficulty);
        var targetY := ball.y - PADDLE_HEIGHT / 2.0;
        var deltaY := targetY - player2.y;
        if Abs(deltaY) > currentDifficulty.errorMargin {
          player2 := player2.(y := player2.y + Sign(deltaY) * Min(PADDLE_SPEED, Abs(deltaY)));
        }
      }
      player2 := player2.(y := Max(0.0, Min(player2.y, CANVAS_HEIGHT - PADDLE_HEIGHT)));
    }

    /** Steps 2 and 3 of `update`. */
    method StepBall()
      modifies this
      ensures State() == old(State()).(ball := MoveBall(old(ball)))
    {
      ball := ball.(x := ball.x + ball.dx, y := ball.y + ball.dy);
      if (ball.y - BALL_RADIUS < 0.0 && ball.dy < 0.0) || (ball.y + BALL_RADIUS > CANVAS_HEIGHT && ball.dy > 0.0) {
        ball := ball.(dy := ball.dy * -1.0);
      }
    }

    /** Step 4 of `update`. */
    method StepPaddleHit(m: MathLib)
      requires ValidTuning(tuning) && Sound(m)
      modifies this
      ensures State() == HitPaddle(old(State()), m, tuning)
    {
      var isPlayer1 := ball.dx < 0.0;
      var paddle := if isPlayer1 then player1 else player2;
      if CheckCollision(ball, paddle) {
        var paddleVelocity := if isPlayer1 then player1VelocityY else player2VelocityY;
        ball := Bounce(ball, paddle, isPlayer1, paddleVelocity, m, tuning);
      }
    }

    /** Step 5 of `update`. */
    method StepScoring(draw: real)
      requires 0.0 <= draw < 1.0
      modifies this
      ensures State() == Scoring(old(State()), draw)
    {
      if ball.x - BALL_RADIUS < 0.0 {
        score2 := score2 + 1;
        HandleScore(2, draw);
      } else if ball.x + BALL_RADIUS > CANVAS_WIDTH {
        score1 := score1 + 1;
        HandleScore(1, draw);
      }
    }

    method StartGame(serveDraw: real, dyDraw: real)
      requires 0.0 <= serveDraw < 1.0 && 0.0 <= dyDraw < 1.0
      modifies this
      ensures State() == GameStarted(old(State()), serveDraw, dyDraw)
    {
      if gameState == Playing {
        return;
      }
      gameState := Playing;
      ResetBall(if serveDraw > 0.5 then 1 else 2, dyDraw);
    }

    method StartButtonClick(serveDraw: real, dyDraw: real)
      requires Valid() && 0.0 <= serveDraw < 1.0 && 0.0 <= dyDraw < 1.0
      modifies this
      ensures Valid() && State() == StartButton(old(State()), serveDraw, dyDraw)
    {
      StepPreservesInv(State(), tuning, StartClick(serveDraw, dyDraw));
      if gameState == Menu || gameState == GameOver {
        ResetGame();
        StartGame(serveDraw, dyDraw);
      }
    }

    method ServeTimerFires()
      requires Valid()
      modifies this
      ensures Valid() && State() == TimerFired(old(State()))
    {
      gameState := Playing;
    }

    method SelectMode(mode: GameMode)
      requires Valid()
      modifies this
      ensures Valid() && State() == GameReset(old(State()).(mode := mode))
    {
      gameMode := mode;
      ResetGame();
    }

    method SelectDifficulty(level: DifficultyLevel)
      requires Valid()
      modifies this
      ensures Valid() && State() == GameReset(old(State()).(difficulty := level))
    {
      difficulty := level;
      ResetGame();
    }

    method HandleKeyDown(key: string)
      requires Valid()
      modifies this
      ensures Valid() && State() == old(State()).(keys := PressKey(old(keysPressed), key))
    {
      keysPressed := keysPressed + {Keyboard.ToLower(key)};
    }

    method HandleKeyUp(key: string)
      requires Valid()
      modifies this
      ensures Valid() && State() == old(State()).(keys := ReleaseKey(old(keysPressed), key))
    {
      keysPressed := keysPressed - {Keyboard.ToLower(key)};
    }
  }
}
