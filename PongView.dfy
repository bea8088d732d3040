/** The canvas Pong view with two- and four-player modes. In the classic
    modes two vertical paddles defend the left and right edges and points
    are scored; in the four-player mode two horizontal paddles also defend
    the top and bottom edges, every player starts with three lives, a ball
    leaving through a living player's edge costs that player a life, and
    the edge of an eliminated player becomes a wall. Paddle sizes depend on
    the mode and every paddle carries its own extent and an `isAlive` flag.
    The transitions are functions on a `Game` value; the class `Session`
    performs them in place and is proved to agree with them. */
module PongView {
  import opened RealMath
  import opened Geometry
  import opened Constants
  import opened PongCommon
  import Keyboard

  /** The constants `PADDLE_THICKNESS`, `PADDLE_LENGTH_CLASSIC`,
      `PADDLE_LENGTH_4P`, `PADDLE_SPEED_CLASSIC`, `PADDLE_SPEED_4P`,
      `MAX_BALL_SPEED`, `PADDLE_INFLUENCE_FACTOR` and `MAX_BOUNCE_ANGLE`,
      whose values are not part of this model. */
  datatype Tuning = Tuning(thickness: real, lengthClassic: real, length4P: real,
                           speedClassic: real, speed4P: real, maxBallSpeed: real,
                           influence: real, maxBounceAngle: real)

  /** Positive values, and paddles no longer than the side they move along. */
  predicate ValidTuning(t: Tuning)
  {
    t.thickness > 0.0 && 0.0 < t.lengthClassic <= 600.0 && 0.0 < t.length4P <= 800.0 &&
    t.speedClassic > 0.0 && t.speed4P > 0.0 && t.maxBallSpeed > 0.0 &&
    t.influence > 0.0 && t.maxBounceAngle > 0.0
  }

  datatype GameMode = OnePlayer | TwoPlayers | FourPlayers

  datatype Orientation = Vertical | Horizontal

  datatype Paddle = Paddle(x: real, y: real, width: real, height: real, isAlive: bool)

  /** Points in the classic modes, lives in the four-player mode. The
      classic score object has no `p3`/`p4`; they are 0 here and unused. */
  datatype Score = Score(p1: int, p2: int, p3: int, p4: int)

  datatype Velocities = Velocities(p1: real, p2: real, p3: real, p4: real)

  /** The two uniform draws `resetBall` takes from `Math.random`: the angle,
      then (classic modes only) the side. */
  datatype ServeDraws = ServeDraws(angle: real, side: real)

  predicate ValidServe(d: ServeDraws)
  {
    0.0 <= d.angle < 1.0 && 0.0 <= d.side < 1.0
  }

  /** The view's closure state. `width`/`height` are the canvas size, which
      `resetGame` sets; `winner` is the player `endGame` last announced. */
  datatype Game = Game(phase: Phase, score: Score, ball: Ball,
                       player1: Paddle, player2: Paddle, player3: Paddle, player4: Paddle,
                       velocities: Velocities, mode: GameMode, difficulty: DifficultyLevel,
                       keys: set<string>, width: real, height: real, winner: int)

  const CANVAS_WIDTH: real := 800.0

  function CanvasHeight(mode: GameMode): (h: real)
    ensures h == 600.0 || h == 800.0
  {
    if mode == FourPlayers then 800.0 else 600.0
  }

  function PaddleLength(mode: GameMode, t: Tuning): (l: real)
    requires ValidTuning(t)
    ensures 0.0 < l <= CanvasHeight(mode) && l <= CANVAS_WIDTH
  {
    if mode == FourPlayers then t.length4P else t.lengthClassic
  }

  function PaddleSpeed(mode: GameMode, t: Tuning): (v: real)
    requires ValidTuning(t)
    ensures v > 0.0
  {
    if mode == FourPlayers then t.speed4P else t.speedClassic
  }

  /** Lives (or points) of player k. */
  function LifeOf(sc: Score, k: int): int
    requires 1 <= k <= 4
  {
    if k == 1 then sc.p1 else if k == 2 then sc.p2 else if k == 3 then sc.p3 else sc.p4
  }

  function WithLife(sc: Score, k: int, v: int): (r: Score)
    requires 1 <= k <= 4
    ensures LifeOf(r, k) == v
    ensures forall j :: 1 <= j <= 4 && j != k ==> LifeOf(r, j) == LifeOf(sc, j)
  {
    if k == 1 then sc.(p1 := v) else if k == 2 then sc.(p2 := v)
    else if k == 3 then sc.(p3 := v) else sc.(p4 := v)
  }

  function PaddleOf(s: Game, k: int): Paddle
    requires 1 <= k <= 4
  {
    if k == 1 then s.player1 else if k == 2 then s.player2 else if k == 3 then s.player3 else s.player4
  }

  function WithPaddle(s: Game, k: int, p: Paddle): (r: Game)
    requires 1 <= k <= 4
    ensures PaddleOf(r, k) == p
    ensures forall j :: 1 <= j <= 4 && j != k ==> PaddleOf(r, j) == PaddleOf(s, j)
    ensures r.score == s.score && r.ball == s.ball && r.phase == s.phase && r.mode == s.mode
    ensures r.width == s.width && r.height == s.height
  {
    if k == 1 then s.(player1 := p) else if k == 2 then s.(player2 := p)
    else if k == 3 then s.(player3 := p) else s.(player4 := p)
  }

  function AliveCount(s: Game): (n: nat)
    ensures n <= 4
  {
    (if s.player1.isAlive then 1 else 0) + (if s.player2.isAlive then 1 else 0) +
    (if s.player3.isAlive then 1 else 0) + (if s.player4.isAlive then 1 else 0)
  }

  /** The number of the first player, in the order p1..p4, whose score is
      positive, or 0 when there is none: the winner `loseLife` announces. */
  function FirstPositive(sc: Score): (k: int)
    ensures 0 <= k <= 4
    ensures k == 0 <==> forall j :: 1 <= j <= 4 ==> LifeOf(sc, j) <= 0
    ensures k != 0 ==> LifeOf(sc, k) > 0 && forall j :: 1 <= j < k ==> LifeOf(sc, j) <= 0
  {
    if sc.p1 > 0 then 1 else if sc.p2 > 0 then 2 else if sc.p3 > 0 then 3 else if sc.p4 > 0 then 4 else 0
  }

  /** `checkCollision`: a dead paddle is never hit; a living one is hit when
      the squared distance from the ball centre to the clamped (nearest)
      point of the paddle is below the squared radius, that is, exactly when
      some point of the paddle lies strictly inside the ball. */
  function CheckCollision(b: Ball, p: Paddle): (hit: bool)
    ensures !p.isAlive ==> !hit
    ensures p.width >= 0.0 && p.height >= 0.0 ==>
      (hit <==> p.isAlive && exists px, py ::
        InRect(px, py, p.x, p.y, p.width, p.height) && Dist2(b.x, b.y, px, py) < BALL_RADIUS * BALL_RADIUS)
  {
    p.isAlive && CircleHitsRect(b.x, b.y, BALL_RADIUS, p.x, p.y, p.width, p.height)
  }

  /** `resetBall`: the ball to the centre, the paddles of the two (or, in
      the four-player mode, four) sides recentred along their edges, and a
      serve at the initial speed: any direction in the four-player mode,
      otherwise within 30 degrees of the horizontal, to a random side. */
  function BallReset(s: Game, m: MathLib, d: ServeDraws, t: Tuning): (r: Game)
    requires Sound(m) && ValidServe(d) && ValidTuning(t)
    ensures r.ball.x == s.width / 2.0 && r.ball.y == s.height / 2.0
    ensures r.player1 == s.player1.(y := s.height / 2.0 - PaddleLength(s.mode, t) / 2.0)
    ensures r.player2 == s.player2.(y := s.height / 2.0 - PaddleLength(s.mode, t) / 2.0)
    ensures s.mode == FourPlayers ==>
      r.player3 == s.player3.(x := s.width / 2.0 - t.length4P / 2.0) &&
      r.player4 == s.player4.(x := s.width / 2.0 - t.length4P / 2.0)
    ensures s.mode != FourPlayers ==> r.player3 == s.player3 && r.player4 == s.player4
    ensures r == s.(ball := r.ball, player1 := r.player1, player2 := r.player2,
                    player3 := r.player3, player4 := r.player4)
  {
    Served(Recentred(s, t), m, d)
  }

  /** The first half of `resetBall`: the ball and the paddles recentred. */
  function Recentred(s: Game, t: Tuning): Game
    requires ValidTuning(t)
  {
    var len := PaddleLength(s.mode, t);
    var four := s.mode == FourPlayers;
    s.(ball := s.ball.(x := s.width / 2.0, y := s.height / 2.0),
       player1 := s.player1.(y := s.height / 2.0 - len / 2.0),
       player2 := s.player2.(y := s.height / 2.0 - len / 2.0),
       player3 := if four then s.player3.(x := s.width / 2.0 - t.length4P / 2.0) else s.player3,
       player4 := if four then s.player4.(x := s.width / 2.0 - t.length4P / 2.0) else s.player4)
  }

  /** The second half: the serve velocity, from the draws, at the initial
      speed; nothing but the ball's velocity changes. */
  function Served(s: Game, m: MathLib, d: ServeDraws): (r: Game)
    requires Sound(m) && ValidServe(d)
    ensures r == s.(ball := s.ball.(dx := r.ball.dx, dy := r.ball.dy))
    ensures r.ball.dx * r.ball.dx + r.ball.dy * r.ball.dy == INITIAL_BALL_SPEED * INITIAL_BALL_SPEED
  {
    var angle := ServeAngle(s.mode, d, 4.0 * m.quarterPi);
    UnitVector(m.cos(angle), m.sin(angle), INITIAL_BALL_SPEED);
    s.(ball := s.ball.(dx := m.cos(angle) * INITIAL_BALL_SPEED, dy := m.sin(angle) * INITIAL_BALL_SPEED))
  }

  /** A serve leaves at exactly the initial speed. */
  lemma {:induction false} ServeKeepsSpeed(s: Game, m: MathLib, d: ServeDraws, t: Tuning)
    requires Sound(m) && ValidServe(d) && ValidTuning(t)
    ensures var r := BallReset(s, m, d, t);
      r.ball.dx * r.ball.dx + r.ball.dy * r.ball.dy == INITIAL_BALL_SPEED * INITIAL_BALL_SPEED
  {
    var angle := ServeAngle(s.mode, d, 4.0 * m.quarterPi);
    UnitVector(m.cos(angle), m.sin(angle), INITIAL_BALL_SPEED);
  }

  /** The serve direction for the draws: any angle in the four-player
      mode, otherwise within pi/6 of the horizontal, turned by pi when the
      side draw exceeds one half. */
  function ServeAngle(mode: GameMode, d: ServeDraws, pi: real): (a: real)
    requires ValidServe(d) && pi > 0.0
    ensures mode == FourPlayers ==> 0.0 <= a < 2.0 * pi
    ensures mode != FourPlayers ==>
      var base := if d.side > 0.5 then pi else 0.0;
      base - pi / 6.0 <= a < base + pi / 6.0
  {
    if mode == FourPlayers then
      var a := d.angle * 2.0 * pi;
      ScaleDraw(d.angle, 2.0 * pi, a);
      a
    else
      var offset := (d.angle - 0.5) * 2.0 * (pi / 6.0);
      CentreDraw(d.angle, 2.0 * (pi / 6.0), offset);
      offset + (if d.side > 0.5 then pi else 0.0)
  }

  /** `resetGame`: back to the menu with the canvas, the scores (three lives
      each in the four-player mode, zero points otherwise), four fresh
      living paddles of the mode's length and a ball stopped at the centre.
      Velocities, keys, mode and difficulty are kept. */
  function GameReset(s: Game, t: Tuning): (r: Game)
    requires ValidTuning(t)
    ensures r.phase == Menu && r.ball.dx == 0.0 && r.ball.dy == 0.0
    ensures r.width == CANVAS_WIDTH && r.height == (if s.mode == FourPlayers then 800.0 else 600.0)
    ensures r.ball.x == r.width / 2.0 && r.ball.y == r.height / 2.0
    ensures r.score == (if s.mode == FourPlayers then Score(3, 3, 3, 3) else Score(0, 0, 0, 0))
    ensures r.velocities == s.velocities && r.keys == s.keys && r.mode == s.mode &&
            r.difficulty == s.difficulty && r.winner == s.winner
  {
    PaddlesPlaced(CanvasReset(s), t)
  }

  /** The first half of `resetGame`: menu, canvas size, starting score and a
      still ball in the centre. */
  function CanvasReset(s: Game): Game
  {
    var w := CANVAS_WIDTH;
    var h := CanvasHeight(s.mode);
    s.(phase := Menu, width := w, height := h,
       score := if s.mode == FourPlayers then Score(3, 3, 3, 3) else Score(0, 0, 0, 0),
       ball := Ball(w / 2.0, h / 2.0, 0.0, 0.0))
  }

  /** The second half of `resetGame`: all four paddles alive and centred on
      their edges of the current canvas. */
  function PaddlesPlaced(s: Game, t: Tuning): Game
    requires ValidTuning(t)
  {
    var len := PaddleLength(s.mode, t);
    var w := s.width;
    var h := s.height;
    var th := t.thickness;
    s.(player1 := Paddle(th, h / 2.0 - len / 2.0, th, len, true),
       player2 := Paddle(w - th * 2.0, h / 2.0 - len / 2.0, th, len, true),
       player3 := Paddle(w / 2.0 - len / 2.0, th, len, th, true),
       player4 := Paddle(w / 2.0 - len / 2.0, h - th * 2.0, len, th, true))
  }

  /** A reset game has every paddle alive and satisfies the invariant. */
  lemma {:induction false} GameResetKeepsInv(s: Game, t: Tuning)
    requires ValidTuning(t)
    ensures AliveCount(GameReset(s, t)) == 4 && Inv(GameReset(s, t), t)
  {
    var r := GameReset(s, t);
    assert r.player1.isAlive && r.player2.isAlive && r.player3.isAlive && r.player4.isAlive;
  }

  /** The paddles sit along their edges with the mode's sizes, inside the
      canvas; in the four-player mode a player is alive exactly while it
      has lives left (at most three), in the classic modes every paddle
      stays alive and the points are non-negative. */
  predicate Inv(s: Game, t: Tuning)
    requires ValidTuning(t)
  {
    Placed(s, t) && Lives(s)
  }

  /** The geometric half of `Inv`: canvas size and paddle placement. */
  predicate Placed(s: Game, t: Tuning)
    requires ValidTuning(t)
  {
    var len := PaddleLength(s.mode, t);
    var th := t.thickness;
    s.width == CANVAS_WIDTH && s.height == CanvasHeight(s.mode) &&
    s.player1.x == th && s.player1.width == th && s.player1.height == len &&
    s.player2.x == s.width - th * 2.0 && s.player2.width == th && s.player2.height == len &&
    s.player3.y == th && s.player3.width == len && s.player3.height == th &&
    s.player4.y == s.height - th * 2.0 && s.player4.width == len && s.player4.height == th &&
    0.0 <= s.player1.y <= s.height - len && 0.0 <= s.player2.y <= s.height - len &&
    0.0 <= s.player3.x <= s.width - len && 0.0 <= s.player4.x <= s.width - len
  }

  /** The other half: lives and points against the paddles left alive. */
  predicate Lives(s: Game)
  {
    (s.mode == FourPlayers ==>
      0 <= s.score.p1 <= 3 && 0 <= s.score.p2 <= 3 && 0 <= s.score.p3 <= 3 && 0 <= s.score.p4 <= 3 &&
      (s.player1.isAlive <==> s.score.p1 > 0) && (s.player2.isAlive <==> s.score.p2 > 0) &&
      (s.player3.isAlive <==> s.score.p3 > 0) && (s.player4.isAlive <==> s.score.p4 > 0)) &&
    (s.mode != FourPlayers ==>
      AliveCount(s) == 4 && s.score.p1 >= 0 && s.score.p2 >= 0 && s.score.p3 == 0 && s.score.p4 == 0)
  }

  /** Step 1 of `update`: living human paddles take the velocity their keys
      ask for (both keys cancel out) and move; the one-player AI steps
      toward the ball without touching its velocity; paddles 1 and 2 are
      clamped to the canvas height, and in the four-player mode paddles 3
      and 4 move and are clamped to the canvas width. */
  function MovePaddles(s: Game, t: Tuning): (r: Game)
    requires ValidTuning(t)
    ensures s.player1.height <= s.height ==> 0.0 <= r.player1.y <= s.height - s.player1.height
    ensures s.player2.height <= s.height ==> 0.0 <= r.player2.y <= s.height - s.player2.height
    ensures s.mode == FourPlayers && s.player3.width <= s.width ==> 0.0 <= r.player3.x <= s.width - s.player3.width
    ensures s.mode == FourPlayers && s.player4.width <= s.width ==> 0.0 <= r.player4.x <= s.width - s.player4.width
    ensures s.player1.isAlive ==> IsStep(r.velocities.p1, PaddleSpeed(s.mode, t))
    ensures s.player2.isAlive && s.mode != OnePlayer ==> IsStep(r.velocities.p2, PaddleSpeed(s.mode, t))
    ensures s.mode == FourPlayers && s.player3.isAlive ==> IsStep(r.velocities.p3, PaddleSpeed(s.mode, t))
    ensures s.mode == FourPlayers && s.player4.isAlive ==> IsStep(r.velocities.p4, PaddleSpeed(s.mode, t))
    ensures s.mode == OnePlayer && s.player2.isAlive ==>
      r.velocities.p2 == s.velocities.p2 &&
      r.player2.y == Clamp(AIStep(s.player2.y, s.ball.y - s.player2.height / 2.0,
                                  DifficultyLevels(s.difficulty).errorMargin, PaddleSpeed(s.mode, t)),
                           0.0, s.height - s.player2.height)
    ensures !s.player1.isAlive ==> r.velocities.p1 == s.velocities.p1
    ensures !s.player2.isAlive ==> r.velocities.p2 == s.velocities.p2
    ensures s.mode != FourPlayers ==> r.player3 == s.player3 && r.player4 == s.player4 &&
                                       r.velocities.p3 == s.velocities.p3 && r.velocities.p4 == s.velocities.p4
    ensures r.player1 == s.player1.(y := r.player1.y) && r.player2 == s.player2.(y := r.player2.y)
    ensures r.player3 == s.player3.(x := r.player3.x) && r.player4 == s.player4.(x := r.player4.x)
    ensures r == s.(player1 := r.player1, player2 := r.player2, player3 := r.player3,
                    player4 := r.player4, velocities := r.velocities)
  {
    var s1 := SidesMoved(s, t);
    if s.mode == FourPlayers then EndsMoved(s1, t) else s1
  }

  /** Paddles 1 and 2: keys or AI, then the clamp to the canvas height. */
  function SidesMoved(s: Game, t: Tuning): (r: Game)
    requires ValidTuning(t)
    ensures s.player1.height <= s.height ==> 0.0 <= r.player1.y <= s.height - s.player1.height
    ensures s.player2.height <= s.height ==> 0.0 <= r.player2.y <= s.height - s.player2.height
    ensures s.player1.isAlive ==> IsStep(r.velocities.p1, PaddleSpeed(s.mode, t))
    ensures s.player2.isAlive && s.mode != OnePlayer ==> IsStep(r.velocities.p2, PaddleSpeed(s.mode, t))
    ensures s.mode == OnePlayer && s.player2.isAlive ==>
      r.velocities.p2 == s.velocities.p2 &&
      r.player2.y == Clamp(AIStep(s.player2.y, s.ball.y - s.player2.height / 2.0,
                                  DifficultyLevels(s.difficulty).errorMargin, PaddleSpeed(s.mode, t)),
                           0.0, s.height - s.player2.height)
    ensures !s.player1.isAlive ==> r.velocities.p1 == s.velocities.p1
    ensures !s.player2.isAlive ==> r.velocities.p2 == s.velocities.p2
    ensures r.player1 == s.player1.(y := r.player1.y) && r.player2 == s.player2.(y := r.player2.y)
    ensures r == s.(player1 := r.player1, player2 := r.player2,
                    velocities := s.velocities.(p1 := r.velocities.p1, p2 := r.velocities.p2))
  {
    SidesClamped(SecondMoved(FirstMoved(s, t), t))
  }

  /** A living paddle 1 takes the velocity its keys ask for and moves. */
  function FirstMoved(s: Game, t: Tuning): Game
    requires ValidTuning(t)
  {
    if s.player1.isAlive then
      var v1 := OpposedVelocity(s.keys, "w", "s", PaddleSpeed(s.mode, t));
      s.(velocities := s.velocities.(p1 := v1), player1 := s.player1.(y := s.player1.y + v1))
    else s
  }

  /** A living paddle 2 steps toward the ball under the one-player AI, or
      otherwise takes the velocity its keys ask for and moves. */
  function SecondMoved(s: Game, t: Tuning): Game
    requires ValidTuning(t)
  {
    var speed := PaddleSpeed(s.mode, t);
    if !s.player2.isAlive then s
    else if s.mode == OnePlayer then
      s.(player2 := s.player2.(y := AIStep(s.player2.y, s.ball.y - s.player2.height / 2.0,
                                           DifficultyLevels(s.difficulty).errorMargin, speed)))
    else
      var v2 := OpposedVelocity(s.keys, "o", "l", speed);
      s.(velocities := s.velocities.(p2 := v2), player2 := s.player2.(y := s.player2.y + v2))
  }

  /** Paddles 1 and 2 clamped to the canvas height. */
  function SidesClamped(s: Game): Game
  {
    s.(player1 := s.player1.(y := Clamp(s.player1.y, 0.0, s.height - s.player1.height)),
       player2 := s.player2.(y := Clamp(s.player2.y, 0.0, s.height - s.player2.height)))
  }

  /** Paddles 3 and 4 of the four-player mode: keys, then the clamp to the
      canvas width. */
  function EndsMoved(s: Game, t: Tuning): (r: Game)
    requires ValidTuning(t)
    ensures s.player3.width <= s.width ==> 0.0 <= r.player3.x <= s.width - s.player3.width
    ensures s.player4.width <= s.width ==> 0.0 <= r.player4.x <= s.width - s.player4.width
    ensures s.player3.isAlive ==> IsStep(r.velocities.p3, PaddleSpeed(s.mode, t))
    ensures s.player4.isAlive ==> IsStep(r.velocities.p4, PaddleSpeed(s.mode, t))
    ensures r.player3 == s.player3.(x := r.player3.x) && r.player4 == s.player4.(x := r.player4.x)
    ensures r == s.(player3 := r.player3, player4 := r.player4,
                    velocities := s.velocities.(p3 := r.velocities.p3, p4 := r.velocities.p4))
  {
    var speed := PaddleSpeed(s.mode, t);
    var v := s.velocities;
    var v3 := if s.player3.isAlive then OpposedVelocity(s.keys, "g", "h", speed) else v.p3;
    var x3 := if s.player3.isAlive then s.player3.x + v3 else s.player3.x;
    var v4 := if s.player4.isAlive then OpposedVelocity(s.keys, "b", "n", speed) else v.p4;
    var x4 := if s.player4.isAlive then s.player4.x + v4 else s.player4.x;
    s.(player3 := s.player3.(x := Clamp(x3, 0.0, s.width - s.player3.width)),
       player4 := s.player4.(x := Clamp(x4, 0.0, s.width - s.player4.width)),
       velocities := v.(p3 := v3, p4 := v4))
  }

  /** A human paddle velocity: one of -speed, 0 and +speed. */
  predicate IsStep(v: real, speed: real)
  {
    v == -speed || v == 0.0 || v == speed
  }

  /** The bounce angle: the point of impact relative to the paddle's
      centre, from -1 at one end to 1 at the other, times the largest angle. */
  function ImpactAngle(impact: real, start: real, extent: real, maxAngle: real): real
    requires extent > 0.0
  {
    (impact - (start + extent / 2.0)) / (extent / 2.0) * maxAngle
  }

  /** `handlePaddleBounce` off a vertical (left or right) paddle: the speed
      grows by the acceleration factor up to the cap; the horizontal
      direction reverses with an angle that follows the point of impact,
      the paddle's velocity adds vertical spin, and the ball is put just
      outside the paddle on the side its new velocity points to. */
  function BounceVertical(b: Ball, p: Paddle, pv: real, m: MathLib, t: Tuning): (r: Ball)
    requires Sound(m) && ValidTuning(t) && p.height > 0.0
    ensures r.y == b.y
    ensures Abs(r.dx) <= BounceSpeed(b, m, t.maxBallSpeed) <= t.maxBallSpeed
    ensures r.dx > 0.0 ==> r.x == p.x + p.width + BALL_RADIUS
    ensures r.dx <= 0.0 ==> r.x == p.x - BALL_RADIUS
  {
    var speed := BounceSpeed(b, m, t.maxBallSpeed);
    var bounceAngle := ImpactAngle(b.y, p.y, p.height, t.maxBounceAngle);
    var dx := Turned(speed, m.cos(bounceAngle), b.dx > 0.0);
    var dy := speed * m.sin(bounceAngle) + pv * t.influence;
    Ball(p.x + (if dx > 0.0 then p.width + BALL_RADIUS else -BALL_RADIUS), b.y, dx, dy)
  }

  /** The same off a horizontal (top or bottom) paddle, with the roles of
      the axes exchanged. */
  function BounceHorizontal(b: Ball, p: Paddle, pv: real, m: MathLib, t: Tuning): (r: Ball)
    requires Sound(m) && ValidTuning(t) && p.width > 0.0
    ensures r.x == b.x
    ensures Abs(r.dy) <= BounceSpeed(b, m, t.maxBallSpeed) <= t.maxBallSpeed
    ensures r.dy > 0.0 ==> r.y == p.y + p.height + BALL_RADIUS
    ensures r.dy <= 0.0 ==> r.y == p.y - BALL_RADIUS
  {
    var speed := BounceSpeed(b, m, t.maxBallSpeed);
    var bounceAngle := ImpactAngle(b.x, p.x, p.width, t.maxBounceAngle);
    var dy := Turned(speed, m.cos(bounceAngle), b.dy > 0.0);
    var dx := speed * m.sin(bounceAngle) + pv * t.influence;
    Ball(b.x, p.y + (if dy > 0.0 then p.height + BALL_RADIUS else -BALL_RADIUS), dx, dy)
  }

  function Bounce(b: Ball, p: Paddle, pv: real, o: Orientation, m: MathLib, t: Tuning): (r: Ball)
    requires Sound(m) && ValidTuning(t) && p.width > 0.0 && p.height > 0.0
    ensures o == Vertical ==> r.y == b.y && Abs(r.dx) <= t.maxBallSpeed
    ensures o == Horizontal ==> r.x == b.x && Abs(r.dy) <= t.maxBallSpeed
  {
    if o == Vertical then BounceVertical(b, p, pv, m, t) else BounceHorizontal(b, p, pv, m, t)
  }

  /** After a bounce the ball no longer touches the paddle it bounced off. */
  lemma {:induction false} BounceClearsPaddle(b: Ball, p: Paddle, pv: real, o: Orientation, m: MathLib, t: Tuning)
    requires Sound(m) && ValidTuning(t) && p.width > 0.0 && p.height > 0.0
    ensures !CheckCollision(Bounce(b, p, pv, o, m, t), p)
  {
    var r := Bounce(b, p, pv, o, m, t);
    if o == Vertical {
      SeparatedOnXMisses(r.x, r.y, BALL_RADIUS, p.x, p.y, p.width, p.height);
    } else {
      SeparatedOnYMisses(r.x, r.y, BALL_RADIUS, p.x, p.y, p.width, p.height);
    }
  }

  /** Apart from the spin along the paddle, a bounce off a vertical paddle
      moves the ball at exactly the capped speed. */
  lemma {:induction false} BounceVerticalKeepsSpeed(b: Ball, p: Paddle, pv: real, m: MathLib, t: Tuning)
    requires Sound(m) && ValidTuning(t) && p.height > 0.0
    ensures var r := BounceVertical(b, p, pv, m, t);
      var speed := BounceSpeed(b, m, t.maxBallSpeed);
      r.dx * r.dx + (r.dy - pv * t.influence) * (r.dy - pv * t.influence) == speed * speed
  {
    var speed, c, s := VerticalParts(b, p, pv, m, t);
    var r := BounceVertical(b, p, pv, m, t);
    TurnedKeepsSpeed(speed, c, s, b.dx > 0.0, pv * t.influence, r.dx, r.dy);
  }

  /** The pieces of a bounce off a vertical paddle: the capped speed, and
      the cosine and sine of the impact angle. */
  lemma VerticalParts(b: Ball, p: Paddle, pv: real, m: MathLib, t: Tuning) returns (speed: real, c: real, s: real)
    requires Sound(m) && ValidTuning(t) && p.height > 0.0
    ensures speed == BounceSpeed(b, m, t.maxBallSpeed)
    ensures speed >= 0.0 && -1.0 <= c <= 1.0 && c * c + s * s == 1.0
    ensures BounceVertical(b, p, pv, m, t).dx == Turned(speed, c, b.dx > 0.0)
    ensures BounceVertical(b, p, pv, m, t).dy == speed * s + pv * t.influence
  {
    var a := ImpactAngle(b.y, p.y, p.height, t.maxBounceAngle);
    speed, c, s := BounceSpeed(b, m, t.maxBallSpeed), m.cos(a), m.sin(a);
  }

  lemma {:induction false} BounceHorizontalKeepsSpeed(b: Ball, p: Paddle, pv: real, m: MathLib, t: Tuning)
    requires Sound(m) && ValidTuning(t) && p.width > 0.0
    ensures var r := BounceHorizontal(b, p, pv, m, t);
      var speed := BounceSpeed(b, m, t.maxBallSpeed);
      (r.dx - pv * t.influence) * (r.dx - pv * t.influence) + r.dy * r.dy == speed * speed
  {
    var speed, c, s := HorizontalParts(b, p, pv, m, t);
    var r := BounceHorizontal(b, p, pv, m, t);
    TurnedKeepsSpeed(speed, c, s, b.dy > 0.0, pv * t.influence, r.dy, r.dx);
  }

  /** The same pieces for a horizontal paddle. */
  lemma HorizontalParts(b: Ball, p: Paddle, pv: real, m: MathLib, t: Tuning) returns (speed: real, c: real, s: real)
    requires Sound(m) && ValidTuning(t) && p.width > 0.0
    ensures speed == BounceSpeed(b, m, t.maxBallSpeed)
    ensures speed >= 0.0 && -1.0 <= c <= 1.0 && c * c + s * s == 1.0
    ensures BounceHorizontal(b, p, pv, m, t).dy == Turned(speed, c, b.dy > 0.0)
    ensures BounceHorizontal(b, p, pv, m, t).dx == speed * s + pv * t.influence
  {
    var a := ImpactAngle(b.x, p.x, p.width, t.maxBounceAngle);
    speed, c, s := BounceSpeed(b, m, t.maxBallSpeed), m.cos(a), m.sin(a);
  }

  /** All paddles have a positive extent (as `Inv` guarantees). */
  predicate Sized(s: Game)
  {
    s.player1.width > 0.0 && s.player1.height > 0.0 && s.player2.width > 0.0 && s.player2.height > 0.0 &&
    s.player3.width > 0.0 && s.player3.height > 0.0 && s.player4.width > 0.0 && s.player4.height > 0.0
  }

  /** One paddle's test: a bounce when the ball touches it. */
  function HitOne(b: Ball, p: Paddle, pv: real, o: Orientation, m: MathLib, t: Tuning): (r: Ball)
    requires Sound(m) && ValidTuning(t) && p.width > 0.0 && p.height > 0.0
    ensures r != b ==> CheckCollision(b, p)
    ensures r != b ==> !CheckCollision(r, p)
  {
    if CheckCollision(b, p) then
      BounceClearsPaddle(b, p, pv, o, m, t);
      Bounce(b, p, pv, o, m, t)
    else b
  }

  /** Step 4 of `update`: every paddle is tested in turn in the same frame,
      each against the ball as the previous tests left it; paddles 3 and 4
      only in the four-player mode. A ball touching no paddle is unchanged. */
  function PaddleHits(s: Game, m: MathLib, t: Tuning): (r: Game)
    requires Sound(m) && ValidTuning(t) && Sized(s)
    ensures r == s.(ball := r.ball)
    ensures !CheckCollision(s.ball, s.player1) && !CheckCollision(s.ball, s.player2) &&
            (s.mode == FourPlayers ==> !CheckCollision(s.ball, s.player3) && !CheckCollision(s.ball, s.player4)) ==>
            r == s
  {
    var v := s.velocities;
    var b1 := HitOne(s.ball, s.player1, v.p1, Vertical, m, t);
    var b2 := HitOne(b1, s.player2, v.p2, Vertical, m, t);
    if s.mode == FourPlayers then
      var b3 := HitOne(b2, s.player3, v.p3, Horizontal, m, t);
      s.(ball := HitOne(b3, s.player4, v.p4, Horizontal, m, t))
    else s.(ball := b2)
  }

  /** The four-player walls: the edge of an eliminated player reflects a
      ball that crosses it and puts it back at `BALL_RADIUS` from the edge. */
  function ReflectDeadWalls(s: Game): (r: Game)
    requires s.width > 2.0 * BALL_RADIUS && s.height > 2.0 * BALL_RADIUS
    ensures r == s.(ball := r.ball)
    ensures s.ball.x - BALL_RADIUS < 0.0 && !s.player1.isAlive ==>
      r.ball.x == BALL_RADIUS && r.ball.dx == -s.ball.dx
    ensures s.ball.x - BALL_RADIUS >= 0.0 && s.ball.x + BALL_RADIUS > s.width && !s.player2.isAlive ==>
      r.ball.x == s.width - BALL_RADIUS && r.ball.dx == -s.ball.dx
    ensures s.ball.y - BALL_RADIUS < 0.0 && !s.player3.isAlive ==>
      r.ball.y == BALL_RADIUS && r.ball.dy == -s.ball.dy
    ensures s.ball.y - BALL_RADIUS >= 0.0 && s.ball.y + BALL_RADIUS > s.height && !s.player4.isAlive ==>
      r.ball.y == s.height - BALL_RADIUS && r.ball.dy == -s.ball.dy
    ensures ((s.player1.isAlive || s.ball.x - BALL_RADIUS >= 0.0) &&
             (s.player2.isAlive || s.ball.x + BALL_RADIUS <= s.width)) ==>
      r.ball.x == s.ball.x && r.ball.dx == s.ball.dx
    ensures ((s.player3.isAlive || s.ball.y - BALL_RADIUS >= 0.0) &&
             (s.player4.isAlive || s.ball.y + BALL_RADIUS <= s.height)) ==>
      r.ball.y == s.ball.y && r.ball.dy == s.ball.dy
  {
    var b := s.ball;
    var b := if b.x - BALL_RADIUS < 0.0 && !s.player1.isAlive then b.(dx := b.dx * -1.0, x := BALL_RADIUS) else b;
    var b := if b.x + BALL_RADIUS > s.width && !s.player2.isAlive then b.(dx := b.dx * -1.0, x := s.width - BALL_RADIUS) else b;
    var b := if b.y - BALL_RADIUS < 0.0 && !s.player3.isAlive then b.(dy := b.dy * -1.0, y := BALL_RADIUS) else b;
    var b := if b.y + BALL_RADIUS > s.height && !s.player4.isAlive then b.(dy := b.dy * -1.0, y := s.height - BALL_RADIUS) else b;
    s.(ball := b)
  }

  /** `endGame(winner)` (its effect on the state). */
  function GameEnded(s: Game, winner: int): (r: Game)
    ensures r.phase == GameOver && r.winner == winner && r == s.(phase := GameOver, winner := winner)
  {
    s.(phase := GameOver, winner := winner)
  }

  /** `loseLife(k)`: a pause, one life fewer for player k, elimination at
      zero; with at most one player left alive the game ends and the first
      player with lives left is announced, otherwise the ball is served. */
  function LifeTaken(s: Game, k: int, m: MathLib, d: ServeDraws, t: Tuning): (r: Game)
    requires 1 <= k <= 4
    requires Sound(m) && ValidServe(d) && ValidTuning(t)
    ensures r.score == WithLife(s.score, k, LifeOf(s.score, k) - 1)
    ensures PaddleOf(r, k).isAlive <==> PaddleOf(s, k).isAlive && LifeOf(s.score, k) - 1 > 0
    ensures forall j :: 1 <= j <= 4 && j != k ==> PaddleOf(r, j).isAlive == PaddleOf(s, j).isAlive
    ensures r.phase == GameOver <==> AliveCount(r) <= 1
    ensures r.phase == GameOver ==> r.winner == FirstPositive(r.score)
    ensures r.phase != GameOver ==> r.phase == Scored && r.winner == s.winner
    ensures r.mode == s.mode && r.width == s.width && r.height == s.height && r.keys == s.keys &&
            r.velocities == s.velocities && r.difficulty == s.difficulty
  {
    var s2 := LifeDeducted(s, k);
    if AliveCount(s2) <= 1 then GameEnded(s2, FirstPositive(s2.score))
    else
      var r := BallReset(s2, m, d, t);
      assert AliveCount(r) == AliveCount(s2);
      assert forall j :: 1 <= j <= 4 ==> PaddleOf(r, j).isAlive == PaddleOf(s2, j).isAlive;
      r
  }

  /** The first half of `loseLife`: the pause, the life taken and, at zero
      lives, the elimination. */
  function LifeDeducted(s: Game, k: int): (r: Game)
    requires 1 <= k <= 4
    ensures r.phase == Scored && r.ball == s.ball && r.mode == s.mode
    ensures LifeOf(r.score, k) == LifeOf(s.score, k) - 1
    ensures forall j :: 1 <= j <= 4 && j != k ==> LifeOf(r.score, j) == LifeOf(s.score, j)
    ensures PaddleOf(r, k).isAlive <==> PaddleOf(s, k).isAlive && LifeOf(s.score, k) > 1
    ensures forall j :: 1 <= j <= 4 && j != k ==> PaddleOf(r, j) == PaddleOf(s, j)
  {
    var s1 := s.(phase := Scored, score := WithLife(s.score, k, LifeOf(s.score, k) - 1));
    if LifeOf(s1.score, k) <= 0 then WithPaddle(s1, k, PaddleOf(s1, k).(isAlive := false)) else s1
  }

  /** Taking a life from a living player keeps the four-player invariant. */
  lemma {:induction false} LifeDeductedKeepsInv(s: Game, k: int, t: Tuning)
    requires ValidTuning(t) && Inv(s, t)
    requires s.mode == FourPlayers && 1 <= k <= 4 && PaddleOf(s, k).isAlive
    ensures Inv(LifeDeducted(s, k), t)
  {
    var r := LifeDeducted(s, k);
    SameFramesPlaced(s, r, t);
  }

  /** Reflecting off dead walls moves only the ball. */
  lemma {:induction false} ReflectKeepsInv(s: Game, t: Tuning)
    requires ValidTuning(t) && Inv(s, t)
    ensures Inv(ReflectDeadWalls(s), t)
  {
    var r := ReflectDeadWalls(s);
    assert r == s.(ball := r.ball);
    SameFramesPlaced(s, r, t);
  }

  /** Two paddles in the same place with the same size. */
  predicate SameFrame(a: Paddle, b: Paddle)
  {
    a.x == b.x && a.y == b.y && a.width == b.width && a.height == b.height
  }

  /** `Placed` looks only at the mode, the canvas and the paddle frames. */
  lemma {:induction false} SameFramesPlaced(s: Game, r: Game, t: Tuning)
    requires ValidTuning(t)
    requires r.mode == s.mode && r.width == s.width && r.height == s.height
    requires SameFrame(r.player1, s.player1) && SameFrame(r.player2, s.player2)
    requires SameFrame(r.player3, s.player3) && SameFrame(r.player4, s.player4)
    ensures Placed(r, t) <==> Placed(s, t)
  {
  }

  /** `handleScoring` in the four-player mode: dead walls reflect, then at
      most one living player whose edge the ball centre has crossed loses a
      life, checked in the order 1, 2, 3, 4. */
  function Scoring4P(s: Game, m: MathLib, d: ServeDraws, t: Tuning): (r: Game)
    requires Sound(m) && ValidServe(d) && ValidTuning(t)
    requires s.width > 2.0 * BALL_RADIUS && s.height > 2.0 * BALL_RADIUS
    ensures r.mode == s.mode && r.width == s.width && r.height == s.height && r.keys == s.keys &&
            r.velocities == s.velocities && r.difficulty == s.difficulty
  {
    var s1 := ReflectDeadWalls(s);
    var b := s1.ball;
    if b.x < 0.0 && s1.player1.isAlive then LifeTaken(s1, 1, m, d, t)
    else if b.x > s1.width && s1.player2.isAlive then LifeTaken(s1, 2, m, d, t)
    else if b.y < 0.0 && s1.player3.isAlive then LifeTaken(s1, 3, m, d, t)
    else if b.y > s1.height && s1.player4.isAlive then LifeTaken(s1, 4, m, d, t)
    else s1
  }

  /** The player whose life a four-player scoring step takes, or 0. */
  function LifeLost(s: Game): (k: int)
    requires s.width > 2.0 * BALL_RADIUS && s.height > 2.0 * BALL_RADIUS
    ensures 0 <= k <= 4
  {
    var s1 := ReflectDeadWalls(s);
    var b := s1.ball;
    if b.x < 0.0 && s1.player1.isAlive then 1
    else if b.x > s1.width && s1.player2.isAlive then 2
    else if b.y < 0.0 && s1.player3.isAlive then 3
    else if b.y > s1.height && s1.player4.isAlive then 4
    else 0
  }

  /** At most one life is lost per scoring step, by exactly one, and only
      by a living player. */
  lemma {:induction false} AtMostOneLifeLost(s: Game, m: MathLib, d: ServeDraws, t: Tuning)
    requires Sound(m) && ValidServe(d) && ValidTuning(t)
    requires s.width > 2.0 * BALL_RADIUS && s.height > 2.0 * BALL_RADIUS
    ensures var r := Scoring4P(s, m, d, t);
      var k := LifeLost(s);
      (k == 0 ==> r.score == s.score && r.phase == s.phase) &&
      (k != 0 ==> PaddleOf(s, k).isAlive && r.score == WithLife(s.score, k, LifeOf(s.score, k) - 1))
  {
  }

  /** `handleScoring` in the classic modes: the vertical velocity flips
      whenever the ball overlaps the top or bottom edge, whatever its
      direction; a ball whose centre has left on the left scores for
      player 2, on the right for player 1; reaching the winning score ends
      the game with the scorer announced, otherwise the ball is served. */
  function ScoringClassic(s: Game, m: MathLib, d: ServeDraws, t: Tuning): (r: Game)
    requires Sound(m) && ValidServe(d) && ValidTuning(t)
    ensures s.ball.x < 0.0 ==> r.score == s.score.(p2 := s.score.p2 + 1)
    ensures s.ball.x > s.width && s.ball.x >= 0.0 ==> r.score == s.score.(p1 := s.score.p1 + 1)
    ensures 0.0 <= s.ball.x <= s.width ==> r.score == s.score && r.phase == s.phase
    ensures r.phase == GameOver && s.phase != GameOver ==>
      (r.score.p1 >= WINNING_SCORE || r.score.p2 >= WINNING_SCORE) && (r.winner == 1 || r.winner == 2) &&
      (r.winner == 1 <==> s.ball.x >= 0.0)
    ensures r.mode == s.mode && r.width == s.width && r.height == s.height && r.keys == s.keys &&
            r.velocities == s.velocities && r.difficulty == s.difficulty
    ensures AliveCount(r) == AliveCount(s)
    ensures forall j :: 1 <= j <= 4 ==> PaddleOf(r, j).isAlive == PaddleOf(s, j).isAlive
  {
    ClassicGoal(WallsFlipped(s), m, d, t)
  }

  /** The classic wall test: the vertical velocity flips whenever the ball
      overlaps the top or bottom edge. */
  function WallsFlipped(s: Game): (r: Game)
    ensures r == s.(ball := r.ball) && r.ball.x == s.ball.x
  {
    var b := s.ball;
    s.(ball := if b.y - BALL_RADIUS < 0.0 || b.y + BALL_RADIUS > s.height then b.(dy := b.dy * -1.0) else b)
  }

  /** The goal test after the walls: a point to the side the ball did not
      leave by, then `ClassicScored`. */
  function ClassicGoal(s: Game, m: MathLib, d: ServeDraws, t: Tuning): (r: Game)
    requires Sound(m) && ValidServe(d) && ValidTuning(t)
    ensures 0.0 <= s.ball.x <= s.width ==> r == s
    ensures s.ball.x < 0.0 ==> r.score == s.score.(p2 := s.score.p2 + 1)
    ensures 0.0 <= s.ball.x && s.ball.x > s.width ==> r.score == s.score.(p1 := s.score.p1 + 1)
    ensures s.ball.x < 0.0 || s.ball.x > s.width ==>
      (r.phase == GameOver <==> r.score.p1 >= WINNING_SCORE || r.score.p2 >= WINNING_SCORE) &&
      (r.phase == GameOver ==> r.winner == (if s.ball.x < 0.0 then 2 else 1))
  {
    if s.ball.x < 0.0 then ClassicScored(s.(score := s.score.(p2 := s.score.p2 + 1)), 2, m, d, t)
    else if s.ball.x > s.width then ClassicScored(s.(score := s.score.(p1 := s.score.p1 + 1)), 1, m, d, t)
    else s
  }

  /** The tail of classic `handleScoring` once somebody scored. */
  function ClassicScored(s: Game, scorer: int, m: MathLib, d: ServeDraws, t: Tuning): (r: Game)
    requires Sound(m) && ValidServe(d) && ValidTuning(t)
    ensures r.score == s.score
    ensures r.phase == GameOver <==> s.score.p1 >= WINNING_SCORE || s.score.p2 >= WINNING_SCORE
    ensures r.phase == GameOver ==> r.winner == scorer
    ensures r.phase != GameOver ==>
      r.phase == Scored && r.winner == s.winner && r.ball.x == s.width / 2.0 && r.ball.y == s.height / 2.0
    ensures r.mode == s.mode && r.width == s.width && r.height == s.height && r.keys == s.keys &&
            r.velocities == s.velocities && r.difficulty == s.difficulty
    ensures forall j :: 1 <= j <= 4 ==> PaddleOf(r, j).isAlive == PaddleOf(s, j).isAlive
  {
    if s.score.p1 >= WINNING_SCORE || s.score.p2 >= WINNING_SCORE then GameEnded(s, scorer)
    else BallReset(s.(phase := Scored), m, d, t)
  }

  /** The classic wall test ignores the direction of travel: a ball that
      overlaps the top edge while already heading back down is turned
      upward again. */
  lemma WallFlipIgnoresDirection(s: Game, m: MathLib, d: ServeDraws, t: Tuning)
    requires Sound(m) && ValidServe(d) && ValidTuning(t)
    requires 0.0 <= s.ball.x <= s.width && s.ball.y < BALL_RADIUS && s.ball.dy > 0.0
    ensures ScoringClassic(s, m, d, t).ball.dy < 0.0
  {
  }

  /** Paddles of positive extent on a canvas wider and taller than the ball:
      what a frame needs to be well defined (`Inv` implies it). */
  predicate Shaped(s: Game)
  {
    Sized(s) && s.width > 2.0 * BALL_RADIUS && s.height > 2.0 * BALL_RADIUS
  }

  /** `update`, one animation frame. */
  function NextFrame(s: Game, m: MathLib, d: ServeDraws, t: Tuning): (r: Game)
    requires Sound(m) && ValidServe(d) && ValidTuning(t) && Shaped(s)
    ensures s.phase != Playing ==> r == s
    ensures s.phase == Playing && s.player1.isAlive ==> IsStep(r.velocities.p1, PaddleSpeed(s.mode, t))
    ensures s.phase == Playing && s.player2.isAlive && s.mode != OnePlayer ==>
      IsStep(r.velocities.p2, PaddleSpeed(s.mode, t))
    ensures s.phase == Playing && s.mode == FourPlayers && s.player3.isAlive ==>
      IsStep(r.velocities.p3, PaddleSpeed(s.mode, t))
    ensures s.phase == Playing && s.mode == FourPlayers && s.player4.isAlive ==>
      IsStep(r.velocities.p4, PaddleSpeed(s.mode, t))
    ensures r.mode == s.mode && r.width == s.width && r.height == s.height && r.keys == s.keys &&
            r.difficulty == s.difficulty
  {
    if s.phase != Playing then s
    else
      var s3 := Moved(s, m, t);
      if s.mode == FourPlayers then Scoring4P(s3, m, d, t) else ScoringClassic(s3, m, d, t)
  }

  /** Step 2 of `update`: the ball moves by its velocity. */
  function BallStepped(s: Game): (r: Game)
    ensures r.ball.x == s.ball.x + s.ball.dx && r.ball.y == s.ball.y + s.ball.dy
    ensures r.ball.dx == s.ball.dx && r.ball.dy == s.ball.dy && r == s.(ball := r.ball)
  {
    s.(ball := s.ball.(x := s.ball.x + s.ball.dx, y := s.ball.y + s.ball.dy))
  }

  lemma MovePaddlesSized(s: Game, t: Tuning)
    requires ValidTuning(t) && Sized(s)
    ensures Sized(MovePaddles(s, t))
  {
  }

  lemma MovedSteps(s: Game, m: MathLib, t: Tuning)
    requires Sound(m) && ValidTuning(t) && Shaped(s)
    ensures Sized(BallStepped(MovePaddles(s, t)))
    ensures Moved(s, m, t) == PaddleHits(BallStepped(MovePaddles(s, t)), m, t)
  {
    MovePaddlesSized(s, t);
  }

  lemma NextFramePlays(s: Game, m: MathLib, d: ServeDraws, t: Tuning)
    requires Sound(m) && ValidServe(d) && ValidTuning(t) && Shaped(s) && s.phase == Playing
    ensures NextFrame(s, m, d, t) ==
      if s.mode == FourPlayers then Scoring4P(Moved(s, m, t), m, d, t) else ScoringClassic(Moved(s, m, t), m, d, t)
  {
  }

  lemma {:induction false} InvShaped(s: Game, t: Tuning)
    requires ValidTuning(t) && Inv(s, t)
    ensures Shaped(s)
  {
  }

  lemma {:induction false} ResetBallKeepsInv(s: Game, m: MathLib, d: ServeDraws, t: Tuning)
    requires Sound(m) && ValidServe(d) && ValidTuning(t) && Inv(s, t)
    ensures Inv(BallReset(s, m, d, t), t)
  {
    var r := BallReset(s, m, d, t);
    assert AliveCount(r) == AliveCount(s);
  }

  lemma {:induction false} LoseLifeKeepsInv(s: Game, k: int, m: MathLib, d: ServeDraws, t: Tuning)
    requires Sound(m) && ValidServe(d) && ValidTuning(t) && Inv(s, t)
    requires s.mode == FourPlayers && 1 <= k <= 4 && PaddleOf(s, k).isAlive
    ensures Inv(LifeTaken(s, k, m, d, t), t)
  {
    var s2 := LifeDeducted(s, k);
    LifeDeductedKeepsInv(s, k, t);
    if AliveCount(s2) > 1 {
      ResetBallKeepsInv(s2, m, d, t);
    }
  }

  lemma {:induction false} MovePaddlesKeepsInv(s: Game, t: Tuning)
    requires ValidTuning(t) && Inv(s, t)
    ensures Inv(MovePaddles(s, t), t)
  {
    var r := MovePaddles(s, t);
    assert AliveCount(r) == AliveCount(s);
  }

  lemma {:induction false} Scoring4PKeepsInv(s: Game, m: MathLib, d: ServeDraws, t: Tuning)
    requires Sound(m) && ValidServe(d) && ValidTuning(t) && Inv(s, t) && s.mode == FourPlayers
    ensures Inv(Scoring4P(s, m, d, t), t)
  {
    var s4 := ReflectDeadWalls(s);
    ReflectKeepsInv(s, t);
    var k := LifeLost(s);
    if k != 0 {
      LoseLifeKeepsInv(s4, k, m, d, t);
    }
  }

  lemma {:induction false} ClassicScoredKeepsInv(s: Game, scorer: int, m: MathLib, d: ServeDraws, t: Tuning)
    requires Sound(m) && ValidServe(d) && ValidTuning(t) && Inv(s, t)
    ensures Inv(ClassicScored(s, scorer, m, d, t), t)
  {
    if !(s.score.p1 >= WINNING_SCORE || s.score.p2 >= WINNING_SCORE) {
      ResetBallKeepsInv(s.(phase := Scored), m, d, t);
    }
  }

  lemma {:induction false} ScoringClassicKeepsInv(s: Game, m: MathLib, d: ServeDraws, t: Tuning)
    requires Sound(m) && ValidServe(d) && ValidTuning(t) && Inv(s, t) && s.mode != FourPlayers
    ensures Inv(ScoringClassic(s, m, d, t), t)
  {
    var b0 := s.ball;
    var b := if b0.y - BALL_RADIUS < 0.0 || b0.y + BALL_RADIUS > s.height then b0.(dy := b0.dy * -1.0) else b0;
    var s1 := s.(ball := b);
    assert Inv(s1, t);
    if b.x < 0.0 {
      ClassicScoredKeepsInv(s1.(score := s1.score.(p2 := s1.score.p2 + 1)), 2, m, d, t);
    } else if b.x > s1.width {
      ClassicScoredKeepsInv(s1.(score := s1.score.(p1 := s1.score.p1 + 1)), 1, m, d, t);
    }
  }

  /** The frame before scoring: paddles, then ball, then paddle hits. */
  function Moved(s: Game, m: MathLib, t: Tuning): (r: Game)
    requires Sound(m) && ValidTuning(t) && Shaped(s)
    ensures Shaped(r)
  {
    var s1 := MovePaddles(s, t);
    var s2 := BallStepped(s1);
    PaddleHits(s2, m, t)
  }

  lemma {:induction false} MovedKeepsInv(s: Game, m: MathLib, t: Tuning)
    requires Sound(m) && ValidTuning(t) && Inv(s, t)
    ensures Inv(Moved(s, m, t), t) && Moved(s, m, t).score == s.score && Moved(s, m, t).mode == s.mode
  {
    MovePaddlesKeepsInv(s, t);
  }

  lemma {:induction false} FrameKeepsInv(s: Game, m: MathLib, d: ServeDraws, t: Tuning)
    requires Sound(m) && ValidServe(d) && ValidTuning(t) && Inv(s, t)
    ensures Inv(NextFrame(s, m, d, t), t)
  {
    if s.phase == Playing {
      MovedKeepsInv(s, m, t);
      var s3 := Moved(s, m, t);
      if s.mode == FourPlayers {
        Scoring4PKeepsInv(s3, m, d, t);
      } else {
        ScoringClassicKeepsInv(s3, m, d, t);
      }
    }
  }

  /** In the four-player mode a frame takes at most one life, by one: every
      counter stays or drops by one, and no two counters change. */
  lemma {:induction false} FrameLosesAtMostOneLife(s: Game, m: MathLib, d: ServeDraws, t: Tuning)
    requires Sound(m) && ValidServe(d) && ValidTuning(t) && Inv(s, t) && s.mode == FourPlayers
    ensures var r := NextFrame(s, m, d, t);
      (forall j :: 1 <= j <= 4 ==> LifeOf(s.score, j) - 1 <= LifeOf(r.score, j) <= LifeOf(s.score, j)) &&
      (forall i, j :: 1 <= i < j <= 4 ==> LifeOf(r.score, i) == LifeOf(s.score, i) || LifeOf(r.score, j) == LifeOf(s.score, j))
  {
    if s.phase == Playing {
      MovedKeepsInv(s, m, t);
      AtMostOneLifeLost(Moved(s, m, t), m, d, t);
    }
  }

  /** A four-player frame that ends the game leaves at most one player
      alive, and the announced winner is that survivor (0 when nobody is). */
  lemma {:induction false} WinnerIsSurvivor(s: Game, m: MathLib, d: ServeDraws, t: Tuning)
    requires Sound(m) && ValidServe(d) && ValidTuning(t) && Inv(s, t)
    requires s.mode == FourPlayers && s.phase == Playing
    ensures var r := NextFrame(s, m, d, t);
      r.phase == GameOver ==>
        AliveCount(r) <= 1 && 0 <= r.winner <= 4 &&
        (r.winner != 0 ==> PaddleOf(r, r.winner).isAlive) &&
        (r.winner == 0 <==> AliveCount(r) == 0)
  {
    MovedKeepsInv(s, m, t);
    var s3 := Moved(s, m, t);
    assert NextFrame(s, m, d, t) == Scoring4P(s3, m, d, t);
    var s4 := ReflectDeadWalls(s3);
    var k := LifeLost(s3);
    Scoring4PTakes(s3, m, d, t);
    if k != 0 {
      ReflectKeepsInv(s3, t);
      LifeTakenWinner(s4, k, m, d, t);
    }
  }

  /** Four-player scoring is `LifeTaken` for the player `LifeLost` names,
      after the dead walls, or just the dead walls when nobody loses. */
  lemma Scoring4PTakes(s: Game, m: MathLib, d: ServeDraws, t: Tuning)
    requires Sound(m) && ValidServe(d) && ValidTuning(t)
    requires s.width > 2.0 * BALL_RADIUS && s.height > 2.0 * BALL_RADIUS
    ensures var k := LifeLost(s);
      (k == 0 ==> Scoring4P(s, m, d, t) == ReflectDeadWalls(s)) &&
      (k != 0 ==> PaddleOf(ReflectDeadWalls(s), k).isAlive &&
                  Scoring4P(s, m, d, t) == LifeTaken(ReflectDeadWalls(s), k, m, d, t))
  {
  }

  /** When taking a life ends the game, the announced winner is the one
      player left alive, or 0 when nobody is. */
  lemma {:induction false} LifeTakenWinner(s: Game, k: int, m: MathLib, d: ServeDraws, t: Tuning)
    requires Sound(m) && ValidServe(d) && ValidTuning(t) && Inv(s, t)
    requires s.mode == FourPlayers && 1 <= k <= 4 && PaddleOf(s, k).isAlive
    ensures var r := LifeTaken(s, k, m, d, t);
      r.phase == GameOver ==>
        AliveCount(r) <= 1 && 0 <= r.winner <= 4 &&
        (r.winner != 0 ==> PaddleOf(r, r.winner).isAlive) &&
        (r.winner == 0 <==> AliveCount(r) == 0)
  {
    LoseLifeKeepsInv(s, k, m, d, t);
    var r := LifeTaken(s, k, m, d, t);
    assert forall j :: 1 <= j <= 4 ==> (PaddleOf(r, j).isAlive <==> LifeOf(r.score, j) > 0);
  }

  /** `startGame`: nothing while playing, otherwise play and serve. */
  function GameStarted(s: Game, m: MathLib, d: ServeDraws, t: Tuning): (r: Game)
    requires Sound(m) && ValidServe(d) && ValidTuning(t)
    ensures s.phase == Playing ==> r == s
    ensures s.phase != Playing ==>
      r.phase == Playing && r.ball.dx * r.ball.dx + r.ball.dy * r.ball.dy == INITIAL_BALL_SPEED * INITIAL_BALL_SPEED
  {
    if s.phase == Playing then s else BallReset(s.(phase := Playing), m, d, t)
  }

  /** The start button: only in the menu or after a game, a fresh game
      that starts at once. */
  function StartButton(s: Game, m: MathLib, d: ServeDraws, t: Tuning): (r: Game)
    requires Sound(m) && ValidServe(d) && ValidTuning(t)
    ensures s.phase == Menu || s.phase == GameOver ==>
      r.phase == Playing && AliveCount(r) == 4 &&
      r.score == (if s.mode == FourPlayers then Score(3, 3, 3, 3) else Score(0, 0, 0, 0))
    ensures s.phase == Playing || s.phase == Scored ==> r == s
  {
    if s.phase == Menu || s.phase == GameOver then GameStarted(GameReset(s, t), m, d, t) else s
  }

  /** The one-second serve timer firing; it is never cancelled. */
  function TimerFired(s: Game): (r: Game)
    ensures r.phase == Playing && r == s.(phase := Playing)
  {
    s.(phase := Playing)
  }

  datatype Event =
    | Frame(m: MathLib, d: ServeDraws)
    | ServeTimer
    | StartClick(m: MathLib, d: ServeDraws)
    | ModeClick(mode: GameMode)
    | DifficultyClick(level: DifficultyLevel)
    | KeyDown(key: string)
    | KeyUp(key: string)

  ghost predicate ValidEvent(e: Event)
  {
    match e
    case Frame(m, d) => Sound(m) && ValidServe(d)
    case StartClick(m, d) => Sound(m) && ValidServe(d)
    case _ => true
  }

  function Step(s: Game, t: Tuning, e: Event): (r: Game)
    requires ValidTuning(t) && ValidEvent(e) && Inv(s, t)
    ensures e.KeyDown? ==> r == s.(keys := r.keys) && Keyboard.ToLower(e.key) in r.keys
    ensures e.KeyUp? ==> r == s.(keys := r.keys) && Keyboard.ToLower(e.key) !in r.keys
    ensures e.ServeTimer? ==> r == s.(phase := Playing)
    ensures e.ModeClick? ==> r.phase == Menu && r.mode == e.mode && r.keys == s.keys
    ensures e.DifficultyClick? ==> r.phase == Menu && r.mode == s.mode && r.keys == s.keys
    ensures e.StartClick? && (s.phase == Menu || s.phase == GameOver) ==>
      r.phase == Playing && AliveCount(r) == 4
    ensures (e.Frame? || e.StartClick?) && (s.phase == Scored || (e.Frame? && s.phase != Playing)) ==> r == s
  {
    match e
    case Frame(m, d) => NextFrame(s, m, d, t)
    case ServeTimer => TimerFired(s)
    case StartClick(m, d) => StartButton(s, m, d, t)
    case ModeClick(mode) => GameReset(s.(mode := mode), t)
    case DifficultyClick(level) => GameReset(s.(difficulty := level), t)
    case KeyDown(key) => s.(keys := PressKey(s.keys, key))
    case KeyUp(key) => s.(keys := ReleaseKey(s.keys, key))
  }

  function Initial(t: Tuning): (s: Game)
    requires ValidTuning(t)
    ensures Inv(s, t) && s.phase == Menu && s.mode == OnePlayer && s.difficulty == Easy
  {
    GameReset(Game(Menu, Score(0, 0, 0, 0), Ball(0.0, 0.0, 0.0, 0.0),
                   Paddle(0.0, 0.0, 0.0, 0.0, true), Paddle(0.0, 0.0, 0.0, 0.0, true),
                   Paddle(0.0, 0.0, 0.0, 0.0, true), Paddle(0.0, 0.0, 0.0, 0.0, true),
                   Velocities(0.0, 0.0, 0.0, 0.0), OnePlayer, Easy, {}, 0.0, 0.0, 0), t)
  }

  /** Every event keeps the invariant: paddles of the mode's size along
      their edges and inside the canvas, lives in [0, 3] matching `isAlive`
      in the four-player mode, everybody alive otherwise. */
  lemma {:induction false} StepPreservesInv(s: Game, t: Tuning, e: Event)
    requires ValidTuning(t) && ValidEvent(e) && Inv(s, t)
    ensures Inv(Step(s, t, e), t)
  {
    match e
    case Frame(m, d) => FrameKeepsInv(s, m, d, t);
    case ServeTimer => PhaseKeysKeepInv(s, Playing, s.keys, t);
    case StartClick(m, d) => StartKeepsInv(s, m, d, t);
    case ModeClick(mode) => GameResetKeepsInv(s.(mode := mode), t);
    case DifficultyClick(level) => GameResetKeepsInv(s.(difficulty := level), t);
    case KeyDown(key) => PhaseKeysKeepInv(s, s.phase, PressKey(s.keys, key), t);
    case KeyUp(key) => PhaseKeysKeepInv(s, s.phase, ReleaseKey(s.keys, key), t);
  }

  /** The phase and the pressed keys play no part in the invariant. */
  lemma PhaseKeysKeepInv(s: Game, phase: Phase, keys: set<string>, t: Tuning)
    requires ValidTuning(t) && Inv(s, t)
    ensures Inv(s.(phase := phase, keys := keys), t)
  {
  }

  /** The start button resets the game and serves: the invariant holds after. */
  lemma {:induction false} StartKeepsInv(s: Game, m: MathLib, d: ServeDraws, t: Tuning)
    requires Sound(m) && ValidServe(d) && ValidTuning(t) && Inv(s, t)
    ensures Inv(StartButton(s, m, d, t), t)
  {
    if s.phase == Menu || s.phase == GameOver {
      var r := GameReset(s, t);
      GameResetKeepsInv(s, t);
      PhaseKeysKeepInv(r, Playing, r.keys, t);
      ResetBallKeepsInv(r.(phase := Playing), m, d, t);
    }
  }

  /** The view's closure state, updated in place. */
  class Session {
    var gameState: Phase
    var score: Score
    var ball: Ball
    var player1: Paddle
    var player2: Paddle
    var player3: Paddle
    var player4: Paddle
    var playerVelocities: Velocities
    var gameMode: GameMode
    var difficulty: DifficultyLevel
    var keysPressed: set<string>
    var canvasWidth: real
    var canvasHeight: real
    var winner: int
    const tuning: Tuning

    function State(): Game
      reads this
    {
      Game(gameState, score, ball, player1, player2, player3, player4, playerVelocities,
           gameMode, difficulty, keysPressed, canvasWidth, canvasHeight, winner)
    }

    predicate Valid()
      reads this
    {
      ValidTuning(tuning) && Inv(State(), tuning)
    }

    /** The set-up: menu, one player, easy, then `resetGame`. */
    constructor (t: Tuning)
      requires ValidTuning(t)
      ensures Valid() && tuning == t && State() == Initial(t)
    {
      tuning := t;
      gameState, score, ball := Menu, Score(0, 0, 0, 0), Ball(0.0, 0.0, 0.0, 0.0);
      player1, player2 := Paddle(0.0, 0.0, 0.0, 0.0, true), Paddle(0.0, 0.0, 0.0, 0.0, true);
      player3, player4 := Paddle(0.0, 0.0, 0.0, 0.0, true), Paddle(0.0, 0.0, 0.0, 0.0, true);
      playerVelocities := Velocities(0.0, 0.0, 0.0, 0.0);
      gameMode, difficulty, keysPressed := OnePlayer, Easy, {};
      canvasWidth, canvasHeight, winner := 0.0, 0.0, 0;
      new;
      ResetGame();
    }

    method ResetBall(m: MathLib, d: ServeDraws)
      requires Sound(m) && ValidServe(d) && ValidTuning(tuning)
      modifies this
      ensures State() == BallReset(old(State()), m, d, tuning)
    {
      Recentre();
      Serve(m, d);
    }

    method Recentre()
      requires ValidTuning(tuning)
      modifies this
      ensures State() == Recentred(old(State()), tuning)
    {
      ball := ball.(x := canvasWidth / 2.0, y := canvasHeight / 2.0);
      var paddleLengthV := if gameMode == FourPlayers then tuning.length4P else tuning.lengthClassic;
      player1 := player1.(y := canvasHeight / 2.0 - paddleLengthV / 2.0);
      player2 := player2.(y := canvasHeight / 2.0 - paddleLengthV / 2.0);
      if gameMode == FourPlayers {
        var paddleLengthH := tuning.length4P;
        player3 := player3.(x := canvasWidth / 2.0 - paddleLengthH / 2.0);
        player4 := player4.(x := canvasWidth / 2.0 - paddleLengthH / 2.0);
      }
    }

    method Serve(m: MathLib, d: ServeDraws)
      requires Sound(m) && ValidServe(d)
      modifies this
      ensures State() == Served(old(State()), m, d)
    {
      var angle := ServeAngle(gameMode, d, 4.0 * m.quarterPi);
      ball := ball.(dx := m.cos(angle) * INITIAL_BALL_SPEED);
      ball := ball.(dy := m.sin(angle) * INITIAL_BALL_SPEED);
    }

    method ResetGame()
      requires ValidTuning(tuning)
      modifies this
      ensures State() == GameReset(old(State()), tuning)
    {
      ResetCanvas();
      PlacePaddles();
    }

    method ResetCanvas()
      modifies this
      ensures State() == CanvasReset(old(State()))
    {
      gameState := Menu;
      if gameMode == FourPlayers {
        canvasWidth, canvasHeight := 800.0, 800.0;
        score := Score(3, 3, 3, 3);
      } else {
        canvasWidth, canvasHeight := 800.0, 600.0;
        score := Score(0, 0, 0, 0);
      }
      ball := Ball(canvasWidth / 2.0, canvasHeight / 2.0, 0.0, 0.0);
    }

    method PlacePaddles()
      requires ValidTuning(tuning)
      modifies this
      ensures State() == PaddlesPlaced(old(State()), tuning)
    {
      var paddleLength := if gameMode == FourPlayers then tuning.length4P else tuning.lengthClassic;
      var th := tuning.thickness;
      player1 := Paddle(th, canvasHeight / 2.0 - paddleLength / 2.0, th, paddleLength, true);
      player2 := Paddle(canvasWidth - th * 2.0, canvasHeight / 2.0 - paddleLength / 2.0, th, paddleLength, true);
      player3 := Paddle(canvasWidth / 2.0 - paddleLength / 2.0, th, paddleLength, th, true);
      player4 := Paddle(canvasWidth / 2.0 - paddleLength / 2.0, canvasHeight - th * 2.0, paddleLength, th, true);
    }

    /** One frame of `update`: paddles, ball, paddle hits, scoring. */
    method Update(m: MathLib, d: ServeDraws)
      requires Valid() && Sound(m) && ValidServe(d)
      modifies this
      ensures Valid() && State() == NextFrame(old(State()), m, d, tuning)
    {
      FrameKeepsInv(State(), m, d, tuning);
      if gameState != Playing {
        return;
      }
      InvShaped(State(), tuning);
      PlayFrame(m, d);
    }

    /** The body of `update` once the game is being played. */
    method PlayFrame(m: MathLib, d: ServeDraws)
      requires Sound(m) && ValidServe(d) && ValidTuning(tuning) && Shaped(State()) && gameState == Playing
      modifies this
      ensures State() == NextFrame(old(State()), m, d, tuning)
    {
      ghost var s0 := State();
      MoveFrame(m);
      ghost var s3 := State();
      assert s3.width == s0.width && s3.height == s0.height && s3.mode == s0.mode;
      HandleScoring(m, d);
      NextFramePlays(s0, m, d, tuning);
    }

    /** Steps 1 to 3 of `update`: paddles, ball, paddle hits. */
    method MoveFrame(m: MathLib)
      requires Sound(m) && ValidTuning(tuning) && Shaped(State())
      modifies this
      ensures State() == Moved(old(State()), m, tuning)
    {
      ghost var s0 := State();
      StepPaddlesAndBall();
      MovedSteps(s0, m, tuning);
      HandlePaddleHits(m);
    }

    /** Steps 1 and 2 of `update`. */
    method StepPaddlesAndBall()
      requires ValidTuning(tuning)
      modifies this
      ensures State() == BallStepped(MovePaddles(old(State()), tuning))
    {
      StepPaddles();
      StepBall();
    }

    /** Step 1 of `update`. */
    method StepPaddles()
      requires ValidTuning(tuning)
      modifies this
      ensures State() == MovePaddles(old(State()), tuning)
    {
      StepSidePaddles();
      if gameMode == FourPlayers {
        StepEndPaddles();
      }
    }

    method StepSidePaddles()
      requires ValidTuning(tuning)
      modifies this
      ensures State() == SidesMoved(old(State()), tuning)
    {
      StepFirstPaddle();
      StepSecondPaddle();
      player1 := player1.(y := Clamp(player1.y, 0.0, canvasHeight - player1.height));
      player2 := player2.(y := Clamp(player2.y, 0.0, canvasHeight - player2.height));
    }

    method StepFirstPaddle()
      requires ValidTuning(tuning)
      modifies this
      ensures State() == FirstMoved(old(State()), tuning)
    {
      var speed := PaddleSpeed(gameMode, tuning);
      if player1.isAlive {
        playerVelocities := playerVelocities.(p1 := OpposedVelocity(keysPressed, "w", "s", speed));
        player1 := player1.(y := player1.y + playerVelocities.p1);
      }
    }

    method StepSecondPaddle()
      requires ValidTuning(tuning)
      modifies this
      ensures State() == SecondMoved(old(State()), tuning)
    {
      var speed := PaddleSpeed(gameMode, tuning);
      if player2.isAlive {
        if gameMode == OnePlayer {
          var currentDifficulty := DifficultyLevels(difficulty);
          var targetY := ball.y - player2.height / 2.0;
          player2 := player2.(y := AIStep(player2.y, targetY, currentDifficulty.errorMargin, speed));
        } else {
          playerVelocities := playerVelocities.(p2 := OpposedVelocity(keysPressed, "o", "l", speed));
          player2 := player2.(y := player2.y + playerVelocities.p2);
        }
      }
    }

    method StepEndPaddles()
      requires ValidTuning(tuning)
      modifies this
      ensures State() == EndsMoved(old(State()), tuning)
    {
      var speed := PaddleSpeed(gameMode, tuning);
      if player3.isAlive {
        playerVelocities := playerVelocities.(p3 := OpposedVelocity(keysPressed, "g", "h", speed));
        player3 := player3.(x := player3.x + playerVelocities.p3);
      }
      if player4.isAlive {
        playerVelocities := playerVelocities.(p4 := OpposedVelocity(keysPressed, "b", "n", speed));
        player4 := player4.(x := player4.x + playerVelocities.p4);
      }
      player3 := player3.(x := Clamp(player3.x, 0.0, canvasWidth - player3.width));
      player4 := player4.(x := Clamp(player4.x, 0.0, canvasWidth - player4.width));
    }

    /** Step 2 of `update`. */
    method StepBall()
      modifies this
      ensures State() == BallStepped(old(State()))
    {
      ball := ball.(x := ball.x + ball.dx);
      ball := ball.(y := ball.y + ball.dy);
    }

    /** Step 3 of `update`: each paddle in turn, against the ball as the
        previous tests left it. */
    method HandlePaddleHits(m: MathLib)
      requires Sound(m) && ValidTuning(tuning) && Sized(State())
      modifies this
      ensures State() == PaddleHits(old(State()), m, tuning)
    {
      if CheckCollision(ball, player1) {
        HandlePaddleBounce(player1, playerVelocities.p1, Vertical, m);
      }
      if CheckCollision(ball, player2) {
        HandlePaddleBounce(player2, playerVelocities.p2, Vertical, m);
      }
      if gameMode == FourPlayers {
        if CheckCollision(ball, player3) {
          HandlePaddleBounce(player3, playerVelocities.p3, Horizontal, m);
        }
        if CheckCollision(ball, player4) {
          HandlePaddleBounce(player4, playerVelocities.p4, Horizontal, m);
        }
      }
    }

    method HandlePaddleBounce(paddle: Paddle, paddleVelocity: real, orientation: Orientation, m: MathLib)
      requires Sound(m) && ValidTuning(tuning) && paddle.width > 0.0 && paddle.height > 0.0
      modifies this
      ensures State() == old(State()).(ball := Bounce(old(ball), paddle, paddleVelocity, orientation, m, tuning))
    {
      ball := Bounce(ball, paddle, paddleVelocity, orientation, m, tuning);
    }

    /** `handleScoring`. */
    method HandleScoring(m: MathLib, d: ServeDraws)
      requires Sound(m) && ValidServe(d) && ValidTuning(tuning)
      requires canvasWidth > 2.0 * BALL_RADIUS && canvasHeight > 2.0 * BALL_RADIUS
      modifies this
      ensures gameMode == FourPlayers ==> State() == Scoring4P(old(State()), m, d, tuning)
      ensures gameMode != FourPlayers ==> State() == ScoringClassic(old(State()), m, d, tuning)
    {
      if gameMode == FourPlayers {
        HandleScoring4P(m, d);
      } else {
        HandleScoringClassic(m, d);
      }
    }

    method HandleScoring4P(m: MathLib, d: ServeDraws)
      requires Sound(m) && ValidServe(d) && ValidTuning(tuning)
      requires canvasWidth > 2.0 * BALL_RADIUS && canvasHeight > 2.0 * BALL_RADIUS
      modifies this
      ensures State() == Scoring4P(old(State()), m, d, tuning)
    {
      ReflectDeadWallsStep();
      if ball.x < 0.0 && player1.isAlive {
        LoseLife(1, m, d);
      } else if ball.x > canvasWidth && player2.isAlive {
        LoseLife(2, m, d);
      } else if ball.y < 0.0 && player3.isAlive {
        LoseLife(3, m, d);
      } else if ball.y > canvasHeight && player4.isAlive {
        LoseLife(4, m, d);
      }
    }

    method ReflectDeadWallsStep()
      requires canvasWidth > 2.0 * BALL_RADIUS && canvasHeight > 2.0 * BALL_RADIUS
      modifies this
      ensures State() == ReflectDeadWalls(old(State()))
    {
      if ball.x - BALL_RADIUS < 0.0 && !player1.isAlive {
        ball := ball.(dx := ball.dx * -1.0, x := BALL_RADIUS);
      }
      if ball.x + BALL_RADIUS > canvasWidth && !player2.isAlive {
        ball := ball.(dx := ball.dx * -1.0, x := canvasWidth - BALL_RADIUS);
      }
      if ball.y - BALL_RADIUS < 0.0 && !player3.isAlive {
        ball := ball.(dy := ball.dy * -1.0, y := BALL_RADIUS);
      }
      if ball.y + BALL_RADIUS > canvasHeight && !player4.isAlive {
        ball := ball.(dy := ball.dy * -1.0, y := canvasHeight - BALL_RADIUS);
      }
    }

    method HandleScoringClassic(m: MathLib, d: ServeDraws)
      requires Sound(m) && ValidServe(d) && ValidTuning(tuning)
      modifies this
      ensures State() == ScoringClassic(old(State()), m, d, tuning)
    {
      FlipAtWalls();
      ScoreGoal(m, d);
    }

    method FlipAtWalls()
      modifies this
      ensures State() == WallsFlipped(old(State()))
    {
      if ball.y - BALL_RADIUS < 0.0 || ball.y + BALL_RADIUS > canvasHeight {
        ball := ball.(dy := ball.dy * -1.0);
      }
    }

    method ScoreGoal(m: MathLib, d: ServeDraws)
      requires Sound(m) && ValidServe(d) && ValidTuning(tuning)
      modifies this
      ensures State() == ClassicGoal(old(State()), m, d, tuning)
    {
      var scorer := 0;
      if ball.x < 0.0 {
        score := score.(p2 := score.p2 + 1);
        scorer := 2;
      } else if ball.x > canvasWidth {
        score := score.(p1 := score.p1 + 1);
        scorer := 1;
      }
      if scorer != 0 {
        if score.p1 >= WINNING_SCORE || score.p2 >= WINNING_SCORE {
          EndGame(scorer);
        } else {
          gameState := Scored;
          ResetBall(m, d);
        }
      }
    }

    method LoseLife(playerNumber: int, m: MathLib, d: ServeDraws)
      requires 1 <= playerNumber <= 4
      requires Sound(m) && ValidServe(d) && ValidTuning(tuning)
      modifies this
      ensures State() == LifeTaken(old(State()), playerNumber, m, d, tuning)
    {
      ghost var s0 := State();
      gameState := Scored;
      score := WithLife(score, playerNumber, LifeOf(score, playerNumber) - 1);
      ghost var s1 := State();
      assert s1 == s0.(phase := Scored, score := WithLife(s0.score, playerNumber, LifeOf(s0.score, playerNumber) - 1));
      if LifeOf(score, playerNumber) <= 0 {
        Eliminate(playerNumber);
      }
      assert State() == LifeDeducted(s0, playerNumber);
      var playersAlive := AliveCount(State());
      if playersAlive <= 1 {
        EndGame(FirstPositive(score));
      } else {
        ResetBall(m, d);
      }
    }

    /** `player<k>.isAlive = false`. */
    method Eliminate(k: int)
      requires 1 <= k <= 4
      modifies this
      ensures State() == WithPaddle(old(State()), k, PaddleOf(old(State()), k).(isAlive := false))
    {
      if k == 1 {
        player1 := player1.(isAlive := false);
      } else if k == 2 {
        player2 := player2.(isAlive := false);
      } else if k == 3 {
        player3 := player3.(isAlive := false);
      } else {
        player4 := player4.(isAlive := false);
      }
    }

    method StartGame(m: MathLib, d: ServeDraws)
      requires Sound(m) && ValidServe(d) && ValidTuning(tuning)
      modifies this
      ensures State() == GameStarted(old(State()), m, d, tuning)
    {
      if gameState == Playing {
        return;
      }
      gameState := Playing;
      ResetBall(m, d);
    }

    method EndGame(w: int)
      modifies this
      ensures State() == GameEnded(old(State()), w)
    {
      gameState := GameOver;
      winner := w;
    }

    method StartButtonClick(m: MathLib, d: ServeDraws)
      requires Valid() && Sound(m) && ValidServe(d)
      modifies this
      ensures Valid() && State() == StartButton(old(State()), m, d, tuning)
    {
      StepPreservesInv(State(), tuning, StartClick(m, d));
      if gameState == Menu || gameState == GameOver {
        ResetGame();
        StartGame(m, d);
      }
    }

    method ServeTimerFires()
      requires Valid()
      modifies this
      ensures Valid() && State() == TimerFired(old(State()))
    {
      gameState := Playing;
    }

    method SelectMode(mode: GameMode)
      requires Valid()
      modifies this
      ensures Valid() && State() == GameReset(old(State()).(mode := mode), tuning)
    {
      gameMode := mode;
      ResetGame();
    }

    method SelectDifficulty(level: DifficultyLevel)
      requires Valid()
      modifies this
      ensures Valid() && State() == GameReset(old(State()).(difficulty := level), tuning)
    {
      difficulty := level;
      ResetGame();
    }

    method HandleKeyDown(key: string)
      requires Valid()
      modifies this
      ensures Valid() && State() == old(State()).(keys := PressKey(old(keysPressed), key))
    {
      keysPressed := keysPressed + {Keyboard.ToLower(key)};
    }

    method HandleKeyUp(key: string)
      requires Valid()
      modifies this
      ensures Valid() && State() == old(State()).(keys := ReleaseKey(old(keysPressed), key))
    {
      keysPressed := keysPressed - {Keyboard.ToLower(key)};
    }
  }
}
