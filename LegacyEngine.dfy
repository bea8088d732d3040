/** The game loop of the first React Pong page: the same two-paddle game as
    the hook version, with its own constants, an AI that moves at a fixed
    speed of 6, paddle hits that only reverse and speed up the ball
    (whatever its direction), and a serve that leaves the paddles where
    they are. */
module LegacyEngine {
  import opened RealMath
  import opened Optional
  import opened PongCommon
  import opened Keyboard
  import GameEngine

  const PADDLE_WIDTH: real := 10.0
  const PADDLE_HEIGHT: real := 100.0
  const BALL_RADIUS: real := 10.0
  const WINNING_SCORE: int := 3
  const PADDLE_SPEED: real := 8.0
  const INITIAL_BALL_SPEED: real := 5.0
  const ACCELERATION_FACTOR: real := 1.1
  /** The AI's own speed, fixed inside the loop. */
  const AI_SPEED: real := 6.0

  datatype Difficulty = Easy | Medium | Hard

  /** The page's difficulty table: the AI's dead zone. */
  function ErrorMargin(d: Difficulty): (m: real)
    ensures 0.0 < m <= 80.0
  {
    match d
    case Easy => 80.0
    case Medium => 50.0
    case Hard => 0.1
  }

  /** The levels from the easiest. */
  function Order(d: Difficulty): (n: nat)
    ensures n < 3
  {
    match d
    case Easy => 0
    case Medium => 1
    case Hard => 2
  }

  /** A harder level has a narrower dead zone. */
  lemma MarginsNarrow(a: Difficulty, b: Difficulty)
    requires Order(a) < Order(b)
    ensures ErrorMargin(a) > ErrorMargin(b)
  {
  }

  /** The canvas the loop draws on. */
  datatype Canvas = Canvas(width: real, height: real)

  /** The AI paddle's move: outside the dead zone it goes up by at most 6 or
      down by at most 6 towards the target. It is the generic dead-zone
      tracker at speed 6. */
  function AIMove(y: real, target: real, margin: real): (r: real)
    ensures r == AIStep(y, target, margin, AI_SPEED)
  {
    var deltaY := target - y;
    if Abs(deltaY) > margin then
      if deltaY > 0.0 then y + Min(AI_SPEED, deltaY)
      else if deltaY < 0.0 then y + Max(-AI_SPEED, deltaY)
      else y
    else y
  }

  /** `ball.dy = -ball.dy` when the ball overlaps the top or bottom edge. */
  function WallBounced(b: Ball, height: real): (r: Ball)
    ensures r.x == b.x && r.y == b.y && r.dx == b.dx
    ensures Abs(r.dy) == Abs(b.dy)
    ensures r != b ==> b.y + BALL_RADIUS > height || b.y - BALL_RADIUS < 0.0
    ensures (b.y + BALL_RADIUS > height || b.y - BALL_RADIUS < 0.0) && b.dy != 0.0 ==> r.dy == -b.dy
  {
    if b.y + BALL_RADIUS > height || b.y - BALL_RADIUS < 0.0 then b.(dy := -b.dy) else b
  }

  /** The ball's centre is strictly within a paddle's span. */
  predicate InSpan(b: Ball, p: GameEngine.Paddle)
  {
    p.y < b.y < p.y + PADDLE_HEIGHT
  }

  /** A horizontal speed reversed and sped up by the acceleration factor. */
  function Reversed(dx: real): (r: real)
    ensures dx > 0.0 ==> r < 0.0
    ensures dx < 0.0 ==> r > 0.0
    ensures Abs(r) == Abs(dx) * ACCELERATION_FACTOR
  {
    FlipSign(dx, ACCELERATION_FACTOR);
    dx * -ACCELERATION_FACTOR
  }

  /** The first paddle's test: a ball overlapping the paddle column within
      the paddle's span has its horizontal speed reversed, whichever way it
      was going; the vertical speed is kept. */
  function HitFirst(b: Ball, p1: GameEngine.Paddle): (r: Ball)
    ensures r.x == b.x && r.y == b.y && r.dy == b.dy
    ensures b.x - BALL_RADIUS < PADDLE_WIDTH && InSpan(b, p1) ==> r.dx == Reversed(b.dx)
    ensures !(b.x - BALL_RADIUS < PADDLE_WIDTH && InSpan(b, p1)) ==> r == b
  {
    if b.x - BALL_RADIUS < PADDLE_WIDTH && b.y > p1.y && b.y < p1.y + PADDLE_HEIGHT then
      b.(dx := Reversed(b.dx))
    else b
  }

  /** The second paddle's test, at the right edge. */
  function HitSecond(b: Ball, p2: GameEngine.Paddle, width: real): (r: Ball)
    ensures r.x == b.x && r.y == b.y && r.dy == b.dy
    ensures b.x + BALL_RADIUS > width - PADDLE_WIDTH && InSpan(b, p2) ==> r.dx == Reversed(b.dx)
    ensures !(b.x + BALL_RADIUS > width - PADDLE_WIDTH && InSpan(b, p2)) ==> r == b
  {
    if b.x + BALL_RADIUS > width - PADDLE_WIDTH && b.y > p2.y && b.y < p2.y + PADDLE_HEIGHT then
      b.(dx := Reversed(b.dx))
    else b
  }

  /** A ball that has already turned away from the first paddle but still
      overlaps it is turned back towards the wall: the hit test does not
      look at the direction of travel. */
  lemma {:induction false} HitIgnoresDirection(b: Ball, p1: GameEngine.Paddle)
    requires b.dx > 0.0 && b.x - BALL_RADIUS < PADDLE_WIDTH && InSpan(b, p1)
    ensures HitFirst(b, p1).dx < 0.0 && Abs(HitFirst(b, p1).dx) > Abs(b.dx)
  {
    assert Abs(b.dx) * ACCELERATION_FACTOR > Abs(b.dx);
  }

  /** The page's `resetBall`: the ball back at the centre, serving against
      its last horizontal direction, up or down as the coin falls. */
  function ServedBall(b: Ball, width: real, height: real, coin: real): (r: Ball)
    ensures r.x == width / 2.0 && r.y == height / 2.0
    ensures b.dx > 0.0 ==> r.dx < 0.0
    ensures b.dx <= 0.0 ==> r.dx > 0.0
    ensures Abs(r.dx) == INITIAL_BALL_SPEED && Abs(r.dy) == INITIAL_BALL_SPEED
  {
    Ball(width / 2.0, height / 2.0,
         if b.dx > 0.0 then -INITIAL_BALL_SPEED else INITIAL_BALL_SPEED,
         INITIAL_BALL_SPEED * (if coin > 0.5 then 1.0 else -1.0))
  }

  /** The objects the initialisation effect creates for a canvas. */
  function Created(canvas: Canvas): (o: GameEngine.Objects)
    ensures o.ball.x == canvas.width / 2.0 && o.ball.y == canvas.height / 2.0
    ensures o.ball.dx == INITIAL_BALL_SPEED && o.ball.dy == INITIAL_BALL_SPEED
    ensures o.player1.x == 0.0 && o.player2.x == canvas.width - PADDLE_WIDTH
    ensures o.player1.y == o.player2.y && o.player1.y + PADDLE_HEIGHT / 2.0 == canvas.height / 2.0
  {
    GameEngine.Objects(Ball(canvas.width / 2.0, canvas.height / 2.0, INITIAL_BALL_SPEED, INITIAL_BALL_SPEED),
            GameEngine.Paddle(0.0, canvas.height / 2.0 - PADDLE_HEIGHT / 2.0),
            GameEngine.Paddle(canvas.width - PADDLE_WIDTH, canvas.height / 2.0 - PADDLE_HEIGHT / 2.0))
  }

  /** The paddles after a frame's input (the ball has already moved). */
  function PaddlesMoved(o: GameEngine.Objects, p: GameEngine.Props, height: real): (r: GameEngine.Objects)
    ensures r.ball == o.ball && r.player1.x == o.player1.x && r.player2.x == o.player2.x
    ensures PADDLE_HEIGHT <= height ==>
      0.0 <= r.player1.y <= height - PADDLE_HEIGHT && 0.0 <= r.player2.y <= height - PADDLE_HEIGHT
    ensures r.player1.y == Clamp(GameEngine.Steered(o.player1.y, p.movementP1, PADDLE_SPEED), 0.0, height - PADDLE_HEIGHT)
    ensures p.isOnePlayerMode ==>
      r.player2.y == Clamp(AIStep(o.player2.y, o.ball.y - PADDLE_HEIGHT / 2.0, p.errorMargin, AI_SPEED),
                           0.0, height - PADDLE_HEIGHT)
    ensures !p.isOnePlayerMode ==>
      r.player2.y == Clamp(GameEngine.Steered(o.player2.y, p.movementP2, PADDLE_SPEED), 0.0, height - PADDLE_HEIGHT)
  {
    var y1 := GameEngine.Steered(o.player1.y, p.movementP1, PADDLE_SPEED);
    var y2 := if p.isOnePlayerMode then AIMove(o.player2.y, o.ball.y - PADDLE_HEIGHT / 2.0, p.errorMargin)
              else GameEngine.Steered(o.player2.y, p.movementP2, PADDLE_SPEED);
    o.(player1 := o.player1.(y := Clamp(y1, 0.0, height - PADDLE_HEIGHT)),
       player2 := o.player2.(y := Clamp(y2, 0.0, height - PADDLE_HEIGHT)))
  }

  /** The objects after the physics of a frame, before scoring. */
  function Moved(o: GameEngine.Objects, p: GameEngine.Props, canvas: Canvas): (r: GameEngine.Objects)
    ensures PADDLE_HEIGHT <= canvas.height ==>
      0.0 <= r.player1.y <= canvas.height - PADDLE_HEIGHT && 0.0 <= r.player2.y <= canvas.height - PADDLE_HEIGHT
    ensures r.player1.x == o.player1.x && r.player2.x == o.player2.x
  {
    var b := o.ball.(x := o.ball.x + o.ball.dx, y := o.ball.y + o.ball.dy);
    var o1 := PaddlesMoved(o.(ball := b), p, canvas.height);
    var b1 := WallBounced(o1.ball, canvas.height);
    o1.(ball := HitSecond(HitFirst(b1, o1.player1), o1.player2, canvas.width))
  }

  /** `Moved` as the sequence of its steps. */
  lemma MovedUnfolds(o: GameEngine.Objects, p: GameEngine.Props, canvas: Canvas, o0: GameEngine.Objects, o1: GameEngine.Objects)
    requires o0 == o.(ball := o.ball.(x := o.ball.x + o.ball.dx, y := o.ball.y + o.ball.dy))
    requires o1 == PaddlesMoved(o0, p, canvas.height)
    ensures Moved(o, p, canvas) ==
      o1.(ball := HitSecond(HitFirst(WallBounced(o1.ball, canvas.height), o1.player1), o1.player2, canvas.width))
  {
  }

  /** The scoring part of a frame: the point goes to the side the ball left
      by; a new score of exactly 3 names the winner, any other point serves
      again with the paddles left in place. */
  function Scoring(o: GameEngine.Objects, p: GameEngine.Props, canvas: Canvas, coin: real): (r: GameEngine.Outcome)
    ensures !(r.score.player1 != p.score.player1 && r.score.player2 != p.score.player2)
    ensures r.score.player2 != p.score.player2 <==> o.ball.x - BALL_RADIUS < 0.0
    ensures r.score.player1 != p.score.player1 <==>
      o.ball.x - BALL_RADIUS >= 0.0 && o.ball.x + BALL_RADIUS > canvas.width
    ensures r.score.player1 == p.score.player1 || r.score.player1 == p.score.player1 + 1
    ensures r.score.player2 == p.score.player2 || r.score.player2 == p.score.player2 + 1
    ensures r.score.player2 != p.score.player2 && r.score.player2 == WINNING_SCORE ==>
      r.objects == o && r.winner == Some(if p.isOnePlayerMode then GameEngine.AI_WINS else GameEngine.PLAYER2_WINS)
    ensures r.score.player1 != p.score.player1 && r.score.player1 == WINNING_SCORE ==>
      r.objects == o && r.winner == Some(GameEngine.PLAYER1_WINS)
    ensures (r.score.player2 != p.score.player2 && r.score.player2 != WINNING_SCORE) ||
            (r.score.player1 != p.score.player1 && r.score.player1 != WINNING_SCORE) ==>
      r.objects == o.(ball := ServedBall(o.ball, canvas.width, canvas.height, coin)) && r.winner == p.winner
    ensures r.score == p.score ==> r.objects == o && r.winner == p.winner
  {
    if o.ball.x - BALL_RADIUS < 0.0 then
      var newScoreP2 := p.score.player2 + 1;
      var score := p.score.(player2 := newScoreP2);
      if newScoreP2 == WINNING_SCORE then
        GameEngine.Outcome(o, score, Some(if p.isOnePlayerMode then GameEngine.AI_WINS else GameEngine.PLAYER2_WINS))
      else GameEngine.Outcome(o.(ball := ServedBall(o.ball, canvas.width, canvas.height, coin)), score, p.winner)
    else if o.ball.x + BALL_RADIUS > canvas.width then
      var newScoreP1 := p.score.player1 + 1;
      var score := p.score.(player1 := newScoreP1);
      if newScoreP1 == WINNING_SCORE then GameEngine.Outcome(o, score, Some(GameEngine.PLAYER1_WINS))
      else GameEngine.Outcome(o.(ball := ServedBall(o.ball, canvas.width, canvas.height, coin)), score, p.winner)
    else GameEngine.Outcome(o, p.score, p.winner)
  }

  /** One call of the page's `gameLoop` on created objects: nothing while
      paused, after a win or without a canvas. */
  function Frame(o: GameEngine.Objects, p: GameEngine.Props, canvas: Option<Canvas>, coin: real): (r: GameEngine.Outcome)
    ensures p.isPaused || GameEngine.Truthy(p.winner) || canvas.None? ==> r == GameEngine.Outcome(o, p.score, p.winner)
    ensures !(p.isPaused || GameEngine.Truthy(p.winner) || canvas.None?) && PADDLE_HEIGHT <= canvas.value.height ==>
      0.0 <= r.objects.player1.y <= canvas.value.height - PADDLE_HEIGHT &&
      0.0 <= r.objects.player2.y <= canvas.value.height - PADDLE_HEIGHT
  {
    if p.isPaused || GameEngine.Truthy(p.winner) || canvas.None? then GameEngine.Outcome(o, p.score, p.winner)
    else Scoring(Moved(o, p, canvas.value), p, canvas.value, coin)
  }

  /** The paddles never move sideways, whatever the frame does. */
  lemma {:induction false} FrameKeepsPaddleColumns(o: GameEngine.Objects, p: GameEngine.Props, canvas: Option<Canvas>, coin: real)
    ensures Frame(o, p, canvas, coin).objects.player1.x == o.player1.x
    ensures Frame(o, p, canvas, coin).objects.player2.x == o.player2.x
  {
    if !(p.isPaused || GameEngine.Truthy(p.winner) || canvas.None?) {
      var m := Moved(o, p, canvas.value);
      var r := Scoring(m, p, canvas.value, coin);
      assert r.objects == m || r.objects == m.(ball := ServedBall(m.ball, canvas.value.width, canvas.value.height, coin));
    }
  }

  /** The page's `gameObjects` reference. */
  class GameObjects {
    var created: bool
    var ball: Ball
    var player1: GameEngine.Paddle
    var player2: GameEngine.Paddle

    function Snapshot(): GameEngine.Objects
      reads this
    {
      GameEngine.Objects(ball, player1, player2)
    }

    constructor ()
      ensures !created
    {
      created := false;
      ball := Ball(0.0, 0.0, 0.0, 0.0);
      player1, player2 := GameEngine.Paddle(0.0, 0.0), GameEngine.Paddle(0.0, 0.0);
    }

    /** The initialisation effect: the objects are created once, when a
        canvas exists. */
    method Initialize(canvas: Option<Canvas>)
      modifies this
      ensures created == (old(created) || canvas.Some?)
      ensures !old(created) && canvas.Some? ==> Snapshot() == Created(canvas.value)
      ensures old(created) || canvas.None? ==> Snapshot() == old(Snapshot())
    {
      if !created && canvas.Some? {
        var w, h := canvas.value.width, canvas.value.height;
        ball := Ball(w / 2.0, h / 2.0, INITIAL_BALL_SPEED, INITIAL_BALL_SPEED);
        player1 := GameEngine.Paddle(0.0, h / 2.0 - PADDLE_HEIGHT / 2.0);
        player2 := GameEngine.Paddle(w - PADDLE_WIDTH, h / 2.0 - PADDLE_HEIGHT / 2.0);
        created := true;
      }
    }

    /** `resetBall`: only the ball is replaced. */
    method ResetBall(canvas: Canvas, coin: real)
      modifies this
      ensures created == old(created)
      ensures created ==> Snapshot() == old(Snapshot()).(ball := ServedBall(old(ball), canvas.width, canvas.height, coin))
      ensures !created ==> Snapshot() == old(Snapshot())
    {
      if created {
        var currentDx := ball.dx;
        ball := Ball(canvas.width / 2.0, canvas.height / 2.0,
                     if currentDx > 0.0 then -INITIAL_BALL_SPEED else INITIAL_BALL_SPEED,
                     INITIAL_BALL_SPEED * (if coin > 0.5 then 1.0 else -1.0));
      }
    }

    /** `gameLoop`, which dereferences the objects unconditionally once it
        is past the pause test, so they must exist. */
    method GameLoop(p: GameEngine.Props, canvas: Option<Canvas>, coin: real) returns (score: GameEngine.Score, winner: Option<string>)
      requires created || p.isPaused || GameEngine.Truthy(p.winner)
      modifies this
      ensures created == old(created)
      ensures GameEngine.Outcome(Snapshot(), score, winner) == Frame(old(Snapshot()), p, canvas, coin)
    {
      score, winner := p.score, p.winner;
      if p.isPaused || GameEngine.Truthy(p.winner) {
        return;
      }
      if canvas.None? {
        return;
      }
      Advance(p, canvas.value);
      score, winner := CheckScore(p, canvas.value, coin);
    }

    /** The physics of a frame. */
    method Advance(p: GameEngine.Props, canvas: Canvas)
      modifies this
      ensures created == old(created)
      ensures Snapshot() == Moved(old(Snapshot()), p, canvas)
    {
      ghost var o := Snapshot();
      ball := ball.(x := ball.x + ball.dx);
      ball := ball.(y := ball.y + ball.dy);
      ghost var o0 := Snapshot();
      MoveFirst(p, canvas.height);
      MoveSecond(p, canvas.height);
      assert Snapshot() == PaddlesMoved(o0, p, canvas.height);
      ghost var o1 := Snapshot();
      if ball.y + BALL_RADIUS > canvas.height || ball.y - BALL_RADIUS < 0.0 {
        ball := ball.(dy := -ball.dy);
      }
      assert ball == WallBounced(o1.ball, canvas.height);
      Hit(canvas.width);
      MovedUnfolds(o, p, canvas, o0, o1);
    }

    /** The first paddle by the first player's keys. */
    method MoveFirst(p: GameEngine.Props, height: real)
      modifies this
      ensures created == old(created) && ball == old(ball) && player2 == old(player2)
      ensures player1 == old(player1).(y :=
        Clamp(GameEngine.Steered(old(player1.y), p.movementP1, PADDLE_SPEED), 0.0, height - PADDLE_HEIGHT))
    {
      if p.movementP1 == Up {
        player1 := player1.(y := player1.y - PADDLE_SPEED);
      } else if p.movementP1 == Down {
        player1 := player1.(y := player1.y + PADDLE_SPEED);
      }
      player1 := player1.(y := Max(0.0, Min(player1.y, height - PADDLE_HEIGHT)));
    }

    /** Both paddle tests, first then second. */
    method Hit(width: real)
      modifies this
      ensures created == old(created) && player1 == old(player1) && player2 == old(player2)
      ensures ball == HitSecond(HitFirst(old(ball), player1), player2, width)
    {
      if ball.x - BALL_RADIUS < PADDLE_WIDTH && ball.y > player1.y && ball.y < player1.y + PADDLE_HEIGHT {
        ball := ball.(dx := ball.dx * -ACCELERATION_FACTOR);
      }
      assert ball == HitFirst(old(ball), player1);
      if ball.x + BALL_RADIUS > width - PADDLE_WIDTH && ball.y > player2.y && ball.y < player2.y + PADDLE_HEIGHT {
        ball := ball.(dx := ball.dx * -ACCELERATION_FACTOR);
      }
    }

    /** The second paddle: the AI at speed 6 or the second player's keys. */
    method MoveSecond(p: GameEngine.Props, height: real)
      modifies this
      ensures created == old(created) && ball == old(ball) && player1 == old(player1)
      ensures p.isOnePlayerMode ==> player2 == old(player2).(y :=
        Clamp(AIMove(old(player2.y), old(ball.y) - PADDLE_HEIGHT / 2.0, p.errorMargin), 0.0, height - PADDLE_HEIGHT))
      ensures !p.isOnePlayerMode ==> player2 == old(player2).(y :=
        Clamp(GameEngine.Steered(old(player2.y), p.movementP2, PADDLE_SPEED), 0.0, height - PADDLE_HEIGHT))
    {
      if p.isOnePlayerMode {
        var targetY := ball.y - PADDLE_HEIGHT / 2.0;
        var deltaY := targetY - player2.y;
        if Abs(deltaY) > p.errorMargin {
          if deltaY > 0.0 {
            player2 := player2.(y := player2.y + Min(AI_SPEED, deltaY));
          } else if deltaY < 0.0 {
            player2 := player2.(y := player2.y + Max(-AI_SPEED, deltaY));
          }
        }
      } else {
        if p.movementP2 == Up {
          player2 := player2.(y := player2.y - PADDLE_SPEED);
        } else if p.movementP2 == Down {
          player2 := player2.(y := player2.y + PADDLE_SPEED);
        }
      }
      player2 := player2.(y := Max(0.0, Min(player2.y, height - PADDLE_HEIGHT)));
    }

    method CheckScore(p: GameEngine.Props, canvas: Canvas, coin: real) returns (score: GameEngine.Score, winner: Option<string>)
      requires created
      modifies this
      ensures created
      ensures GameEngine.Outcome(Snapshot(), score, winner) == Scoring(old(Snapshot()), p, canvas, coin)
    {
      score, winner := p.score, p.winner;
      if ball.x - BALL_RADIUS < 0.0 {
        var newScoreP2 := p.score.player2 + 1;
        score := score.(player2 := newScoreP2);
        if newScoreP2 == WINNING_SCORE {
          winner := Some(if p.isOnePlayerMode then GameEngine.AI_WINS else GameEngine.PLAYER2_WINS);
        } else {
          ResetBall(canvas, coin);
        }
      } else if ball.x + BALL_RADIUS > canvas.width {
        var newScoreP1 := p.score.player1 + 1;
        score := score.(player1 := newScoreP1);
        if newScoreP1 == WINNING_SCORE {
          winner := Some(GameEngine.PLAYER1_WINS);
        } else {
          ResetBall(canvas, coin);
        }
      }
    }
  }
}
