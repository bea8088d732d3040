/** What the Pong engines share: the phase machine, the ball record, the
    AI's dead-zone tracker, the table of held keys and the floating-point
    library calls the bounce uses. */
module PongCommon {
  import opened RealMath
  import Keyboard
  import opened Constants

  /** `gameState`: 'MENU' | 'PLAYING' | 'SCORED' | 'GAME_OVER'. */
  datatype Phase = Menu | Playing | Scored | GameOver

  datatype Ball = Ball(x: real, y: real, dx: real, dy: real)

  /** `Math.sqrt`, `Math.cos`, `Math.sin` and `Math.PI / 4`. The engines
      only rely on the facts `Sound` lists. */
  datatype MathLib = MathLib(sqrt: real -> real, cos: real -> real, sin: real -> real, quarterPi: real)

  /** Below pi / 2, so the cosine is positive on [-1.5, 1.5]. */
  const COS_POSITIVE_BOUND: real := 1.5

  ghost predicate Sound(m: MathLib)
  {
    0.785 < m.quarterPi < 0.786 &&
    (forall v :: v >= 0.0 ==> m.sqrt(v) >= 0.0) &&
    (forall v :: v > 0.0 ==> m.sqrt(v) > 0.0) &&
    (forall a :: -1.0 <= m.cos(a) <= 1.0) &&
    (forall a :: -1.0 <= m.sin(a) <= 1.0) &&
    (forall a :: m.cos(a) * m.cos(a) + m.sin(a) * m.sin(a) == 1.0) &&
    (forall a :: -COS_POSITIVE_BOUND <= a <= COS_POSITIVE_BOUND ==> m.cos(a) > 0.0)
  }

  /** The bounce speed: the current speed times the acceleration factor,
      capped at `maxBallSpeed`. */
  function BounceSpeed(b: Ball, m: MathLib, maxBallSpeed: real): (speed: real)
    requires Sound(m) && maxBallSpeed > 0.0
    ensures 0.0 <= speed <= maxBallSpeed
  {
    SumSquaresNonNegative(b.dx, b.dy);
    Min(m.sqrt(b.dx * b.dx + b.dy * b.dy) * ACCELERATION_FACTOR, maxBallSpeed)
  }

  /** A ball that moves horizontally leaves a bounce with a positive speed. */
  lemma {:induction false} BounceSpeedPositive(b: Ball, m: MathLib, maxBallSpeed: real)
    requires Sound(m) && maxBallSpeed > 0.0 && b.dx != 0.0
    ensures BounceSpeed(b, m, maxBallSpeed) > 0.0
  {
    SumSquaresPositive(b.dx, b.dy);
  }

  /** The AI paddle's step toward `target`: nothing inside the dead zone
      `margin`, otherwise `Math.sign(delta) * Math.min(speed, |delta|)`. */
  function AIStep(y: real, target: real, margin: real, speed: real): (r: real)
    requires speed >= 0.0
    ensures Abs(target - y) <= margin ==> r == y
    ensures Abs(target - y) > margin ==>
      Abs(target - r) == Abs(target - y) - Min(speed, Abs(target - y))
    ensures y <= r <= target || target <= r <= y
    ensures Abs(r - y) <= speed
  {
    var delta := target - y;
    if Abs(delta) > margin then y + Sign(delta) * Min(speed, Abs(delta)) else y
  }

  /** The AI never passes its target: once inside the dead zone it stays
      put, and outside it the distance shrinks by exactly one step or to 0. */
  lemma AIStepReachesOrApproaches(y: real, target: real, margin: real, speed: real)
    requires speed >= 0.0 && margin >= 0.0 && Abs(target - y) > margin
    ensures Abs(target - y) <= speed ==> AIStep(y, target, margin, speed) == target
    ensures Abs(target - y) > speed ==> Abs(target - AIStep(y, target, margin, speed)) == Abs(target - y) - speed
  {
  }

  /** `keysPressed`: the keys whose entry is true. */
  function PressKey(keys: set<string>, key: string): (r: set<string>)
    ensures Keyboard.ToLower(key) in r && r - {Keyboard.ToLower(key)} == keys - {Keyboard.ToLower(key)}
  {
    keys + {Keyboard.ToLower(key)}
  }

  function ReleaseKey(keys: set<string>, key: string): (r: set<string>)
    ensures Keyboard.ToLower(key) !in r && r + {Keyboard.ToLower(key)} == keys + {Keyboard.ToLower(key)}
  {
    keys - {Keyboard.ToLower(key)}
  }

  /** `(keysPressed[plus] ? speed : 0) - (keysPressed[minus] ? speed : 0)`:
      both keys held cancel out. */
  function OpposedVelocity(keys: set<string>, minus: string, plus: string, speed: real): (v: real)
    requires speed > 0.0
    ensures v == speed <==> plus in keys && minus !in keys
    ensures v == -speed <==> minus in keys && plus !in keys
    ensures v == 0.0 <==> (plus in keys <==> minus in keys)
  {
    (if plus in keys then speed else 0.0) - (if minus in keys then speed else 0.0)
  }
}
