/** Per-frame rules of the Pong game: paddle clamping, the computer's pursuit,
    ball motion and wall bounces, paddle hits, misses and serves.
    Coordinates are reals: y grows downwards, the field is [0, W] x [0, H]. */
module Rules {

  const PI: real := 3.141592653589793
  const PADDLE_WIDTH: real := 12.0
  const PADDLE_HEIGHT: real := 90.0
  const PADDLE_MARGIN: real := 10.0
  const BALL_RADIUS: real := 8.0
  const PLAYER_SPEED: real := 6.0
  const COMPUTER_SPEED: real := 4.0
  const MAX_SPEED: real := 12.0
  const SPEED_INCREASE: real := 0.25
  const MAX_BOUNCE_ANGLE: real := 5.0 * PI / 12.0

  /** The host's Math.cos, Math.sin, Math.hypot and the stream of Math.random
      results (the i-th call returns random(i)). */
  datatype Host = Host(cos: real -> real, sin: real -> real,
                       hypot: (real, real) -> real, random: nat -> real)
  {
    /** The only facts about the host functions the model relies on. */
    ghost predicate Valid() {
      && (forall i: nat :: 0.0 <= random(i) < 1.0)
      && (forall a :: cos(a) * cos(a) + sin(a) * sin(a) == 1.0)
      && (forall a :: -PI / 2.0 < a < PI / 2.0 ==> 0.0 < cos(a))
      && (forall a :: 0.0 < a < PI ==> 0.0 < sin(a))
      && (forall a :: -PI < a < 0.0 ==> sin(a) < 0.0)
      && cos(0.0) == 1.0 && sin(0.0) == 0.0
      && (forall x, y :: 0.0 <= hypot(x, y) && hypot(x, y) * hypot(x, y) == x * x + y * y)
    }
  }

  /** A paddle: x is fixed per side, y is the top edge. */
  datatype Paddle = Paddle(x: real, y: real, width: real, height: real, speed: real)

  datatype Ball = Ball(x: real, y: real, radius: real, speed: real, vx: real, vy: real)

  /** Which paddle was hit: the player's is on the left, the computer's on the right. */
  datatype Side = Left | Right

  /** Everything `update` reads or writes. `draws` counts the Math.random calls made so far. */
  datatype World = World(player: Paddle, playerDy: real, computer: Paddle, ball: Ball,
                         playerScore: nat, computerScore: nat, draws: nat)

  function Abs(x: real): real { if x < 0.0 then -x else x }

  function Sign(x: real): int { if x < 0.0 then -1 else if x > 0.0 then 1 else 0 }

  // ---------------------------------------------------------------- paddles

  /** The clamp applied after every paddle move: top edge first, then bottom edge. */
  function ClampY(y: real, h: real, fieldHeight: real): (r: real)
    ensures h <= fieldHeight ==> 0.0 <= r <= fieldHeight - h
    ensures 0.0 <= y <= fieldHeight - h ==> r == y
    ensures h <= fieldHeight && y < 0.0 ==> r == 0.0
    ensures y > fieldHeight - h ==> r == fieldHeight - h
    ensures r == y || r == 0.0 || r == fieldHeight - h
  {
    var top := if y < 0.0 then 0.0 else y;
    if top + h > fieldHeight then fieldHeight - h else top
  }

  /** The player paddle's keyboard move: y += dy, then clamp. */
  function MovePlayer(p: Paddle, dy: real, fieldHeight: real): (r: Paddle)
    ensures r == p.(y := r.y)
    ensures p.height <= fieldHeight ==> 0.0 <= r.y <= fieldHeight - p.height
    ensures 0.0 <= p.y + dy <= fieldHeight - p.height ==> r.y == p.y + dy
  {
    p.(y := ClampY(p.y + dy, p.height, fieldHeight))
  }

  /** The pointer handler: centre the paddle on the pointer, then clamp. */
  function PointAt(p: Paddle, pointerY: real, fieldHeight: real): (r: Paddle)
    ensures r == p.(y := r.y)
    ensures p.height <= fieldHeight ==> 0.0 <= r.y <= fieldHeight - p.height
    ensures 0.0 <= pointerY - p.height / 2.0 <= fieldHeight - p.height
            ==> r.y + p.height / 2.0 == pointerY
  {
    p.(y := ClampY(pointerY - p.height / 2.0, p.height, fieldHeight))
  }

  /** Constant-speed pursuit: one step of at most maxMove towards target,
      landing exactly on target when it is within one step. */
  function Pursue(y: real, target: real, maxMove: real): (r: real)
    ensures Abs(target - y) <= maxMove ==> r == target
    ensures 0.0 <= maxMove < Abs(target - y)
            ==> Abs(r - y) == maxMove && Abs(target - r) == Abs(target - y) - maxMove
    ensures 0.0 <= maxMove ==> Abs(r - y) <= maxMove && Abs(target - r) <= Abs(target - y)
  {
    var diff := target - y;
    if Abs(diff) > maxMove then y + (if diff > 0.0 then maxMove else -maxMove)
    else target
  }

  /** The computer paddle aims its centre at the ball's centre, then is clamped. */
  function ChaseBall(c: Paddle, ballY: real, fieldHeight: real): (r: Paddle)
    ensures r == c.(y := r.y)
    ensures c.height <= fieldHeight ==> 0.0 <= r.y <= fieldHeight - c.height
    ensures var step := Pursue(c.y, ballY - c.height / 2.0, c.speed);
            0.0 <= step <= fieldHeight - c.height ==> r.y == step
  {
    c.(y := ClampY(Pursue(c.y, ballY - c.height / 2.0, c.speed), c.height, fieldHeight))
  }

  // ---------------------------------------------------------------- ball and walls

  /** The ball moves by its velocity, then bounces off the top and bottom walls. */
  function StepBall(b: Ball, fieldHeight: real): (r: Ball)
    ensures r.x == b.x + b.vx && r.vx == b.vx
    ensures r.radius == b.radius && r.speed == b.speed
    ensures r.vy == b.vy || r.vy == -b.vy
    ensures b.radius <= b.y + b.vy <= fieldHeight - b.radius ==> r.y == b.y + b.vy && r.vy == b.vy
    ensures 2.0 * b.radius <= fieldHeight ==>
            && b.radius <= r.y <= fieldHeight - b.radius
            && (b.y + b.vy - b.radius < 0.0 ==> r.y == b.radius && r.vy == -b.vy)
            && (b.y + b.vy + b.radius > fieldHeight ==> r.y == fieldHeight - b.radius && r.vy == -b.vy)
  {
    var moved := b.(x := b.x + b.vx, y := b.y + b.vy);
    var top := if moved.y - moved.radius < 0.0 then moved.(y := moved.radius, vy := -moved.vy) else moved;
    if top.y + top.radius > fieldHeight then top.(y := fieldHeight - top.radius, vy := -top.vy) else top
  }

  // ---------------------------------------------------------------- paddle hits

  /** Offset of the ball's centre from the paddle's centre, scaled so that the
      paddle's top edge gives 1 and its bottom edge gives -1. */
  function NormalizedOffset(p: Paddle, ballY: real): (n: real)
    requires p.height > 0.0
    ensures p.y <= ballY <= p.y + p.height ==> -1.0 <= n <= 1.0
    ensures ballY == p.y + p.height / 2.0 ==> n == 0.0
    ensures ballY == p.y ==> n == 1.0
    ensures ballY == p.y + p.height ==> n == -1.0
    ensures 0.0 < n <==> ballY < p.y + p.height / 2.0
    ensures n < 0.0 <==> ballY > p.y + p.height / 2.0
  {
    var half := p.height / 2.0;
    var relativeIntersectY := (p.y + half) - ballY;
    var n := relativeIntersectY / half;
    assert n * half == relativeIntersectY;
    n
  }

  /** The outgoing angle: the offset times the 75 degree maximum (5*pi/12 radians). */
  function BounceAngle(n: real): (a: real)
    ensures -1.0 <= n <= 1.0 ==> -MAX_BOUNCE_ANGLE <= a <= MAX_BOUNCE_ANGLE
    ensures n == 0.0 ==> a == 0.0
    ensures n == 1.0 ==> a == MAX_BOUNCE_ANGLE
    ensures 0.0 < n <==> 0.0 < a
    ensures n < 0.0 <==> a < 0.0
  {
    n * MAX_BOUNCE_ANGLE
  }

  /** The per-hit speed ratchet: 0.25 faster than the incoming ball, capped at 12. */
  function HitSpeed(incoming: real): (s: real)
    ensures s <= MAX_SPEED
    ensures 0.0 <= incoming ==> SPEED_INCREASE <= s
    ensures incoming <= MAX_SPEED ==> incoming <= s
    ensures incoming + SPEED_INCREASE <= MAX_SPEED ==> s == incoming + SPEED_INCREASE
    ensures MAX_SPEED <= incoming + SPEED_INCREASE ==> s == MAX_SPEED
  {
    if MAX_SPEED < incoming + SPEED_INCREASE then MAX_SPEED else incoming + SPEED_INCREASE
  }

  /** The direction factor: the left paddle sends the ball right, the right one left. */
  function Direction(side: Side): (d: real)
    ensures d * d == 1.0
    ensures side == Left <==> d > 0.0
  {
    if side == Left then 1.0 else -1.0
  }

  /** reflectBallFromPaddle: a new velocity from the hit offset and the ratcheted speed. */
  function Reflect(b: Ball, p: Paddle, side: Side, host: Host): (r: Ball)
    requires p.height > 0.0
    ensures r.x == b.x && r.y == b.y && r.radius == b.radius
    ensures r.speed <= MAX_SPEED
  {
    var angle := BounceAngle(NormalizedOffset(p, b.y));
    var speed := HitSpeed(host.hypot(b.vx, b.vy));
    b.(speed := speed,
       vx := Direction(side) * speed * host.cos(angle),
       vy := -speed * host.sin(angle))
  }

  // ---------------------------------------------------------------- serve

  predicate Forced(direction: int) { direction == -1 || direction == 1 }

  /** The serve direction: a forced -1 or 1 is kept, anything else is a coin flip. */
  function ServeDirection(direction: int, coin: real): (d: int)
    ensures d == -1 || d == 1
    ensures Forced(direction) ==> d == direction
    ensures !Forced(direction) ==> (d == -1 <==> coin < 0.5)
  {
    if Forced(direction) then direction else if coin < 0.5 then -1 else 1
  }

  function ServeSpeed(r: real): (s: real)
    ensures 0.0 <= r < 1.0 ==> 5.0 <= s < 7.0
  {
    5.0 + r * 2.0
  }

  /** The launch angle, between -22.5 and +22.5 degrees. */
  function ServeAngle(r: real): (a: real)
    ensures 0.0 <= r < 1.0 ==> -PI / 8.0 <= a < PI / 8.0
  {
    r * PI / 4.0 - PI / 8.0
  }

  /** resetBall(direction): re-centre the ball and launch it. A forced direction
      costs two random draws (speed, angle), a random one three. */
  function Serve(w: World, direction: int, fieldWidth: real, fieldHeight: real, host: Host): (r: World)
    ensures r == w.(ball := r.ball, draws := r.draws)
    ensures r.ball.x == fieldWidth / 2.0 && r.ball.y == fieldHeight / 2.0
    ensures r.ball.radius == w.ball.radius
    ensures r.draws == w.draws + if Forced(direction) then 2 else 3
  {
    var dir := ServeDirection(direction, host.random(w.draws));
    var k := if Forced(direction) then w.draws else w.draws + 1;
    var speed := ServeSpeed(host.random(k));
    var angle := ServeAngle(host.random(k + 1));
    w.(ball := w.ball.(x := fieldWidth / 2.0, y := fieldHeight / 2.0, speed := speed,
                       vx := dir as real * speed * host.cos(angle),
                       vy := speed * host.sin(angle)),
       draws := k + 2)
  }

  // ---------------------------------------------------------------- paddle tests

  /** The ball's left edge is at or past the player paddle's face. */
  predicate ReachesLeft(b: Ball, p: Paddle) { b.x - b.radius <= p.x + p.width }

  /** The ball's right edge is at or past the computer paddle's face. */
  predicate ReachesRight(b: Ball, p: Paddle) { b.x + b.radius >= p.x }

  /** The ball's centre is within the paddle's vertical span. */
  predicate WithinSpan(b: Ball, p: Paddle) { b.y >= p.y && b.y <= p.y + p.height }

  predicate PastLeftEdge(b: Ball) { b.x - b.radius < 0.0 }

  predicate PastRightEdge(b: Ball, fieldWidth: real) { b.x + b.radius > fieldWidth }

  predicate LeftMiss(w: World) {
    ReachesLeft(w.ball, w.player) && !WithinSpan(w.ball, w.player) && PastLeftEdge(w.ball)
  }

  predicate RightMiss(w: World, fieldWidth: real) {
    ReachesRight(w.ball, w.computer) && !WithinSpan(w.ball, w.computer) && PastRightEdge(w.ball, fieldWidth)
  }

  /** The player paddle test: a hit pushes the ball out and reflects it,
      a miss scores for the computer and serves to the right. */
  function PlayerSideCheck(w: World, fieldWidth: real, fieldHeight: real, host: Host): World
    requires w.player.height > 0.0
  {
    var b := w.ball;
    var p := w.player;
    if ReachesLeft(b, p) then
      if WithinSpan(b, p) then
        w.(ball := Reflect(b.(x := p.x + p.width + b.radius), p, Left, host))
      else if PastLeftEdge(b) then
        Serve(w.(computerScore := w.computerScore + 1), 1, fieldWidth, fieldHeight, host)
      else w
    else w
  }

  /** The computer paddle test: a hit pushes the ball out and reflects it,
      a miss scores for the player and serves to the left. */
  function ComputerSideCheck(w: World, fieldWidth: real, fieldHeight: real, host: Host): World
    requires w.computer.height > 0.0
  {
    var b := w.ball;
    var c := w.computer;
    if ReachesRight(b, c) then
      if WithinSpan(b, c) then
        w.(ball := Reflect(b.(x := c.x - b.radius), c, Right, host))
      else if PastRightEdge(b, fieldWidth) then
        Serve(w.(playerScore := w.playerScore + 1), -1, fieldWidth, fieldHeight, host)
      else w
    else w
  }

  // ---------------------------------------------------------------- one frame

  /** Paddle heights are positive, so a hit offset can be normalised. */
  predicate Shaped(w: World) {
    w.player.height > 0.0 && w.computer.height > 0.0
  }

  /** The first half of update: both paddles and the ball move. */
  function Advance(w: World, fieldHeight: real): (r: World)
    ensures r.player == w.player.(y := r.player.y) && r.computer == w.computer.(y := r.computer.y)
    ensures r.playerScore == w.playerScore && r.computerScore == w.computerScore
    ensures r.draws == w.draws && r.playerDy == w.playerDy
  {
    w.(player := MovePlayer(w.player, w.playerDy, fieldHeight),
       computer := ChaseBall(w.computer, w.ball.y, fieldHeight),
       ball := StepBall(w.ball, fieldHeight))
  }

  /** update(dt): one frame of the game (dt is not used). */
  function Frame(w: World, fieldWidth: real, fieldHeight: real, host: Host): World
    requires Shaped(w)
  {
    var m := Advance(w, fieldHeight);
    ComputerSideCheck(PlayerSideCheck(m, fieldWidth, fieldHeight, host), fieldWidth, fieldHeight, host)
  }
}
